/** The organisation-creation form (components/OrganizationSelector.tsx): the
    name and slug fields, and the submit handler that validates the input,
    inserts the organisation in state PENDIENTE, makes the creator its ADMIN,
    and deletes the organisation again when the membership cannot be written.

    The calls to the hosted backend are replaced by their effect on a
    `Store.Db` and by explicit fault inputs. */
module Organization {
  import opened Wrappers
  import opened Text
  import opened Store
  import opened Validations
  import opened Slugs

  // ---------------------------------------------------------------------------
  // The form fields
  // ---------------------------------------------------------------------------

  datatype Form = Form(nombre: string, slug: string)

  const EmptyForm: Form := Form("", "")

  /** An edit of one field, as `onChange` delivers it. */
  datatype Edit = NameEdit(value: string) | SlugEdit(value: string)

  /** `handleNombreChange`: the slug is regenerated from the new name while it
      is empty or still equal to the slug generated from the previous name. */
  function NombreChange(f: Form, value: string): (g: Form)
    ensures g.nombre == value
    ensures f.slug == [] || f.slug == GenerateSlug(f.nombre) ==> g.slug == GenerateSlug(value)
    ensures f.slug != [] && f.slug != GenerateSlug(f.nombre) ==> g.slug == f.slug
  {
    if f.slug == [] || f.slug == GenerateSlug(f.nombre) then Form(value, GenerateSlug(value))
    else f.(nombre := value)
  }

  /** `handleSlugChange`: the slug field holds the sanitised input. */
  function SlugChange(f: Form, value: string): (g: Form)
    ensures g.nombre == f.nombre
    ensures !StartsWithHyphen(g.slug) && !EndsWithHyphen(g.slug)
    ensures AllSlugChars(g.slug) && NoDoubleHyphen(g.slug)
  {
    f.(slug := SanitizeSlug(value))
  }

  function ApplyEdit(f: Form, e: Edit): Form {
    match e
    case NameEdit(v) => NombreChange(f, v)
    case SlugEdit(v) => SlugChange(f, v)
  }

  function ApplyEdits(f: Form, es: seq<Edit>): Form
    decreases |es|
  {
    if es == [] then f else ApplyEdits(ApplyEdit(f, es[0]), es[1..])
  }

  /** As long as the user only types names, the slug field follows the name:
      starting from the empty form, it always holds the slug generated from
      the current name. */
  lemma {:induction false} SlugFollowsName(f: Form, es: seq<Edit>)
    requires f.slug == GenerateSlug(f.nombre)
    requires forall i :: 0 <= i < |es| ==> es[i].NameEdit?
    ensures ApplyEdits(f, es).slug == GenerateSlug(ApplyEdits(f, es).nombre)
    decreases |es|
  {
    if es != [] {
      SlugFollowsName(NombreChange(f, es[0].value), es[1..]);
    }
  }

  lemma EmptyFormFollowsName(es: seq<Edit>)
    requires forall i :: 0 <= i < |es| ==> es[i].NameEdit?
    ensures ApplyEdits(EmptyForm, es).slug == GenerateSlug(ApplyEdits(EmptyForm, es).nombre)
  {
    assert GenerateSlug("") == "";
    SlugFollowsName(EmptyForm, es);
  }

  /** Once the user has typed a slug of their own (non-empty and different from
      the generated one), later name edits leave it alone. */
  lemma {:induction false} CustomSlugSticks(f: Form, es: seq<Edit>)
    requires f.slug != [] && f.slug != GenerateSlug(f.nombre)
    requires forall i :: 0 <= i < |es| ==> es[i].NameEdit? && GenerateSlug(es[i].value) != f.slug
    ensures ApplyEdits(f, es).slug == f.slug
    decreases |es|
  {
    if es != [] {
      var g := NombreChange(f, es[0].value);
      assert g.slug == f.slug;
      CustomSlugSticks(g, es[1..]);
    }
  }

  // ---------------------------------------------------------------------------
  // Submitting
  // ---------------------------------------------------------------------------

  const NombreRequerido: string := "El nombre de la organización es requerido"
  const SlugRequerido: string := "El slug es requerido"
  const SlugMuyCorto: string := "El slug debe tener al menos 3 caracteres"
  const NoAutenticado: string := "No estás autenticado"
  const EmailNoVerificado: string := "Por favor, verifica tu email antes de crear una organización"
  const SlugEnUso: string := "Este slug ya está en uso. Por favor, elige otro."
  const ErrorCrear: string := "Error al crear la organización"
  const ErrorPermisos: string := "Error al asignar permisos. Por favor, intenta nuevamente."

  /** The signed-in user as `auth.getUser()` reports it. */
  datatype AuthUser = AuthUser(id: UserId, emailConfirmed: bool)

  /** The backend's answers that the handler does not decide itself: the id the
      new row receives and the failure, if any, of each write. */
  datatype Backend = Backend(
    newId: OrgId,
    insertOrgFault: Option<DbError>,
    insertMemberFault: Option<DbError>,
    deleteFault: Option<DbError>)

  /** What the handler leaves behind: the database and either success or the
      message shown in the form. */
  datatype Outcome = Outcome(db: Db, result: Result<OrgId, string>)

  /** The checks that precede any request, in the handler's order. */
  function CheckForm(f: Form): (r: Option<string>)
    ensures r.None? <==> !IsBlank(f.nombre) && !IsBlank(f.slug) && Utf16Length(f.slug) >= 3
    ensures IsBlank(f.nombre) ==> r == Some(NombreRequerido)
    ensures !IsBlank(f.nombre) && IsBlank(f.slug) ==> r == Some(SlugRequerido)
    ensures !IsBlank(f.nombre) && !IsBlank(f.slug) && Utf16Length(f.slug) < 3 ==> r == Some(SlugMuyCorto)
    ensures !IsBlank(f.nombre) && !IsBlank(f.slug) && |f.slug| < 2 ==> r == Some(SlugMuyCorto)
  {
    if IsBlank(f.nombre) then Some(NombreRequerido)
    else if IsBlank(f.slug) then Some(SlugRequerido)
    else if Utf16Length(f.slug) < 3 then Some(SlugMuyCorto)
    else None
  }

  /** The row `handleSubmit` inserts. */
  function NewOrg(f: Form): (o: Org)
    ensures o.estado == Pendiente && o.fechaAprobacion.None?
  {
    Org(Trim(f.nombre), Trim(f.slug), Pendiente, None, None)
  }

  /** `handleSubmit`. */
  function Submit(db: Db, f: Form, user: Option<AuthUser>, be: Backend): (o: Outcome)
    ensures o.result.Ok? ==> user.Some? && user.value.emailConfirmed && CheckForm(f).None? && !SlugInUse(db, f.slug)
    ensures o.result.Ok? ==>
      && o.result.value == be.newId
      && o.db.orgs == db.orgs[be.newId := NewOrg(f)]
      && o.db.members == db.members + [Member(user.value.id, be.newId, Admin)]
      && o.db.requests == db.requests
    ensures o.result.Err? ==> o.result.error != []
  {
    var check := CheckForm(f);
    if check.Some? then Outcome(db, Err(check.value))
    else if user.None? then Outcome(db, Err(NoAutenticado))
    else if !user.value.emailConfirmed then Outcome(db, Err(EmailNoVerificado))
    else if SlugInUse(db, f.slug) then Outcome(db, Err(SlugEnUso))
    else
      match InsertOrg(db, be.newId, NewOrg(f), be.insertOrgFault)
      case Err(e) => Outcome(db, Err(OrElse(e.message, ErrorCrear)))
      case Ok(db1) =>
        match InsertMember(db1, Member(user.value.id, be.newId, Admin), be.insertMemberFault)
        case Ok(db2) => Outcome(db2, Ok(be.newId))
        case Err(_) =>
          match DeleteOrg(db1, be.newId, be.deleteFault)
          case Ok(db3) => Outcome(db3, Err(ErrorPermisos))
          case Err(_) => Outcome(db1, Err(ErrorPermisos))
  }

  /** A submission succeeds exactly when the form passes its checks, a
      confirmed user is signed in, the slug as typed is not in use (the
      lookup of line 85) and neither is the trimmed slug the insert stores,
      the new id is fresh and neither insert fails. */
  lemma SubmitSucceedsIff(db: Db, f: Form, user: Option<AuthUser>, be: Backend)
    ensures Submit(db, f, user, be).result == Ok(be.newId) <==>
      && CheckForm(f).None? && user.Some? && user.value.emailConfirmed
      && !SlugInUse(db, f.slug) && !SlugInUse(db, Trim(f.slug))
      && be.newId !in db.orgs
      && be.insertOrgFault.None? && be.insertMemberFault.None?
  {
  }

  /** The handler either completes both writes or leaves the database as it
      found it — except exactly when the organisation was inserted, the
      membership insert failed and the compensating delete failed too: the
      delete's error is not looked at, so the new organisation stays behind
      without members while the form reports the permissions error. */
  lemma SubmitAllOrNothing(db: Db, f: Form, user: Option<AuthUser>, be: Backend)
    ensures var o := Submit(db, f, user, be);
      o.result.Err? && o.db != db ==>
        && be.insertMemberFault.Some? && be.deleteFault.Some?
        && o.db == db.(orgs := db.orgs[be.newId := NewOrg(f)])
    ensures var o := Submit(db, f, user, be);
      (&& CheckForm(f).None? && user.Some? && user.value.emailConfirmed && !SlugInUse(db, f.slug)
       && InsertOrg(db, be.newId, NewOrg(f), be.insertOrgFault).Ok?
       && be.insertMemberFault.Some? && be.deleteFault.Some?) ==>
        && o.result == Err(ErrorPermisos)
        && o.db == db.(orgs := db.orgs[be.newId := NewOrg(f)])
        && o.db != db
        && be.newId in o.db.orgs && o.db.members == db.members
  {
    if CheckForm(f).None? && user.Some? && user.value.emailConfirmed && !SlugInUse(db, f.slug)
      && InsertOrg(db, be.newId, NewOrg(f), be.insertOrgFault).Ok? && be.deleteFault.None?
    {
      InsertThenDelete(db, be.newId, NewOrg(f), be.deleteFault);
    }
  }

  /** The form checks come first and report the first failing field, and a
      slug that is already in use is refused without writing anything. */
  lemma SubmitRejections(db: Db, f: Form, user: Option<AuthUser>, be: Backend)
    ensures CheckForm(f).Some? ==> Submit(db, f, user, be) == Outcome(db, Err(CheckForm(f).value))
    ensures CheckForm(f).None? && user.None? ==> Submit(db, f, user, be) == Outcome(db, Err(NoAutenticado))
    ensures CheckForm(f).None? && user.Some? && !user.value.emailConfirmed ==>
      Submit(db, f, user, be) == Outcome(db, Err(EmailNoVerificado))
    ensures CheckForm(f).None? && user.Some? && user.value.emailConfirmed && SlugInUse(db, f.slug) ==>
      Submit(db, f, user, be) == Outcome(db, Err(SlugEnUso))
  {
  }

  /** A slug the form produces itself — generated from the name or sanitised
      from what was typed — is not blank when it is non-empty, and passes the
      slug schema once it has at least three characters and no trailing
      hyphen. */
  lemma FormSlugPassesSchema(slug: string, nombre: string, typed: string)
    requires slug == GenerateSlug(nombre) || slug == SanitizeSlug(typed)
    requires slug != []
    ensures !IsBlank(slug)
    ensures 3 <= |slug| <= 50 && !EndsWithHyphen(slug) ==> SlugSchemaAccepts(slug)
  {
    assert AllSlugChars(slug) && NoDoubleHyphen(slug) && !StartsWithHyphen(slug);
    SlugCharsLength(slug);
    assert !IsSpace(slug[0]);
    BlankIffAllSpace(slug);
    SlugPatternIffShaped(slug);
  }

  /** A successful submission stores exactly the trimmed name and slug, as a
      pending organisation whose creator is its only new member. */
  lemma SubmitSuccessStoresPending(db: Db, f: Form, user: Option<AuthUser>, be: Backend)
    requires Submit(db, f, user, be).result.Ok?
    ensures var o := Submit(db, f, user, be);
      && be.newId !in db.orgs
      && o.db.orgs[be.newId] == Org(Trim(f.nombre), Trim(f.slug), Pendiente, None, None)
      && |o.db.members| == |db.members| + 1
      && o.db.members[|db.members|].rol == Admin
  {
  }
}
