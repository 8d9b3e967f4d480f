/** The hosted database as the application sees it: organisations, their
    memberships and their registration requests, with the row-level operations
    the components issue. Every operation may fail; a failure is an input
    (`fault`) so that every error path can be followed. */
module Store {
  import opened Wrappers

  type OrgId = string
  type UserId = string

  /** An opaque reading of the server clock (`new Date().toISOString()`). */
  type Timestamp = nat

  /** The lifecycle state of an organisation (column `organizaciones.estado`). */
  datatype OrgEstado = Pendiente | Aprobada | Rechazada {

    /** The value as stored and as compared against in the client. */
    function Name(): string {
      match this
      case Pendiente => "PENDIENTE"
      case Aprobada => "APROBADA"
      case Rechazada => "RECHAZADA"
    }
  }

  /** Reads a stored state name; anything else is not a state. */
  function ParseEstado(s: string): Option<OrgEstado> {
    if s == "PENDIENTE" then Some(Pendiente)
    else if s == "APROBADA" then Some(Aprobada)
    else if s == "RECHAZADA" then Some(Rechazada)
    else None
  }

  /** Names and parsing are inverse: each state reads back as itself, and a
      string reads as a state only when it is that state's name. */
  lemma EstadoNameRoundTrip(e: OrgEstado, s: string)
    ensures ParseEstado(e.Name()) == Some(e)
    ensures ParseEstado(s) == Some(e) <==> s == e.Name()
  {
  }

  /** Membership role (column `miembros.rol`). */
  datatype Rol = Admin | Vendedor

  datatype Org = Org(
    nombre: string,
    slug: string,
    estado: OrgEstado,
    fechaAprobacion: Option<Timestamp>,
    updatedAt: Option<Timestamp>)

  datatype Member = Member(userId: UserId, orgId: OrgId, rol: Rol)

  /** A row of `solicitudes_registro`, the registration request that mirrors
      its organisation's state. */
  datatype RegistrationRequest = RegistrationRequest(orgId: OrgId, estado: OrgEstado, updatedAt: Option<Timestamp>)

  /** An error as the database client reports it: a SQLSTATE-like code and a message. */
  datatype DbError = DbError(code: string, message: string)

  /** PostgreSQL's `unique_violation`. */
  const UniqueViolation: string := "23505"

  datatype Db = Db(
    orgs: map<OrgId, Org>,
    members: seq<Member>,
    requests: seq<RegistrationRequest>)

  /** Some organisation already uses this slug. */
  predicate SlugInUse(db: Db, slug: string) {
    exists id | id in db.orgs :: db.orgs[id].slug == slug
  }

  /** Inserts an organisation row; the primary key and the slug are unique. */
  function InsertOrg(db: Db, id: OrgId, org: Org, fault: Option<DbError>): (r: Result<Db, DbError>)
    ensures r.Ok? <==> fault.None? && id !in db.orgs && !SlugInUse(db, org.slug)
    ensures r.Ok? ==> r.value == db.(orgs := db.orgs[id := org])
  {
    if fault.Some? then Err(fault.value)
    else if id in db.orgs || SlugInUse(db, org.slug) then
      Err(DbError(UniqueViolation, "duplicate key value violates unique constraint"))
    else Ok(db.(orgs := db.orgs[id := org]))
  }

  /** Inserts a membership row. */
  function InsertMember(db: Db, m: Member, fault: Option<DbError>): (r: Result<Db, DbError>)
    ensures r.Ok? <==> fault.None?
    ensures r.Ok? ==> r.value == db.(members := db.members + [m])
  {
    if fault.Some? then Err(fault.value) else Ok(db.(members := db.members + [m]))
  }

  /** Deletes an organisation row (`delete().eq('id', id)`); deleting a
      missing row is not an error. */
  function DeleteOrg(db: Db, id: OrgId, fault: Option<DbError>): (r: Result<Db, DbError>)
    ensures r.Ok? <==> fault.None?
    ensures r.Ok? ==> id !in r.value.orgs && r.value.members == db.members
    ensures r.Ok? ==> forall k :: k in db.orgs && k != id ==> k in r.value.orgs && r.value.orgs[k] == db.orgs[k]
  {
    if fault.Some? then Err(fault.value) else Ok(db.(orgs := db.orgs - {id}))
  }

  /** Deleting a freshly inserted organisation restores the database. */
  lemma InsertThenDelete(db: Db, id: OrgId, org: Org, fault: Option<DbError>)
    requires id !in db.orgs && fault.None?
    ensures DeleteOrg(db.(orgs := db.orgs[id := org]), id, fault) == Ok(db)
  {
    assert db.orgs[id := org] - {id} == db.orgs;
  }

  /** Sets the state of every registration request of organisation `id`
      (`update(...).eq('organizacion_id', id)`). */
  function MirrorRequests(rs: seq<RegistrationRequest>, id: OrgId, e: OrgEstado, now: Timestamp): (r: seq<RegistrationRequest>)
    ensures |r| == |rs|
    ensures forall i :: 0 <= i < |rs| && rs[i].orgId == id ==> r[i] == RegistrationRequest(id, e, Some(now))
    ensures forall i :: 0 <= i < |rs| && rs[i].orgId != id ==> r[i] == rs[i]
  {
    seq(|rs|, i requires 0 <= i < |rs| =>
      if rs[i].orgId == id then rs[i].(estado := e, updatedAt := Some(now)) else rs[i])
  }
}
