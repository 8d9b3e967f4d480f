/** The admission gate of the application shell (App.tsx): the flags
    `checkOnboardingStatus` derives from the signed-in user's first
    organisation, and the cascade that turns them into exactly one screen. */
module Gate {
  import opened Wrappers
  import opened Seqs
  import opened Text

  // ---------------------------------------------------------------------------
  // checkOnboardingStatus (lines 61-143)
  // ---------------------------------------------------------------------------

  /** The flags the shell keeps between renders. */
  datatype GateState = GateState(
    needsOnboarding: bool,
    isPending: bool,
    needsOrganization: bool,
    organizacionId: Option<string>)

  const InitialGate: GateState := GateState(false, false, false, None)

  /** An `organizaciones` row joined to a membership: its id and raw `estado`
      (absent when the column is null). */
  datatype OrgRow = OrgRow(id: string, estado: Option<string>)

  /** The `configuracion_organizacion` row read with `.single()`. */
  datatype ConfigRow = ConfigRow(tipoNegocio: Option<string>)

  /** Where, if anywhere, an exception interrupts the check. */
  datatype Throw = NoThrow | ThrowAtUser | ThrowAtMembers | ThrowAtConfig

  /** Everything the check reads from the backend. `members` is the joined
      membership list (`None` when the query returned no data, an element
      `None` when the join produced no organisation). */
  datatype Lookup = Lookup(
    user: Option<bool>,
    members: Option<seq<Option<OrgRow>>>,
    config: Option<ConfigRow>,
    thrown: Throw)

  /** `miembros?.map(m => m.organizaciones).filter(Boolean).flat() || []`. */
  function JoinedOrgs(members: Option<seq<Option<OrgRow>>>): (orgs: seq<OrgRow>)
    ensures members.None? ==> orgs == []
    ensures members.Some? ==> forall i :: 0 <= i < |orgs| ==> Some(orgs[i]) in members.value
    ensures members.Some? ==> forall i :: 0 <= i < |members.value| && members.value[i].Some? ==> members.value[i].value in orgs
  {
    if members.None? then [] else Present(members.value)
  }

  function Present(ms: seq<Option<OrgRow>>): (orgs: seq<OrgRow>)
    ensures forall i :: 0 <= i < |orgs| ==> Some(orgs[i]) in ms
    ensures forall i :: 0 <= i < |ms| && ms[i].Some? ==> ms[i].value in orgs
  {
    if ms == [] then []
    else if ms[0].Some? then [ms[0].value] + Present(ms[1..])
    else Present(ms[1..])
  }

  /** `orgs[0].estado || 'PENDIENTE'`: a null or empty state reads as pending.
      One of several `||` defaults built on `Text.OrElse`; each site keeps its
      own member because each has its own default. */
  function EffectiveEstado(estado: Option<string>): (e: string)
    ensures e != []
    ensures estado.Some? && estado.value != [] ==> e == estado.value
    ensures estado.None? || estado.value == [] ==> e == "PENDIENTE"
  {
    OrElse(estado.GetOr([]), "PENDIENTE")
  }

  /** The `tipo_negocio` value a fresh organisation carries until onboarding
      replaces it. */
  const RetailGeneral: string := "RETAIL_GENERAL"

  /** `config && config.tipo_negocio === 'RETAIL_GENERAL'`. */
  predicate ConfigNeedsOnboarding(config: Option<ConfigRow>) {
    config.Some? && config.value.tipoNegocio == Some(RetailGeneral)
  }

  /** The catch block: any exception clears both access flags. */
  function FailOpen(g: GateState): GateState {
    g.(needsOnboarding := false, isPending := false)
  }

  /** `checkOnboardingStatus`, as the flags it leaves behind. */
  function CheckOnboarding(g: GateState, l: Lookup): (h: GateState)
    // A throw clears both access flags. One before the organisation is found
    // changes nothing else; one at the configuration read of an approved
    // organisation also keeps the organisation id recorded just before it.
    ensures l.thrown == ThrowAtUser || (l.user.Some? && l.thrown == ThrowAtMembers) ==> h == FailOpen(g)
    ensures && l.thrown == ThrowAtConfig && l.user.Some? && JoinedOrgs(l.members) != []
            && EffectiveEstado(JoinedOrgs(l.members)[0].estado) == "APROBADA"
            ==> h == FailOpen(g.(organizacionId := Some(JoinedOrgs(l.members)[0].id)))
    // With no signed-in user nothing changes.
    ensures l.thrown != ThrowAtUser && l.user.None? ==> h == g
    // The check never turns on both access flags at once.
    ensures h.isPending && h.needsOnboarding ==> h == g
  {
    if l.thrown == ThrowAtUser then FailOpen(g)
    else if l.user.None? then g
    else if l.thrown == ThrowAtMembers then FailOpen(g)
    else
      var emailConfirmed := l.user.value;
      var orgs := JoinedOrgs(l.members);
      if orgs == [] then
        GateState(false, false, emailConfirmed, g.organizacionId)
      else
        var g1 := g.(organizacionId := Some(orgs[0].id));
        if EffectiveEstado(orgs[0].estado) != "APROBADA" then
          g1.(isPending := true, needsOnboarding := false)
        else if l.thrown == ThrowAtConfig then FailOpen(g1)
        else if ConfigNeedsOnboarding(l.config) then
          g1.(needsOnboarding := true, isPending := false)
        else
          g1.(needsOnboarding := false, isPending := false)
  }

  /** With no organisation, `needsOrganization` is exactly "email confirmed",
      the two access flags are off, and the recorded organisation is kept. */
  lemma NoOrganization(g: GateState, l: Lookup)
    requires l.thrown == NoThrow && l.user.Some? && JoinedOrgs(l.members) == []
    ensures CheckOnboarding(g, l) == GateState(false, false, l.user.value, g.organizacionId)
  {
  }

  /** Only the first joined organisation counts: its state decides, and the
      organisations after it do not. */
  lemma OnlyFirstOrganization(g: GateState, l: Lookup, r: OrgRow, rest1: seq<Option<OrgRow>>, rest2: seq<Option<OrgRow>>)
    requires l.members == Some([Some(r)] + rest1)
    ensures CheckOnboarding(g, l) == CheckOnboarding(g, l.(members := Some([Some(r)] + rest2)))
  {
    assert JoinedOrgs(l.members) == [r] + Present(rest1);
    assert JoinedOrgs(Some([Some(r)] + rest2)) == [r] + Present(rest2);
  }

  /** Any state other than APROBADA — RECHAZADA, an unknown value, null —
      yields the pending screen's flag and never onboarding, whatever the
      configuration says. */
  lemma NotApprovedIsPending(g: GateState, l: Lookup)
    requires l.thrown != ThrowAtUser && l.thrown != ThrowAtMembers && l.user.Some?
    requires JoinedOrgs(l.members) != [] && EffectiveEstado(JoinedOrgs(l.members)[0].estado) != "APROBADA"
    ensures var h := CheckOnboarding(g, l);
      h.isPending && !h.needsOnboarding && h.organizacionId == Some(JoinedOrgs(l.members)[0].id)
      && h.needsOrganization == g.needsOrganization
  {
  }

  /** A missing state is treated as PENDIENTE, and so is an empty one. */
  lemma MissingEstadoIsPending()
    ensures EffectiveEstado(None) == "PENDIENTE"
    ensures EffectiveEstado(Some("")) == "PENDIENTE"
    ensures EffectiveEstado(Some("RECHAZADA")) != "APROBADA"
  {
  }

  /** An approved organisation goes to onboarding exactly when its
      configuration row still says RETAIL_GENERAL; with any other value, or
      no row, it goes to the application. */
  lemma ApprovedRoutesOnConfig(g: GateState, l: Lookup)
    requires l.thrown == NoThrow && l.user.Some?
    requires JoinedOrgs(l.members) != [] && EffectiveEstado(JoinedOrgs(l.members)[0].estado) == "APROBADA"
    ensures CheckOnboarding(g, l).needsOnboarding <==> ConfigNeedsOnboarding(l.config)
    ensures !CheckOnboarding(g, l).isPending
    ensures l.config.None? ==> !CheckOnboarding(g, l).needsOnboarding
  {
  }

  // ---------------------------------------------------------------------------
  // The render cascade (lines 157-239)
  // ---------------------------------------------------------------------------

  datatype Screen =
    | Loading
    | LoginScreen
    | AdminPanelScreen
    | VerifyEmail
    | CreateOrganization
    | PendingApproval
    | Onboarding(orgId: string)
    | MainApp

  /** The signed-in user as the render sees it. */
  datatype SessionUser = SessionUser(emailConfirmed: bool)

  /** Everything the render reads. */
  datatype View = View(
    loading: bool,
    adminLoading: bool,
    user: Option<SessionUser>,
    isAdmin: bool,
    gate: GateState)

  /** `!!organizacionId`: an id is recorded and is not the empty string. */
  predicate HasOrgId(g: GateState) {
    g.organizacionId.Some? && g.organizacionId.value != []
  }

  /** The component `AppContent` renders. */
  function Render(v: View): (s: Screen)
    ensures s.Onboarding? ==> HasOrgId(v.gate) && s.orgId == v.gate.organizacionId.value
    ensures s == MainApp ==> v.user.Some? && !v.isAdmin && !v.gate.isPending && !v.gate.needsOrganization
  {
    if v.loading || v.adminLoading then Loading
    else if v.user.None? then LoginScreen
    else if v.isAdmin then AdminPanelScreen
    else if !v.user.value.emailConfirmed && !HasOrgId(v.gate) then VerifyEmail
    else if v.gate.needsOrganization then CreateOrganization
    else if v.gate.isPending then PendingApproval
    else if v.gate.needsOnboarding && HasOrgId(v.gate) then Onboarding(v.gate.organizacionId.value)
    else MainApp
  }

  /** The screens without their payload, in the order the cascade tries them. */
  datatype Kind = KLoading | KLogin | KAdmin | KVerifyEmail | KCreateOrg | KPending | KOnboarding | KMain

  const Priority: seq<Kind> := [KLoading, KLogin, KAdmin, KVerifyEmail, KCreateOrg, KPending, KOnboarding, KMain]

  function KindOf(s: Screen): Kind {
    match s
    case Loading => KLoading
    case LoginScreen => KLogin
    case AdminPanelScreen => KAdmin
    case VerifyEmail => KVerifyEmail
    case CreateOrganization => KCreateOrg
    case PendingApproval => KPending
    case Onboarding(_) => KOnboarding
    case MainApp => KMain
  }

  /** Each screen's own condition, stated independently of the others (every
      screen but the first needs a user). */
  predicate Applies(k: Kind, v: View) {
    match k
    case KLoading => v.loading || v.adminLoading
    case KLogin => v.user.None?
    case KAdmin => v.user.Some? && v.isAdmin
    case KVerifyEmail => v.user.Some? && !v.user.value.emailConfirmed && !HasOrgId(v.gate)
    case KCreateOrg => v.user.Some? && v.gate.needsOrganization
    case KPending => v.user.Some? && v.gate.isPending
    case KOnboarding => v.user.Some? && v.gate.needsOnboarding && HasOrgId(v.gate)
    case KMain => v.user.Some?
  }

  /** Where a kind of screen stands in the cascade. */
  function Pos(k: Kind): (i: nat)
    ensures i < |Priority| && Priority[i] == k
    ensures forall j :: 0 <= j < |Priority| && Priority[j] == k ==> j == i
  {
    match k
    case KLoading => 0
    case KLogin => 1
    case KAdmin => 2
    case KVerifyEmail => 3
    case KCreateOrg => 4
    case KPending => 5
    case KOnboarding => 6
    case KMain => 7
  }

  /** The rendered screen's condition holds and no earlier screen's does. */
  lemma RenderApplies(v: View)
    ensures Applies(KindOf(Render(v)), v)
    ensures forall j :: 0 <= j < Pos(KindOf(Render(v))) ==> !Applies(Priority[j], v)
  {
  }

  /** The rendered screen is the first one in priority order whose condition
      holds: its condition holds and no earlier screen's does. */
  lemma RenderIsFirstApplicable(v: View)
    ensures var k := FirstIndex((k: Kind) => Applies(k, v), Priority);
      0 <= k < |Priority| && KindOf(Render(v)) == Priority[k]
  {
    var k := FirstIndex((k: Kind) => Applies(k, v), Priority);
    var r := Pos(KindOf(Render(v)));
    RenderApplies(v);
    assert Applies(Priority[r], v);
    assert k != -1 && k <= r;
    assert Applies(Priority[k], v);
    assert k == r;
  }

  /** A screen is rendered iff its condition holds and none of the earlier
      screens' does. */
  lemma RenderIffFirst(v: View, i: nat)
    requires i < |Priority|
    ensures KindOf(Render(v)) == Priority[i] <==> Applies(Priority[i], v) && forall j :: 0 <= j < i ==> !Applies(Priority[j], v)
  {
    var r := Pos(KindOf(Render(v)));
    RenderApplies(v);
    assert Applies(Priority[r], v);
    if Applies(Priority[i], v) && (forall j :: 0 <= j < i ==> !Applies(Priority[j], v)) {
      assert !(r < i);
      assert !(i < r);
    }
  }

  /** A super-admin who is signed in and loaded sees the admin panel whatever
      the state of any organisation. */
  lemma SuperAdminWins(v: View, g: GateState)
    requires !v.loading && !v.adminLoading && v.user.Some? && v.isAdmin
    ensures Render(v) == AdminPanelScreen
    ensures Render(v.(gate := g)) == AdminPanelScreen
  {
  }

  /** The verify-email screen appears exactly for a signed-in, loaded,
      non-admin user whose email is unconfirmed and who has no recorded
      organisation; a recorded organisation skips it. */
  lemma VerifyEmailOnlyWithoutOrganization(v: View)
    requires !v.loading && !v.adminLoading && v.user.Some? && !v.isAdmin
    ensures Render(v) == VerifyEmail <==> !v.user.value.emailConfirmed && !HasOrgId(v.gate)
  {
  }

  // ---------------------------------------------------------------------------
  // The callbacks that change the flags
  // ---------------------------------------------------------------------------

  /** `handleOnboardingComplete` (lines 145-150). */
  function OnboardingComplete(g: GateState): (h: GateState)
    ensures !h.needsOnboarding && h.isPending
    ensures h.needsOrganization == g.needsOrganization && h.organizacionId == g.organizacionId
  {
    g.(needsOnboarding := false, isPending := true)
  }

  /** After completing onboarding the shell shows the pending-approval screen,
      although the organisation was approved (onboarding only runs for
      approved organisations). */
  lemma OnboardingCompleteShowsPending(v: View)
    requires !v.loading && !v.adminLoading && v.user.Some? && !v.isAdmin
    requires Render(v).Onboarding?
    ensures Render(v.(gate := OnboardingComplete(v.gate))) == PendingApproval
  {
  }

  /** `onOrganizationCreated` (lines 214-218): clear `needsOrganization`, then
      run the check again. */
  function AfterOrganizationCreated(g: GateState, l: Lookup): (h: GateState)
    ensures l.thrown == NoThrow && l.user.Some? && JoinedOrgs(l.members) != [] ==> !h.needsOrganization
  {
    CheckOnboarding(g.(needsOrganization := false), l)
  }

  /** A freshly created organisation is PENDIENTE, so the check that follows
      its creation leads to the pending screen. */
  lemma NewOrganizationIsPending(g: GateState, l: Lookup, v: View)
    requires l.thrown == NoThrow && l.user.Some?
    requires l.members.Some? && |l.members.value| > 0 && l.members.value[0].Some?
    requires l.members.value[0].value.estado == Some("PENDIENTE") && l.members.value[0].value.id != []
    requires !v.loading && !v.adminLoading && v.user == Some(SessionUser(l.user.value)) && !v.isAdmin
    ensures Render(v.(gate := AfterOrganizationCreated(g, l))) == PendingApproval
  {
    assert JoinedOrgs(l.members)[0] == l.members.value[0].value;
  }

  /** The check fails open: an exception while reading the memberships of a
      confirmed user with no recorded organisation opens the application,
      even if that user's organisation is still pending. */
  lemma ThrowFailsOpen(v: View, l: Lookup)
    requires !v.loading && !v.adminLoading && v.user == Some(SessionUser(true)) && !v.isAdmin
    requires v.gate == InitialGate && l.thrown == ThrowAtMembers && l.user.Some?
    ensures Render(v.(gate := CheckOnboarding(v.gate, l))) == MainApp
  {
  }

  /** A throw while reading the configuration of an approved organisation
      fails open as well: the application opens with that organisation
      recorded, whatever the configuration would have said. */
  lemma ConfigThrowFailsOpen(v: View, l: Lookup)
    requires !v.loading && !v.adminLoading && v.user == Some(SessionUser(true)) && !v.isAdmin
    requires v.gate == InitialGate && l.thrown == ThrowAtConfig && l.user.Some?
    requires JoinedOrgs(l.members) != [] && EffectiveEstado(JoinedOrgs(l.members)[0].estado) == "APROBADA"
    ensures var h := CheckOnboarding(v.gate, l);
      && h.organizacionId == Some(JoinedOrgs(l.members)[0].id)
      && Render(v.(gate := h)) == MainApp
  {
  }
}
