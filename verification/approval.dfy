/** The approve-organization edge function
    (supabase/functions/approve-organization/index.ts): a link in the
    notification e-mail calls it with `org_id`, `action` and `token`; after an
    ordered series of guards it moves a PENDIENTE organisation to APROBADA or
    RECHAZADA and mirrors the new state onto the organisation's registration
    requests. */
module Approval {
  import opened Wrappers
  import opened Text
  import opened Store

  /** The parts of the HTTP request the function reads; a query parameter
      that is absent is `None`. */
  datatype Request = Request(
    httpMethod: string,
    orgId: Option<string>,
    action: Option<string>,
    token: Option<string>)

  datatype Body =
    | PreflightOk
    | JsonError(error: string, estadoActual: Option<string>, details: Option<string>)
    | ConfirmationPage(approved: bool)

  datatype Response = Response(status: nat, body: Body)

  /** The failures the backend may report for each of the function's calls. */
  datatype Faults = Faults(lookup: Option<DbError>, update: Option<DbError>, mirror: Option<DbError>)

  /** `Deno.env.get('ADMIN_SECRET_TOKEN') || 'change-this-secret-token'`, on
      `Text.OrElse` like the other `||` defaults of the application. */
  function AdminSecret(env: Option<string>): (t: string)
    ensures t != []
    ensures env.Some? && env.value != [] ==> t == env.value
    ensures env.None? || env.value == [] ==> t == "change-this-secret-token"
  {
    OrElse(env.GetOr([]), "change-this-secret-token")
  }

  /** A query parameter that is present and not empty (`!!param`). */
  predicate Given(p: Option<string>) {
    p.Some? && p.value != []
  }

  const TokenInvalido: string := "Token inválido"
  const ParametrosRequeridos: string := "Parámetros requeridos: org_id y action (approve/reject)"
  const AccionInvalida: string := "Action debe ser \"approve\" o \"reject\""
  const NoEncontrada: string := "Organización no encontrada"
  const ErrorActualizar: string := "Error al actualizar la organización"

  /** The message for an organisation that was already decided. */
  function YaEsta(e: OrgEstado): string {
    "La organización ya está " + Lower(e.Name())
  }

  /** The state an action leads to. */
  function NuevoEstado(approve: bool): (e: OrgEstado)
    ensures e != Pendiente
    ensures e == Aprobada <==> approve
  {
    if approve then Aprobada else Rechazada
  }

  /** The organisation row after the update. */
  function Decide(o: Org, approve: bool, now: Timestamp): (d: Org)
    ensures d.nombre == o.nombre && d.slug == o.slug
    ensures d.estado == NuevoEstado(approve)
    ensures d.fechaAprobacion.Some? <==> approve
    ensures approve ==> d.fechaAprobacion == Some(now)
    ensures d.updatedAt == Some(now)
  {
    o.(estado := NuevoEstado(approve),
       fechaAprobacion := if approve then Some(now) else None,
       updatedAt := Some(now))
  }

  /** The whole handler: the response and the database it leaves behind. */
  function Handle(req: Request, secretEnv: Option<string>, db: Db, now: Timestamp, f: Faults): (r: (Response, Db))
    ensures r.0.body.ConfirmationPage? ==> Given(req.orgId) && req.orgId.value in db.orgs && db.orgs[req.orgId.value].estado == Pendiente
    ensures !r.0.body.ConfirmationPage? ==> r.1 == db
    ensures r.0.body.ConfirmationPage? <==> r.0.status == 200 && req.httpMethod != "OPTIONS"
    ensures r.1.members == db.members
  {
    if req.httpMethod == "OPTIONS" then (Response(200, PreflightOk), db)
    else if req.token != Some(AdminSecret(secretEnv)) then
      (Response(401, JsonError(TokenInvalido, None, None)), db)
    else if !Given(req.orgId) || !Given(req.action) then
      (Response(400, JsonError(ParametrosRequeridos, None, None)), db)
    else if req.action.value != "approve" && req.action.value != "reject" then
      (Response(400, JsonError(AccionInvalida, None, None)), db)
    else
      var id := req.orgId.value;
      if f.lookup.Some? || id !in db.orgs then
        (Response(404, JsonError(NoEncontrada, None, None)), db)
      else
        var o := db.orgs[id];
        if o.estado != Pendiente then
          (Response(400, JsonError(YaEsta(o.estado), Some(o.estado.Name()), None)), db)
        else
          var approve := req.action.value == "approve";
          if f.update.Some? then
            (Response(500, JsonError(ErrorActualizar, None, Some(f.update.value.message))), db)
          else
            var e := NuevoEstado(approve);
            var requests := if f.mirror.Some? then db.requests else MirrorRequests(db.requests, id, e, now);
            (Response(200, ConfirmationPage(approve)), Db(db.orgs[id := Decide(o, approve, now)], db.members, requests))
  }

  /** A preflight request is answered before any check and changes nothing. */
  lemma PreflightFirst(req: Request, secretEnv: Option<string>, db: Db, now: Timestamp, f: Faults)
    requires req.httpMethod == "OPTIONS"
    ensures Handle(req, secretEnv, db, now, f) == (Response(200, PreflightOk), db)
  {
  }

  /** The guards run in a fixed order: token, then parameters, then action,
      then lookup, then state. Each answers with its own status before the
      next is looked at. */
  lemma GuardOrder(req: Request, secretEnv: Option<string>, db: Db, now: Timestamp, f: Faults)
    requires req.httpMethod != "OPTIONS"
    ensures req.token != Some(AdminSecret(secretEnv)) ==> Handle(req, secretEnv, db, now, f).0.status == 401
    ensures req.token == Some(AdminSecret(secretEnv)) && (!Given(req.orgId) || !Given(req.action)) ==>
      Handle(req, secretEnv, db, now, f).0 == Response(400, JsonError(ParametrosRequeridos, None, None))
    ensures (req.token == Some(AdminSecret(secretEnv)) && Given(req.orgId) && Given(req.action)
      && req.action.value !in {"approve", "reject"}) ==>
      Handle(req, secretEnv, db, now, f).0 == Response(400, JsonError(AccionInvalida, None, None))
    ensures (req.token == Some(AdminSecret(secretEnv)) && Given(req.orgId) && req.action in {Some("approve"), Some("reject")}
      && (f.lookup.Some? || req.orgId.value !in db.orgs)) ==>
      Handle(req, secretEnv, db, now, f) == (Response(404, JsonError(NoEncontrada, None, None)), db)
  {
  }

  /** Without a configured secret (or with an empty one) the built-in default
      opens the handler: a request is turned away with 401 exactly when it
      does not carry `change-this-secret-token`. */
  lemma UnsetSecretAcceptsDefault(req: Request, secretEnv: Option<string>, db: Db, now: Timestamp, f: Faults)
    requires req.httpMethod != "OPTIONS"
    requires secretEnv.None? || secretEnv.value == []
    ensures Handle(req, secretEnv, db, now, f).0.status == 401 <==> req.token != Some("change-this-secret-token")
  {
  }

  /** An organisation that was already decided is refused with 400, its state
      reported back and lower-cased in the message, and nothing changes. */
  lemma AlreadyDecided(req: Request, secretEnv: Option<string>, db: Db, now: Timestamp, f: Faults)
    requires req.httpMethod != "OPTIONS" && req.token == Some(AdminSecret(secretEnv))
    requires Given(req.orgId) && req.action in {Some("approve"), Some("reject")} && f.lookup.None?
    requires req.orgId.value in db.orgs && db.orgs[req.orgId.value].estado != Pendiente
    ensures var e := db.orgs[req.orgId.value].estado;
      Handle(req, secretEnv, db, now, f) == (Response(400, JsonError(YaEsta(e), Some(e.Name()), None)), db)
  {
  }

  /** The message names the state in lower case. */
  lemma AlreadyApprovedMessage()
    ensures YaEsta(Aprobada) == "La organización ya está aprobada"
  {
    var n := Aprobada.Name();
    forall i | 0 <= i < |n|
      ensures Lower(n)[i] == "aprobada"[i]
    {
      assert IsUpperLetter(n[i]);
    }
  }

  /** A successful request changes exactly the one organisation: approving
      stamps the approval date, rejecting clears it, both stamp `updated_at`;
      every other organisation stays as it was, and the registration requests
      of this organisation take the same new state unless that write failed. */
  lemma SuccessfulDecision(req: Request, secretEnv: Option<string>, db: Db, now: Timestamp, f: Faults)
    requires Handle(req, secretEnv, db, now, f).0.status == 200 && req.httpMethod != "OPTIONS"
    ensures var (resp, db2) := Handle(req, secretEnv, db, now, f);
      var id := req.orgId.value;
      var approve := req.action == Some("approve");
      && resp.body == ConfirmationPage(approve)
      && (approve || req.action == Some("reject"))
      && id in db2.orgs && db2.orgs[id] == Decide(db.orgs[id], approve, now)
      && db2.orgs.Keys == db.orgs.Keys
      && (forall k :: k in db.orgs && k != id ==> db2.orgs[k] == db.orgs[k])
      && (f.mirror.None? ==> db2.requests == MirrorRequests(db.requests, id, NuevoEstado(approve), now))
      && (f.mirror.Some? ==> db2.requests == db.requests)
  {
  }

  /** The request is decided exactly when it passes every check: a preflight
      aside, the token matches, both parameters are given with a known
      action, the lookup finds the organisation still PENDIENTE and the update
      goes through. */
  lemma DecisionIffValid(req: Request, secretEnv: Option<string>, db: Db, now: Timestamp, f: Faults)
    requires req.httpMethod != "OPTIONS"
    ensures Handle(req, secretEnv, db, now, f).0.status == 200 <==>
      && req.token == Some(AdminSecret(secretEnv))
      && Given(req.orgId) && req.action in {Some("approve"), Some("reject")}
      && f.lookup.None? && req.orgId.value in db.orgs
      && db.orgs[req.orgId.value].estado == Pendiente
      && f.update.None?
  {
  }

  /** A valid decision on a PENDIENTE organisation with no update fault is
      answered with the confirmation page, stores the decided row, and
      mirrors the new state into the registration requests unless that
      write failed. */
  lemma ValidDecisionSucceeds(req: Request, secretEnv: Option<string>, db: Db, now: Timestamp, f: Faults)
    requires req.httpMethod != "OPTIONS" && req.token == Some(AdminSecret(secretEnv))
    requires Given(req.orgId) && req.action in {Some("approve"), Some("reject")} && f.lookup.None?
    requires req.orgId.value in db.orgs && db.orgs[req.orgId.value].estado == Pendiente
    requires f.update.None?
    ensures var (resp, db2) := Handle(req, secretEnv, db, now, f);
      var id := req.orgId.value;
      var approve := req.action == Some("approve");
      && resp == Response(200, ConfirmationPage(approve))
      && db2.orgs == db.orgs[id := Decide(db.orgs[id], approve, now)]
      && db2.members == db.members
      && (f.mirror.None? ==> db2.requests == MirrorRequests(db.requests, id, NuevoEstado(approve), now))
  {
  }

  /** A failed update answers 500 with the backend's message and changes nothing. */
  lemma UpdateFailure(req: Request, secretEnv: Option<string>, db: Db, now: Timestamp, f: Faults)
    requires req.httpMethod != "OPTIONS" && req.token == Some(AdminSecret(secretEnv))
    requires Given(req.orgId) && req.action in {Some("approve"), Some("reject")} && f.lookup.None?
    requires req.orgId.value in db.orgs && db.orgs[req.orgId.value].estado == Pendiente
    requires f.update.Some?
    ensures Handle(req, secretEnv, db, now, f) == (Response(500, JsonError(ErrorActualizar, None, Some(f.update.value.message))), db)
  {
  }

  // ---------------------------------------------------------------------------
  // Invariants over many calls
  // ---------------------------------------------------------------------------

  /** The lifecycle the function enforces: a state only moves from PENDIENTE to
      APROBADA or RECHAZADA, and a decided state never moves again. */
  predicate LegalStep(before: OrgEstado, after: OrgEstado) {
    before == after || (before == Pendiente && after != Pendiente)
  }

  /** Every organisation's step from `db` to `db2` is legal, and no
      organisation appears or disappears. */
  predicate LegalTransition(db: Db, db2: Db) {
    && db2.orgs.Keys == db.orgs.Keys
    && forall id :: id in db.orgs ==> LegalStep(db.orgs[id].estado, db2.orgs[id].estado)
  }

  /** An approval date is present exactly on approved organisations. */
  predicate ApprovalDated(db: Db) {
    forall id :: id in db.orgs ==> (db.orgs[id].fechaAprobacion.Some? <==> db.orgs[id].estado == Aprobada)
  }

  lemma HandleIsLegal(req: Request, secretEnv: Option<string>, db: Db, now: Timestamp, f: Faults)
    ensures LegalTransition(db, Handle(req, secretEnv, db, now, f).1)
    ensures ApprovalDated(db) ==> ApprovalDated(Handle(req, secretEnv, db, now, f).1)
  {
  }

  /** One call of the function, with everything it receives. */
  datatype Call = Call(req: Request, now: Timestamp, faults: Faults)

  function Run(secretEnv: Option<string>, db: Db, calls: seq<Call>): Db
    decreases |calls|
  {
    if calls == [] then db
    else Run(secretEnv, Handle(calls[0].req, secretEnv, db, calls[0].now, calls[0].faults).1, calls[1..])
  }

  /** Over any sequence of calls, a decided organisation keeps its decision,
      and approval dates stay on exactly the approved organisations. */
  lemma {:induction false} DecisionsAreFinal(secretEnv: Option<string>, db: Db, calls: seq<Call>)
    ensures LegalTransition(db, Run(secretEnv, db, calls))
    ensures ApprovalDated(db) ==> ApprovalDated(Run(secretEnv, db, calls))
    decreases |calls|
  {
    if calls != [] {
      var c := calls[0];
      var db1 := Handle(c.req, secretEnv, db, c.now, c.faults).1;
      HandleIsLegal(c.req, secretEnv, db, c.now, c.faults);
      DecisionsAreFinal(secretEnv, db1, calls[1..]);
    }
  }
}
