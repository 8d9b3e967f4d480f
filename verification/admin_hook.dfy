/** The super-admin hook (hooks/useAdmin.ts): the admin flag derived from the
    `is_admin` RPC, the request list and its loading/error state, the approve
    and reject mutations with their reload, and the realtime channel kept
    while the user is an admin.

    The RPCs are replaced by their outcomes, given as inputs. */
module AdminHook {
  import opened Wrappers
  import opened Text
  import Gate
  import Realtime

  /** A row of `get_solicitudes_pendientes` (interface `SolicitudPendiente`),
      restricted to the fields the client reads. */
  datatype Solicitud = Solicitud(
    orgId: string,
    nombre: string,
    slug: string,
    estado: string,
    userEmail: Option<string>,
    userFullName: Option<string>)

  // ---------------------------------------------------------------------------
  // checkAdminStatus (lines 40-55)
  // ---------------------------------------------------------------------------

  /** The JSON values an RPC can answer with. */
  datatype JsValue = JNull | JBool(b: bool) | JNumber(n: int) | JString(s: string) | JObject

  /** `Boolean(v)`. */
  predicate Truthy(v: JsValue) {
    match v
    case JNull => false
    case JBool(b) => b
    case JNumber(n) => n != 0
    case JString(s) => s != []
    case JObject => true
  }

  /** What the `is_admin` call produced. */
  datatype AdminRpc = AdminRpcThrew | AdminRpcError(message: string) | AdminRpcData(data: JsValue)

  /** The flag `checkAdminStatus` sets. */
  function CheckAdminStatus(rpc: AdminRpc): (isAdmin: bool)
    ensures isAdmin <==> rpc.AdminRpcData? && Truthy(rpc.data)
  {
    match rpc
    case AdminRpcThrew => false
    case AdminRpcError(_) => false
    case AdminRpcData(d) => Truthy(d)
  }

  // ---------------------------------------------------------------------------
  // loadSolicitudes (lines 58-76)
  // ---------------------------------------------------------------------------

  datatype HookState = HookState(isAdmin: bool, loading: bool, solicitudes: seq<Solicitud>, error: Option<string>)

  const InitialHook: HookState := HookState(false, true, [], None)

  /** What `get_solicitudes_pendientes` produced: an error, or data that may be null. */
  datatype LoadResponse = LoadFailed(message: string) | Loaded(data: Option<seq<Solicitud>>)

  const ErrorCargar: string := "Error al cargar solicitudes"

  /** `loadSolicitudes`: a failure records its message and keeps the previous
      list; a success replaces the list and clears the error. Either way the
      hook stops loading. */
  function Load(st: HookState, resp: LoadResponse): (st2: HookState)
    ensures !st2.loading && st2.isAdmin == st.isAdmin
    ensures resp.LoadFailed? ==> st2.solicitudes == st.solicitudes && st2.error == Some(OrElse(resp.message, ErrorCargar))
    ensures resp.Loaded? ==> st2.error.None? && st2.solicitudes == resp.data.GetOr([])
  {
    match resp
    case LoadFailed(m) => st.(loading := false, error := Some(OrElse(m, ErrorCargar)))
    case Loaded(d) => st.(loading := false, error := None, solicitudes := d.GetOr([]))
  }

  // ---------------------------------------------------------------------------
  // aprobar / rechazar (lines 79-120)
  // ---------------------------------------------------------------------------

  /** The arguments sent to an RPC. */
  datatype RpcCall =
    | AprobarCall(orgId: string, pNotas: Option<string>)
    | RechazarCall(orgId: string, pMotivo: string)

  /** What a mutation leaves behind: the hook state, the RPCs it sent, and
      whether it returned or threw (with the thrown message). */
  datatype Mutation = Mutation(state: HookState, calls: seq<RpcCall>, result: Result<Unit, string>)

  const ErrorAprobar: string := "Error al aprobar organización"
  const ErrorRechazar: string := "Error al rechazar organización"
  const MotivoRequerido: string := "Debes proporcionar un motivo para el rechazo"

  /** `notas || null`: absent or empty notes are sent as null. */
  function NotasParam(notas: Option<string>): (p: Option<string>)
    ensures p.None? <==> notas.None? || notas.value == []
    ensures p.Some? ==> p == notas
  {
    if notas.None? || notas.value == [] then None else notas
  }

  /** `aprobar(orgId, notas)`; `rpcError` is the error the RPC reported, if
      any, and `reload` what the reload that follows a success produced. */
  function Aprobar(st: HookState, orgId: string, notas: Option<string>, rpcError: Option<string>, reload: LoadResponse): (m: Mutation)
    ensures m.calls == [AprobarCall(orgId, NotasParam(notas))]
    ensures m.result.Ok? <==> rpcError.None?
    ensures m.result.Ok? ==> m.state == Load(st, reload)
    ensures m.result.Err? ==> m.state == st && m.result.error == OrElse(rpcError.value, ErrorAprobar)
  {
    var call := AprobarCall(orgId, NotasParam(notas));
    if rpcError.Some? then Mutation(st, [call], Err(OrElse(rpcError.value, ErrorAprobar)))
    else Mutation(Load(st, reload), [call], Ok(Unit))
  }

  /** `rechazar(orgId, motivo)`: a blank reason throws before any RPC. */
  function Rechazar(st: HookState, orgId: string, motivo: string, rpcError: Option<string>, reload: LoadResponse): (m: Mutation)
    ensures IsBlank(motivo) ==> m == Mutation(st, [], Err(MotivoRequerido))
    ensures !IsBlank(motivo) ==> m.calls == [RechazarCall(orgId, motivo)]
    ensures m.result.Ok? <==> !IsBlank(motivo) && rpcError.None?
    ensures m.result.Ok? ==> m.state == Load(st, reload)
    ensures m.result.Err? ==> m.state == st
    // An RPC error is rethrown with the backend's message, or the default.
    ensures m.result.Err? && !IsBlank(motivo) ==> m.result.error == OrElse(rpcError.value, ErrorRechazar)
  {
    if IsBlank(motivo) then Mutation(st, [], Err(MotivoRequerido))
    else
      var call := RechazarCall(orgId, motivo);
      if rpcError.Some? then Mutation(st, [call], Err(OrElse(rpcError.value, ErrorRechazar)))
      else Mutation(Load(st, reload), [call], Ok(Unit))
  }

  /** No reject RPC ever carries a blank reason, and a reason made only of
      whitespace counts as blank. */
  lemma RechazarNeverSendsBlank(st: HookState, orgId: string, motivo: string, rpcError: Option<string>, reload: LoadResponse)
    ensures forall c :: c in Rechazar(st, orgId, motivo, rpcError, reload).calls ==> c.RechazarCall? && !IsBlank(c.pMotivo)
    ensures (forall i :: 0 <= i < |motivo| ==> IsSpace(motivo[i])) ==> Rechazar(st, orgId, motivo, rpcError, reload).calls == []
  {
    BlankIffAllSpace(motivo);
  }

  // ---------------------------------------------------------------------------
  // The realtime effect (lines 130-155)
  // ---------------------------------------------------------------------------

  const AdminChannel: string := "admin-solicitudes"

  /** The channel one run of the effect opens for a given admin flag. */
  function AdminChannelFor(isAdmin: bool): (c: Option<string>)
    ensures c.Some? <==> isAdmin
  {
    if isAdmin then Some(AdminChannel) else None
  }

  /** While mounted, the admin channel is live exactly when the latest admin
      flag is true; after unmount no channel is live. */
  lemma AdminChannelLifecycle(flags: seq<bool>)
    requires flags != []
    ensures Realtime.LiveAfter(multiset{}, Realtime.Runs(AdminChannelFor, None, flags))
      == (if flags[|flags| - 1] then multiset{AdminChannel} else multiset{})
    ensures Realtime.LiveAfter(multiset{}, Realtime.Lifetime(AdminChannelFor, flags)) == multiset{}
  {
    Realtime.RunsLeaveLatest(AdminChannelFor, None, flags);
    Realtime.MountedAtMostOneUnmountedNone(AdminChannelFor, flags);
  }

  // ---------------------------------------------------------------------------
  // Mounting the hook: the loading flag
  // ---------------------------------------------------------------------------

  /** The hook after mounting, as written: the admin check runs, and only an
      admin's effect loads the list — the one place `loading` is cleared. */
  function MountAsWritten(rpc: AdminRpc, load: LoadResponse): (st: HookState)
    ensures st.isAdmin == CheckAdminStatus(rpc)
    ensures st.loading <==> !st.isAdmin
  {
    var s1 := InitialHook.(isAdmin := CheckAdminStatus(rpc));
    if s1.isAdmin then Load(s1, load) else s1
  }

  /** As written, a visitor who is not a super-admin — signed in or not —
      sees the loading screen for good: `adminLoading` never becomes false,
      so neither the login screen nor anything after it is ever rendered. */
  lemma NonAdminStuckLoading(rpc: AdminRpc, load: LoadResponse, loading: bool, user: Option<Gate.SessionUser>, g: Gate.GateState)
    requires !CheckAdminStatus(rpc)
    ensures Gate.Render(Gate.View(loading, MountAsWritten(rpc, load).loading, user, false, g)) == Gate.Loading
  {
  }

  /** The hook after mounting, with the evident intent: once the admin check
      has answered "not an admin" there is nothing left to load. */
  function Mount(rpc: AdminRpc, load: LoadResponse): (st: HookState)
    ensures st.isAdmin == CheckAdminStatus(rpc)
    ensures !st.loading
    ensures st.isAdmin ==> st == Load(InitialHook.(isAdmin := true), load)
    ensures !st.isAdmin ==> st.solicitudes == [] && st.error.None?
  {
    var s1 := InitialHook.(isAdmin := CheckAdminStatus(rpc));
    if s1.isAdmin then Load(s1, load) else s1.(loading := false)
  }

  /** With the corrected hook the shell gets past the loading screen once its
      own session check is done: a visitor without a session sees the login
      screen, an admin the admin panel. */
  lemma MountSettles(rpc: AdminRpc, load: LoadResponse, user: Option<Gate.SessionUser>, g: Gate.GateState)
    ensures var st := Mount(rpc, load);
      Gate.Render(Gate.View(false, st.loading, user, st.isAdmin, g)) != Gate.Loading
    ensures user.None? ==> Gate.Render(Gate.View(false, Mount(rpc, load).loading, user, Mount(rpc, load).isAdmin, g)) == Gate.LoginScreen
    ensures user.Some? && CheckAdminStatus(rpc) ==>
      Gate.Render(Gate.View(false, Mount(rpc, load).loading, user, true, g)) == Gate.AdminPanelScreen
  {
  }
}
