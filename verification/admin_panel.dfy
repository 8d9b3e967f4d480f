/** The super-admin panel (components/AdminPanel.tsx): the filtered request
    list, the per-state counters, which rows offer approve/reject, and the
    confirmation modal that calls the hook's mutations. */
module AdminPanel {
  import opened Wrappers
  import opened Text
  import opened Seqs
  import opened Store
  import opened AdminHook

  // ---------------------------------------------------------------------------
  // solicitudesFiltradas (lines 21-39)
  // ---------------------------------------------------------------------------

  /** The state filter: `'TODAS'` or one of the three states. */
  datatype FiltroEstado = Todas | Solo(estado: OrgEstado)

  /** `s?.toLowerCase().includes(q)` on a nullable field: null never matches. */
  predicate FieldMatches(s: Option<string>, q: string) {
    s.Some? && Includes(Lower(s.value), q)
  }

  /** The search part: with a non-empty search, the lower-cased search must
      occur in the lower-cased name, slug, e-mail or full name. */
  predicate MatchesBusqueda(sol: Solicitud, busqueda: string) {
    busqueda == [] ||
      var q := Lower(busqueda);
      Includes(Lower(sol.nombre), q) || Includes(Lower(sol.slug), q)
      || FieldMatches(sol.userEmail, q) || FieldMatches(sol.userFullName, q)
  }

  /** The filter callback. */
  predicate Keep(filtro: FiltroEstado, busqueda: string, sol: Solicitud) {
    (filtro.Todas? || sol.estado == filtro.estado.Name()) && MatchesBusqueda(sol, busqueda)
  }

  /** `solicitudesFiltradas`. */
  function Filtradas(sols: seq<Solicitud>, filtro: FiltroEstado, busqueda: string): (r: seq<Solicitud>)
    ensures SubseqOf(r, sols)
    ensures forall i :: 0 <= i < |r| ==> r[i] in sols && Keep(filtro, busqueda, r[i])
    ensures forall i :: 0 <= i < |sols| && Keep(filtro, busqueda, sols[i]) ==> sols[i] in r
  {
    Filter((sol: Solicitud) => Keep(filtro, busqueda, sol), sols)
  }

  /** A state filter keeps only rows in exactly that state. */
  lemma StateFilterExact(sols: seq<Solicitud>, e: OrgEstado, busqueda: string)
    ensures forall i :: 0 <= i < |Filtradas(sols, Solo(e), busqueda)| ==> Filtradas(sols, Solo(e), busqueda)[i].estado == e.Name()
  {
  }

  /** With `'TODAS'` and an empty search every row is kept, in order. */
  lemma NoFilterKeepsAll(sols: seq<Solicitud>)
    ensures Filtradas(sols, Todas, "") == sols
  {
    FilterKeepsAll((sol: Solicitud) => Keep(Todas, "", sol), sols);
  }

  /** The search is case-insensitive on both sides, and a row without e-mail
      or name is matched only through its organisation name or slug. */
  lemma SearchIsCaseInsensitive(sol: Solicitud, busqueda: string)
    requires busqueda != []
    ensures MatchesBusqueda(sol, busqueda) == MatchesBusqueda(sol, Lower(busqueda))
    ensures sol.userEmail.None? && sol.userFullName.None? ==>
      (MatchesBusqueda(sol, busqueda) <==> Includes(Lower(sol.nombre), Lower(busqueda)) || Includes(Lower(sol.slug), Lower(busqueda)))
  {
    LowerIdempotent(busqueda);
  }

  // ---------------------------------------------------------------------------
  // stats (lines 42-47)
  // ---------------------------------------------------------------------------

  datatype Stats = Stats(pendientes: nat, aprobadas: nat, rechazadas: nat, total: nat)

  predicate InState(e: OrgEstado, sol: Solicitud) {
    sol.estado == e.Name()
  }

  /** The filter callback `s => s.organizacion_estado === e`. */
  function InStateP(e: OrgEstado): Solicitud -> bool {
    (s: Solicitud) => InState(e, s)
  }

  /** The rows' states, in order. */
  function Estados(sols: seq<Solicitud>): (es: seq<string>)
    ensures |es| == |sols| && forall i :: 0 <= i < |sols| ==> es[i] == sols[i].estado
  {
    seq(|sols|, i requires 0 <= i < |sols| => sols[i].estado)
  }

  /** `stats`: each counter is the number of rows whose state is that state's
      name (its multiplicity among the rows' states), and the total is the
      number of rows. */
  function ComputeStats(sols: seq<Solicitud>): (st: Stats)
    ensures st.total == |sols|
    ensures st.pendientes == multiset(Estados(sols))[Pendiente.Name()]
    ensures st.aprobadas == multiset(Estados(sols))[Aprobada.Name()]
    ensures st.rechazadas == multiset(Estados(sols))[Rechazada.Name()]
    ensures st.pendientes <= st.total && st.aprobadas <= st.total && st.rechazadas <= st.total
  {
    CountInState(Pendiente, sols);
    CountInState(Aprobada, sols);
    CountInState(Rechazada, sols);
    Stats(
      |Filter(InStateP(Pendiente), sols)|,
      |Filter(InStateP(Aprobada), sols)|,
      |Filter(InStateP(Rechazada), sols)|,
      |sols|)
  }

  /** Filtering by a state keeps as many rows as the state occurs. */
  lemma {:induction false} CountInState(e: OrgEstado, sols: seq<Solicitud>)
    ensures |Filter(InStateP(e), sols)| == multiset(Estados(sols))[e.Name()]
    decreases |sols|
  {
    if sols != [] {
      var es, rest := Estados(sols), Estados(sols[1..]);
      CountInState(e, sols[1..]);
      assert es[1..] == rest;
      assert es == [es[0]] + es[1..];
      assert multiset(es) == multiset{sols[0].estado} + multiset(rest);
      assert InStateP(e)(sols[0]) <==> sols[0].estado == e.Name();
    }
  }

  /** The counter a state's card shows. */
  function Counter(st: Stats, e: OrgEstado): nat {
    match e
    case Pendiente => st.pendientes
    case Aprobada => st.aprobadas
    case Rechazada => st.rechazadas
  }

  /** When every row carries one of the three declared states, the three
      counters add up to the total. */
  lemma StatsAddUp(sols: seq<Solicitud>)
    requires forall i :: 0 <= i < |sols| ==> ParseEstado(sols[i].estado).Some?
    ensures var st := ComputeStats(sols);
      st.pendientes + st.aprobadas + st.rechazadas == st.total
  {
    forall x | x in sols
      ensures ParseEstado(x.estado).Some?
    {
      var i :| 0 <= i < |sols| && sols[i] == x;
    }
    FilterPartition3(InStateP(Pendiente), InStateP(Aprobada), InStateP(Rechazada), sols);
  }

  /** The counters ignore the search: each equals the length of the list the
      panel shows when that state's filter is picked with an empty search. */
  lemma StatsCountMatchingRows(sols: seq<Solicitud>, e: OrgEstado)
    ensures Counter(ComputeStats(sols), e) == |Filtradas(sols, Solo(e), "")|
  {
    FilterCongruent(InStateP(e), (sol: Solicitud) => Keep(Solo(e), "", sol), sols);
  }

  // ---------------------------------------------------------------------------
  // Actions and the confirmation modal (lines 49-80, 303, 430, 505-519)
  // ---------------------------------------------------------------------------

  datatype Tipo = AprobarTipo | RechazarTipo

  /** The actions a row offers: both for a PENDIENTE row, none otherwise. */
  function AvailableActions(sol: Solicitud): (ts: set<Tipo>)
    ensures ts != {} <==> sol.estado == "PENDIENTE"
    ensures ts != {} ==> AprobarTipo in ts && RechazarTipo in ts
  {
    if sol.estado == "PENDIENTE" then {AprobarTipo, RechazarTipo} else {}
  }

  datatype ModalAccion = ModalAccion(tipo: Tipo, solicitud: Solicitud)

  datatype Panel = Panel(procesando: Option<string>, modal: Option<ModalAccion>, notas: string, motivo: string)

  const InitialPanel: Panel := Panel(None, None, "", "")

  /** Clicking an action button opens the modal; a row without the action
      has no such button, and the row being processed has its buttons
      disabled, so then nothing happens. */
  function OpenAction(p: Panel, sol: Solicitud, t: Tipo): (q: Panel)
    ensures q.modal.Some? && q != p ==> q.modal.value.solicitud.estado == "PENDIENTE"
    ensures t in AvailableActions(sol) && p.procesando != Some(sol.orgId) ==> q == p.(modal := Some(ModalAccion(t, sol)))
    ensures p.procesando == Some(sol.orgId) ==> q == p
  {
    if t in AvailableActions(sol) && p.procesando != Some(sol.orgId) then p.(modal := Some(ModalAccion(t, sol))) else p
  }

  /** The cancel button closes the modal and clears both text fields. */
  function Cancel(p: Panel): (q: Panel)
    ensures q.modal.None? && q.notas == [] && q.motivo == [] && q.procesando == p.procesando
  {
    p.(modal := None, notas := "", motivo := "")
  }

  /** The confirm button's `disabled`. */
  predicate ConfirmDisabled(p: Panel) {
    p.procesando.Some? || (p.modal.Some? && p.modal.value.tipo == RechazarTipo && IsBlank(p.motivo))
  }

  /** What a confirm leaves behind: the panel, the hook, the RPCs sent and
      the alert shown, if any. */
  datatype Confirmed = Confirmed(panel: Panel, hook: HookState, calls: seq<RpcCall>, alert: Option<string>)

  const AlertMotivo: string := "⚠️ Debes proporcionar un motivo para el rechazo"

  function ErrorAlert(message: string): string {
    "❌ Error: " + message
  }

  /** `handleAprobar`. */
  function HandleAprobar(p: Panel, h: HookState, rpcError: Option<string>, reload: LoadResponse): (c: Confirmed)
    ensures p.modal.None? ==> c == Confirmed(p, h, [], None)
    ensures p.modal.Some? ==> c.panel.procesando.None?
    ensures p.modal.Some? && rpcError.None? ==> c.panel.modal.None? && c.panel.notas == [] && c.alert.None?
    ensures p.modal.Some? && rpcError.Some? ==> c.panel.modal == p.modal && c.panel.notas == p.notas && c.alert.Some?
  {
    if p.modal.None? then Confirmed(p, h, [], None)
    else
      var m := Aprobar(h, p.modal.value.solicitud.orgId, Some(p.notas), rpcError, reload);
      if m.result.Ok? then Confirmed(p.(procesando := None, modal := None, notas := ""), m.state, m.calls, None)
      else Confirmed(p.(procesando := None), m.state, m.calls, Some(ErrorAlert(m.result.error)))
  }

  /** `handleRechazar`. */
  function HandleRechazar(p: Panel, h: HookState, rpcError: Option<string>, reload: LoadResponse): (c: Confirmed)
    ensures p.modal.None? || IsBlank(p.motivo) ==> c == Confirmed(p, h, [], Some(AlertMotivo))
    ensures p.modal.Some? && !IsBlank(p.motivo) ==> c.calls == [RechazarCall(p.modal.value.solicitud.orgId, p.motivo)] && c.panel.procesando.None?
    ensures p.modal.Some? && !IsBlank(p.motivo) && rpcError.None? ==> c.panel.modal.None? && c.panel.motivo == [] && c.alert.None?
    ensures p.modal.Some? && !IsBlank(p.motivo) && rpcError.Some? ==> c.panel.modal == p.modal && c.panel.motivo == p.motivo && c.alert.Some?
  {
    if p.modal.None? || IsBlank(p.motivo) then Confirmed(p, h, [], Some(AlertMotivo))
    else
      var m := Rechazar(h, p.modal.value.solicitud.orgId, p.motivo, rpcError, reload);
      if m.result.Ok? then Confirmed(p.(procesando := None, modal := None, motivo := ""), m.state, m.calls, None)
      else Confirmed(p.(procesando := None), m.state, m.calls, Some(ErrorAlert(m.result.error)))
  }

  /** The confirm button dispatches on the modal's action. */
  function Confirm(p: Panel, h: HookState, rpcError: Option<string>, reload: LoadResponse): Confirmed
    requires p.modal.Some?
  {
    if p.modal.value.tipo == AprobarTipo then HandleAprobar(p, h, rpcError, reload)
    else HandleRechazar(p, h, rpcError, reload)
  }

  /** A blank reason never reaches the hook: the confirm button is disabled
      for it, and the handler refuses it even if invoked. Empty notes are sent
      to the approve RPC as null. */
  lemma BlankReasonNeverSent(p: Panel, h: HookState, rpcError: Option<string>, reload: LoadResponse)
    requires p.modal.Some?
    ensures p.modal.value.tipo == RechazarTipo && IsBlank(p.motivo) ==> ConfirmDisabled(p) && Confirm(p, h, rpcError, reload).calls == []
    ensures forall c :: c in Confirm(p, h, rpcError, reload).calls && c.RechazarCall? ==> !IsBlank(c.pMotivo)
    ensures p.modal.value.tipo == AprobarTipo && p.notas == [] ==>
      Confirm(p, h, rpcError, reload).calls == [AprobarCall(p.modal.value.solicitud.orgId, None)]
  {
    var c := Confirm(p, h, rpcError, reload);
    if p.modal.value.tipo == AprobarTipo {
      assert c == HandleAprobar(p, h, rpcError, reload);
      assert forall x :: x in c.calls ==> x.AprobarCall?;
    } else if IsBlank(p.motivo) {
      assert c.calls == [];
    } else {
      assert c.calls == [RechazarCall(p.modal.value.solicitud.orgId, p.motivo)];
    }
  }

  /** Only PENDIENTE rows can have an action confirmed: starting from a closed
      modal, any sequence of action clicks leaves either no modal or a modal
      on a PENDIENTE row. */
  lemma {:induction false} ModalOnlyForPending(p: Panel, clicks: seq<(Solicitud, Tipo)>)
    requires p.modal.None? || p.modal.value.solicitud.estado == "PENDIENTE"
    ensures var q := OpenAll(p, clicks);
      q.modal.None? || q.modal.value.solicitud.estado == "PENDIENTE"
    decreases |clicks|
  {
    if clicks != [] {
      ModalOnlyForPending(OpenAction(p, clicks[0].0, clicks[0].1), clicks[1..]);
    }
  }

  function OpenAll(p: Panel, clicks: seq<(Solicitud, Tipo)>): Panel
    decreases |clicks|
  {
    if clicks == [] then p else OpenAll(OpenAction(p, clicks[0].0, clicks[0].1), clicks[1..])
  }
}
