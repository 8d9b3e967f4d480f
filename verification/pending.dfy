/** The waiting screen of an organisation under review
    (components/PendingApproval.tsx): it finds the user's organisation, listens
    for updates to that organisation's row, and reacts when an administrator
    approves or rejects it. The page reload and its timer are recorded as the
    effect the reaction asks for. */
module Pending {
  import opened Wrappers
  import Realtime

  // ---------------------------------------------------------------------------
  // Acquiring the organisation id (lines 11-29)
  // ---------------------------------------------------------------------------

  /** The id the first effect records: that of the user's first membership,
      nothing when there is no user or no membership. `members` is the
      `organizacion_id` column of the (at most one) row read, `None` when the
      query returned no data. */
  function AcquireOrgId(userSignedIn: bool, members: Option<seq<string>>): (id: Option<string>)
    ensures id.Some? <==> userSignedIn && members.Some? && members.value != []
    ensures id.Some? ==> id.value == members.value[0]
  {
    if !userSignedIn then None
    else if members.Some? && |members.value| > 0 then Some(members.value[0])
    else None
  }

  // ---------------------------------------------------------------------------
  // The subscription (lines 31-67)
  // ---------------------------------------------------------------------------

  const ChannelPrefix: string := "org-"

  /** The channel one run of the second effect opens: none while the id is
      null or empty (`if (!organizacionId) return`), else `org-<id>`. */
  function ChannelFor(orgId: Option<string>): (c: Option<string>)
    ensures c.Some? <==> orgId.Some? && orgId.value != []
    ensures c.Some? ==> (|c.value| > |ChannelPrefix| && c.value[..|ChannelPrefix|] == ChannelPrefix
                         && c.value[|ChannelPrefix|..] == orgId.value)
  {
    if orgId.None? || orgId.value == [] then None else Some(ChannelPrefix + orgId.value)
  }

  /** Different organisations get different channels. */
  lemma ChannelForInjective(a: Option<string>, b: Option<string>)
    requires ChannelFor(a).Some? && ChannelFor(a) == ChannelFor(b)
    ensures a == b
  {
    assert a.value == ChannelFor(a).value[|ChannelPrefix|..];
  }

  /** A change notification from `postgres_changes`. */
  datatype Change = Change(eventType: string, schema: string, table: string, rowId: string, newEstado: Option<string>)

  /** The subscription's filter: UPDATE events on `public.organizaciones`
      whose `id` equals this organisation's id. */
  predicate Listens(orgId: string, ch: Change) {
    ch.eventType == "UPDATE" && ch.schema == "public" && ch.table == "organizaciones" && ch.rowId == orgId
  }

  /** What a reaction asks the browser to do. */
  datatype Reload = NoReload | ReloadAfter(ms: nat) | ReloadNow

  /** The screen's own state: whether the approval animation shows, whether a
      logout is in progress, and the reload last requested. */
  datatype Screen = Screen(aprobada: bool, loggingOut: bool, reload: Reload)

  const InitialScreen: Screen := Screen(false, false, NoReload)

  /** The payload handler: APROBADA shows the animation and reloads after two
      seconds; RECHAZADA reloads at once without the animation; any other
      state changes nothing. */
  function React(s: Screen, ch: Change): (t: Screen)
    ensures ch.newEstado == Some("APROBADA") ==> t.aprobada && t.reload == ReloadAfter(2000)
    ensures ch.newEstado == Some("RECHAZADA") ==> t.aprobada == s.aprobada && t.reload == ReloadNow
    ensures ch.newEstado !in {Some("APROBADA"), Some("RECHAZADA")} ==> t == s
    ensures t.loggingOut == s.loggingOut
  {
    if ch.newEstado == Some("APROBADA") then s.(aprobada := true, reload := ReloadAfter(2000))
    else if ch.newEstado == Some("RECHAZADA") then s.(reload := ReloadNow)
    else s
  }

  /** The notifications the screen receives for its organisation, in order:
      without a channel nothing reaches it, and the filter drops the rest. */
  function Deliver(orgId: Option<string>, s: Screen, chs: seq<Change>): (t: Screen)
    ensures ChannelFor(orgId).None? ==> t == s
    ensures t.loggingOut == s.loggingOut
    decreases |chs|
  {
    if chs == [] || ChannelFor(orgId).None? then s
    else
      var s1 := if Listens(orgId.value, chs[0]) then React(s, chs[0]) else s;
      Deliver(orgId, s1, chs[1..])
  }

  /** Notifications about other organisations, or other kinds of change, have
      no effect: only approval or rejection of this organisation does anything. */
  lemma {:induction false} OnlyOwnDecisionMatters(orgId: Option<string>, s: Screen, chs: seq<Change>)
    requires forall i :: 0 <= i < |chs| ==>
      !(orgId.Some? && Listens(orgId.value, chs[i]) && chs[i].newEstado in {Some("APROBADA"), Some("RECHAZADA")})
    ensures Deliver(orgId, s, chs) == s
    decreases |chs|
  {
    if chs != [] && ChannelFor(orgId).Some? {
      OnlyOwnDecisionMatters(orgId, s, chs[1..]);
    }
  }

  /** Once approved the animation stays: later notifications cannot hide it. */
  lemma {:induction false} ApprovalSticks(orgId: Option<string>, s: Screen, chs: seq<Change>)
    requires s.aprobada
    ensures Deliver(orgId, s, chs).aprobada
    decreases |chs|
  {
    if chs != [] && ChannelFor(orgId).Some? {
      var s1 := if Listens(orgId.value, chs[0]) then React(s, chs[0]) else s;
      ApprovalSticks(orgId, s1, chs[1..]);
    }
  }

  /** The second effect over the screen's life, as the id takes the values
      `ids` (it starts null): exactly the channel of the current id is live
      while mounted, never more than one, and none after unmount. */
  lemma ChannelLifecycle(ids: seq<Option<string>>)
    requires ids != []
    ensures Realtime.LiveAfter(multiset{}, Realtime.Runs(ChannelFor, None, ids)) == Realtime.Opened(ChannelFor(ids[|ids| - 1]))
    ensures |Realtime.LiveAfter(multiset{}, Realtime.Runs(ChannelFor, None, ids))| <= 1
    ensures Realtime.LiveAfter(multiset{}, Realtime.Lifetime(ChannelFor, ids)) == multiset{}
  {
    Realtime.RunsLeaveLatest(ChannelFor, None, ids);
    Realtime.MountedAtMostOneUnmountedNone(ChannelFor, ids);
  }

  // ---------------------------------------------------------------------------
  // handleLogout (lines 69-79)
  // ---------------------------------------------------------------------------

  /** The logout button: a sign-out that throws puts `loggingOut` back to
      false; one that returns reloads the page. */
  function Logout(s: Screen, signOutThrows: bool): (t: Screen)
    ensures signOutThrows ==> !t.loggingOut && t.reload == s.reload
    ensures !signOutThrows ==> t.loggingOut && t.reload == ReloadNow
    ensures t.aprobada == s.aprobada
  {
    var busy := s.(loggingOut := true);
    if signOutThrows then busy.(loggingOut := false) else busy.(reload := ReloadNow)
  }
}
