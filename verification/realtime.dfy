/** Realtime subscriptions opened from a React effect: an effect that runs
    again whenever its dependency changes, opens at most one channel per run
    (`supabase.channel(name)...subscribe()`), and whose cleanup removes that
    channel (`supabase.removeChannel`). */
module Realtime {
  import opened Wrappers

  datatype ChannelEvent = Subscribe(name: string) | Remove(name: string)

  /** The channels live after one event. */
  function Step(live: multiset<string>, e: ChannelEvent): multiset<string> {
    match e
    case Subscribe(n) => live + multiset{n}
    case Remove(n) => live - multiset{n}
  }

  /** The channels live after a sequence of events. */
  function LiveAfter(live: multiset<string>, es: seq<ChannelEvent>): multiset<string>
    decreases |es|
  {
    if es == [] then live else LiveAfter(Step(live, es[0]), es[1..])
  }

  lemma {:induction false} LiveAfterAppend(live: multiset<string>, a: seq<ChannelEvent>, b: seq<ChannelEvent>)
    ensures LiveAfter(live, a + b) == LiveAfter(LiveAfter(live, a), b)
    decreases |a|
  {
    if a != [] {
      assert (a + b)[0] == a[0] && (a + b)[1..] == a[1..] + b;
      LiveAfterAppend(Step(live, a[0]), a[1..], b);
    } else {
      assert a + b == b;
    }
  }

  /** The channel an effect run leaves open, as a multiset. */
  function Opened(c: Option<string>): multiset<string> {
    if c.Some? then multiset{c.value} else multiset{}
  }

  /** The effect body: subscribe when the run names a channel. */
  function Open(c: Option<string>): seq<ChannelEvent> {
    if c.Some? then [Subscribe(c.value)] else []
  }

  /** The cleanup of the previous run: remove the channel it opened. */
  function Cleanup(c: Option<string>): seq<ChannelEvent> {
    if c.Some? then [Remove(c.value)] else []
  }

  /** The events of an effect whose dependency takes the values `deps` in
      turn; `prev` is the channel of the run before the first one, and
      `channelFor` says which channel, if any, a run with a given dependency
      opens. */
  function Runs<D>(channelFor: D -> Option<string>, prev: Option<string>, deps: seq<D>): (es: seq<ChannelEvent>)
    ensures forall i :: 0 <= i < |es| && es[i].Subscribe? ==> exists j :: 0 <= j < |deps| && channelFor(deps[j]) == Some(es[i].name)
    decreases |deps|
  {
    if deps == [] then []
    else
      var rest := Runs(channelFor, channelFor(deps[0]), deps[1..]);
      var here := Cleanup(prev) + Open(channelFor(deps[0]));
      assert forall i :: 0 <= i < |here| && here[i].Subscribe? ==> here[i].name == channelFor(deps[0]).value;
      here + rest
  }

  /** The last run's channel, or `prev` when the effect never ran. */
  function LastChannel<D>(channelFor: D -> Option<string>, prev: Option<string>, deps: seq<D>): Option<string> {
    if deps == [] then prev else channelFor(deps[|deps| - 1])
  }

  /** One re-run: the previous channel is removed, then the new one opened. */
  lemma ReRun(prev: Option<string>, c: Option<string>)
    ensures LiveAfter(Opened(prev), Cleanup(prev) + Open(c)) == Opened(c)
  {
    LiveAfterAppend(Opened(prev), Cleanup(prev), Open(c));
    assert LiveAfter(Opened(prev), Cleanup(prev)) == multiset{};
  }

  /** While the component is mounted exactly the channel of the latest run is
      live — so never more than one — and none is live when that run opened none. */
  lemma {:induction false} RunsLeaveLatest<D>(channelFor: D -> Option<string>, prev: Option<string>, deps: seq<D>)
    ensures LiveAfter(Opened(prev), Runs(channelFor, prev, deps)) == Opened(LastChannel(channelFor, prev, deps))
    decreases |deps|
  {
    if deps != [] {
      var c := channelFor(deps[0]);
      var here := Cleanup(prev) + Open(c);
      var rest := Runs(channelFor, c, deps[1..]);
      RunsCons(channelFor, prev, deps);
      LiveAfterAppend(Opened(prev), here, rest);
      ReRun(prev, c);
      RunsLeaveLatest(channelFor, c, deps[1..]);
      LastChannelTail(channelFor, prev, deps);
    }
  }

  /** The first run's events come first, then those of the later runs. */
  lemma RunsCons<D>(channelFor: D -> Option<string>, prev: Option<string>, deps: seq<D>)
    requires deps != []
    ensures Runs(channelFor, prev, deps) == (Cleanup(prev) + Open(channelFor(deps[0]))) + Runs(channelFor, channelFor(deps[0]), deps[1..])
  {
  }

  /** The latest channel does not depend on the channel before a first run. */
  lemma LastChannelTail<D>(channelFor: D -> Option<string>, prev: Option<string>, deps: seq<D>)
    requires deps != []
    ensures LastChannel(channelFor, prev, deps) == LastChannel(channelFor, channelFor(deps[0]), deps[1..])
  {
    if |deps| > 1 {
      assert deps[1..][|deps[1..]| - 1] == deps[|deps| - 1];
    }
  }

  /** The whole life of a component: mount, dependency changes, unmount. */
  function Lifetime<D>(channelFor: D -> Option<string>, deps: seq<D>): seq<ChannelEvent> {
    Runs(channelFor, None, deps) + Cleanup(LastChannel(channelFor, None, deps))
  }

  /** Every channel opened is removed by the time the component unmounts, and
      at most one is live in between. */
  lemma MountedAtMostOneUnmountedNone<D>(channelFor: D -> Option<string>, deps: seq<D>)
    ensures |LiveAfter(multiset{}, Runs(channelFor, None, deps))| <= 1
    ensures LiveAfter(multiset{}, Lifetime(channelFor, deps)) == multiset{}
  {
    var last := LastChannel(channelFor, None, deps);
    RunsLeaveLatest(channelFor, None, deps);
    LiveAfterAppend(multiset{}, Runs(channelFor, None, deps), Cleanup(last));
  }
}
