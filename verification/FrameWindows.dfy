// For a forward-running clock the frames are the nonempty 100 ms groups of the points.
module FrameWindows {
  import opened Words
  import opened LidarTypes
  import opened FrameAccumulator
  import opened FrameLedger

  /** The 100 ms window, counted from origin, that a time falls in. */
  function Window(origin: nat, time: nat): nat {
    if time < origin then 0 else (time - origin) / FRAME_PERIOD
  }

  /** The sightings of window k, in their order. */
  function Bucket(origin: nat, s: seq<Sighting>, k: nat): seq<Sighting>
  {
    if s == [] then []
    else
      var x := s[|s| - 1];
      Bucket(origin, s[..|s| - 1], k) + (if Window(origin, x.time) == k then [x] else [])
  }

  /** The nonempty groups among the first n windows: "group by window index". */
  function Groups(origin: nat, s: seq<Sighting>, n: nat): seq<seq<Sighting>>
  {
    if n == 0 then []
    else
      var last := Bucket(origin, s, n - 1);
      Groups(origin, s, n - 1) + (if last == [] then [] else [last])
  }

  predicate Nondecreasing(s: seq<Arrival>) {
    forall i, j :: 0 <= i < j < |s| ==> s[i].time <= s[j].time
  }

  function DecodeAll(frames: seq<LidarBatch>): (r: seq<seq<Sighting>>)
    ensures |r| == |frames| && forall i :: 0 <= i < |r| ==> r[i] == FrameSightings(frames[i])
  {
    seq(|frames|, i requires 0 <= i < |frames| => FrameSightings(frames[i]))
  }

  // ---- grouping one sighting more ----

  lemma {:induction false} GroupsUnchanged(origin: nat, s: seq<Sighting>, x: Sighting, n: nat)
    requires n <= Window(origin, x.time)
    ensures Groups(origin, s + [x], n) == Groups(origin, s, n)
  {
    if n != 0 {
      GroupsUnchanged(origin, s, x, n - 1);
      BucketSnoc(origin, s, x, n - 1);
    }
  }

  lemma BucketSnoc(origin: nat, s: seq<Sighting>, x: Sighting, k: nat)
    ensures Window(origin, x.time) == k ==> Bucket(origin, s + [x], k) == Bucket(origin, s, k) + [x]
    ensures Window(origin, x.time) != k ==> Bucket(origin, s + [x], k) == Bucket(origin, s, k)
  {
    assert (s + [x])[..|s|] == s;
    assert Bucket(origin, s, k) + [] == Bucket(origin, s, k);
  }

  lemma {:induction false} BucketBeyond(origin: nat, s: seq<Sighting>, k: nat)
    requires forall x :: x in s ==> Window(origin, x.time) < k
    ensures Bucket(origin, s, k) == []
  {
    if s != [] {
      BucketBeyond(origin, s[..|s| - 1], k);
      assert s[|s| - 1] in s;
    }
  }

  lemma {:induction false} GroupsBeyond(origin: nat, s: seq<Sighting>, k: nat, n: nat)
    requires k <= n
    requires forall x :: x in s ==> Window(origin, x.time) < k
    ensures Groups(origin, s, n) == Groups(origin, s, k)
  {
    if k < n {
      GroupsBeyond(origin, s, k, n - 1);
      BucketBeyond(origin, s, n - 1);
    }
  }

  // ---- the accumulator groups ----

  /** Open window k of the grid anchored at origin, with exactly that group pending. */
  predicate Holds(acc: Acc, origin: nat, k: nat, group: seq<Sighting>) {
    && Valid(acc) && acc.active
    && acc.windowStart == origin + k * FRAME_PERIOD
    && FrameSightings(acc.frame) == group
  }

  lemma WindowStart(origin: nat, k: nat, start: uint64, time: uint64)
    requires start == origin + k * FRAME_PERIOD && start <= time
    ensures k <= Window(origin, time)
    ensures WindowOf(start, time) == origin + Window(origin, time) * FRAME_PERIOD
    ensures Window(origin, time) == k <==> time < start + FRAME_PERIOD
  {
  }

  /** What becomes of a point at or after the frame's first point. */
  predicate Ahead(acc: Acc, a: Arrival, fed: Step) {
    && fed.ok && a.time <= U64_MAX
    && if a.time < acc.windowEnd then fed == Step(Place(acc, a), [], true)
       else && fed.closed == [Published(Finish(acc.frame))]
            && acc.windowStart <= a.time
            && fed.acc.windowStart == WindowOf(acc.windowStart, a.time)
            && fed.acc.frame.timestamp == a.time && fed.acc.frame.points == [Payload(a.point)]
  }

  lemma FeedAhead(acc: Acc, a: Arrival)
    requires Valid(acc) && acc.active
    requires acc.frame.timestamp <= a.time <= U64_MAX - FRAME_PERIOD
    ensures Ahead(acc, a, Feed(acc, a))
  {
    FeedThrows(acc, a);
    FeedShape(acc, a);
  }

  /** A point at or after the frame's first point: the same window, or a later one. */
  lemma FeedForward(acc: Acc, a: Arrival, fed: Step, origin: nat, k: nat, group: seq<Sighting>)
    requires Holds(acc, origin, k, group)
    requires acc.frame.timestamp <= a.time <= U64_MAX - FRAME_PERIOD
    requires fed == Feed(acc, a)
    ensures fed.ok && Regrouped(acc, a, fed, origin, k, group)
  {
    FeedAhead(acc, a);
    FeedShape(acc, a);
    AheadRegroups(acc, a, fed, origin, k, group);
  }

  /** The point joins the pending group, or closes it and starts the group of its own window. */
  predicate Regrouped(acc: Acc, a: Arrival, fed: Step, origin: nat, k: nat, group: seq<Sighting>) {
    var w := Window(origin, a.time);
    && k <= w
    && (w == k ==> fed.closed == [] && Holds(fed.acc, origin, k, group + [Sight(a)]))
    && (w != k ==> fed.closed == [Published(Finish(acc.frame))] && Holds(fed.acc, origin, w, [Sight(a)]))
    && fed.acc.frame.timestamp <= a.time
  }

  lemma AheadRegroups(acc: Acc, a: Arrival, fed: Step, origin: nat, k: nat, group: seq<Sighting>)
    requires Holds(acc, origin, k, group) && acc.frame.timestamp <= a.time
    requires Ahead(acc, a, fed) && Valid(fed.acc) && fed.acc.active
    requires Joins(acc, a, fed) || Opens(acc, a, fed)
    ensures Regrouped(acc, a, fed, origin, k, group)
  {
    WindowStart(origin, k, acc.windowStart, a.time);
    if a.time < acc.windowEnd {
      JoinsGroup(acc, a, fed);
    } else {
      StartsGroup(a, fed);
    }
  }

  lemma JoinsGroup(acc: Acc, a: Arrival, fed: Step)
    requires Valid(acc) && acc.active && acc.frame.timestamp <= a.time < acc.windowEnd
    requires fed == Step(Place(acc, a), [], true)
    ensures FrameSightings(fed.acc.frame) == FrameSightings(acc.frame) + [Sight(a)]
  {
    var first := acc.frame.timestamp;
    PlacedTime(a.time, first);
    DecodeSnoc(first, acc.frame.points, a.point.(offset := Wrap32(Wrap64(a.time - first))));
  }

  lemma StartsGroup(a: Arrival, fed: Step)
    requires fed.acc.frame.timestamp == a.time && fed.acc.frame.points == [Payload(a.point)]
    ensures FrameSightings(fed.acc.frame) == [Sight(a)]
  {
  }

  lemma FeedFirst(a: Arrival)
    requires a.time <= U64_MAX - FRAME_PERIOD
    ensures var fed := Feed(IDLE, a);
            fed.ok && fed.closed == [] && Holds(fed.acc, a.time, 0, [Sight(a)])
            && fed.acc.frame.timestamp == a.time
  {
    FeedThrows(IDLE, a);
    FeedShape(IDLE, a);
    FeedBook(IDLE, a, Feed(IDLE, a));
  }

  lemma DecodeAllSnoc(frames: seq<LidarBatch>, f: LidarBatch)
    ensures DecodeAll(frames + [f]) == DecodeAll(frames) + [FrameSightings(f)]
  {
  }

  /**
   * The outcome of a run whose points past (the latest at time last) were all counted from origin:
   * nothing was discarded, the published frames are the nonempty windows before the last point's
   * window, in order, and that last window is pending.
   */
  predicate Grouped(run: Step, origin: nat, past: seq<Sighting>, last: nat) {
    var k := Window(origin, last);
    && run.ok
    && (forall c :: c in run.closed ==> c.Published?)
    && DecodeAll(PublishedOf(run.closed)) == Groups(origin, past, k)
    && Holds(run.acc, origin, k, Bucket(origin, past, k))
    && run.acc.frame.timestamp <= last
    && (forall x :: x in past ==> Window(origin, x.time) <= k)
  }

  /**
   * From a reset, a stream whose clock never runs back comes out as its groups by
   * floor((t - t0) / 100 ms).
   */
  lemma {:induction false} FramesAreGroups(s: seq<Arrival>)
    requires s != [] && Nondecreasing(s)
    requires s[|s| - 1].time <= U64_MAX - FRAME_PERIOD
    ensures Grouped(Run(IDLE, s), s[0].time, Sightings(s), s[|s| - 1].time)
  {
    var n := |s| - 1;
    var before, a := s[..n], s[n];
    RunSnocAll(IDLE, s);
    assert Sightings(s) == Sightings(before) + [Sight(a)];
    if n == 0 {
      assert before == [];
      GroupFirst(a, Feed(IDLE, a));
      assert Sightings([]) + [Sight(a)] == [Sight(a)];
      assert [] + Feed(IDLE, a).closed == Feed(IDLE, a).closed;
    } else {
      FramesAreGroups(before);
      assert s[n - 1].time <= a.time;
      var run := Run(IDLE, before);
      GroupStep(run, a, Feed(run.acc, a), s[0].time, Sightings(before), s[n - 1].time);
    }
  }

  lemma RunSnocAll(acc: Acc, s: seq<Arrival>)
    requires s != []
    ensures Run(acc, s) == Then(Run(acc, s[..|s| - 1]), Feed(Run(acc, s[..|s| - 1]).acc, s[|s| - 1]))
  {
  }

  lemma GroupFirst(a: Arrival, fed: Step)
    requires a.time <= U64_MAX - FRAME_PERIOD && fed == Feed(IDLE, a)
    ensures Grouped(fed, a.time, [Sight(a)], a.time)
  {
    FeedFirst(a);
    BucketSnoc(a.time, [], Sight(a), 0);
    assert [] + [Sight(a)] == [Sight(a)];
  }

  lemma GroupStep(before: Step, a: Arrival, fed: Step, origin: nat, past: seq<Sighting>, last: nat)
    requires Grouped(before, origin, past, last)
    requires last <= a.time <= U64_MAX - FRAME_PERIOD
    requires fed == Feed(before.acc, a)
    ensures Grouped(Then(before, fed), origin, past + [Sight(a)], a.time)
  {
    var k, w, x := Window(origin, last), Window(origin, a.time), Sight(a);
    FeedForward(before.acc, a, fed, origin, k, Bucket(origin, past, k));
    GroupsUnchanged(origin, past, x, w);
    BucketSnoc(origin, past, x, w);
    if w == k {
      assert before.closed + fed.closed == before.closed;
    } else {
      BucketBeyond(origin, past, w);
      GroupAppears(before, Finish(before.acc.frame), origin, past, k, w);
      assert [] + [x] == [x];
    }
  }

  /** Closing the pending frame moves its group from the pending to the published ones. */
  lemma GroupAppears(before: Step, done: LidarBatch, origin: nat, past: seq<Sighting>, k: nat, w: nat)
    requires k < w
    requires forall x :: x in past ==> Window(origin, x.time) <= k
    requires FrameSightings(done) == Bucket(origin, past, k) != []
    requires DecodeAll(PublishedOf(before.closed)) == Groups(origin, past, k)
    ensures DecodeAll(PublishedOf(before.closed + [Published(done)])) == Groups(origin, past, w)
  {
    GroupsBeyond(origin, past, k + 1, w);
    assert (before.closed + [Published(done)])[..|before.closed|] == before.closed;
    DecodeAllSnoc(PublishedOf(before.closed), done);
  }

  /** Such a stream never has an early point, so it also keeps every time and offset bound. */
  lemma {:induction false} ForwardIsOrderly(s: seq<Arrival>)
    requires Nondecreasing(s)
    requires forall a :: a in s ==> a.time <= U64_MAX - FRAME_PERIOD
    ensures Orderly(IDLE, s)
  {
    if |s| > 1 {
      var n := |s| - 1;
      assert forall a :: a in s[..n] ==> a in s;
      ForwardIsOrderly(s[..n]);
      assert s[n - 1] in s;
      FramesAreGroups(s[..n]);
      assert s[n - 1].time <= s[n].time;
    } else if |s| == 1 {
      assert s[..0] == [];
    }
  }

  // ---- several epochs, separated by true resets ----

  lemma {:induction false} OrderlyConcat(acc: Acc, s: seq<Arrival>, t: seq<Arrival>)
    requires Run(acc, s).ok
    ensures Orderly(acc, s + t) <==> Orderly(acc, s) && Orderly(Run(acc, s).acc, t)
  {
    if t == [] {
      assert s + t == s;
    } else {
      var u := t[..|t| - 1];
      assert (s + t)[..|s + t| - 1] == s + u;
      OrderlyConcat(acc, s, u);
      RunConcat(acc, s, u);
    }
  }

  lemma {:induction false} OrderlyRestart(acc: Acc, s: seq<Arrival>)
    requires acc.active && s != [] && s[0].time < acc.windowStart
    ensures Orderly(acc, s) <==> Orderly(IDLE, s)
  {
    var before := s[..|s| - 1];
    if before == [] {
      assert Run(acc, before).acc == acc && Run(IDLE, before).acc == IDLE;
    } else {
      OrderlyRestart(acc, before);
      RestartsAfterBackwardClock(acc, before);
    }
  }

  function Join(epochs: seq<seq<Arrival>>): seq<Arrival> {
    if epochs == [] then [] else Join(epochs[..|epochs| - 1]) + epochs[|epochs| - 1]
  }

  function LastTime(epoch: seq<Arrival>): nat {
    if epoch == [] then 0 else epoch[|epoch| - 1].time
  }

  function FirstTime(epoch: seq<Arrival>): nat {
    if epoch == [] then 0 else epoch[0].time
  }

  function LastWindow(epoch: seq<Arrival>): nat {
    Window(FirstTime(epoch), LastTime(epoch))
  }

  /** Start of the 100 ms window, on the epoch's own grid, of its last point. */
  function OpenWindow(epoch: seq<Arrival>): nat {
    FirstTime(epoch) + LastWindow(epoch) * FRAME_PERIOD
  }

  /** Clocks that only run back below the last point's window, and are forward-running in between. */
  predicate Epochs(epochs: seq<seq<Arrival>>) {
    epochs == [] ||
    (var before, last := epochs[..|epochs| - 1], epochs[|epochs| - 1];
     && Epochs(before)
     && last != [] && Nondecreasing(last)
     && (forall a :: a in last ==> a.time <= U64_MAX - FRAME_PERIOD)
     && (before != [] ==> last[0].time < OpenWindow(before[|before| - 1])))
  }

  /** Forward-running apart from true resets is enough to keep every time. */
  lemma {:induction false} EpochsAreOrderly(epochs: seq<seq<Arrival>>)
    requires Epochs(epochs)
    ensures Run(IDLE, Join(epochs)).ok && Orderly(IDLE, Join(epochs))
    ensures epochs != [] ==> var acc := Run(IDLE, Join(epochs)).acc;
                             acc.active && acc.windowStart == OpenWindow(epochs[|epochs| - 1])
  {
    if epochs != [] {
      var before, last := epochs[..|epochs| - 1], epochs[|epochs| - 1];
      var run := Run(IDLE, Join(before));
      EpochsAreOrderly(before);
      ForwardIsOrderly(last);
      RunConcat(IDLE, Join(before), last);
      OrderlyConcat(IDLE, Join(before), last);
      assert last[|last| - 1] in last;
      FramesAreGroups(last);
      if before == [] {
        assert Join(before) == [];
      } else {
        OrderlyRestart(run.acc, last);
        RestartsAfterBackwardClock(run.acc, last);
      }
    }
  }

  function DiscardedOf(log: seq<Closed>): seq<LidarBatch> {
    if log == [] then []
    else
      var rest := DiscardedOf(log[..|log| - 1]);
      match log[|log| - 1]
      case Published(_) => rest
      case Discarded(frame) => rest + [frame]
  }

  lemma {:induction false} DiscardedConcat(a: seq<Closed>, b: seq<Closed>)
    ensures DiscardedOf(a + b) == DiscardedOf(a) + DiscardedOf(b)
  {
    if b == [] {
      assert a + b == a;
    } else {
      assert (a + b)[..|a + b| - 1] == a + b[..|b| - 1];
      DiscardedConcat(a, b[..|b| - 1]);
    }
  }

  lemma {:induction false} NothingDiscarded(log: seq<Closed>)
    requires forall c :: c in log ==> c.Published?
    ensures DiscardedOf(log) == []
  {
    if log != [] {
      assert log[|log| - 1] in log;
      NothingDiscarded(log[..|log| - 1]);
    }
  }

  lemma DecodeAllConcat(a: seq<LidarBatch>, b: seq<LidarBatch>)
    ensures DecodeAll(a + b) == DecodeAll(a) + DecodeAll(b)
  {
  }

  /** An epoch's nonempty windows before that of its last point. */
  function FullGroups(epoch: seq<Arrival>): seq<seq<Sighting>> {
    Groups(FirstTime(epoch), Sightings(epoch), LastWindow(epoch))
  }

  /** The group of an epoch's last point. */
  function OpenGroup(epoch: seq<Arrival>): seq<Sighting> {
    Bucket(FirstTime(epoch), Sightings(epoch), LastWindow(epoch))
  }

  function AllFullGroups(epochs: seq<seq<Arrival>>): seq<seq<Sighting>> {
    if epochs == [] then []
    else AllFullGroups(epochs[..|epochs| - 1]) + FullGroups(epochs[|epochs| - 1])
  }

  function OpenGroups(epochs: seq<seq<Arrival>>): (r: seq<seq<Sighting>>)
    ensures |r| == |epochs| && forall i :: 0 <= i < |r| ==> r[i] == OpenGroup(epochs[i])
  {
    seq(|epochs|, i requires 0 <= i < |epochs| => OpenGroup(epochs[i]))
  }

  /** Published: every full group of every epoch. Discarded, then pending: the open group of each epoch. */
  predicate EpochsGrouped(run: Step, epochs: seq<seq<Arrival>>) {
    && run.ok
    && DecodeAll(PublishedOf(run.closed)) == AllFullGroups(epochs)
    && DecodeAll(DiscardedOf(run.closed)) + [FrameSightings(run.acc.frame)] == OpenGroups(epochs)
  }

  predicate EpochOutcome(epoch: seq<Arrival>) {
    var run := Run(IDLE, epoch);
    && run.ok && run.acc.active
    && DecodeAll(PublishedOf(run.closed)) == FullGroups(epoch) && DiscardedOf(run.closed) == []
    && FrameSightings(run.acc.frame) == OpenGroup(epoch)
  }

  lemma OneEpoch(epoch: seq<Arrival>)
    requires epoch != [] && Nondecreasing(epoch)
    requires forall a :: a in epoch ==> a.time <= U64_MAX - FRAME_PERIOD
    ensures EpochOutcome(epoch)
  {
    assert epoch[|epoch| - 1] in epoch;
    FramesAreGroups(epoch);
    NothingDiscarded(Run(IDLE, epoch).closed);
  }

  lemma LogOfReset(gone: LidarBatch)
    ensures PublishedOf([Discarded(gone)]) == [] && DiscardedOf([Discarded(gone)]) == [gone]
  {
    assert [Discarded(gone)][..0] == [];
  }

  /** What a reset between two runs publishes and discards. */
  lemma LogsAroundReset(first: seq<Closed>, gone: LidarBatch, second: seq<Closed>)
    ensures var log := first + ([Discarded(gone)] + second);
            && PublishedOf(log) == PublishedOf(first) + PublishedOf(second)
            && DiscardedOf(log) == DiscardedOf(first) + [gone] + DiscardedOf(second)
  {
    var reset := [Discarded(gone)];
    LogOfReset(gone);
    PublishedConcat(reset, second);
    PublishedConcat(first, reset + second);
    DiscardedConcat(reset, second);
    DiscardedConcat(first, reset + second);
  }

  lemma GroupsSnoc(before: seq<seq<Arrival>>, last: seq<Arrival>)
    ensures AllFullGroups(before + [last]) == AllFullGroups(before) + FullGroups(last)
    ensures OpenGroups(before + [last]) == OpenGroups(before) + [OpenGroup(last)]
  {
    assert (before + [last])[..|before|] == before;
  }

  /** A run over a further epoch, after a true reset. */
  lemma AnotherEpoch(run: Step, inner: Step, before: seq<seq<Arrival>>, last: seq<Arrival>)
    requires EpochsGrouped(run, before) && inner.ok
    requires DecodeAll(PublishedOf(inner.closed)) == FullGroups(last) && DiscardedOf(inner.closed) == []
    requires FrameSightings(inner.acc.frame) == OpenGroup(last)
    ensures EpochsGrouped(Step(inner.acc, run.closed + ([Discarded(run.acc.frame)] + inner.closed), true),
                          before + [last])
  {
    LogsAroundReset(run.closed, run.acc.frame, inner.closed);
    GroupsSnoc(before, last);
    DecodeAllConcat(PublishedOf(run.closed), PublishedOf(inner.closed));
    DecodeAllSnoc(DiscardedOf(run.closed), run.acc.frame);
  }

  /** The frames of a clock that runs forward except for true resets: the groups, epoch by epoch. */
  lemma {:induction false} FramesAreEpochGroups(epochs: seq<seq<Arrival>>)
    requires Epochs(epochs) && epochs != []
    ensures EpochsGrouped(Run(IDLE, Join(epochs)), epochs)
  {
    var before, last := epochs[..|epochs| - 1], epochs[|epochs| - 1];
    assert epochs == before + [last];
    OneEpoch(last);
    if before == [] {
      FirstEpoch(last);
      assert Join(before) == [];
    } else {
      EpochsAreOrderly(before);
      FramesAreEpochGroups(before);
      NextEpoch(Join(before), last);
      AnotherEpoch(Run(IDLE, Join(before)), Run(IDLE, last), before, last);
    }
  }

  lemma FirstEpoch(epoch: seq<Arrival>)
    requires EpochOutcome(epoch)
    ensures EpochsGrouped(Run(IDLE, [] + epoch), [epoch])
  {
    assert [] + epoch == epoch;
    GroupsSnoc([], epoch);
    assert [] + [epoch] == [epoch] && AllFullGroups([]) + FullGroups(epoch) == FullGroups(epoch);
    assert OpenGroups([]) + [OpenGroup(epoch)] == [OpenGroup(epoch)];
    assert DecodeAll([]) + [OpenGroup(epoch)] == [OpenGroup(epoch)];
  }

  lemma NextEpoch(past: seq<Arrival>, epoch: seq<Arrival>)
    requires Run(IDLE, past).ok && Run(IDLE, past).acc.active && Run(IDLE, epoch).ok
    requires epoch != [] && epoch[0].time < Run(IDLE, past).acc.windowStart
    ensures var run, inner := Run(IDLE, past), Run(IDLE, epoch);
            Run(IDLE, past + epoch)
              == Step(inner.acc, run.closed + ([Discarded(run.acc.frame)] + inner.closed), true)
  {
    RunConcat(IDLE, past, epoch);
    RestartsAfterBackwardClock(Run(IDLE, past).acc, epoch);
  }
}
