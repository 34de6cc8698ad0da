// From transport batches to frames: conversion and accumulation over whole runs.
module LidarPipeline {
  import opened Words
  import opened LidarTypes
  import opened LidarConversion
  import opened FrameAccumulator
  import opened FrameLedger
  import opened FrameSessions

  /** A transport batch with the absolute time of each of its points and the selected base time. */
  datatype Packet = Packet(batch: SdkBatch, times: seq<uint64>, base: uint64)

  predicate Matched(p: Packet) {
    |p.times| == |p.batch.points|
  }

  /** What the sensor saw: every source point at its absolute time, as it came. */
  function Source(p: Packet): (r: seq<Sighting>)
    requires Matched(p)
    ensures |r| == |p.times|
    ensures forall i :: 0 <= i < |r| ==> r[i] == Sighting(p.times[i], Converted(p.batch.points[i], 0))
  {
    Look(p, Keys(p.times))
  }

  const NO_POINT := SdkPoint(0, 0, 0, 0, 0, 0, 0, false, 0, 0)

  function LookAt(p: Packet, key: Keyed): Sighting {
    var point := if key.index < |p.batch.points| then p.batch.points[key.index] else NO_POINT;
    Sighting(key.time, Converted(point, 0))
  }

  function Look(p: Packet, keys: seq<Keyed>): (r: seq<Sighting>)
    ensures |r| == |keys| && forall k :: 0 <= k < |keys| ==> r[k] == LookAt(p, keys[k])
  {
    seq(|keys|, k requires 0 <= k < |keys| => LookAt(p, keys[k]))
  }

  lemma LookCons(p: Packet, x: Keyed, s: seq<Keyed>)
    ensures Look(p, [x] + s) == [LookAt(p, x)] + Look(p, s)
  {
  }

  lemma {:induction false} InsertKeepsAll(p: Packet, x: Keyed, s: seq<Keyed>)
    ensures multiset(Look(p, Insert(x, s))) == multiset{LookAt(p, x)} + multiset(Look(p, s))
  {
    LookCons(p, x, s);
    if s != [] {
      var tail := s[1..];
      InsertKeepsAll(p, x, tail);
      LookCons(p, s[0], Insert(x, tail));
      LookCons(p, s[0], tail);
      assert s == [s[0]] + tail;
    }
  }

  lemma {:induction false} SortKeepsAll(p: Packet, s: seq<Keyed>)
    ensures multiset(Look(p, StableSort(s))) == multiset(Look(p, s))
  {
    if s != [] {
      SortKeepsAll(p, s[1..]);
      InsertKeepsAll(p, s[0], StableSort(s[1..]));
      LookCons(p, s[0], s[1..]);
      assert s == [s[0]] + s[1..];
    }
  }

  /** The source points in their stable time order. */
  function Sorted(p: Packet): seq<Sighting>
    requires Matched(p)
  {
    Look(p, StableSort(Keys(p.times)))
  }

  /** A converted batch, seen from the accumulator, is exactly the sorted source. */
  lemma ConversionSightings(p: Packet, out: LidarBatch)
    requires Matched(p) && IsConversion(p.batch, p.times, p.base, out)
    ensures Sightings(Arrivals(out)) == Sorted(p)
  {
    SortIsStable(p.times);
    var order := StableSort(Keys(p.times));
    var seen, sorted := Sightings(Arrivals(out)), Sorted(p);
    forall k | 0 <= k < |order| ensures seen[k] == sorted[k] {
      assert Arrivals(out)[k] == ArrivalAt(out, k);
    }
  }

  predicate AllMatched(packets: seq<Packet>) {
    forall i :: 0 <= i < |packets| ==> Matched(packets[i])
  }

  function SourceAll(packets: seq<Packet>): seq<Sighting>
    requires AllMatched(packets)
  {
    if packets == [] then [] else SourceAll(packets[..|packets| - 1]) + Source(packets[|packets| - 1])
  }

  function SortedAll(packets: seq<Packet>): seq<Sighting>
    requires AllMatched(packets)
  {
    if packets == [] then [] else SortedAll(packets[..|packets| - 1]) + Sorted(packets[|packets| - 1])
  }

  lemma {:induction false} SortedAllKeepsAll(packets: seq<Packet>)
    requires AllMatched(packets)
    ensures multiset(SortedAll(packets)) == multiset(SourceAll(packets))
  {
    if packets != [] {
      var n := |packets| - 1;
      SortedAllKeepsAll(packets[..n]);
      SortKeepsAll(packets[n], Keys(packets[n].times));
    }
  }

  // ---- whole runs ----

  /** A packet and its conversion, or a LiDAR start or stop. */
  datatype Event = Delivery(packet: Packet, converted: LidarBatch) | StreamRestart

  ghost predicate Converts(events: seq<Event>) {
    forall i :: 0 <= i < |events| && events[i].Delivery? ==>
      Matched(events[i].packet) && IsConversion(events[i].packet.batch, events[i].packet.times,
                                                events[i].packet.base, events[i].converted)
  }

  function Packets(events: seq<Event>): seq<Packet> {
    if events == [] then []
    else Packets(events[..|events| - 1])
         + (if events[|events| - 1].Delivery? then [events[|events| - 1].packet] else [])
  }

  function DeedOf(event: Event): Deed {
    if event.Delivery? then Batch(event.converted) else Restart
  }

  function Deeds(events: seq<Event>): (r: seq<Deed>)
    ensures |r| == |events| && forall i :: 0 <= i < |r| ==> r[i] == DeedOf(events[i])
  {
    seq(|events|, i requires 0 <= i < |events| => DeedOf(events[i]))
  }

  lemma InputsSnoc(before: seq<Event>, last: Event)
    ensures Inputs(Deeds(before + [last])) == Inputs(Deeds(before)) + PointsOf(DeedOf(last))
  {
    var deeds := Deeds(before + [last]);
    assert deeds[..|deeds| - 1] == Deeds(before);
  }

  lemma SortedAllSnoc(packets: seq<Packet>, packet: Packet)
    requires AllMatched(packets) && Matched(packet)
    ensures AllMatched(packets + [packet])
    ensures SortedAll(packets + [packet]) == SortedAll(packets) + Sorted(packet)
  {
    assert (packets + [packet])[..|packets|] == packets;
  }

  /** The accumulator is fed exactly the sorted source points. */
  lemma {:induction false} InputsAreSorted(events: seq<Event>)
    requires Converts(events)
    ensures AllMatched(Packets(events))
    ensures Sightings(Inputs(Deeds(events))) == SortedAll(Packets(events))
  {
    if events != [] {
      var before, last := events[..|events| - 1], events[|events| - 1];
      assert events == before + [last];
      InputsAreSorted(before);
      InputsSnoc(before, last);
      SightingsConcat(Inputs(Deeds(before)), PointsOf(DeedOf(last)));
      EventSightings(before, last);
    }
  }

  lemma EventSightings(before: seq<Event>, last: Event)
    requires AllMatched(Packets(before))
    requires Converts([last])
    ensures AllMatched(Packets(before + [last]))
    ensures SortedAll(Packets(before + [last])) == SortedAll(Packets(before)) + Sightings(PointsOf(DeedOf(last)))
  {
    assert (before + [last])[..|before|] == before;
    assert [last][0] == last;
    match last
    case Delivery(packet, converted) =>
      ConversionSightings(packet, converted);
      SortedAllSnoc(Packets(before), packet);
    case StreamRestart =>
      assert Packets(before) + [] == Packets(before);
      assert SortedAll(Packets(before)) + [] == SortedAll(Packets(before));
  }

  lemma Without<T>(s: seq<T>, k: nat)
    requires k < |s|
    ensures multiset(s) == multiset(s[..k] + s[k + 1..]) + multiset{s[k]}
  {
    assert s == s[..k] + [s[k]] + s[k + 1..];
  }

  lemma WithoutFirst<T>(s: seq<T>, t: seq<T>, k: nat)
    requires multiset(s) == multiset(t) && s != [] && k < |t| && t[k] == s[0]
    ensures multiset(s[..0] + s[1..]) == multiset(t[..k] + t[k + 1..])
  {
    Without(s, 0);
    Without(t, k);
    assert multiset(s[..0] + s[1..]) == multiset(s) - multiset{s[0]};
    assert multiset(t[..k] + t[k + 1..]) == multiset(t) - multiset{t[k]};
  }

  lemma PayloadsWithout(s: seq<Sighting>, k: nat)
    requires k < |s|
    ensures multiset(Payloads(s)) == multiset(Payloads(s[..k] + s[k + 1..])) + multiset{s[k].payload}
  {
    assert Payloads(s)[..k] + Payloads(s)[k + 1..] == Payloads(s[..k] + s[k + 1..]);
    Without(Payloads(s), k);
  }

  lemma FoundIn<T>(s: seq<T>, t: seq<T>) returns (k: nat)
    requires multiset(s) == multiset(t) && s != []
    ensures k < |t| && t[k] == s[0]
  {
    assert s[0] in multiset(t);
    k :| 0 <= k < |t| && t[k] == s[0];
  }

  lemma NoneLeft<T>(t: seq<T>)
    requires multiset(t) == multiset{}
    ensures t == []
  {
    assert |t| == |multiset(t)|;
  }

  lemma {:induction false} PayloadsOfSame(s: seq<Sighting>, t: seq<Sighting>)
    requires multiset(s) == multiset(t)
    ensures multiset(Payloads(s)) == multiset(Payloads(t))
    decreases |s|
  {
    if s == [] {
      NoneLeft(t);
    } else {
      var k := FoundIn(s, t);
      var s', t' := s[..0] + s[1..], t[..k] + t[k + 1..];
      WithoutFirst(s, t, k);
      PayloadsOfSame(s', t');
      PayloadsWithout(s, 0);
      PayloadsWithout(t, k);
    }
  }

  /** The frames of a run: published, discarded and pending ones together, as a consumer reads them. */
  function Outcome(events: seq<Event>): Step {
    Session(IDLE, Deeds(events))
  }

  /**
   * End to end, over any run of packets and stream restarts from a fresh accumulator. Whatever the
   * times, published, discarded and pending frames together hold each source measurement exactly once,
   * packet by packet in stable time order. They hold them at their absolute times, and all offsets are
   * below 100 ms, exactly when no point was early. The published ones are what the append calls return.
   */
  lemma {:induction false} EndToEnd(events: seq<Event>)
    requires Converts(events) && Outcome(events).ok
    ensures AllMatched(Packets(events))
    ensures var books, packets := Books(Outcome(events)), Packets(events);
            && Payloads(books) == Payloads(SortedAll(packets))
            && multiset(Payloads(books)) == multiset(Payloads(SourceAll(packets)))
            && (books == SortedAll(packets) <==> SessionOrderly(IDLE, Deeds(events)))
            && (SessionOrderly(IDLE, Deeds(events)) ==> multiset(books) == multiset(SourceAll(packets)))
    ensures Returned(IDLE, Deeds(events)).frames == PublishedOf(Outcome(events).closed)
    ensures AllInPeriod(Outcome(events).closed) && OffsetsInPeriod(Outcome(events).acc.frame)
            <==> SessionOrderly(IDLE, Deeds(events))
  {
    var deeds, packets := Deeds(events), Packets(events);
    InputsAreSorted(events);
    SortedAllKeepsAll(packets);
    PayloadsOfSame(SortedAll(packets), SourceAll(packets));
    FreshSession(deeds, SortedAll(packets));
    ReturnedIsPublished(IDLE, deeds);
    SessionOffsets(IDLE, deeds);
  }
}
