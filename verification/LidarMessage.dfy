// What a subscriber of the point cloud reads of the sensor's returns, name by name.
module LidarMessage {
  import opened Words
  import opened LidarTypes
  import opened LidarConversion
  import opened PointCloudLayout

  /** The eleven fields, as a subscriber expects them. */
  lemma TableAsPublished()
    ensures Find(Table(), "x") == Some(PointField("x", 0, Float32, 1))
    ensures Find(Table(), "y") == Some(PointField("y", 4, Float32, 1))
    ensures Find(Table(), "z") == Some(PointField("z", 8, Float32, 1))
    ensures Find(Table(), "intensity") == Some(PointField("intensity", 12, Uint8, 1))
    ensures Find(Table(), "tag") == Some(PointField("tag", 13, Uint8, 1))
    ensures Find(Table(), "line") == Some(PointField("line", 14, Uint8, 1))
    ensures Find(Table(), "line_valid") == Some(PointField("line_valid", 15, Uint8, 1))
    ensures Find(Table(), "offset_time") == Some(PointField("offset_time", 16, Uint32, 1))
    ensures Find(Table(), "ring") == Some(PointField("ring", 20, Uint16, 1))
    ensures Find(Table(), "return_id") == Some(PointField("return_id", 22, Uint8, 1))
    ensures Find(Table(), "confidence") == Some(PointField("confidence", 23, Uint8, 1))
    ensures |Table()| == 11 && POINT_STEP == 28
  {
    PublishedNames();
    FindAll();
  }

  lemma PublishedNames()
    ensures |NAMES| == 11
    ensures NAMES[0] == "x" && NAMES[1] == "y" && NAMES[2] == "z" && NAMES[3] == "intensity" && NAMES[4] == "tag"
    ensures NAMES[5] == "offset_time" && NAMES[6] == "line" && NAMES[7] == "line_valid" && NAMES[8] == "ring"
    ensures NAMES[9] == "return_id" && NAMES[10] == "confidence"
  {
  }

  lemma FindAll()
    ensures forall j :: 0 <= j < |NAMES| ==> Find(Table(), NAMES[j]) == Some(Table()[j])
  {
    forall j | 0 <= j < |NAMES| ensures Find(Table(), NAMES[j]) == Some(Table()[j]) {
      FindInTable(j);
    }
  }

  /** The record of a converted return shows every measurement of the return under its own name. */
  predicate Shows(record: seq<uint8>, p: SdkPoint, offset: nat) {
    && ReadField(Table(), record, "x") == Some(p.x)
    && ReadField(Table(), record, "y") == Some(p.y)
    && ReadField(Table(), record, "z") == Some(p.z)
    && ReadField(Table(), record, "intensity") == Some(p.reflectivity)
    && ReadField(Table(), record, "tag") == Some(p.tag)
    && ReadField(Table(), record, "line") == Some(p.line)
    && ReadField(Table(), record, "line_valid") == Some(if p.lineValid then 1 else 0)
    && ReadField(Table(), record, "offset_time") == Some(offset)
    && ReadField(Table(), record, "ring") == Some(p.ring)
    && ReadField(Table(), record, "return_id") == Some(p.returnId)
    && ReadField(Table(), record, "confidence") == Some(p.confidence)
  }

  lemma ReadAll(p: LidarPoint)
    ensures forall j :: 0 <= j < |NAMES| ==> ReadField(Table(), Record(p), NAMES[j]) == Some(FieldOf(p, j))
  {
    forall j | 0 <= j < |NAMES| ensures ReadField(Table(), Record(p), NAMES[j]) == Some(FieldOf(p, j)) {
      ReadFromRecord(p, j);
    }
  }

  lemma RecordShows(p: SdkPoint, offset: uint32)
    ensures Shows(Record(Converted(p, offset)), p, offset)
  {
    ReadAll(Converted(p, offset));
    PublishedNames();
  }

  /**
   * From the sensor to the subscriber, for a batch published as it was converted: record k shows the
   * return that is k-th in stable time order, and its absolute time is the message's plus its offset.
   */
  lemma MessageShowsReturns(batch: SdkBatch, times: seq<uint64>, base: uint64, out: LidarBatch, k: nat)
    requires |times| == |batch.points| && IsConversion(batch, times, base, out) && k < |out.points|
    ensures var order := StableSort(Keys(times));
            && |order| == |out.points| && order[k].index < |batch.points|
            && (k + 1) * POINT_STEP <= |Records(out.points)|
            && Shows(RecordOf(Records(out.points), k), batch.points[order[k].index], out.points[k].offset)
            && out.timestamp + out.points[k].offset == times[order[k].index]
  {
    SortIsStable(times);
    var order := StableSort(Keys(times));
    var p := batch.points[order[k].index];
    assert out.points[k] == Converted(p, out.points[k].offset);
    RecordAt(out.points, k);
    RecordShows(p, out.points[k].offset);
  }

  /** A converted batch keeps its header; its timestamp is its earliest point, or the base time without any. */
  lemma ConversionHeader(batch: SdkBatch, times: seq<uint64>, base: uint64, out: LidarBatch)
    requires |times| == |batch.points| && IsConversion(batch, times, base, out)
    ensures out.batchId == batch.batchId && out.raw == batch.timestampRaw && out.explicitTimes
    ensures times == [] ==> out.timestamp == base && out.points == []
    ensures times != [] ==> out.timestamp in times && forall i :: 0 <= i < |times| ==> out.timestamp <= times[i]
  {
    SortIsStable(times);
    var order := StableSort(Keys(times));
    if times != [] {
      assert times[order[0].index] == out.timestamp;
      forall i | 0 <= i < |times| ensures out.timestamp <= times[i] {
        var k :| 0 <= k < |order| && order[k] == Keyed(times[i], i);
        FirstIsLeast(order, k);
      }
    }
  }
}
