// prism_ros2_node.cpp, publishLidar: the 28-byte PointCloud2 records and their descriptor table.
module PointCloudLayout {
  import opened Words
  import opened LidarTypes

  const POINT_STEP: nat := 28

  datatype FieldType = Uint8 | Uint16 | Uint32 | Float32

  function Width(t: FieldType): nat {
    match t
    case Uint8 => 1
    case Uint16 => 2
    case Uint32 => 4
    case Float32 => 4
  }

  datatype PointField = PointField(name: string, offset: nat, fieldType: FieldType, count: nat)

  const NAMES: seq<string> :=
    ["x", "y", "z", "intensity", "tag", "offset_time", "line", "line_valid", "ring", "return_id", "confidence"]
  const OFFSETS: seq<nat> := [0, 4, 8, 12, 13, 16, 14, 15, 20, 22, 23]
  const TYPES: seq<FieldType> :=
    [Float32, Float32, Float32, Uint8, Uint8, Uint32, Uint8, Uint8, Uint16, Uint8, Uint8]

  // ---- bytes in memory order on a little-endian host ----

  function Bytes(value: nat, width: nat): (r: seq<uint8>)
    ensures |r| == width
  {
    if width == 0 then [] else [value % 256] + Bytes(value / 256, width - 1)
  }

  function Value(bytes: seq<uint8>): nat {
    if bytes == [] then 0 else bytes[0] + 256 * Value(bytes[1..])
  }

  function Power256(width: nat): nat {
    if width == 0 then 1 else 256 * Power256(width - 1)
  }

  lemma {:induction false} ValueOfBytes(value: nat, width: nat)
    requires value < Power256(width)
    ensures Value(Bytes(value, width)) == value
  {
    if width > 0 {
      ValueOfBytes(value / 256, width - 1);
      assert Bytes(value, width)[1..] == Bytes(value / 256, width - 1);
    }
  }

  // ---- the writer ----

  /** Byte k of a point's record: the fields, then four zero bytes. */
  function RecordByte(p: LidarPoint, k: nat): uint8
    requires k < POINT_STEP
  {
    if k < 4 then Bytes(p.x, 4)[k]
    else if k < 8 then Bytes(p.y, 4)[k - 4]
    else if k < 12 then Bytes(p.z, 4)[k - 8]
    else if k < 16 then [p.reflectivity, p.tag, p.line, p.lineValid][k - 12]
    else if k < 20 then Bytes(p.offset, 4)[k - 16]
    else if k < 22 then Bytes(p.ring, 2)[k - 20]
    else if k < 24 then [p.returnId, p.confidence][k - 22]
    else 0
  }

  function Record(p: LidarPoint): (r: seq<uint8>)
    ensures |r| == POINT_STEP
    ensures forall k :: 0 <= k < POINT_STEP ==> r[k] == RecordByte(p, k)
  {
    seq(POINT_STEP, k requires 0 <= k < POINT_STEP => RecordByte(p, k))
  }

  function Records(points: seq<LidarPoint>): (r: seq<uint8>)
    ensures |r| == POINT_STEP * |points|
  {
    if points == [] then [] else Records(points[..|points| - 1]) + Record(points[|points| - 1])
  }

  /** std::memcpy of a value of the given width. */
  method CopyTo(data: array<uint8>, at: nat, value: nat, width: nat)
    requires at + width <= data.Length
    modifies data
    ensures forall k :: at <= k < at + width ==> data[k] == Bytes(value, width)[k - at]
    ensures forall k :: 0 <= k < data.Length && !(at <= k < at + width) ==> data[k] == old(data[k])
  {
    var rest := value;
    for i := 0 to width
      invariant forall k :: 0 <= k < data.Length && !(at <= k < at + i) ==> data[k] == old(data[k])
      invariant data[at..at + i] + Bytes(rest, width - i) == Bytes(value, width)
    {
      ghost var done, coming := data[at..at + i], Bytes(rest, width - i);
      data[at + i] := rest % 256;
      rest := rest / 256;
      assert data[at..at + i + 1] == done + [coming[0]];
      assert coming == [coming[0]] + Bytes(rest, width - i - 1);
    }
    assert data[at..at + width] == Bytes(value, width);
    assert forall k :: at <= k < at + width ==> data[k] == data[at..at + width][k - at];
  }

  method WritePoint(data: array<uint8>, output: nat, point: LidarPoint)
    requires output + POINT_STEP <= data.Length
    requires forall k :: output + 24 <= k < output + 28 ==> data[k] == 0
    modifies data
    ensures forall k :: output <= k < output + POINT_STEP ==> data[k] == RecordByte(point, k - output)
    ensures forall k :: 0 <= k < data.Length && !(output <= k < output + POINT_STEP) ==> data[k] == old(data[k])
  {
    CopyTo(data, output + 0, point.x, 4);
    CopyTo(data, output + 4, point.y, 4);
    CopyTo(data, output + 8, point.z, 4);
    data[output + 12] := point.reflectivity;
    data[output + 13] := point.tag;
    data[output + 14] := point.line;
    data[output + 15] := point.lineValid;
    CopyTo(data, output + 20, point.ring, 2);
    data[output + 22] := point.returnId;
    data[output + 23] := point.confidence;
    CopyTo(data, output + 16, point.offset, 4);
  }

  method DescribeFields() returns (fields: seq<PointField>)
    ensures fields == Table()
  {
    fields := [];
    for i := 0 to |NAMES|
      invariant fields == Table()[..i]
    {
      fields := fields + [PointField(NAMES[i], OFFSETS[i], TYPES[i], 1)];
    }
  }

  lemma RecordAppended(data: seq<uint8>, points: seq<LidarPoint>, i: nat)
    requires i < |points| && (i + 1) * POINT_STEP <= |data|
    requires data[..i * POINT_STEP] == Records(points[..i])
    requires data[i * POINT_STEP..i * POINT_STEP + POINT_STEP] == Record(points[i])
    ensures data[..(i + 1) * POINT_STEP] == Records(points[..i + 1])
  {
    assert points[..i + 1][..i] == points[..i];
    assert data[..(i + 1) * POINT_STEP] == data[..i * POINT_STEP] + data[i * POINT_STEP..i * POINT_STEP + POINT_STEP];
  }

  /**
   * The descriptor table and the data of the published message. The buffer is sized by a 32-bit
   * product; not ok means that the writer would leave it, which it does exactly when that wraps.
   */
  method PackPoints(points: seq<LidarPoint>) returns (ok: bool, fields: seq<PointField>, data: array<uint8>)
    ensures ok <==> POINT_STEP * |points| <= U32_MAX
    ensures ok ==> fields == Table()
    ensures ok ==> fresh(data) && data[..] == Records(points)
  {
    fields := DescribeFields();
    var rowStep: uint32 := Wrap32(POINT_STEP * |points|);
    data := new uint8[rowStep](_ => 0);
    for i := 0 to |points|
      invariant i * POINT_STEP <= data.Length
      invariant data[..i * POINT_STEP] == Records(points[..i])
      invariant forall k :: i * POINT_STEP <= k < data.Length ==> data[k] == 0
    {
      var output := i * POINT_STEP;
      if output + POINT_STEP > data.Length {
        return false, fields, data;
      }
      ghost var done := data[..output];
      WritePoint(data, output, points[i]);
      assert data[..output] == done;
      assert data[output..output + POINT_STEP] == Record(points[i]);
      RecordAppended(data[..], points, i);
      assert data[..][..output + POINT_STEP] == data[..output + POINT_STEP];
    }
    assert points[..|points|] == points;
    ok := true;
  }

  // ---- a subscriber ----

  function Table(): (r: seq<PointField>)
    ensures |r| == |NAMES|
    ensures forall i :: 0 <= i < |r| ==> r[i] == PointField(NAMES[i], OFFSETS[i], TYPES[i], 1)
  {
    seq(|NAMES|, i requires 0 <= i < |NAMES| => PointField(NAMES[i], OFFSETS[i], TYPES[i], 1))
  }

  function Find(fields: seq<PointField>, name: string): Option<PointField> {
    if fields == [] then None
    else if fields[0].name == name then Some(fields[0])
    else Find(fields[1..], name)
  }

  /** The point_step bytes of point i. */
  function RecordOf(data: seq<uint8>, i: nat): seq<uint8>
    requires (i + 1) * POINT_STEP <= |data|
  {
    data[i * POINT_STEP..(i + 1) * POINT_STEP]
  }

  /** Reads a named field as the descriptors say; None without a readable one. */
  function ReadField(fields: seq<PointField>, record: seq<uint8>, name: string): Option<nat> {
    match Find(fields, name)
    case None => None
    case Some(f) =>
      var end := f.offset + Width(f.fieldType);
      if end > |record| then None else Some(Value(record[f.offset..end]))
  }

  /** The value of point p under each published name. */
  function FieldOf(p: LidarPoint, j: nat): nat
    requires j < |NAMES|
  {
    [p.x, p.y, p.z, p.reflectivity, p.tag, p.offset, p.line, p.lineValid, p.ring, p.returnId, p.confidence][j]
  }

  lemma {:induction false} RecordAt(points: seq<LidarPoint>, i: nat)
    requires i < |points|
    ensures (i + 1) * POINT_STEP <= |Records(points)|
    ensures RecordOf(Records(points), i) == Record(points[i])
  {
    if i < |points| - 1 {
      RecordAt(points[..|points| - 1], i);
    }
  }

  lemma FindInTable(j: nat)
    requires j < |NAMES|
    ensures Find(Table(), NAMES[j]) == Some(Table()[j])
  {
    FindFrom(Table(), j);
  }

  lemma {:induction false} FindFrom(fields: seq<PointField>, j: nat)
    requires j < |fields|
    requires forall a, b :: 0 <= a < b < |fields| ==> fields[a].name != fields[b].name
    ensures Find(fields, fields[j].name) == Some(fields[j])
  {
    if j > 0 {
      FindFrom(fields[1..], j - 1);
    }
  }

  /** The bytes that descriptor j points at inside one record. */
  lemma FieldBytes(p: LidarPoint, j: nat)
    requires j < |NAMES|
    ensures OFFSETS[j] + Width(TYPES[j]) <= POINT_STEP
    ensures Value(Record(p)[OFFSETS[j]..OFFSETS[j] + Width(TYPES[j])]) == FieldOf(p, j)
  {
    var v, w := FieldOf(p, j), Width(TYPES[j]);
    assert Power256(1) == 0x100 && Power256(2) == 0x1_0000;
    assert Power256(3) == 0x100_0000 && Power256(4) == 0x1_0000_0000;
    assert v < Power256(w);
    ValueOfBytes(v, w);
    assert Bytes(v, 1) == [v % 256] + Bytes(v / 256, 0);
    assert Record(p)[OFFSETS[j]..OFFSETS[j] + w] == Bytes(v, w);
  }

  lemma ReadFromRecord(p: LidarPoint, j: nat)
    requires j < |NAMES|
    ensures ReadField(Table(), Record(p), NAMES[j]) == Some(FieldOf(p, j))
  {
    FindInTable(j);
    FieldBytes(p, j);
  }

  /** Round trip: every field of every point is read back by name through the descriptor table. */
  lemma RoundTrip(points: seq<LidarPoint>, i: nat, j: nat)
    requires i < |points| && j < |NAMES|
    ensures (i + 1) * POINT_STEP <= |Records(points)|
    ensures ReadField(Table(), RecordOf(Records(points), i), NAMES[j]) == Some(FieldOf(points[i], j))
  {
    RecordAt(points, i);
    ReadFromRecord(points[i], j);
  }

  /** Two messages with the same bytes carry the same points: nothing is lost. */
  lemma RecordsInjective(a: seq<LidarPoint>, b: seq<LidarPoint>)
    requires Records(a) == Records(b)
    ensures a == b
  {
    assert |a| == |b|;
    forall i | 0 <= i < |a| ensures a[i] == b[i] {
      forall j | 0 <= j < |NAMES| ensures FieldOf(a[i], j) == FieldOf(b[i], j) {
        RoundTrip(a, i, j);
        RoundTrip(b, i, j);
      }
      assert FieldOf(a[i], 0) == FieldOf(b[i], 0) && FieldOf(a[i], 1) == FieldOf(b[i], 1);
      assert FieldOf(a[i], 2) == FieldOf(b[i], 2) && FieldOf(a[i], 3) == FieldOf(b[i], 3);
      assert FieldOf(a[i], 4) == FieldOf(b[i], 4) && FieldOf(a[i], 5) == FieldOf(b[i], 5);
      assert FieldOf(a[i], 6) == FieldOf(b[i], 6) && FieldOf(a[i], 7) == FieldOf(b[i], 7);
      assert FieldOf(a[i], 8) == FieldOf(b[i], 8) && FieldOf(a[i], 9) == FieldOf(b[i], 9);
      assert FieldOf(a[i], 10) == FieldOf(b[i], 10);
    }
  }

  predicate Covers(i: nat, j: nat, byte: nat)
    requires j < |NAMES|
  {
    i * POINT_STEP + OFFSETS[j] <= byte < i * POINT_STEP + OFFSETS[j] + Width(TYPES[j])
  }

  /** A byte of the message belongs to at most one field of one point. */
  lemma NoOverlap(i: nat, j: nat, k: nat, l: nat, byte: nat)
    requires j < |NAMES| && l < |NAMES|
    requires Covers(i, j, byte) && Covers(k, l, byte)
    ensures i == k && j == l
  {
    assert OFFSETS[j] + Width(TYPES[j]) <= 24 && OFFSETS[l] + Width(TYPES[l]) <= 24;
    assert byte / POINT_STEP == i && byte / POINT_STEP == k;
  }

  /** The bytes that belong to no field are the last four of each record, and they are zero. */
  lemma PaddingIsZero(points: seq<LidarPoint>, byte: nat)
    requires byte < |Records(points)|
    ensures (exists j :: 0 <= j < |NAMES| && Covers(byte / POINT_STEP, j, byte)) <==> byte % POINT_STEP < 24
    ensures byte % POINT_STEP >= 24 ==> Records(points)[byte] == 0
  {
    var i, at := byte / POINT_STEP, byte % POINT_STEP;
    assert byte == i * POINT_STEP + at;
    assert forall j :: 0 <= j < |NAMES| ==> OFFSETS[j] + Width(TYPES[j]) <= 24;
    if at < 24 {
      var j := SomeFieldCovers(i, at);
    } else {
      RecordAt(points, i);
      assert RecordByte(points[i], at) == 0;
      assert Records(points)[byte] == RecordOf(Records(points), i)[at];
    }
  }

  lemma SomeFieldCovers(i: nat, at: nat) returns (j: nat)
    requires at < 24
    ensures j < |NAMES| && Covers(i, j, i * POINT_STEP + at)
  {
    j := [0, 0, 0, 0, 1, 1, 1, 1, 2, 2, 2, 2, 3, 4, 6, 7, 5, 5, 5, 5, 8, 8, 9, 10][at];
    assert Covers(i, j, i * POINT_STEP + at);
  }
}
