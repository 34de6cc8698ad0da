// The plain LiDAR records of driver.hpp. Coordinates are opaque 4-byte words.
module LidarTypes {
  import opened Words

  datatype LidarPoint = LidarPoint(
    x: uint32, y: uint32, z: uint32,
    reflectivity: uint8, tag: uint8, offset: uint32, ring: uint16,
    line: uint8, lineValid: uint8, returnId: uint8, confidence: uint8)

  datatype LidarBatch = LidarBatch(
    batchId: uint32, timestamp: uint64, raw: uint64, interval: uint32,
    explicitTimes: bool, points: seq<LidarPoint>)

  const NO_BATCH := LidarBatch(0, 0, 0, 0, false, [])

  /** A return as an outside observer sees it: when it happened and what was measured. */
  datatype Sighting = Sighting(time: nat, payload: LidarPoint)

  /** The measurement without its relative time. */
  function Payload(p: LidarPoint): LidarPoint {
    p.(offset := 0)
  }

  /** The sighting a consumer of the frame reads back for one of its points. */
  function Sighted(timestamp: nat, p: LidarPoint): Sighting {
    Sighting(timestamp + p.offset, Payload(p))
  }

  function Decode(timestamp: nat, points: seq<LidarPoint>): (r: seq<Sighting>)
    ensures |r| == |points|
    ensures forall i :: 0 <= i < |points| ==> r[i] == Sighted(timestamp, points[i])
  {
    seq(|points|, i requires 0 <= i < |points| => Sighted(timestamp, points[i]))
  }
}
