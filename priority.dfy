/** The priority classifier of sender.py (`flow.getPriority`) and the band
    to marker-character table built by `Sender.createPrioMap`. */
module Priority {
  import opened Wrappers
  import opened PyOps

  /** Number of priority bands; also the divisor that turns the largest
      flow size into the width of one band. */
  const NumBands: int := 16

  /** Band of a flow with `remaining` packets still to send, when the
      largest size in the workload table is `maxSize`:
      `remaining / (maxSize / 16) + 1` in Python 2 integer division,
      capped at 16. `None` is the ZeroDivisionError raised when the band
      width `maxSize / 16` is zero. */
  function PriorityBand(remaining: int, maxSize: int): (r: Option<int>)
    ensures r.None? <==> 0 <= maxSize < NumBands
    ensures r.Some? ==> r.value <= NumBands
  {
    var unit := FloorDiv(maxSize, NumBands);
    if unit == 0 then None
    else
      var res := FloorDiv(remaining, unit) + 1;
      Some(if res <= NumBands then res else NumBands)
  }

  /** Width of one band, as a positive value once maxSize >= 16. */
  function BandWidth(maxSize: int): (unit: int)
    requires maxSize >= NumBands
    ensures unit >= 1 && NumBands * unit <= maxSize < NumBands * unit + NumBands
  {
    FloorDiv(maxSize, NumBands)
  }

  /** For a positive divisor, the quotient reaches k exactly when the
      dividend reaches k times the divisor. */
  lemma DivAtLeast(a: int, d: int, k: int)
    requires d > 0
    ensures a / d >= k <==> a >= k * d
  {
    var q := a / d;
    assert d * q <= a < d * q + d;
    if q >= k {
      assert d * q >= d * k by { MulMonotone(d, k, q); }
    } else {
      assert d * q <= d * (k - 1) by { MulMonotone(d, q, k - 1); }
    }
  }

  lemma MulMonotone(d: int, x: int, y: int)
    requires d > 0 && x <= y
    ensures d * x <= d * y
  {
    assert d * y - d * x == d * (y - x);
  }

  /** A flow that still has packets to send gets a band in 1..16. */
  lemma BandBounds(remaining: int, maxSize: int)
    requires maxSize >= NumBands && remaining >= 0
    ensures PriorityBand(remaining, maxSize).Some?
    ensures 1 <= PriorityBand(remaining, maxSize).value <= NumBands
  {
    DivAtLeast(remaining, BandWidth(maxSize), 0);
  }

  /** The band never drops when more remains: it is non-decreasing in
      `remaining`, so it falls towards 1 as the flow drains. */
  lemma BandMonotone(r1: int, r2: int, maxSize: int)
    requires maxSize >= NumBands && r1 <= r2
    ensures PriorityBand(r1, maxSize).value <= PriorityBand(r2, maxSize).value
  {
    var unit := BandWidth(maxSize);
    DivAtLeast(r1, unit, r1 / unit);
    DivAtLeast(r2, unit, r1 / unit);
  }

  /** Band 1 is exactly the last band-width of a flow. */
  lemma BandOneIff(remaining: int, maxSize: int)
    requires maxSize >= NumBands && remaining >= 0
    ensures PriorityBand(remaining, maxSize) == Some(1) <==> remaining < maxSize / NumBands
  {
    var unit := BandWidth(maxSize);
    DivAtLeast(remaining, unit, 0);
    DivAtLeast(remaining, unit, 1);
  }

  /** Band 16 is reached exactly from 15 band-widths upwards. */
  lemma BandSixteenIff(remaining: int, maxSize: int)
    requires maxSize >= NumBands
    ensures PriorityBand(remaining, maxSize) == Some(NumBands) <==> remaining >= 15 * (maxSize / NumBands)
  {
    DivAtLeast(remaining, BandWidth(maxSize), 15);
  }

  /** A flow of the largest size in the table starts in band 16. */
  lemma BandAtMaxSize(maxSize: int)
    requires maxSize >= NumBands
    ensures PriorityBand(maxSize, maxSize) == Some(NumBands)
  {
    BandSixteenIff(maxSize, maxSize);
  }

  /** The marker character of band i: `chr(64 + i)`, 'A' for band 1 up
      to 'P' for band 16. */
  function Marker(band: int): (c: char)
    requires 1 <= band <= NumBands
    ensures 'A' <= c <= 'P'
  {
    (64 + band) as char
  }

  /** The prio map `createPrioMap` builds: band i maps to `chr(64 + i)`. */
  function BandMarkers(): map<int, char>
  {
    map b | 1 <= b <= NumBands :: Marker(b)
  }

  /** The map is defined on exactly the bands 1..16, sends band i to the
      character with code 64 + i and gives distinct bands distinct
      markers, ordered as the bands are. */
  lemma {:induction false} BandMarkersProps()
    ensures forall b :: b in BandMarkers() <==> 1 <= b <= NumBands
    ensures forall b :: b in BandMarkers() ==> BandMarkers()[b] as int == 64 + b
    ensures forall b1, b2 :: b1 in BandMarkers() && b2 in BandMarkers() ==>
              (b1 <= b2 <==> BandMarkers()[b1] <= BandMarkers()[b2])
    ensures forall b1, b2 :: b1 in BandMarkers() && b2 in BandMarkers() ==>
              (BandMarkers()[b1] == BandMarkers()[b2] ==> b1 == b2)
  {
  }
}
