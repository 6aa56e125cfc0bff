/** The context preparation pipeline (src/shared/context/prepareContextPayload.ts):
    untrusted [lat, lon] footprints become closed local rings in metres,
    with swap repair, ordered rejection counters, a building cap, and
    explicit, level-derived or inferred heights clamped to [6, 80]. */
module ContextPrep {
  import opened Wrappers
  import opened JsValues
  import opened TextParse
  import opened ContextStore
  import Seqs

  const DefaultLevelHeight: real := 3.2
  const MinContextHeight: real := 6.0
  const MaxContextHeight: real := 80.0
  const FallbackContextHeight: real := 12.0
  const MetresPerDegreeLon: real := 111320.0
  const MetresPerDegreeLat: real := 110540.0
  /** Closure tolerance and degenerate-area threshold. */
  const ClosureTolerance: real := 0.01
  const MinArea: real := 0.01

  function Abs(x: real): real {
    if x < 0.0 then -x else x
  }

  // ---------------------------------------------------------------------
  // Conversion to local coordinates

  /** A local point (x east, z south) in metres. */
  datatype LocalPoint = LocalPoint(x: Num, z: Num)

  datatype Conversion = Conversion(footprint: seq<LocalPoint>, correctedSwap: bool)

  /** Destructuring `const [a, b] = p`: a missing entry is `undefined`,
      which behaves as a non-finite number. */
  function At(p: seq<Num>, i: nat): (n: Num)
    ensures i >= |p| ==> n == NonFinite
    ensures i < |p| ==> n == p[i]
  {
    if i < |p| then p[i] else NonFinite
  }

  /** `Math.abs(n) > bound`; every comparison with NaN is false. */
  predicate Exceeds(n: Num, bound: real) {
    n.Finite? && Abs(n.v) > bound
  }

  /** The swap test on the first two points: a latitude beyond 90 or a
      longitude beyond 180 means the pairs were written [lon, lat]. */
  predicate NeedsSwap(points: seq<seq<Num>>)
    requires |points| >= 2
  {
    Exceeds(At(points[0], 0), 90.0) || Exceeds(At(points[0], 1), 180.0)
    || Exceeds(At(points[1], 0), 90.0) || Exceeds(At(points[1], 1), 180.0)
  }

  /** `[p[1], p[0]]`. */
  function SwapPoint(p: seq<Num>): (r: seq<Num>)
    ensures |r| == 2 && r[0] == At(p, 1) && r[1] == At(p, 0)
  {
    [At(p, 1), At(p, 0)]
  }

  /** Swapping twice gives back the first two entries, so the transposition
      loses nothing of the point the conversion reads. */
  lemma SwapPointTwice(p: seq<Num>)
    requires |p| >= 2
    ensures SwapPoint(SwapPoint(p)) == p[..2]
  {
  }

  /** A point written [lon, lat] projects, once swapped, to the same local
      point as the same place written [lat, lon]. */
  lemma SwappedPointProjectsAsLatLon(lat: real, lon: real, origin: Center, cosLat: real)
    ensures Projectable(SwapPoint([Finite(lon), Finite(lat)]))
    ensures Project(SwapPoint([Finite(lon), Finite(lat)]), origin, cosLat) == Project([Finite(lat), Finite(lon)], origin, cosLat)
  {
  }

  /** The points the conversion reads: transposed when the swap test fires. */
  function Oriented(points: seq<seq<Num>>): (r: seq<seq<Num>>)
    requires |points| >= 2
    ensures |r| == |points|
    ensures NeedsSwap(points) ==> forall i :: 0 <= i < |r| ==> r[i] == SwapPoint(points[i])
    ensures !NeedsSwap(points) ==> r == points
  {
    if NeedsSwap(points) then seq(|points|, i requires 0 <= i < |points| => SwapPoint(points[i]))
    else points
  }

  /** A point the conversion accepts: at least two entries, both finite. */
  predicate Projectable(p: seq<Num>) {
    |p| >= 2 && p[0].Finite? && p[1].Finite?
  }

  /** The equirectangular projection about `origin`, `cosLat` being the
      cosine of the origin's latitude. */
  function Project(p: seq<Num>, origin: Center, cosLat: real): (real, real)
    requires Projectable(p)
  {
    ((p[1].v - origin.lon) * cosLat * MetresPerDegreeLon, -(p[0].v - origin.lat) * MetresPerDegreeLat)
  }

  /** The projection loses nothing: with a non-zero `cosLat` the latitude
      and longitude are recovered from the local point. */
  lemma ProjectionIsInvertible(p: seq<Num>, origin: Center, cosLat: real)
    requires Projectable(p) && cosLat != 0.0
    ensures var (x, z) := Project(p, origin, cosLat);
      p[1].v == origin.lon + x / (cosLat * MetresPerDegreeLon) && p[0].v == origin.lat - z / MetresPerDegreeLat
  {
    var (x, z) := Project(p, origin, cosLat);
    var d := p[1].v - origin.lon;
    assert x == d * (cosLat * MetresPerDegreeLon);
    assert x / (cosLat * MetresPerDegreeLon) == d;
  }

  function Local(p: (real, real)): LocalPoint {
    LocalPoint(Finite(p.0), Finite(p.1))
  }

  /** `isFinitePolygon`. */
  predicate IsFinitePolygon(ring: seq<LocalPoint>) {
    forall i :: 0 <= i < |ring| ==> ring[i].x.Finite? && ring[i].z.Finite?
  }

  /** Two projected points further apart than the tolerance on some axis. */
  predicate Separated(a: (real, real), b: (real, real)) {
    Abs(a.0 - b.0) > ClosureTolerance || Abs(a.1 - b.1) > ClosureTolerance
  }

  /** `convertFootprintToLocal`: `None` when the footprint is missing, has
      fewer than 3 points, or has a point that is short or not finite (after
      the swap); otherwise the projected points, closed by repeating the
      first point when the ring's ends are apart. */
  function ConvertFootprintToLocal(footprint: Option<seq<seq<Num>>>, origin: Center, cosLat: real): (r: Option<Conversion>)
    ensures r.Some? <==>
      footprint.Some? && |footprint.value| >= 3
      && forall i :: 0 <= i < |footprint.value| ==> Projectable(Oriented(footprint.value)[i])
    ensures r.Some? ==>
      var points := Oriented(footprint.value);
      var n := |points|;
      var ring := r.value.footprint;
      && r.value.correctedSwap == NeedsSwap(footprint.value)
      && (|ring| == n || |ring| == n + 1)
      && |ring| >= 3 && IsFinitePolygon(ring)
      && (forall i :: 0 <= i < n ==> ring[i] == Local(Project(points[i], origin, cosLat)))
      && (|ring| == n + 1 <==> Separated(Project(points[0], origin, cosLat), Project(points[n - 1], origin, cosLat)))
      && (|ring| == n + 1 ==> ring[n] == ring[0])
  {
    if footprint.None? || |footprint.value| < 3 then None
    else
      var points := Oriented(footprint.value);
      if exists i :: 0 <= i < |points| && !Projectable(points[i]) then None
      else
        var converted := seq(|points|, i requires 0 <= i < |points| => Project(points[i], origin, cosLat));
        var first := converted[0];
        var last := converted[|converted| - 1];
        var closed := if Separated(first, last) then converted + [first] else converted;
        Some(Conversion(seq(|closed|, i requires 0 <= i < |closed| => Local(closed[i])), NeedsSwap(footprint.value)))
  }

  // ---------------------------------------------------------------------
  // Area

  function Cross(a: LocalPoint, b: LocalPoint): real
    requires a.x.Finite? && a.z.Finite? && b.x.Finite? && b.z.Finite?
  {
    a.x.v * b.z.v - b.x.v * a.z.v
  }

  /** The shoelace sum over consecutive pairs of the ring. */
  function ShoelaceSum(ring: seq<LocalPoint>): real
    requires IsFinitePolygon(ring)
    decreases |ring|
  {
    if |ring| < 2 then 0.0
    else ShoelaceSum(ring[..|ring| - 1]) + Cross(ring[|ring| - 2], ring[|ring| - 1])
  }

  /** `polygonArea`: the signed shoelace area. */
  function PolygonArea(ring: seq<LocalPoint>): real
    requires IsFinitePolygon(ring)
  {
    ShoelaceSum(ring) / 2.0
  }

  /** The accumulating loop of `polygonArea` computes the shoelace area. */
  method PolygonAreaLoop(ring: seq<LocalPoint>) returns (area: real)
    requires IsFinitePolygon(ring)
    ensures area == PolygonArea(ring)
  {
    if |ring| == 0 {
      return 0.0;
    }
    var sum := 0.0;
    var i := 0;
    while i < |ring| - 1
      invariant 0 <= i < |ring|
      invariant IsFinitePolygon(ring[..i + 1]) && sum == ShoelaceSum(ring[..i + 1])
    {
      assert ring[..i + 2][..i + 1] == ring[..i + 1];
      sum := sum + Cross(ring[i], ring[i + 1]);
      i := i + 1;
    }
    assert ring[..i + 1] == ring;
    area := sum / 2.0;
  }

  lemma {:induction false} ShoelacePrepend(p: LocalPoint, ring: seq<LocalPoint>)
    requires |ring| >= 1 && p.x.Finite? && p.z.Finite? && IsFinitePolygon(ring)
    ensures IsFinitePolygon([p] + ring)
    ensures ShoelaceSum([p] + ring) == Cross(p, ring[0]) + ShoelaceSum(ring)
    decreases |ring|
  {
    assert forall i :: 0 <= i < |ring| ==> ring[i] == ([p] + ring)[i + 1];
    if |ring| > 1 {
      var front := ring[..|ring| - 1];
      assert ([p] + ring)[..|ring|] == [p] + front;
      ShoelacePrepend(p, front);
    }
  }

  /** Reversing a ring negates its signed area, so the degenerate-area
      test does not depend on the ring's orientation. */
  lemma {:induction false} ReversedRingNegatesArea(ring: seq<LocalPoint>)
    requires IsFinitePolygon(ring)
    ensures IsFinitePolygon(Seqs.Reverse(ring))
    ensures PolygonArea(Seqs.Reverse(ring)) == -PolygonArea(ring)
    decreases |ring|
  {
    var rev := Seqs.Reverse(ring);
    assert IsFinitePolygon(rev) by {
      forall i | 0 <= i < |rev| ensures rev[i].x.Finite? && rev[i].z.Finite? {
        assert rev[i] == ring[|ring| - 1 - i];
      }
    }
    if |ring| >= 2 {
      var front := ring[..|ring| - 1];
      var q := ring[|ring| - 1];
      ReversedRingNegatesArea(front);
      var rf := Seqs.Reverse(front);
      assert rev == [q] + rf;
      assert rf[0] == front[|front| - 1];
      ShoelacePrepend(q, rf);
    }
  }

  // ---------------------------------------------------------------------
  // Heights

  /** `resolveBuildingHeight`: a finite `heightM`, else finite `levels`
      times the default storey height, else unresolved. */
  function ResolveBuildingHeight(b: BuildingFootprint): (h: Option<real>)
    ensures b.heightM.Some? && IsFinite(b.heightM.value) ==> h == Some(b.heightM.value.v)
    ensures !(b.heightM.Some? && IsFinite(b.heightM.value)) && b.levels.Some? && IsFinite(b.levels.value) ==>
              h == Some(b.levels.value.v * DefaultLevelHeight)
    ensures h.None? <==> !(b.heightM.Some? && IsFinite(b.heightM.value)) && !(b.levels.Some? && IsFinite(b.levels.value))
  {
    if b.heightM.Some? && IsFinite(b.heightM.value) then Some(b.heightM.value.v)
    else if b.levels.Some? && IsFinite(b.levels.value) then Some(b.levels.value.v * DefaultLevelHeight)
    else None
  }

  /** `clamp(value, min, max)` as `Math.min(max, Math.max(min, value))`. */
  function Clamp(value: real, lo: real, hi: real): (r: real)
    ensures r <= hi && (lo <= hi ==> lo <= r)
    ensures lo <= value <= hi ==> r == value
    ensures value < lo && lo <= hi ==> r == lo
    ensures value > hi || lo > hi ==> r == hi
  {
    var raised := if lo > value then lo else value;
    if hi < raised then hi else raised
  }

  predicate SortedAscending(s: seq<real>) {
    forall i, j :: 0 <= i < j < |s| ==> s[i] <= s[j]
  }

  function Insert(x: real, s: seq<real>): (r: seq<real>)
    requires SortedAscending(s)
    ensures SortedAscending(r)
    ensures multiset(r) == multiset(s) + multiset{x}
    ensures |r| == |s| + 1
    ensures r[0] == if |s| > 0 && s[0] < x then s[0] else x
  {
    if |s| == 0 then [x]
    else if x <= s[0] then [x] + s
    else
      var rest := Insert(x, s[1..]);
      assert s == [s[0]] + s[1..];
      SortedCons(s[0], rest);
      [s[0]] + rest
  }

  /** A head no larger than a sorted tail's first element keeps it sorted. */
  lemma SortedCons(x: real, s: seq<real>)
    requires SortedAscending(s) && (|s| > 0 ==> x <= s[0])
    ensures SortedAscending([x] + s)
  {
    var r := [x] + s;
    forall i, j | 0 <= i < j < |r| ensures r[i] <= r[j] {
      if i > 0 {
        assert r[i] == s[i - 1] && r[j] == s[j - 1];
      } else {
        assert r[j] == s[j - 1];
      }
    }
  }

  /** `[...values].sort((a, b) => a - b)` on finite numbers. */
  function Sort(s: seq<real>): (r: seq<real>)
    ensures SortedAscending(r)
    ensures multiset(r) == multiset(s)
    ensures |r| == |s|
  {
    if |s| == 0 then []
    else
      assert s == s[..|s| - 1] + [s[|s| - 1]];
      Insert(s[|s| - 1], Sort(s[..|s| - 1]))
  }

  /** `median`: the middle of the sorted samples, or the mean of the two
      middle ones for an even count; 12 when there are none. */
  function Median(values: seq<real>): real {
    if |values| == 0 then FallbackContextHeight
    else
      var sorted := Sort(values);
      var middle := |sorted| / 2;
      if |sorted| % 2 == 0 then (sorted[middle - 1] + sorted[middle]) / 2.0
      else sorted[middle]
  }

  /** The median lies between the smallest and the largest sample. */
  lemma MedianWithinSamples(values: seq<real>)
    requires |values| > 0
    ensures exists i :: 0 <= i < |values| && values[i] <= Median(values)
    ensures exists j :: 0 <= j < |values| && Median(values) <= values[j]
  {
    var sorted := Sort(values);
    var n := |sorted|;
    assert sorted[0] <= Median(values) <= sorted[n - 1];
    assert sorted[0] in multiset(values);
    assert sorted[n - 1] in multiset(values);
    var i :| 0 <= i < |values| && values[i] == sorted[0];
    var j :| 0 <= j < |values| && values[j] == sorted[n - 1];
  }

  // ---------------------------------------------------------------------
  // Seeded noise

  /** The UTF-16 code units of a string, as `charCodeAt` reads them. */
  function CodeUnits(s: string): (units: seq<nat>)
    ensures |units| >= |s|
    ensures forall k :: 0 <= k < |units| ==> units[k] < 0x1_0000
  {
    if |s| == 0 then []
    else Utf16(s[0]) + CodeUnits(s[1..])
  }

  /** One character as one code unit, or as a surrogate pair above U+FFFF. */
  function Utf16(c: char): (units: seq<nat>)
    ensures 1 <= |units| <= 2
    ensures forall k :: 0 <= k < |units| ==> units[k] < 0x1_0000
    ensures c as int < 0x1_0000 <==> |units| == 1
  {
    var v := c as int;
    if v < 0x1_0000 then [v]
    else
      var offset := v - 0x1_0000;
      assert offset < 0x10_0000;
      [0xD800 + offset / 0x400, 0xDC00 + offset % 0x400]
  }

  /** The 32-bit string hash: `hash = (hash << 5) - hash + code`, wrapped
      to 32 bits after every step. */
  function Hash(units: seq<nat>): bv32
    requires forall k :: 0 <= k < |units| ==> units[k] < 0x1_0000
    decreases |units|
  {
    if |units| == 0 then 0
    else HashStep(Hash(units[..|units| - 1]), units[|units| - 1])
  }

  /** One step of the hash. The shift, subtraction and addition wrap
      modulo 2^32, as `hash |= 0` does after each step. */
  function HashStep(hash: bv32, unit: nat): bv32
    requires unit < 0x1_0000
  {
    (hash << 5) - hash + unit as bv32
  }

  /** The hash read as an unsigned number, scaled to [0, 1], then to [-1, 1]. */
  function Noise(seed: string): (r: real)
    ensures -1.0 <= r <= 1.0
  {
    var normalized := (Hash(CodeUnits(seed)) as int) as real / 4294967295.0;
    normalized * 2.0 - 1.0
  }

  /** `seededNoise`, as the loop over the code units. */
  method SeededNoise(seed: string) returns (noise: real)
    ensures noise == Noise(seed)
    ensures -1.0 <= noise <= 1.0
  {
    var hash := HashLoop(CodeUnits(seed));
    noise := (hash as int) as real / 4294967295.0 * 2.0 - 1.0;
  }

  /** The hashing loop of `seededNoise`. */
  method HashLoop(units: seq<nat>) returns (hash: bv32)
    requires forall k :: 0 <= k < |units| ==> units[k] < 0x1_0000
    ensures hash == Hash(units)
  {
    hash := 0;
    var i := 0;
    while i < |units|
      invariant 0 <= i <= |units|
      invariant hash == Hash(units[..i])
    {
      ghost var prefix := units[..i + 1];
      assert prefix[..i] == units[..i] && prefix[i] == units[i];
      hash := HashStep(hash, units[i]);
      i := i + 1;
    }
    assert units[..i] == units;
  }

  /** The unclamped height given to a building with no explicit height. */
  function InferredHeight(fallback: real, noise: real): real {
    fallback * (0.9 + 0.2 * noise)
  }

  /** With noise in [-1, 1] the jitter stays within 0.7 and 1.1 times the fallback. */
  lemma InferredHeightBounds(fallback: real, noise: real)
    requires fallback >= 0.0 && -1.0 <= noise <= 1.0
    ensures 0.7 * fallback <= InferredHeight(fallback, noise) <= 1.1 * fallback
  {
    var factor := 0.9 + 0.2 * noise;
    assert 0.7 <= factor <= 1.1;
    assert fallback * factor <= fallback * 1.1 by {
      assert fallback * (1.1 - factor) >= 0.0;
    }
    assert fallback * 0.7 <= fallback * factor by {
      assert fallback * (factor - 0.7) >= 0.0;
    }
  }

  /** The final height of a usable building: the explicit one, or the
      jittered fallback, clamped to [6, 80]. */
  function FinalHeight(explicit: Option<real>, fallback: real, noise: real): (h: real)
    ensures MinContextHeight <= h <= MaxContextHeight
    ensures explicit.Some? ==> h == Clamp(explicit.value, MinContextHeight, MaxContextHeight)
    ensures explicit.None? ==> h == Clamp(InferredHeight(fallback, noise), MinContextHeight, MaxContextHeight)
  {
    var height := if explicit.Some? then explicit.value else InferredHeight(fallback, noise);
    Clamp(height, MinContextHeight, MaxContextHeight)
  }

  /** The seed prefix: the caller's key, or (when that is empty) the
      centre-and-radius key the caller also supplies. */
  function BaseSeed(seedKey: string, defaultSeed: string): string {
    if seedKey != "" then seedKey else defaultSeed
  }

  /** `${baseSeed}-${id}-${index}`. */
  function Seed(base: string, id: string, index: nat): string {
    base + "-" + id + "-" + NatToString(index)
  }

  // ---------------------------------------------------------------------
  // The scan

  datatype SkipReason = TooFewPoints | NonFinitePoint | DegenerateArea | Unconvertible

  /** A building kept for the payload: its ring and its explicit height. */
  datatype Usable = Usable(id: string, footprint: seq<LocalPoint>, height: Option<real>)

  /** What the loop decides for one building, with whether a swap was
      repaired on the way. */
  datatype Verdict = Skipped(reason: SkipReason, swapped: bool) | Accepted(item: Usable, swapped: bool)

  /** The loop body's decision for one building, in the order of the
      source's checks. */
  function Classify(b: BuildingFootprint, origin: Center, cosLat: real): (v: Verdict)
    ensures v.Skipped? ==> v.reason != TooFewPoints && v.reason != NonFinitePoint
    ensures v.Accepted? ==> v.item.id == b.id && v.item.height == ResolveBuildingHeight(b)
  {
    match ConvertFootprintToLocal(b.footprint, origin, cosLat)
    case None => Skipped(Unconvertible, false)
    case Some(conversion) =>
      var ring := conversion.footprint;
      var swapped := conversion.correctedSwap;
      if |ring| < 3 then Skipped(TooFewPoints, swapped)
      else if !IsFinitePolygon(ring) then Skipped(NonFinitePoint, swapped)
      else if Abs(PolygonArea(ring)) < MinArea then Skipped(DegenerateArea, swapped)
      else Accepted(Usable(b.id, ring, ResolveBuildingHeight(b)), swapped)
  }

  /** A building is counted in `skippedOther` exactly when its conversion
      fails; a swap is counted exactly when a conversion succeeds after
      transposing; an accepted building carries its converted ring, which
      has at least 3 finite points and an area of at least 0.01. */
  lemma ClassifyFollowsConversion(b: BuildingFootprint, origin: Center, cosLat: real)
    ensures var v := Classify(b, origin, cosLat);
      var conversion := ConvertFootprintToLocal(b.footprint, origin, cosLat);
      && (v == Skipped(Unconvertible, false) <==> conversion.None?)
      && (v.swapped <==> conversion.Some? && conversion.value.correctedSwap)
      && (v.Accepted? ==>
            && v.item.footprint == conversion.value.footprint
            && |v.item.footprint| >= 3 && IsFinitePolygon(v.item.footprint)
            && Abs(PolygonArea(v.item.footprint)) >= MinArea)
      && (conversion.Some? && Abs(PolygonArea(conversion.value.footprint)) >= MinArea ==> v.Accepted?)
  {
  }

  function Verdicts(buildings: seq<BuildingFootprint>, origin: Center, cosLat: real): (vs: seq<Verdict>)
    ensures |vs| == |buildings|
    ensures forall i :: 0 <= i < |buildings| ==> vs[i] == Classify(buildings[i], origin, cosLat)
  {
    seq(|buildings|, i requires 0 <= i < |buildings| => Classify(buildings[i], origin, cosLat))
  }

  /** The accepted buildings among `vs`, in order. */
  function AcceptedItems(vs: seq<Verdict>): seq<Usable>
    decreases |vs|
  {
    if |vs| == 0 then []
    else AcceptedItems(vs[..|vs| - 1]) + (if vs[|vs| - 1].Accepted? then [vs[|vs| - 1].item] else [])
  }

  function CountSkipped(vs: seq<Verdict>, reason: SkipReason): nat
    decreases |vs|
  {
    if |vs| == 0 then 0
    else CountSkipped(vs[..|vs| - 1], reason) + (if vs[|vs| - 1] == Skipped(reason, vs[|vs| - 1].swapped) then 1 else 0)
  }

  function CountSwaps(vs: seq<Verdict>): nat
    decreases |vs|
  {
    if |vs| == 0 then 0
    else CountSwaps(vs[..|vs| - 1]) + (if vs[|vs| - 1].swapped then 1 else 0)
  }

  /** `ContextPreparationStats`. */
  datatype Stats = Stats(
    inputCount: nat,
    validCount: nat,
    skippedTooFewPoints: nat,
    skippedNaN: nat,
    skippedDegenerateArea: nat,
    skippedOther: nat,
    correctedSwaps: nat)

  /** The counters after the loop has looked at the verdicts `vs`. */
  function Tally(vs: seq<Verdict>, inputCount: nat): Stats {
    Stats(inputCount, |AcceptedItems(vs)|, CountSkipped(vs, TooFewPoints), CountSkipped(vs, NonFinitePoint),
          CountSkipped(vs, DegenerateArea), CountSkipped(vs, Unconvertible), CountSwaps(vs))
  }

  /** Every building looked at is counted exactly once. */
  lemma {:induction false} TallyPartitions(vs: seq<Verdict>, inputCount: nat)
    ensures var t := Tally(vs, inputCount);
      t.validCount + t.skippedTooFewPoints + t.skippedNaN + t.skippedDegenerateArea + t.skippedOther == |vs|
    decreases |vs|
  {
    if |vs| > 0 {
      var front := vs[..|vs| - 1];
      TallyPartitions(front, inputCount);
      var last := vs[|vs| - 1];
      if last.Skipped? {
        assert last == Skipped(last.reason, last.swapped);
        match last.reason
        case TooFewPoints => assert CountSkipped(vs, TooFewPoints) == CountSkipped(front, TooFewPoints) + 1;
        case NonFinitePoint => assert CountSkipped(vs, NonFinitePoint) == CountSkipped(front, NonFinitePoint) + 1;
        case DegenerateArea => assert CountSkipped(vs, DegenerateArea) == CountSkipped(front, DegenerateArea) + 1;
        case Unconvertible => assert CountSkipped(vs, Unconvertible) == CountSkipped(front, Unconvertible) + 1;
      }
    }
  }

  /** No verdict in `vs` counts a too-short ring or a non-finite point. */
  predicate NoImpossibleSkips(vs: seq<Verdict>) {
    forall i :: 0 <= i < |vs| ==> !(vs[i].Skipped? && vs[i].reason in {TooFewPoints, NonFinitePoint})
  }

  /** Verdicts produced by `Classify` never count a too-short ring or a
      non-finite point. */
  lemma {:induction false} ImpossibleSkipsStayZero(vs: seq<Verdict>)
    requires NoImpossibleSkips(vs)
    ensures CountSkipped(vs, TooFewPoints) == 0 && CountSkipped(vs, NonFinitePoint) == 0
    decreases |vs|
  {
    if |vs| > 0 {
      ImpossibleSkipsStayZero(vs[..|vs| - 1]);
    }
  }

  lemma {:induction false} AcceptedMonotone(vs: seq<Verdict>, k: nat, j: nat)
    requires k <= j <= |vs|
    ensures |AcceptedItems(vs[..k])| <= |AcceptedItems(vs[..j])|
    decreases j - k
  {
    if k < j {
      AcceptedMonotone(vs, k, j - 1);
      assert vs[..j][..j - 1] == vs[..j - 1];
    }
  }

  /** How many buildings the loop looks at: all of them, unless the
      accepted count reaches the limit first. */
  function StopPoint(vs: seq<Verdict>, limit: nat): (n: nat)
    requires limit >= 1
    ensures n <= |vs|
    ensures forall k :: 0 <= k < n ==> |AcceptedItems(vs[..k])| < limit
    ensures n < |vs| ==> |AcceptedItems(vs[..n])| >= limit
    decreases |vs|
  {
    if |vs| == 0 then 0
    else
      var front := vs[..|vs| - 1];
      if |AcceptedItems(front)| >= limit then
        var n := StopPoint(front, limit);
        assert forall k :: 0 <= k <= |front| ==> front[..k] == vs[..k];
        n
      else
        assert vs[..|vs|] == vs;
        forall k | 0 <= k < |vs| ensures |AcceptedItems(vs[..k])| < limit {
          AcceptedMonotone(vs, k, |vs| - 1);
        }
        |vs|
  }

  /** The stop point is the only position with the properties above. */
  lemma StopPointUnique(vs: seq<Verdict>, limit: nat, n: nat)
    requires limit >= 1 && n <= |vs|
    requires n > 0 ==> |AcceptedItems(vs[..n - 1])| < limit
    requires n < |vs| ==> |AcceptedItems(vs[..n])| >= limit
    ensures StopPoint(vs, limit) == n
  {
    var m := StopPoint(vs, limit);
    if m < n {
      AcceptedMonotone(vs, m, n - 1);
    }
  }

  /** The heights of the buildings that have one, in order (`heightSamples`). */
  function HeightSamples(items: seq<Usable>): (samples: seq<real>)
    ensures |samples| <= |items|
    decreases |items|
  {
    if |items| == 0 then []
    else
      var last := items[|items| - 1];
      HeightSamples(items[..|items| - 1]) + (if last.height.Some? then [last.height.value] else [])
  }

  /** One mesh of the payload. */
  datatype MeshItem = MeshItem(id: string, footprint: seq<LocalPoint>, height: real)

  /** The payload built from the usable buildings. */
  function BuildPayload(usable: seq<Usable>, base: string): (payload: seq<MeshItem>)
    ensures |payload| == |usable|
    ensures forall i :: 0 <= i < |usable| ==>
      && payload[i].id == usable[i].id && payload[i].footprint == usable[i].footprint
      && MinContextHeight <= payload[i].height <= MaxContextHeight
  {
    var samples := HeightSamples(usable);
    var fallback := if |samples| > 0 then Median(samples) else FallbackContextHeight;
    seq(|usable|, i requires 0 <= i < |usable| =>
      MeshItem(usable[i].id, usable[i].footprint,
               FinalHeight(usable[i].height, fallback, Noise(Seed(base, usable[i].id, i)))))
  }

  /** The counters after one more verdict, as the loop body bumps them. */
  function Bump(stats: Stats, v: Verdict): (r: Stats)
    ensures r.inputCount == stats.inputCount
  {
    var counted := if v.swapped then stats.(correctedSwaps := stats.correctedSwaps + 1) else stats;
    match v
    case Accepted(_, _) => counted.(validCount := counted.validCount + 1)
    case Skipped(Unconvertible, _) => counted.(skippedOther := counted.skippedOther + 1)
    case Skipped(TooFewPoints, _) => counted.(skippedTooFewPoints := counted.skippedTooFewPoints + 1)
    case Skipped(NonFinitePoint, _) => counted.(skippedNaN := counted.skippedNaN + 1)
    case Skipped(DegenerateArea, _) => counted.(skippedDegenerateArea := counted.skippedDegenerateArea + 1)
  }

  lemma AcceptedStep(vs: seq<Verdict>, v: Verdict)
    ensures AcceptedItems(vs + [v]) == AcceptedItems(vs) + (if v.Accepted? then [v.item] else [])
  {
    assert (vs + [v])[..|vs|] == vs;
  }

  /** Bumping the counters for each verdict in turn tallies them. */
  lemma TallyStep(vs: seq<Verdict>, v: Verdict, inputCount: nat)
    ensures Tally(vs + [v], inputCount) == Bump(Tally(vs, inputCount), v)
  {
    assert (vs + [v])[..|vs|] == vs;
  }

  /** Looking at one more verdict extends both the accepted list and the counters. */
  lemma ScanStep(vs: seq<Verdict>, i: nat, inputCount: nat)
    requires i < |vs|
    ensures AcceptedItems(vs[..i + 1]) == AcceptedItems(vs[..i]) + (if vs[i].Accepted? then [vs[i].item] else [])
    ensures Tally(vs[..i + 1], inputCount) == Bump(Tally(vs[..i], inputCount), vs[i])
  {
    assert vs[..i + 1] == vs[..i] + [vs[i]];
    TallyStep(vs[..i], vs[i], inputCount);
    AcceptedStep(vs[..i], vs[i]);
  }

  /** A scan that never reached the limit looked at every verdict. */
  lemma ScanEnd(vs: seq<Verdict>, limit: nat)
    requires limit >= 1 && |AcceptedItems(vs[..|vs|])| < limit
    ensures StopPoint(vs, limit) == |vs| && vs[..StopPoint(vs, limit)] == vs
  {
    var n := |vs|;
    if n > 0 {
      AcceptedMonotone(vs, n - 1, n);
    }
    StopPointUnique(vs, limit, n);
  }

  /** The loop of `prepareContextPayload`: it looks at the buildings in
      order, counts each verdict, keeps the accepted buildings and stops
      once the accepted count reaches the cap. */
  method ScanBuildings(buildings: seq<BuildingFootprint>, origin: Center, cosLat: real, cap: nat)
    returns (usable: seq<Usable>, stats: Stats)
    ensures var vs := Verdicts(buildings, origin, cosLat);
      var n := StopPoint(vs, Limit(cap));
      usable == AcceptedItems(vs[..n]) && stats == Tally(vs[..n], |buildings|)
  {
    ghost var vs := Verdicts(buildings, origin, cosLat);
    stats := Stats(|buildings|, 0, 0, 0, 0, 0, 0);
    usable := [];
    var i := 0;
    while i < |buildings|
      invariant 0 <= i <= |buildings|
      invariant usable == AcceptedItems(vs[..i])
      invariant stats == Tally(vs[..i], |buildings|)
      invariant |usable| < Limit(cap)
    {
      var verdict := Classify(buildings[i], origin, cosLat);
      ScanStep(vs, i, |buildings|);
      stats := Bump(stats, verdict);
      if verdict.Accepted? {
        usable := usable + [verdict.item];
        if |usable| >= cap {
          i := i + 1;
          StopPointUnique(vs, Limit(cap), i);
          return;
        }
      }
      i := i + 1;
    }
    ScanEnd(vs, Limit(cap));
  }

  lemma VerdictsSkipNoImpossible(buildings: seq<BuildingFootprint>, origin: Center, cosLat: real)
    ensures NoImpossibleSkips(Verdicts(buildings, origin, cosLat))
  {
  }

  /** The counters up to the stop point: nothing counted as too short or
      non-finite, at most the limit accepted, and every verdict looked at
      counted once. */
  lemma StopTallyBounds(vs: seq<Verdict>, limit: nat, inputCount: nat)
    requires limit >= 1 && NoImpossibleSkips(vs)
    ensures var n := StopPoint(vs, limit);
      var t := Tally(vs[..n], inputCount);
      && t.skippedTooFewPoints == 0 && t.skippedNaN == 0
      && t.validCount <= limit
      && t.validCount + t.skippedDegenerateArea + t.skippedOther == n
      && n <= |vs| && (t.validCount < limit ==> n == |vs|)
  {
    var n := StopPoint(vs, limit);
    TallyPartitions(vs[..n], inputCount);
    assert NoImpossibleSkips(vs[..n]) by {
      forall i | 0 <= i < n ensures vs[..n][i] == vs[i] { }
    }
    ImpossibleSkipsStayZero(vs[..n]);
    if n > 0 {
      assert vs[..n][..n - 1] == vs[..n - 1];
      assert |AcceptedItems(vs[..n - 1])| < limit;
    }
  }

  /** `prepareContextPayload`. The cosine of the centre's latitude and the
      default seed (the centre and radius rendered with six decimals) are
      supplied by the caller, as is the building cap. */
  method PrepareContextPayload(
    center: Option<Center>, buildings: seq<BuildingFootprint>,
    seedKey: string, defaultSeed: string, cosLat: real, cap: nat)
    returns (payload: Option<seq<MeshItem>>, stats: Stats)
    ensures stats.inputCount == |buildings|
    ensures center.None? || |buildings| == 0 ==> payload.None? && stats == Stats(|buildings|, 0, 0, 0, 0, 0, 0)
    ensures center.Some? && |buildings| > 0 ==>
      var vs := Verdicts(buildings, center.value, cosLat);
      var n := StopPoint(vs, Limit(cap));
      var usable := AcceptedItems(vs[..n]);
      && stats == Tally(vs[..n], |buildings|)
      && (payload.None? <==> |usable| == 0)
      && (payload.Some? ==> payload.value == BuildPayload(usable, BaseSeed(seedKey, defaultSeed)))
    ensures stats.skippedTooFewPoints == 0 && stats.skippedNaN == 0
    ensures stats.validCount <= Limit(cap)
    ensures stats.validCount + stats.skippedDegenerateArea + stats.skippedOther <= stats.inputCount
    ensures center.Some? && stats.validCount < Limit(cap) ==>
              stats.validCount + stats.skippedDegenerateArea + stats.skippedOther == stats.inputCount
    ensures payload.Some? ==> |payload.value| == stats.validCount
    ensures payload.Some? ==> forall i :: 0 <= i < |payload.value| ==>
              MinContextHeight <= payload.value[i].height <= MaxContextHeight
  {
    if center.None? || |buildings| == 0 {
      return None, Stats(|buildings|, 0, 0, 0, 0, 0, 0);
    }
    var usable;
    usable, stats := ScanBuildings(buildings, center.value, cosLat, cap);
    ghost var vs := Verdicts(buildings, center.value, cosLat);
    VerdictsSkipNoImpossible(buildings, center.value, cosLat);
    StopTallyBounds(vs, Limit(cap), |buildings|);
    assert |usable| == stats.validCount;
    if |usable| == 0 {
      return None, stats;
    }
    payload := Some(BuildPayload(usable, BaseSeed(seedKey, defaultSeed)));
  }
}
