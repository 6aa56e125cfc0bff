/** The context part of the `.tbk` archive format (src/shared/utils/tbk.ts):
    which context is written, and how a parsed `context.json` is checked
    and sanitized. The zip container and text decoding are not modelled. */
module Tbk {
  import opened Wrappers
  import opened JsValues
  import opened ContextStore
  import Seqs

  /** The context saved with a model and restored from it. A context read
      back from a file always has a centre. */
  datatype ContextData = ContextData(
    center: Option<Center>,
    radiusM: real,
    buildings: seq<BuildingFootprint>,
    fetchedAt: Option<string>,
    source: string)

  const ModelFileName: string := "model.json"
  const ContextFileName: string := "context.json"

  /** The context is written only when there is one, it has a centre and
      it has at least one building. */
  predicate ShouldWriteContext(context: Option<ContextData>) {
    context.Some? && context.value.center.Some? && |context.value.buildings| > 0
  }

  /** The files `createTBKArchive` puts in the archive, in order. */
  function ArchiveFiles(context: Option<ContextData>): (files: seq<string>)
    ensures |files| >= 1 && files[0] == ModelFileName
    ensures ContextFileName in files <==> ShouldWriteContext(context)
    ensures |files| <= 2
  {
    if ShouldWriteContext(context) then [ModelFileName, ContextFileName] else [ModelFileName]
  }

  // ---------------------------------------------------------------------
  // Sanitizing

  /** A footprint point kept by `sanitizeBuildings`: an array of at least
      two entries whose first two are finite numbers. */
  predicate IsLatLonPair(point: Json) {
    point.JArr? && |point.items| >= 2 && point.items[0].JNum? && point.items[1].JNum?
  }

  function PairPoint(point: Json): (p: seq<Num>)
    requires IsLatLonPair(point)
    ensures |p| == 2 && IsFinite(p[0]) && IsFinite(p[1])
    ensures p[0].v == point.items[0].n && p[1].v == point.items[1].n
  {
    [Finite(point.items[0].n), Finite(point.items[1].n)]
  }

  /** Only the first two entries matter: `slice(0, 2)` cuts the rest. */
  lemma PairPointIgnoresTail(xs: seq<Json>)
    requires IsLatLonPair(JArr(xs))
    ensures IsLatLonPair(JArr(xs[..2])) && PairPoint(JArr(xs)) == PairPoint(JArr(xs[..2]))
  {
  }

  /** The kept points, in order, cut to [lat, lon]. */
  function SanitizePoints(points: seq<Json>): (r: seq<seq<Num>>)
    ensures var kept := Seqs.Filter(IsLatLonPair, points);
      |r| == |kept| && forall i :: 0 <= i < |kept| ==> r[i] == PairPoint(kept[i])
  {
    var kept := Seqs.Filter(IsLatLonPair, points);
    seq(|kept|, i requires 0 <= i < |kept| => PairPoint(kept[i]))
  }

  /** `typeof v === 'number' ? Number(v) : undefined`. */
  function NumberField(v: Option<Json>): (r: Option<Num>)
    ensures r.Some? <==> IsNumber(v)
    ensures r.Some? ==> r.value == Finite(v.value.n)
  {
    if IsNumber(v) then Some(Finite(v.value.n)) else None
  }

  /** A building as `sanitizeBuildings` emits it. */
  predicate IsSanitized(b: BuildingFootprint) {
    && b.footprint.Some? && |b.footprint.value| >= 3
    && (forall i :: 0 <= i < |b.footprint.value| ==>
          |b.footprint.value[i]| == 2 && IsFinite(b.footprint.value[i][0]) && IsFinite(b.footprint.value[i][1]))
    && (b.heightM.None? || IsFinite(b.heightM.value))
    && (b.levels.None? || IsFinite(b.levels.value))
  }

  /** One entry of `buildings`: skipped unless it is truthy with a string
      id and an array footprint, and unless at least 3 points survive. */
  function SanitizeEntry(entry: Json): (r: Option<BuildingFootprint>)
    ensures r.Some? ==> IsSanitized(r.value)
  {
    var e := Some(entry);
    if !Truthy(e) || !IsString(Get(e, "id")) || !IsArray(Get(e, "footprint")) then None
    else
      var footprint := SanitizePoints(Get(e, "footprint").value.items);
      if |footprint| < 3 then None
      else Some(BuildingFootprint(Get(e, "id").value.s, Some(footprint),
                                  NumberField(Get(e, "heightM")), NumberField(Get(e, "levels"))))
  }

  /** Which entries survive, and what they become: the string id, the
      surviving points, and the height fields only when they are numbers. */
  lemma SanitizeEntryKeeps(entry: Json)
    ensures var r := SanitizeEntry(entry);
      && (r.Some? <==>
            && Truthy(Some(entry)) && IsString(Get(Some(entry), "id")) && IsArray(Get(Some(entry), "footprint"))
            && |Seqs.Filter(IsLatLonPair, Get(Some(entry), "footprint").value.items)| >= 3)
      && (r.Some? ==>
            && r.value.id == Get(Some(entry), "id").value.s
            && r.value.footprint == Some(SanitizePoints(Get(Some(entry), "footprint").value.items))
            && r.value.heightM == NumberField(Get(Some(entry), "heightM"))
            && r.value.levels == NumberField(Get(Some(entry), "levels")))
  {
  }

  /** Every entry that survives, in input order, with no cap. */
  function SanitizedEntries(entries: seq<Json>): (r: seq<BuildingFootprint>)
    ensures |r| <= |entries|
    ensures forall k :: 0 <= k < |r| ==> IsSanitized(r[k])
    decreases |entries|
  {
    if |entries| == 0 then []
    else
      var last := SanitizeEntry(entries[|entries| - 1]);
      SanitizedEntries(entries[..|entries| - 1]) + (if last.Some? then [last.value] else [])
  }

  function Min(a: nat, b: nat): nat {
    if a < b then a else b
  }

  /** `sanitizeBuildings`: the surviving entries in order, stopping once the
      cap is reached. */
  function SanitizeBuildings(entries: seq<Json>, cap: nat): (r: seq<BuildingFootprint>)
    ensures |r| <= Limit(cap)
    ensures forall k :: 0 <= k < |r| ==> IsSanitized(r[k])
    ensures |r| < Limit(cap) ==> r == SanitizedEntries(entries)
    ensures r <= SanitizedEntries(entries)
  {
    var all := SanitizedEntries(entries);
    all[..Min(|all|, Limit(cap))]
  }

  lemma {:induction false} SanitizedPrefix(entries: seq<Json>, j: nat)
    requires j <= |entries|
    ensures SanitizedEntries(entries[..j]) <= SanitizedEntries(entries)
    decreases |entries| - j
  {
    if j < |entries| {
      var front := entries[..|entries| - 1];
      assert entries[..j] == front[..j];
      SanitizedPrefix(front, j);
    } else {
      assert entries[..j] == entries;
    }
  }

  /** Looking at one more entry adds it when it survives. */
  lemma SanitizedStep(entries: seq<Json>, i: nat)
    requires i < |entries|
    ensures SanitizedEntries(entries[..i + 1]) == SanitizedEntries(entries[..i])
      + (if SanitizeEntry(entries[i]).Some? then [SanitizeEntry(entries[i]).value] else [])
  {
    assert entries[..i + 1][..i] == entries[..i];
  }

  /** The entries' sanitized forms, one option per entry. */
  function Sanitizations(entries: seq<Json>): seq<Option<BuildingFootprint>> {
    seq(|entries|, i requires 0 <= i < |entries| => SanitizeEntry(entries[i]))
  }

  /** The uncapped list is exactly the surviving entries, each sanitized, in
      input order. */
  lemma {:induction false} SanitizedEntriesAreSurvivors(entries: seq<Json>)
    ensures SanitizedEntries(entries) == Seqs.Somes(Sanitizations(entries))
    decreases |entries|
  {
    if |entries| > 0 {
      var front := entries[..|entries| - 1];
      SanitizedEntriesAreSurvivors(front);
      assert Sanitizations(entries) == Sanitizations(front) + [SanitizeEntry(entries[|entries| - 1])];
      Seqs.SomesSnoc(Sanitizations(front), SanitizeEntry(entries[|entries| - 1]));
    }
  }

  /** Once a prefix has yielded the limit, the capped list is that prefix's yield. */
  lemma StopAtLimit(entries: seq<Json>, j: nat, cap: nat)
    requires j <= |entries| && |SanitizedEntries(entries[..j])| == Limit(cap)
    ensures SanitizedEntries(entries[..j]) == SanitizeBuildings(entries, cap)
  {
    SanitizedPrefix(entries, j);
  }

  /** The loop of `sanitizeBuildings`, with its early `break`, computes
      the same list. */
  method SanitizeBuildingsLoop(entries: seq<Json>, cap: nat) returns (sanitized: seq<BuildingFootprint>)
    ensures sanitized == SanitizeBuildings(entries, cap)
  {
    sanitized := [];
    var i := 0;
    while i < |entries|
      invariant 0 <= i <= |entries|
      invariant sanitized == SanitizedEntries(entries[..i])
      invariant |sanitized| < Limit(cap)
    {
      SanitizedStep(entries, i);
      var entry := SanitizeEntry(entries[i]);
      if entry.Some? {
        sanitized := sanitized + [entry.value];
        if |sanitized| >= cap {
          StopAtLimit(entries, i + 1, cap);
          return;
        }
      }
      i := i + 1;
    }
    assert entries[..i] == entries;
  }

  // ---------------------------------------------------------------------
  // Parsing

  /** `parseContextFile`: `None` unless the value is an object carrying the
      expected schema version, a centre with numeric `lat` and `lon`, a
      numeric `radiusM` and a `buildings` array. `source` defaults to
      "tbk" and `fetchedAt` to nothing when they are not strings. */
  function ParseContextFile(data: Json, schemaVersion: real, cap: nat): (r: Option<ContextData>)
    ensures r.Some? <==>
      && (data.JObj? || data.JArr?)
      && Get(Some(data), "schemaVersion") == Some(JNum(schemaVersion))
      && Truthy(Get(Some(data), "center"))
      && IsNumber(Get(Get(Some(data), "center"), "lat")) && IsNumber(Get(Get(Some(data), "center"), "lon"))
      && IsNumber(Get(Some(data), "radiusM"))
      && IsArray(Get(Some(data), "buildings"))
    ensures r.Some? ==>
      && r.value.center == Some(Center(Get(Get(Some(data), "center"), "lat").value.n, Get(Get(Some(data), "center"), "lon").value.n))
      && r.value.radiusM == Get(Some(data), "radiusM").value.n
      && r.value.buildings == SanitizeBuildings(Get(Some(data), "buildings").value.items, cap)
      && (IsString(Get(Some(data), "source")) ==> r.value.source == Get(Some(data), "source").value.s)
      && (!IsString(Get(Some(data), "source")) ==> r.value.source == "tbk")
      && (IsString(Get(Some(data), "fetchedAt")) <==> r.value.fetchedAt.Some?)
  {
    var d := Some(data);
    if !Truthy(d) || !(data.JObj? || data.JArr?) then None
    else if Get(d, "schemaVersion") != Some(JNum(schemaVersion)) then None
    else
      var center := Get(d, "center");
      if !Truthy(center) || !IsNumber(Get(center, "lat")) || !IsNumber(Get(center, "lon")) then None
      else if !IsNumber(Get(d, "radiusM")) then None
      else if !IsArray(Get(d, "buildings")) then None
      else
        var fetchedAt := Get(d, "fetchedAt");
        var source := Get(d, "source");
        Some(ContextData(
          Some(Center(Get(center, "lat").value.n, Get(center, "lon").value.n)),
          Get(d, "radiusM").value.n,
          SanitizeBuildings(Get(d, "buildings").value.items, cap),
          if IsString(fetchedAt) then Some(fetchedAt.value.s) else None,
          if IsString(source) then source.value.s else "tbk"))
  }

  // ---------------------------------------------------------------------
  // Writing, for the round trip

  /** A number as `JSON.stringify` writes it and `JSON.parse` reads it back:
      non-finite numbers become `null`. */
  function NumJson(n: Num): Json {
    if n.Finite? then JNum(n.v) else JNull
  }

  function PointJson(p: seq<Num>): Json {
    JArr(seq(|p|, i requires 0 <= i < |p| => NumJson(p[i])))
  }

  /** A building as written to `context.json` and parsed back; absent
      optional fields are omitted. */
  function BuildingJson(b: BuildingFootprint): Json {
    var points := if b.footprint.Some? then b.footprint.value else [];
    var fields := map["id" := JStr(b.id),
                      "footprint" := JArr(seq(|points|, i requires 0 <= i < |points| => PointJson(points[i])))];
    var withHeight := if b.heightM.Some? then fields["heightM" := NumJson(b.heightM.value)] else fields;
    var withLevels := if b.levels.Some? then withHeight["levels" := NumJson(b.levels.value)] else withHeight;
    JObj(withLevels)
  }

  function BuildingsJson(bs: seq<BuildingFootprint>): (json: seq<Json>)
    ensures |json| == |bs|
    decreases |bs|
  {
    if |bs| == 0 then [] else BuildingsJson(bs[..|bs| - 1]) + [BuildingJson(bs[|bs| - 1])]
  }

  /** The context file written for `context`, as read back by `JSON.parse`. */
  function ContextJson(context: ContextData, schemaVersion: real): Json
    requires context.center.Some?
  {
    var c := context.center.value;
    var bs := context.buildings;
    var fields := map[
      "schemaVersion" := JNum(schemaVersion),
      "center" := JObj(map["lat" := JNum(c.lat), "lon" := JNum(c.lon)]),
      "radiusM" := JNum(context.radiusM),
      "buildings" := JArr(BuildingsJson(bs)),
      "source" := JStr(context.source)];
    JObj(if context.fetchedAt.Some? then fields["fetchedAt" := JStr(context.fetchedAt.value)] else fields)
  }

  /** One finite [lat, lon] point survives being written and read back. */
  lemma PointRoundTrip(p: seq<Num>)
    requires |p| == 2 && IsFinite(p[0]) && IsFinite(p[1])
    ensures IsLatLonPair(PointJson(p)) && PairPoint(PointJson(p)) == p
  {
    assert p == [p[0], p[1]];
  }

  lemma PointsRoundTrip(points: seq<seq<Num>>)
    requires forall i :: 0 <= i < |points| ==> |points[i]| == 2 && IsFinite(points[i][0]) && IsFinite(points[i][1])
    ensures SanitizePoints(seq(|points|, i requires 0 <= i < |points| => PointJson(points[i]))) == points
  {
    var json := seq(|points|, i requires 0 <= i < |points| => PointJson(points[i]));
    forall i | 0 <= i < |json| ensures IsLatLonPair(json[i]) && PairPoint(json[i]) == points[i] {
      PointRoundTrip(points[i]);
    }
    Seqs.FilterAll(IsLatLonPair, json);
    var r := SanitizePoints(json);
    assert |r| == |points|;
    forall i | 0 <= i < |points| ensures r[i] == points[i] {
      assert r[i] == PairPoint(json[i]);
    }
  }

  lemma EntryRoundTrip(b: BuildingFootprint)
    requires IsSanitized(b)
    ensures SanitizeEntry(BuildingJson(b)) == Some(b)
  {
    var points := b.footprint.value;
    var items := seq(|points|, i requires 0 <= i < |points| => PointJson(points[i]));
    PointsRoundTrip(points);
    var json := BuildingJson(b);
    var fields := json.fields;
    assert Get(Some(json), "id") == Some(JStr(b.id));
    assert Get(Some(json), "footprint") == Some(JArr(items));
    assert NumberField(Get(Some(json), "heightM")) == b.heightM;
    assert NumberField(Get(Some(json), "levels")) == b.levels;
  }

  lemma SanitizedEntriesSnoc(front: seq<Json>, last: Json)
    ensures SanitizedEntries(front + [last]) ==
            SanitizedEntries(front) + (if SanitizeEntry(last).Some? then [SanitizeEntry(last).value] else [])
  {
    assert (front + [last])[..|front|] == front;
  }

  lemma {:induction false} EntriesRoundTrip(bs: seq<BuildingFootprint>)
    requires forall k :: 0 <= k < |bs| ==> IsSanitized(bs[k])
    ensures SanitizedEntries(BuildingsJson(bs)) == bs
    decreases |bs|
  {
    if |bs| > 0 {
      var n := |bs|;
      var front := bs[..n - 1];
      var last := bs[n - 1];
      assert bs == front + [last];
      EntriesRoundTrip(front);
      EntryRoundTrip(last);
      SanitizedEntriesSnoc(BuildingsJson(front), BuildingJson(last));
    }
  }

  /** What `parseContextFile` reads from the file written for `context`. */
  lemma ContextJsonReads(context: ContextData, schemaVersion: real)
    requires context.center.Some?
    ensures var d := Some(ContextJson(context, schemaVersion));
      var c := context.center.value;
      && d.value.JObj?
      && Get(d, "schemaVersion") == Some(JNum(schemaVersion))
      && Get(d, "center") == Some(JObj(map["lat" := JNum(c.lat), "lon" := JNum(c.lon)]))
      && Get(d, "radiusM") == Some(JNum(context.radiusM))
      && Get(d, "buildings") == Some(JArr(BuildingsJson(context.buildings)))
      && Get(d, "source") == Some(JStr(context.source))
      && (context.fetchedAt.Some? ==> Get(d, "fetchedAt") == Some(JStr(context.fetchedAt.value)))
      && (context.fetchedAt.None? ==> Get(d, "fetchedAt").None?)
  {
  }

  /** An object with the expected fields parses to the context they spell. */
  lemma ParseReadsFields(data: Json, schemaVersion: real, cap: nat, lat: real, lon: real, radiusM: real,
                         entries: seq<Json>, fetchedAt: Option<string>, source: string)
    requires data.JObj?
    requires Get(Some(data), "schemaVersion") == Some(JNum(schemaVersion))
    requires Get(Some(data), "center") == Some(JObj(map["lat" := JNum(lat), "lon" := JNum(lon)]))
    requires Get(Some(data), "radiusM") == Some(JNum(radiusM))
    requires Get(Some(data), "buildings") == Some(JArr(entries))
    requires Get(Some(data), "source") == Some(JStr(source))
    requires fetchedAt.Some? ==> Get(Some(data), "fetchedAt") == Some(JStr(fetchedAt.value))
    requires fetchedAt.None? ==> Get(Some(data), "fetchedAt").None?
    ensures ParseContextFile(data, schemaVersion, cap) ==
            Some(ContextData(Some(Center(lat, lon)), radiusM, SanitizeBuildings(entries, cap), fetchedAt, source))
  {
    var center := Get(Some(data), "center");
    assert Truthy(center);
    assert Get(center, "lat") == Some(JNum(lat)) && Get(center, "lon") == Some(JNum(lon));
  }

  /** A saved context with a centre and sanitized buildings, no more than
      the cap allows, is read back unchanged. */
  lemma ContextFileRoundTrip(context: ContextData, schemaVersion: real, cap: nat)
    requires context.center.Some?
    requires forall k :: 0 <= k < |context.buildings| ==> IsSanitized(context.buildings[k])
    requires |context.buildings| <= Limit(cap)
    ensures ParseContextFile(ContextJson(context, schemaVersion), schemaVersion, cap) == Some(context)
  {
    var c := context.center.value;
    assert SanitizeBuildings(BuildingsJson(context.buildings), cap) == context.buildings by {
      EntriesRoundTrip(context.buildings);
    }
    ContextJsonReads(context, schemaVersion);
    ParseReadsFields(ContextJson(context, schemaVersion), schemaVersion, cap, c.lat, c.lon, context.radiusM,
                     BuildingsJson(context.buildings), context.fetchedAt, context.source);
  }
}
