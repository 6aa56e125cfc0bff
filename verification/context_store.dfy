/** The surrounding-buildings store (src/shared/stores/contextStore.ts): its
    state updates and the parsers that turn an Overpass response into
    building footprints. The fetch itself is not modelled. */
module ContextStore {
  import opened Wrappers
  import opened JsValues
  import opened TextParse
  import Seqs

  /** One surrounding building: an id, a footprint of [lat, lon] points and
      the optional height tags. Footprints and numbers are kept as untrusted
      JavaScript values because the context pipeline re-checks them. */
  datatype BuildingFootprint = BuildingFootprint(
    id: string,
    footprint: Option<seq<seq<Num>>>,
    heightM: Option<Num>,
    levels: Option<Num>)

  datatype Center = Center(lat: real, lon: real)

  datatype FetchStatus = Idle | Loading | Succeeded | Errored

  /** The store's data fields. The abort controller is represented only by
      whether one is held. */
  datatype ContextState = ContextState(
    center: Option<Center>,
    radiusM: real,
    status: FetchStatus,
    error: Option<string>,
    buildingsCount: int,
    buildings: seq<BuildingFootprint>,
    lastFetchedKey: Option<string>,
    holdsController: bool)

  const DefaultRadius: real := 100.0

  /** The count shown to the user is the number of buildings held. */
  predicate Consistent(s: ContextState) {
    s.buildingsCount == |s.buildings|
  }

  function Initial(): (s: ContextState)
    ensures Consistent(s) && s.center.None? && s.radiusM == DefaultRadius && s.status == Idle
  {
    ContextState(None, DefaultRadius, Idle, None, 0, [], None, false)
  }

  function SetCenter(s: ContextState, lat: real, lon: real): (r: ContextState)
    ensures r.center == Some(Center(lat, lon))
    ensures r.(center := s.center) == s
  {
    s.(center := Some(Center(lat, lon)))
  }

  function SetRadiusM(s: ContextState, radius: real): (r: ContextState)
    ensures r.radiusM == radius
    ensures r.(radiusM := s.radiusM) == s
  {
    s.(radiusM := radius)
  }

  /** `clearContext`: back to the initial data; the controller field is not
      part of the reset. */
  function ClearContext(s: ContextState): (r: ContextState)
    ensures r.center.None? && r.radiusM == DefaultRadius && r.status == Idle && r.error.None?
    ensures r.buildings == [] && r.buildingsCount == 0 && r.lastFetchedKey.None?
    ensures r.holdsController == s.holdsController
    ensures r == Initial().(holdsController := s.holdsController)
  {
    s.(center := None, radiusM := DefaultRadius, status := Idle, error := None,
       buildings := [], buildingsCount := 0, lastFetchedKey := None)
  }

  /** `cancelFetch`: drops the controller (aborting it), returns to idle
      with the error "Cancelled" and forgets the last fetched key; the
      buildings already held stay. */
  function CancelFetch(s: ContextState): (r: ContextState)
    ensures !r.holdsController && r.status == Idle && r.error == Some("Cancelled") && r.lastFetchedKey.None?
    ensures r.center == s.center && r.radiusM == s.radiusM
    ensures r.buildings == s.buildings && r.buildingsCount == s.buildingsCount
  {
    s.(holdsController := false, status := Idle, error := Some("Cancelled"), lastFetchedKey := None)
  }

  /** Every update keeps the count in step with the buildings, and
      clearing is idempotent. */
  lemma UpdatesKeepConsistent(s: ContextState, lat: real, lon: real, radius: real)
    requires Consistent(s)
    ensures Consistent(SetCenter(s, lat, lon)) && Consistent(SetRadiusM(s, radius))
    ensures Consistent(ClearContext(s)) && Consistent(CancelFetch(s))
    ensures ClearContext(ClearContext(s)) == ClearContext(s)
  {
  }

  // ---------------------------------------------------------------------
  // Overpass parsing

  /** A node with numeric `lat` and `lon`. */
  predicate HasLatLon(node: Json) {
    IsNumber(Get(Some(node), "lat")) && IsNumber(Get(Some(node), "lon"))
  }

  /** The [lat, lon] point of such a node, each rounded by `round6` (the
      six-decimal `toFixed` round trip). */
  function NodePoint(node: Json, round6: real -> real): (p: seq<Num>)
    requires HasLatLon(node)
    ensures |p| == 2 && IsFinite(p[0]) && IsFinite(p[1])
  {
    [Finite(round6(Get(Some(node), "lat").value.n)), Finite(round6(Get(Some(node), "lon").value.n))]
  }

  /** `parseGeometry`: the points of the nodes with numeric coordinates, in
      order; `None` for a non-array or when fewer than 3 remain. */
  function ParseGeometry(geometry: Json, round6: real -> real): (r: Option<seq<seq<Num>>>)
    ensures !geometry.JArr? ==> r.None?
    ensures geometry.JArr? ==>
      var kept := Seqs.Filter(HasLatLon, geometry.items);
      && (r.Some? <==> |kept| >= 3)
      && (r.Some? ==> |r.value| == |kept| && forall i :: 0 <= i < |kept| ==> r.value[i] == NodePoint(kept[i], round6))
    ensures r.Some? ==> |r.value| >= 3 && forall i :: 0 <= i < |r.value| ==> |r.value[i]| == 2 && IsFinite(r.value[i][0]) && IsFinite(r.value[i][1])
  {
    if !geometry.JArr? then None
    else
      var kept := Seqs.Filter(HasLatLon, geometry.items);
      var points := seq(|kept|, i requires 0 <= i < |kept| => NodePoint(kept[i], round6));
      if |points| < 3 then None else Some(points)
  }

  /** `parseHeight`: the tag with everything but digits and points deleted,
      read as a leading decimal. */
  function ParseHeight(tags: Option<Json>, show: Json -> string): (r: Option<Num>)
    ensures !Truthy(tags) ==> r.None?
    ensures !Truthy(Get(tags, "height")) ==> r.None?
    ensures r.Some? ==> r.value.Finite? && r.value.v >= 0.0
    ensures Truthy(tags) && Truthy(Get(tags, "height")) ==>
              r == (match ParseFloat(KeepDecimalChars(ToJsString(Get(tags, "height"), show)))
                    case None => None
                    case Some(v) => Some(Finite(v)))
  {
    if !Truthy(tags) then None
    else
      var height := Get(tags, "height");
      if !Truthy(height) then None
      else
        var digits := KeepDecimalChars(ToJsString(height, show));
        match ParseFloat(digits)
        case None => None
        case Some(v) =>
          KeptDecimalIsUnsigned(digits);
          Some(Finite(v))
  }

  /** A string of digits and points has no sign, so it parses to a
      non-negative number. */
  lemma KeptDecimalIsUnsigned(s: string)
    requires forall i :: 0 <= i < |s| ==> IsDigit(s[i]) || s[i] == '.'
    requires ParseFloat(s).Some?
    ensures ParseFloat(s).value >= 0.0
  {
    assert LeadingSpaces(s) == 0;
    assert s[0..] == s;
  }

  /** `parseLevels`: the base-10 integer prefix of the tag. */
  function ParseLevels(tags: Option<Json>, show: Json -> string): (r: Option<Num>)
    ensures !Truthy(tags) ==> r.None?
    ensures !Truthy(Get(tags, "levels")) ==> r.None?
    ensures r.Some? ==> r.value.Finite?
    ensures Truthy(tags) && Truthy(Get(tags, "levels")) ==>
              r == (match ParseInt(ToJsString(Get(tags, "levels"), show))
                    case None => None
                    case Some(n) => Some(Finite(n as real)))
  {
    if !Truthy(tags) then None
    else
      var levels := Get(tags, "levels");
      if !Truthy(levels) then None
      else
        match ParseInt(ToJsString(levels, show))
        case None => None
        case Some(n) => Some(Finite(n as real))
  }

  /** A plain number has only decimal characters, so filtering keeps it whole. */
  lemma KeepDecimalOfNatToString(n: nat)
    ensures KeepDecimalChars(NatToString(n)) == NatToString(n)
  {
    var s := NatToString(n);
    Seqs.FilterAll((c: char) => IsDigit(c) || c == '.', s);
  }

  /** A tag written as a plain number parses back to that number. */
  lemma TagsParseBack(n: nat, show: Json -> string)
    ensures var tags := Some(JObj(map["height" := JStr(NatToString(n)), "levels" := JStr(NatToString(n))]));
      && ParseHeight(tags, show) == Some(Finite(n as real))
      && ParseLevels(tags, show) == Some(Finite(n as real))
  {
    var s := NatToString(n);
    var tags := Some(JObj(map["height" := JStr(s), "levels" := JStr(s)]));
    assert Get(tags, "height") == Some(JStr(s)) && Get(tags, "levels") == Some(JStr(s));
    assert ToJsString(Some(JStr(s)), show) == s;
    assert Truthy(Some(JStr(s))) by { assert |s| >= 1; }
    KeepDecimalOfNatToString(n);
    ParseFloatOfNatToString(n);
    ParseIntOfNatToString(n);
  }

  /** How many buildings a loop capped by `MAX_CONTEXT_BUILDINGS` keeps at most.
      Both such loops push before testing `length >= cap`, so a cap of 0 still
      keeps one. */
  function Limit(cap: nat): (limit: nat)
    ensures limit >= 1 && limit >= cap
  {
    if cap == 0 then 1 else cap
  }

  predicate IsBuildingType(t: Option<Json>) {
    t == Some(JStr("way")) || t == Some(JStr("relation"))
  }

  /** One element of the response: a building when it is truthy, has a
      truthy geometry, is a way or a relation and yields at least 3 points.
      The id is `<type>/<id>`. */
  function ParseElement(element: Json, round6: real -> real, show: Json -> string): (r: Option<BuildingFootprint>)
    ensures r.Some? <==>
      && Truthy(Some(element))
      && Truthy(Get(Some(element), "geometry"))
      && IsBuildingType(Get(Some(element), "type"))
      && ParseGeometry(Get(Some(element), "geometry").value, round6).Some?
    ensures r.Some? ==>
      && r.value.id == Get(Some(element), "type").value.s + "/" + ToJsString(Get(Some(element), "id"), show)
      && r.value.footprint == ParseGeometry(Get(Some(element), "geometry").value, round6)
      && r.value.heightM == ParseHeight(Get(Some(element), "tags"), show)
      && r.value.levels == ParseLevels(Get(Some(element), "tags"), show)
  {
    var e := Some(element);
    if !Truthy(e) || !Truthy(Get(e, "geometry")) then None
    else if !IsBuildingType(Get(e, "type")) then None
    else
      match ParseGeometry(Get(e, "geometry").value, round6)
      case None => None
      case Some(footprint) =>
        if |footprint| < 3 then None
        else
          var tags := Get(e, "tags");
          Some(BuildingFootprint(Get(e, "type").value.s + "/" + ToJsString(Get(e, "id"), show),
                                 Some(footprint), ParseHeight(tags, show), ParseLevels(tags, show)))
  }

  datatype Parsed = Parsed(buildings: seq<BuildingFootprint>, count: int)

  /** `parseOverpassBuildings`. A falsy `elements` gives nothing. An array is
      scanned element by element. A non-empty string iterates its
      characters, none of which is an element with geometry. Any other
      truthy value is not iterable and throws a TypeError. */
  function ParseOverpassBuildings(data: Json, round6: real -> real, show: Json -> string): (r: Result<Parsed, string>)
    ensures var elements := Get(Some(data), "elements");
      && (!Truthy(elements) ==> r == Success(Parsed([], 0)))
      && (r.Success? <==> !Truthy(elements) || elements.value.JArr? || elements.value.JStr?)
    ensures r.Success? ==> r.value.count == |r.value.buildings|
    ensures r.Success? ==> forall i :: 0 <= i < |r.value.buildings| ==>
      var fp := r.value.buildings[i].footprint;
      fp.Some? && |fp.value| >= 3
    ensures var elements := Get(Some(data), "elements");
      r.Success? && elements.Some? && elements.value.JArr? ==>
      && (forall i :: 0 <= i < |elements.value.items| && ParseElement(elements.value.items[i], round6, show).Some? ==>
            ParseElement(elements.value.items[i], round6, show).value in r.value.buildings)
      && (forall k :: 0 <= k < |r.value.buildings| ==> ComesFrom(elements.value.items, r.value.buildings[k], round6, show))
      && r.value.buildings == ParseElements(elements.value.items, round6, show)
  {
    var elements := Get(Some(data), "elements");
    if !Truthy(elements) then Success(Parsed([], 0))
    else match elements.value
      case JArr(items) =>
        var buildings := ParseElements(items, round6, show);
        ParsedFootprints(items, round6, show);
        Success(Parsed(buildings, |buildings|))
      case JStr(_) => Success(Parsed([], 0))
      case _ => Failure("TypeError")
  }

  /** Some element of `items` parses to `b`. */
  predicate ComesFrom(items: seq<Json>, b: BuildingFootprint, round6: real -> real, show: Json -> string) {
    exists i :: 0 <= i < |items| && ParseElement(items[i], round6, show) == Some(b)
  }

  /** The buildings of an element array, in order: every element that
      parses contributes its building, and nothing else does. */
  function ParseElements(items: seq<Json>, round6: real -> real, show: Json -> string): (r: seq<BuildingFootprint>)
    ensures |r| <= |items|
    ensures forall i :: 0 <= i < |items| && ParseElement(items[i], round6, show).Some? ==>
              ParseElement(items[i], round6, show).value in r
    ensures forall k :: 0 <= k < |r| ==> ComesFrom(items, r[k], round6, show)
  {
    var parses := seq(|items|, i requires 0 <= i < |items| => ParseElement(items[i], round6, show));
    var r := Seqs.Somes(parses);
    forall i | 0 <= i < |items| && ParseElement(items[i], round6, show).Some?
      ensures ParseElement(items[i], round6, show).value in r
    {
      assert parses[i] == ParseElement(items[i], round6, show);
    }
    assert forall k :: 0 <= k < |r| ==> ComesFrom(items, r[k], round6, show) by {
      forall k | 0 <= k < |r| ensures ComesFrom(items, r[k], round6, show) {
        var i :| 0 <= i < |parses| && parses[i] == Some(r[k]);
      }
    }
    r
  }

  /** The buildings come out in element order, one per parsing element:
      no elements give none, and one more element appends its building
      exactly when it parses. */
  lemma ParseElementsInOrder(items: seq<Json>, e: Json, round6: real -> real, show: Json -> string)
    ensures ParseElements([], round6, show) == []
    ensures ParseElements(items + [e], round6, show) == ParseElements(items, round6, show)
      + (if ParseElement(e, round6, show).Some? then [ParseElement(e, round6, show).value] else [])
  {
    var parses := seq(|items|, i requires 0 <= i < |items| => ParseElement(items[i], round6, show));
    var all := items + [e];
    var longer := seq(|all|, i requires 0 <= i < |all| => ParseElement(all[i], round6, show));
    assert longer == parses + [ParseElement(e, round6, show)];
    Seqs.SomesSnoc(parses, ParseElement(e, round6, show));
  }

  /** Every building has a ring of at least three points. */
  lemma ParsedFootprints(items: seq<Json>, round6: real -> real, show: Json -> string)
    ensures var r := ParseElements(items, round6, show);
      forall k :: 0 <= k < |r| ==> r[k].footprint.Some? && |r[k].footprint.value| >= 3
  {
    var r := ParseElements(items, round6, show);
    forall k | 0 <= k < |r| ensures r[k].footprint.Some? && |r[k].footprint.value| >= 3 {
      assert ComesFrom(items, r[k], round6, show);
    }
  }
}
