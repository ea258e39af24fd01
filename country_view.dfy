/** The country navigation shared, line for line, by both map pages
    (src/component/mapComponent/mapGallery.tsx and
    src/app/gallery/mapGallery.tsx): the case-insensitive country search and
    the fly-to target, with its per-country centre and zoom adjustments and
    the clamp to the map's zoom range. Leaflet's bounds computation is an
    input: the centre and fitting zoom of a country's bounds, or nothing when
    the bounds cannot be computed or are invalid. */
module CountryView {
  import opened Common

  const MinZoom: real := 3.0
  const MaxZoom: real := 14.0
  /** The zoom used when only a point is known for a country. */
  const PointZoom: real := 6.0
  const SearchResultLimit: nat := 10
  /** Countries are highlighted on hover only below this zoom. */
  const HighlightZoomLimit: real := 10.0

  /** JavaScript's white space and line terminators, the characters
      String.prototype.trim removes. */
  predicate IsWhiteSpace(c: char)
  {
    c == ' ' || c == '\t' || c == '\n' || c == '\U{000B}' || c == '\U{000C}' || c == '\r' ||
    c == '\U{00A0}' || c == '\U{FEFF}' || c == '\U{1680}' || ('\U{2000}' <= c <= '\U{200A}') ||
    c == '\U{2028}' || c == '\U{2029}' || c == '\U{202F}' || c == '\U{205F}' || c == '\U{3000}'
  }

  function TrimStart(s: string): (r: string)
    ensures |r| <= |s| && r == s[|s| - |r|..]
    ensures r != [] ==> !IsWhiteSpace(r[0])
    ensures forall i :: 0 <= i < |s| - |r| ==> IsWhiteSpace(s[i])
  {
    if s != [] && IsWhiteSpace(s[0]) then TrimStart(s[1..]) else s
  }

  function TrimEnd(s: string): (r: string)
    ensures |r| <= |s| && r == s[..|r|]
    ensures r != [] ==> !IsWhiteSpace(r[|r| - 1])
    ensures forall i :: |r| <= i < |s| ==> IsWhiteSpace(s[i])
  {
    if s != [] && IsWhiteSpace(s[|s| - 1]) then TrimEnd(s[..|s| - 1]) else s
  }

  /** String.prototype.trim. */
  function Trim(s: string): string
  {
    TrimEnd(TrimStart(s))
  }

  /** A query is blank exactly when it is made of white space only. */
  lemma TrimEmptyIffBlank(s: string)
    ensures Trim(s) == "" <==> forall i :: 0 <= i < |s| ==> IsWhiteSpace(s[i])
  {
    var t := TrimStart(s);
    if t != [] {
      assert t[0] == s[|s| - |t|];
    }
  }

  /** String.prototype.toLowerCase on the ASCII letters. */
  function LowerChar(c: char): (r: char)
    ensures !('A' <= r <= 'Z')
    ensures !('A' <= c <= 'Z') ==> r == c
  {
    if 'A' <= c <= 'Z' then (c as int + 32) as char else c
  }

  function ToLower(s: string): (r: string)
    ensures |r| == |s|
    ensures forall i :: 0 <= i < |s| ==> r[i] == LowerChar(s[i])
  {
    seq(|s|, i requires 0 <= i < |s| => LowerChar(s[i]))
  }

  lemma ToLowerIdempotent(s: string)
    ensures ToLower(ToLower(s)) == ToLower(s)
  {
  }

  /** String.prototype.includes. */
  predicate Contains(s: string, sub: string)
    decreases |s|
  {
    (|sub| <= |s| && s[..|sub|] == sub) || (s != [] && Contains(s[1..], sub))
  }

  /** A country feature of the loaded GeoJSON: its name and, for the
      point fallback, whether its geometry is a point. */
  datatype Geometry = NoGeometry | Point(lng: real, lat: real) | Area
  datatype CountryFeature = CountryFeature(name: string, geometry: Geometry)

  predicate NameMatches(f: CountryFeature, query: string)
  {
    Contains(ToLower(f.name), ToLower(query))
  }

  /** The features whose lower-cased name contains the lower-cased query,
      in their original order. */
  function Matches(features: seq<CountryFeature>, query: string): seq<CountryFeature>
  {
    if features == [] then []
    else (if NameMatches(features[0], query) then [features[0]] else [])
         + Matches(features[1..], query)
  }

  lemma {:induction false} MatchesAreExactlyTheMatching(features: seq<CountryFeature>, query: string)
    ensures forall f :: f in Matches(features, query) <==> f in features && NameMatches(f, query)
    ensures IsSubsequence(Matches(features, query), features)
  {
    if features != [] {
      MatchesAreExactlyTheMatching(features[1..], query);
      var m := Matches(features, query);
      assert features == [features[0]] + features[1..];
      if NameMatches(features[0], query) {
        assert m[0] == features[0] && m[1..] == Matches(features[1..], query);
      } else {
        assert m == Matches(features[1..], query);
        SubsequenceSkip(m, features[0], features[1..]);
      }
    }
  }

  /** Array.prototype.slice(0, n). */
  function Take<T>(s: seq<T>, n: nat): (r: seq<T>)
    ensures |r| <= n && |r| <= |s| && r == s[..|r|]
    ensures |s| <= n ==> r == s
  {
    if |s| <= n then s else s[..n]
  }

  /** What the search box shows after an edit. */
  datatype SearchState = SearchState(results: seq<CountryFeature>, dropdownOpen: bool)

  /** handleSearchChange's outcome for the new query. */
  function Search(features: seq<CountryFeature>, query: string): (r: SearchState)
    ensures Trim(query) == "" ==> r == SearchState([], false)
    ensures Trim(query) != "" ==>
      r.results == Take(Matches(features, query), SearchResultLimit) &&
      (r.dropdownOpen <==> Matches(features, query) != [])
  {
    if Trim(query) == "" then SearchState([], false)
    else
      var filtered := Matches(features, query);
      SearchState(Take(filtered, SearchResultLimit), |filtered| > 0)
  }

  /** At most ten results, each a loaded feature whose name contains the
      query regardless of case, and the dropdown opens exactly when there
      is a result to show; when there are no more than ten matches, every
      matching feature is shown. */
  lemma SearchShowsMatchingFeatures(features: seq<CountryFeature>, query: string)
    ensures var r := Search(features, query);
      |r.results| <= SearchResultLimit &&
      (forall f :: f in r.results ==> f in features && NameMatches(f, query)) &&
      (r.dropdownOpen <==> r.results != []) &&
      (Trim(query) != "" && |Matches(features, query)| <= SearchResultLimit ==>
        forall f :: f in features && NameMatches(f, query) ==> f in r.results)
  {
    MatchesAreExactlyTheMatching(features, query);
    var m := Matches(features, query);
    var r := Search(features, query);
    forall f | f in r.results ensures f in m {
      var i :| 0 <= i < |r.results| && r.results[i] == f;
      assert f == m[i];
    }
    if Trim(query) != "" && m != [] {
      assert m[0] in r.results;
    }
  }

  /** Lower-casing neither adds nor removes white space. */
  lemma ToLowerKeepsBlankness(query: string)
    ensures Trim(ToLower(query)) == "" <==> Trim(query) == ""
  {
    TrimEmptyIffBlank(query);
    TrimEmptyIffBlank(ToLower(query));
    forall i | 0 <= i < |query| ensures IsWhiteSpace(ToLower(query)[i]) <==> IsWhiteSpace(query[i]) {
      LowerCharKeepsWhiteSpace(query[i]);
    }
  }

  lemma LowerCharKeepsWhiteSpace(c: char)
    ensures IsWhiteSpace(LowerChar(c)) <==> IsWhiteSpace(c)
  {
    if 'A' <= c <= 'Z' {
      assert 'a' <= LowerChar(c) <= 'z';
    }
  }

  /** The search does not depend on the case of the query. */
  lemma SearchIgnoresQueryCase(features: seq<CountryFeature>, query: string)
    ensures Search(features, ToLower(query)) == Search(features, query)
  {
    ToLowerIdempotent(query);
    MatchesSameLoweredQuery(features, ToLower(query), query);
    ToLowerKeepsBlankness(query);
  }

  lemma {:induction false} MatchesSameLoweredQuery(features: seq<CountryFeature>, q1: string, q2: string)
    requires ToLower(q1) == ToLower(q2)
    ensures Matches(features, q1) == Matches(features, q2)
  {
    if features != [] {
      MatchesSameLoweredQuery(features[1..], q1, q2);
    }
  }

  datatype LatLng = LatLng(lat: real, lng: real)

  /** An entry of the per-country adjustment table. */
  datatype Adjustment = Adjustment(fixedLat: Option<real>, fixedLng: Option<real>, zoomFactor: Option<real>)

  function AdjustmentFor(countryName: string): Option<Adjustment>
  {
    if countryName == "Russia" then Some(Adjustment(None, Some(95.0), Some(1.3)))
    else if countryName == "United States of America" then Some(Adjustment(Some(39.8283), Some(-98.5795), Some(1.7)))
    else if countryName == "Canada" then Some(Adjustment(Some(60.1304), Some(-105.3468), Some(1.6)))
    else if countryName == "Greenland" then Some(Adjustment(Some(72.5), Some(-40.0), Some(1.5)))
    else None
  }

  /** Where the map flies and at what zoom. */
  datatype Flight = Flight(center: LatLng, zoom: real)

  /** The adjusted centre: both fixed coordinates replace the whole
      centre, otherwise a single fixed coordinate replaces only itself. */
  function AdjustedCenter(center: LatLng, adj: Option<Adjustment>): LatLng
  {
    if adj.None? then center
    else if adj.value.fixedLat.Some? && adj.value.fixedLng.Some? then LatLng(adj.value.fixedLat.value, adj.value.fixedLng.value)
    else if adj.value.fixedLng.Some? then LatLng(center.lat, adj.value.fixedLng.value)
    else if adj.value.fixedLat.Some? then LatLng(adj.value.fixedLat.value, center.lng)
    else center
  }

  /** The fitting zoom scaled by a truthy zoom factor, then capped by the
      maximum zoom and raised to the minimum zoom, in that order. */
  function AdjustedZoom(fitZoom: real, adj: Option<Adjustment>, minZoom: Option<real>, maxZoom: Option<real>): real
  {
    Clamp(ScaledZoom(fitZoom, adj), minZoom, maxZoom)
  }

  /** The zoom after a truthy zoom factor is applied. */
  function ScaledZoom(fitZoom: real, adj: Option<Adjustment>): real
  {
    if adj.Some? && adj.value.zoomFactor.Some? && adj.value.zoomFactor.value != 0.0
    then fitZoom * adj.value.zoomFactor.value else fitZoom
  }

  /** The map's maxZoom cap, then its minZoom floor. */
  function Clamp(zoom: real, minZoom: Option<real>, maxZoom: Option<real>): real
  {
    var capped := if maxZoom.Some? then MinReal(zoom, maxZoom.value) else zoom;
    if minZoom.Some? then MaxReal(capped, minZoom.value) else capped
  }

  /** The target computation of flyToCountry and zoomToFeature, assigning
      the centre and the zoom step by step as the source does. `adjustment`
      is the table entry for the country, `AdjustmentFor(name)`. */
  method ComputeFlight(adjustment: Option<Adjustment>, boundsCenter: LatLng, fitZoom: real,
                       minZoom: Option<real>, maxZoom: Option<real>) returns (flight: Flight)
    ensures flight.center == AdjustedCenter(boundsCenter, adjustment)
    ensures flight.zoom == AdjustedZoom(fitZoom, adjustment, minZoom, maxZoom)
  {
    var targetCenter := boundsCenter;
    var targetZoom := fitZoom;
    if adjustment.Some? {
      var adj := adjustment.value;
      if adj.fixedLat.Some? && adj.fixedLng.Some? {
        targetCenter := LatLng(adj.fixedLat.value, adj.fixedLng.value);
      } else if adj.fixedLng.Some? {
        targetCenter := LatLng(targetCenter.lat, adj.fixedLng.value);
      } else if adj.fixedLat.Some? {
        targetCenter := LatLng(adj.fixedLat.value, targetCenter.lng);
      }
      if adj.zoomFactor.Some? && adj.zoomFactor.value != 0.0 {
        targetZoom := targetZoom * adj.zoomFactor.value;
      }
    }
    assert targetCenter == AdjustedCenter(boundsCenter, adjustment);
    assert targetZoom == ScaledZoom(fitZoom, adjustment);
    if maxZoom.Some? {
      targetZoom := MinReal(targetZoom, maxZoom.value);
    }
    if minZoom.Some? {
      targetZoom := MaxReal(targetZoom, minZoom.value);
    }
    flight := Flight(targetCenter, targetZoom);
  }

  /** With the pages' zoom range the flight zoom always lies in [3, 14]; a
      country without an adjustment keeps the bounds' centre and zoom
      clamped to that range. */
  lemma FlightZoomWithinMapRange(countryName: string, boundsCenter: LatLng, fitZoom: real)
    ensures MinZoom <= AdjustedZoom(fitZoom, AdjustmentFor(countryName), Some(MinZoom), Some(MaxZoom)) <= MaxZoom
    ensures AdjustmentFor(countryName).None? ==>
      AdjustedCenter(boundsCenter, AdjustmentFor(countryName)) == boundsCenter &&
      (MinZoom <= fitZoom <= MaxZoom ==>
        AdjustedZoom(fitZoom, AdjustmentFor(countryName), Some(MinZoom), Some(MaxZoom)) == fitZoom)
  {
  }

  /** The minimum zoom wins over the maximum when the two conflict, since
      it is applied last. */
  lemma MinZoomAppliedLast(fitZoom: real, adj: Option<Adjustment>, lo: real, hi: real)
    requires hi < lo
    ensures AdjustedZoom(fitZoom, adj, Some(lo), Some(hi)) == lo
  {
  }

  /** The four adjusted countries: Russia keeps the bounds' latitude and
      moves to longitude 95; the others fly to a fixed centre; each zoom is
      the fitting zoom times its factor, clamped to the map's range. */
  lemma AdjustedCountries(boundsCenter: LatLng, fitZoom: real)
    ensures AdjustedCenter(boundsCenter, AdjustmentFor("Russia")) == LatLng(boundsCenter.lat, 95.0)
    ensures AdjustedCenter(boundsCenter, AdjustmentFor("United States of America")) == LatLng(39.8283, -98.5795)
    ensures AdjustedCenter(boundsCenter, AdjustmentFor("Canada")) == LatLng(60.1304, -105.3468)
    ensures AdjustedCenter(boundsCenter, AdjustmentFor("Greenland")) == LatLng(72.5, -40.0)
    ensures AdjustedZoom(fitZoom, AdjustmentFor("Russia"), Some(MinZoom), Some(MaxZoom))
            == MaxReal(MinReal(fitZoom * 1.3, MaxZoom), MinZoom)
    ensures AdjustedZoom(fitZoom, AdjustmentFor("United States of America"), Some(MinZoom), Some(MaxZoom))
            == MaxReal(MinReal(fitZoom * 1.7, MaxZoom), MinZoom)
    ensures AdjustedZoom(fitZoom, AdjustmentFor("Canada"), Some(MinZoom), Some(MaxZoom))
            == MaxReal(MinReal(fitZoom * 1.6, MaxZoom), MinZoom)
    ensures AdjustedZoom(fitZoom, AdjustmentFor("Greenland"), Some(MinZoom), Some(MaxZoom))
            == MaxReal(MinReal(fitZoom * 1.5, MaxZoom), MinZoom)
  {
  }

  /** A larger fitting zoom never gives a smaller flight zoom. */
  lemma ScaleMonotone(z1: real, z2: real, f: real)
    requires z1 <= z2 && f >= 0.0
    ensures z1 * f <= z2 * f
  {
    assert z2 * f - z1 * f == (z2 - z1) * f;
  }

  lemma ClampMonotone(z1: real, z2: real, minZoom: Option<real>, maxZoom: Option<real>)
    requires z1 <= z2
    ensures Clamp(z1, minZoom, maxZoom) <= Clamp(z2, minZoom, maxZoom)
  {
  }

  lemma AdjustedZoomMonotone(z1: real, z2: real, adj: Option<Adjustment>, minZoom: Option<real>, maxZoom: Option<real>)
    requires z1 <= z2
    requires adj.Some? && adj.value.zoomFactor.Some? ==> adj.value.zoomFactor.value >= 0.0
    ensures AdjustedZoom(z1, adj, minZoom, maxZoom) <= AdjustedZoom(z2, adj, minZoom, maxZoom)
  {
    if adj.Some? && adj.value.zoomFactor.Some? && adj.value.zoomFactor.value != 0.0 {
      ScaleMonotone(z1, z2, adj.value.zoomFactor.value);
    }
    ClampMonotone(ScaledZoom(z1, adj), ScaledZoom(z2, adj), minZoom, maxZoom);
  }

  /** What flyToCountry does with a search result: `bounds` is the centre
      and fitting zoom of the feature's bounds, or None when Leaflet fails
      to compute them or they are invalid. Nothing happens without a name
      or a geometry; without bounds a point feature is flown to at zoom 6
      and any other feature is left alone. */
  method FlyToCountry(feature: CountryFeature, bounds: Option<(LatLng, real)>,
                      minZoom: Option<real>, maxZoom: Option<real>) returns (flight: Option<Flight>)
    ensures feature.name == "" || feature.geometry.NoGeometry? ==> flight.None?
    ensures feature.name != "" && !feature.geometry.NoGeometry? && bounds.None? ==>
      flight == (if feature.geometry.Point? then Some(Flight(LatLng(feature.geometry.lat, feature.geometry.lng), PointZoom)) else None)
    ensures feature.name != "" && !feature.geometry.NoGeometry? && bounds.Some? ==>
      flight == Some(Flight(AdjustedCenter(bounds.value.0, AdjustmentFor(feature.name)),
                            AdjustedZoom(bounds.value.1, AdjustmentFor(feature.name), minZoom, maxZoom)))
  {
    if feature.name == "" || feature.geometry.NoGeometry? {
      return None;
    }
    if bounds.None? {
      if feature.geometry.Point? {
        return Some(Flight(LatLng(feature.geometry.lat, feature.geometry.lng), PointZoom));
      }
      return None;
    }
    var f := ComputeFlight(AdjustmentFor(feature.name), bounds.value.0, bounds.value.1, minZoom, maxZoom);
    return Some(f);
  }

  /** highlightFeature's decision: never while picking a location, never
      for the country just zoomed to, and only below zoom 10. */
  function Highlights(picking: bool, zoomedCountry: Option<string>, name: string, zoom: real): (r: bool)
    ensures r ==> !picking && zoom < HighlightZoomLimit && zoomedCountry != Some(name)
    ensures !picking && zoom < HighlightZoomLimit && zoomedCountry != Some(name) ==> r
  {
    !picking && zoomedCountry != Some(name) && zoom < HighlightZoomLimit
  }
}
