/** Which pins are drawn for a zoom level and viewport. At zoom 5 or less
    each country is represented by its first pin that lies in view, and
    every in-view pin without a country is drawn; above zoom 5 every
    in-view pin is drawn. Both marker builders use this filter, so it is
    generic in the pin type: `countryOf` gives a pin's country ("" when it
    has none) and `inView` stands for Leaflet's bounds containment test. */
module ViewportFilter {
  import opened Common

  const CountryRepresentativeMaxZoom: real := 5.0

  /** The low-zoom selection, with `seen` the countries already represented. */
  function Representatives<T>(items: seq<T>, seen: set<string>,
                              countryOf: T -> string, inView: T -> bool): seq<T>
  {
    if items == [] then []
    else
      var x, rest := items[0], items[1..];
      var c := countryOf(x);
      if c != "" && c !in seen then
        if inView(x) then [x] + Representatives(rest, seen + {c}, countryOf, inView)
        else Representatives(rest, seen, countryOf, inView)
      else if c == "" then
        (if inView(x) then [x] else []) + Representatives(rest, seen, countryOf, inView)
      else Representatives(rest, seen, countryOf, inView)
  }

  /** The in-view pins, in input order. */
  function InView<T>(items: seq<T>, inView: T -> bool): seq<T>
  {
    if items == [] then []
    else (if inView(items[0]) then [items[0]] else []) + InView(items[1..], inView)
  }

  /** The pins drawn at `zoom`. */
  function Visible<T>(items: seq<T>, zoom: real, countryOf: T -> string, inView: T -> bool): seq<T>
  {
    if zoom <= CountryRepresentativeMaxZoom then Representatives(items, {}, countryOf, inView)
    else InView(items, inView)
  }

  /** The filter as the source runs it: one pass over the pins, pushing the
      chosen ones and recording the countries already shown. */
  method SelectVisible<T>(items: seq<T>, zoom: real, countryOf: T -> string, inView: T -> bool)
    returns (shown: seq<T>)
    ensures shown == Visible(items, zoom, countryOf, inView)
  {
    if zoom <= CountryRepresentativeMaxZoom {
      shown := SelectRepresentatives(items, countryOf, inView);
    } else {
      shown := SelectInView(items, inView);
    }
  }

  /** The low-zoom pass: `displayedCountries` grows as countries are shown. */
  method SelectRepresentatives<T>(items: seq<T>, countryOf: T -> string, inView: T -> bool)
    returns (shown: seq<T>)
    ensures shown == Representatives(items, {}, countryOf, inView)
  {
    shown := [];
    var displayedCountries: set<string> := {};
    for i := 0 to |items|
      invariant shown + Representatives(items[i..], displayedCountries, countryOf, inView)
             == Representatives(items, {}, countryOf, inView)
    {
      shown, displayedCountries := ConsiderPin(items, i, shown, displayedCountries, countryOf, inView);
    }
  }

  /** The body of the low-zoom pass for the pin at `i`: it is pushed when
      it is in view and its country is unseen or absent, and its country is
      then recorded. What is shown plus the selection of the remaining pins
      does not change. */
  method ConsiderPin<T>(items: seq<T>, i: nat, shown: seq<T>, displayedCountries: set<string>,
                        countryOf: T -> string, inView: T -> bool)
    returns (shown': seq<T>, displayedCountries': set<string>)
    requires i < |items|
    ensures shown' + Representatives(items[i + 1..], displayedCountries', countryOf, inView)
         == shown + Representatives(items[i..], displayedCountries, countryOf, inView)
  {
    shown', displayedCountries' := shown, displayedCountries;
    var album := items[i];
    RepresentativesStep(items, i, displayedCountries, countryOf, inView);
    var c := countryOf(album);
    if c != "" && c !in displayedCountries {
      if inView(album) {
        ghost var rest := Representatives(items[i + 1..], displayedCountries + {c}, countryOf, inView);
        assert shown + [album] + rest == shown + ([album] + rest);
        shown' := shown + [album];
        displayedCountries' := displayedCountries + {c};
      }
    } else if c == "" {
      ghost var rest := Representatives(items[i + 1..], displayedCountries, countryOf, inView);
      if inView(album) {
        assert shown + [album] + rest == shown + ([album] + rest);
        shown' := shown + [album];
      } else {
        assert [] + rest == rest;
      }
    }
  }

  /** One step of the low-zoom selection on the suffix starting at `i`. */
  lemma RepresentativesStep<T>(items: seq<T>, i: nat, seen: set<string>,
                               countryOf: T -> string, inView: T -> bool)
    requires i < |items|
    ensures var x, c := items[i], countryOf(items[i]);
      Representatives(items[i..], seen, countryOf, inView)
      == if c != "" && c !in seen then
           (if inView(x) then [x] + Representatives(items[i + 1..], seen + {c}, countryOf, inView)
            else Representatives(items[i + 1..], seen, countryOf, inView))
         else if c == "" then
           (if inView(x) then [x] else []) + Representatives(items[i + 1..], seen, countryOf, inView)
         else Representatives(items[i + 1..], seen, countryOf, inView)
  {
    assert items[i..][0] == items[i] && items[i..][1..] == items[i + 1..];
  }

  /** The high-zoom pass: every in-view pin, in order. */
  method SelectInView<T>(items: seq<T>, inView: T -> bool) returns (shown: seq<T>)
    ensures shown == InView(items, inView)
  {
    shown := [];
    for i := 0 to |items|
      invariant shown + InView(items[i..], inView) == InView(items, inView)
    {
      var x := items[i];
      InViewStep(items, i, inView);
      ghost var rest := InView(items[i + 1..], inView);
      if inView(x) {
        assert shown + [x] + rest == shown + ([x] + rest);
        shown := shown + [x];
      } else {
        assert [] + rest == rest;
      }
    }
  }

  /** One step of the in-view selection on the suffix starting at `i`. */
  lemma InViewStep<T>(items: seq<T>, i: nat, inView: T -> bool)
    requires i < |items|
    ensures InView(items[i..], inView)
         == (if inView(items[i]) then [items[i]] else []) + InView(items[i + 1..], inView)
  {
    assert items[i..][0] == items[i] && items[i..][1..] == items[i + 1..];
  }

  /** The pins of one country ("" for the pins without one), in order. */
  function WithCountry<T>(s: seq<T>, c: string, countryOf: T -> string): seq<T>
  {
    if s == [] then []
    else (if countryOf(s[0]) == c then [s[0]] else []) + WithCountry(s[1..], c, countryOf)
  }

  /** The in-view pins of one country, in order. */
  function InViewWithCountry<T>(s: seq<T>, c: string, countryOf: T -> string, inView: T -> bool): seq<T>
  {
    if s == [] then []
    else (if countryOf(s[0]) == c && inView(s[0]) then [s[0]] else [])
           + InViewWithCountry(s[1..], c, countryOf, inView)
  }

  function First<T>(s: seq<T>): (r: seq<T>)
    ensures |r| <= 1
  {
    if s == [] then [] else [s[0]]
  }

  lemma {:induction false} WithCountryConcat<T>(a: seq<T>, b: seq<T>, c: string, countryOf: T -> string)
    ensures WithCountry(a + b, c, countryOf) == WithCountry(a, c, countryOf) + WithCountry(b, c, countryOf)
  {
    if a == [] {
      assert a + b == b;
    } else {
      var head := if countryOf(a[0]) == c then [a[0]] else [];
      assert (a + b)[0] == a[0] && (a + b)[1..] == a[1..] + b;
      assert WithCountry(a + b, c, countryOf) == head + WithCountry(a[1..] + b, c, countryOf);
      WithCountryConcat(a[1..], b, c, countryOf);
      assert head + (WithCountry(a[1..], c, countryOf) + WithCountry(b, c, countryOf))
          == (head + WithCountry(a[1..], c, countryOf)) + WithCountry(b, c, countryOf);
    }
  }

  /** Per country, the low-zoom selection holds exactly the first in-view
      pin of that country (none when the country was already represented);
      pins of the same country that lie out of view do not block a later
      in-view one. */
  lemma {:induction false} RepresentativesOfCountry<T>(items: seq<T>, seen: set<string>, c: string,
                                                       countryOf: T -> string, inView: T -> bool)
    requires c != ""
    ensures WithCountry(Representatives(items, seen, countryOf, inView), c, countryOf)
         == if c in seen then [] else First(InViewWithCountry(items, c, countryOf, inView))
  {
    if items != [] {
      var x, rest := items[0], items[1..];
      var cx := countryOf(x);
      var r := Representatives(items, seen, countryOf, inView);
      if cx != "" && cx !in seen && inView(x) {
        RepresentativesOfCountry(rest, seen + {cx}, c, countryOf, inView);
        WithCountryConcat([x], Representatives(rest, seen + {cx}, countryOf, inView), c, countryOf);
        if cx != c {
          assert WithCountry([x], c, countryOf) == [];
        }
      } else if cx == "" {
        var head := if inView(x) then [x] else [];
        RepresentativesOfCountry(rest, seen, c, countryOf, inView);
        WithCountryConcat(head, Representatives(rest, seen, countryOf, inView), c, countryOf);
        assert WithCountry(head, c, countryOf) == [] by {
          if inView(x) { assert WithCountry([x], c, countryOf) == []; }
        }
      } else {
        RepresentativesOfCountry(rest, seen, c, countryOf, inView);
      }
    }
  }

  /** At low zoom every in-view pin without a country is selected, in order. */
  lemma {:induction false} RepresentativesUntagged<T>(items: seq<T>, seen: set<string>,
                                                      countryOf: T -> string, inView: T -> bool)
    requires "" !in seen
    ensures WithCountry(Representatives(items, seen, countryOf, inView), "", countryOf)
         == InViewWithCountry(items, "", countryOf, inView)
  {
    if items != [] {
      var x, rest := items[0], items[1..];
      var cx := countryOf(x);
      if cx != "" && cx !in seen && inView(x) {
        RepresentativesUntagged(rest, seen + {cx}, countryOf, inView);
        WithCountryConcat([x], Representatives(rest, seen + {cx}, countryOf, inView), "", countryOf);
        assert WithCountry([x], "", countryOf) == [];
      } else if cx == "" {
        var head := if inView(x) then [x] else [];
        RepresentativesUntagged(rest, seen, countryOf, inView);
        WithCountryConcat(head, Representatives(rest, seen, countryOf, inView), "", countryOf);
        assert WithCountry(head, "", countryOf) == head by {
          if inView(x) { assert WithCountry([x], "", countryOf) == [x]; }
        }
      } else {
        RepresentativesUntagged(rest, seen, countryOf, inView);
      }
    }
  }

  /** Above zoom 5 nothing is deduplicated: per country the selection is
      every in-view pin of that country. */
  lemma {:induction false} InViewOfCountry<T>(items: seq<T>, c: string, countryOf: T -> string, inView: T -> bool)
    ensures WithCountry(InView(items, inView), c, countryOf) == InViewWithCountry(items, c, countryOf, inView)
  {
    if items != [] {
      var head := if inView(items[0]) then [items[0]] else [];
      InViewOfCountry(items[1..], c, countryOf, inView);
      WithCountryConcat(head, InView(items[1..], inView), c, countryOf);
      assert inView(items[0]) ==> WithCountry([items[0]], c, countryOf)
                                  == if countryOf(items[0]) == c then [items[0]] else [];
    }
  }

  /** The low-zoom rule stated for the whole selection: for every country
      exactly its first in-view pin, and every in-view pin without a country. */
  lemma LowZoomSelection<T>(items: seq<T>, zoom: real, c: string, countryOf: T -> string, inView: T -> bool)
    requires zoom <= CountryRepresentativeMaxZoom
    ensures c != "" ==> WithCountry(Visible(items, zoom, countryOf, inView), c, countryOf)
                        == First(InViewWithCountry(items, c, countryOf, inView))
    ensures c == "" ==> WithCountry(Visible(items, zoom, countryOf, inView), c, countryOf)
                        == InViewWithCountry(items, c, countryOf, inView)
  {
    if c != "" {
      RepresentativesOfCountry(items, {}, c, countryOf, inView);
    } else {
      RepresentativesUntagged(items, {}, countryOf, inView);
    }
  }

  /** The high-zoom rule: for every country, all of its in-view pins. */
  lemma HighZoomSelection<T>(items: seq<T>, zoom: real, c: string, countryOf: T -> string, inView: T -> bool)
    requires zoom > CountryRepresentativeMaxZoom
    ensures WithCountry(Visible(items, zoom, countryOf, inView), c, countryOf)
         == InViewWithCountry(items, c, countryOf, inView)
  {
    InViewOfCountry(items, c, countryOf, inView);
  }

  lemma {:induction false} RepresentativesSubsequence<T>(items: seq<T>, seen: set<string>,
                                                         countryOf: T -> string, inView: T -> bool)
    ensures var r := Representatives(items, seen, countryOf, inView);
      IsSubsequence(r, items) && forall x :: x in r ==> inView(x)
  {
    if items != [] {
      var x, rest := items[0], items[1..];
      var cx := countryOf(x);
      if cx != "" && cx !in seen && inView(x) {
        RepresentativesSubsequence(rest, seen + {cx}, countryOf, inView);
        var r := [x] + Representatives(rest, seen + {cx}, countryOf, inView);
        assert r[0] == x && r[1..] == Representatives(rest, seen + {cx}, countryOf, inView);
      } else if cx == "" && inView(x) {
        RepresentativesSubsequence(rest, seen, countryOf, inView);
        var r := [x] + Representatives(rest, seen, countryOf, inView);
        assert r[0] == x && r[1..] == Representatives(rest, seen, countryOf, inView);
      } else {
        RepresentativesSubsequence(rest, seen, countryOf, inView);
        SubsequenceSkip(Representatives(rest, seen, countryOf, inView), x, rest);
        assert [] + Representatives(rest, seen, countryOf, inView) == Representatives(rest, seen, countryOf, inView);
      }
    }
  }

  lemma {:induction false} InViewSubsequence<T>(items: seq<T>, inView: T -> bool)
    ensures var r := InView(items, inView);
      IsSubsequence(r, items) && forall x :: x in r ==> inView(x)
  {
    if items != [] {
      var x, rest := items[0], items[1..];
      InViewSubsequence(rest, inView);
      if inView(x) {
        var r := [x] + InView(rest, inView);
        assert r[0] == x && r[1..] == InView(rest, inView);
      } else {
        SubsequenceSkip(InView(rest, inView), x, rest);
        assert [] + InView(rest, inView) == InView(rest, inView);
      }
    }
  }

  /** In both regimes the selection is an order-preserving subsequence of
      the input that holds only in-view pins. */
  lemma VisibleSubsequence<T>(items: seq<T>, zoom: real, countryOf: T -> string, inView: T -> bool)
    ensures var r := Visible(items, zoom, countryOf, inView);
      IsSubsequence(r, items) && forall x :: x in r ==> inView(x)
  {
    if zoom <= CountryRepresentativeMaxZoom {
      RepresentativesSubsequence(items, {}, countryOf, inView);
    } else {
      InViewSubsequence(items, inView);
    }
  }
}
