/**
 * lib/location.ts: the upper-case "CITY, STATE, COUNTRY" label and the
 * field fallback chain applied to the first reverse-geocoder result.
 */
module Location {
  import opened JsStrings
  import opened JsValues

  /** A string argument that may be `null` / `undefined` (`None`) and is truthy when non-empty. */
  predicate Present(v: Option<string>) {
    v.Some? && v.value != ""
  }

  /** One slot of `[city, state, country].filter(Boolean)`: kept when truthy. */
  function IfPresent(v: Option<string>): (r: seq<string>)
    ensures Present(v) ==> r == [v.value]
    ensures !Present(v) ==> r == []
  {
    if Present(v) then [v.value] else []
  }

  /** `[city, state, country].filter(Boolean)`: the truthy parts, in their order. */
  function KeepPresent(city: Option<string>, state: Option<string>, country: Option<string>): (r: seq<string>)
    ensures forall i :: 0 <= i < |r| ==> r[i] != "" && Some(r[i]) in [city, state, country]
    ensures |r| <= 3
    ensures |r| == (if Present(city) then 1 else 0) + (if Present(state) then 1 else 0) + (if Present(country) then 1 else 0)
    ensures Present(city) ==> r[0] == city.value
    ensures Present(state) ==> r[if Present(city) then 1 else 0] == state.value
    ensures Present(country) ==> r[|r| - 1] == country.value
  {
    IfPresent(city) + IfPresent(state) + IfPresent(country)
  }

  /** `.map(s => String(s).trim())`. */
  function TrimAll(parts: seq<string>): (r: seq<string>)
    ensures |r| == |parts|
    ensures forall i :: 0 <= i < |r| ==> r[i] == Trim(parts[i])
  {
    if parts == [] then [] else [Trim(parts[0])] + TrimAll(parts[1..])
  }

  /** The label before upper-casing: the trimmed truthy parts joined with ", ". */
  function JoinedParts(city: Option<string>, state: Option<string>, country: Option<string>): string {
    Join(TrimAll(KeepPresent(city, state, country)), ", ")
  }

  /**
   * The label built one part at a time, as a reference: a truthy part is
   * trimmed and appended, after ", " when some part precedes it.
   */
  function AppendPart(acc: Option<string>, part: Option<string>): Option<string> {
    if !Present(part) then acc
    else if acc.None? then Some(Trim(part.value))
    else Some(acc.value + ", " + Trim(part.value))
  }

  function PartsLabel(city: Option<string>, state: Option<string>, country: Option<string>): string {
    var acc := AppendPart(AppendPart(AppendPart(None, city), state), country);
    if acc.Some? then acc.value else ""
  }

  /** One step of the reference keeps it equal to the join of the parts seen so far. */
  lemma AppendPartStep(acc: Option<string>, seen: seq<string>, part: Option<string>)
    requires acc.None? <==> seen == []
    requires acc.Some? ==> acc.value == Join(seen, ", ")
    ensures var next := seen + TrimAll(IfPresent(part));
            (AppendPart(acc, part).None? <==> next == []) &&
            (AppendPart(acc, part).Some? ==> AppendPart(acc, part).value == Join(next, ", "))
  {
    if Present(part) {
      assert TrimAll(IfPresent(part)) == [Trim(part.value)];
      JoinSnoc(seen, Trim(part.value), ", ");
    } else {
      assert seen + TrimAll(IfPresent(part)) == seen;
    }
  }

  /** The filter-map-join label equals the part-by-part reference, for every presence pattern. */
  lemma {:induction false} JoinedPartsInOrder(city: Option<string>, state: Option<string>, country: Option<string>)
    ensures JoinedParts(city, state, country) == PartsLabel(city, state, country)
  {
    var t1, t2, t3 := TrimAll(IfPresent(city)), TrimAll(IfPresent(state)), TrimAll(IfPresent(country));
    assert TrimAll(KeepPresent(city, state, country)) == t1 + t2 + t3;
    var a1 := AppendPart(None, city);
    AppendPartStep(None, [], city);
    assert [] + t1 == t1;
    var a2 := AppendPart(a1, state);
    AppendPartStep(a1, t1, state);
    AppendPartStep(a2, t1 + t2, country);
  }

  /** `toPrettyLabel(city, state, country)`. */
  function ToPrettyLabel(city: Option<string>, state: Option<string>, country: Option<string>): (text: string)
    ensures text == ToUpper(PartsLabel(city, state, country))
    ensures forall k :: 0 <= k < |text| ==> !IsLower(text[k])
    ensures !Present(city) && !Present(state) && !Present(country) ==> text == ""
  {
    JoinedPartsInOrder(city, state, country);
    ToUpper(JoinedParts(city, state, country))
  }

  /** One record of `Location.reverseGeocodeAsync`; every field may be missing. */
  datatype GeocodedAddress = GeocodedAddress(
    city: Option<string>, district: Option<string>, subregion: Option<string>,
    region: Option<string>, country: Option<string>)

  /** `label` is a reserved word in Dafny; the field `prettyLabel` holds the result's `label`. */
  datatype PrettyPlace = PrettyPlace(city: string, state: string, country: string, prettyLabel: string, lat: real, lng: real)

  /** `a || b || ... || ""`: the first present value of the chain, else "". */
  function FirstPresent(chain: seq<Option<string>>): (r: string)
    ensures r == "" || exists i :: 0 <= i < |chain| && chain[i] == Some(r)
    ensures forall i :: 0 <= i < |chain| && Present(chain[i]) && (forall j :: 0 <= j < i ==> !Present(chain[j])) ==>
              r == chain[i].value
    ensures (forall i :: 0 <= i < |chain| ==> !Present(chain[i])) ==> r == ""
  {
    if chain == [] then ""
    else if Present(chain[0]) then chain[0].value
    else FirstPresent(chain[1..])
  }

  /**
   * `reverseGeocode(lat, lng)` with the geocoder's answer as input:
   * `results` is `None` when the geocoder returned nothing at all.
   */
  function ReverseGeocode(lat: real, lng: real, results: Option<seq<GeocodedAddress>>): (p: PrettyPlace)
    ensures p.lat == lat && p.lng == lng
    ensures results.None? || results.value == [] ==> p.city == "" && p.state == "" && p.country == ""
    ensures results.Some? && results.value != [] ==>
              var r := results.value[0];
              p.city == FirstPresent([r.city, r.district, r.subregion]) &&
              p.state == FirstPresent([r.region, r.subregion]) &&
              p.country == FirstPresent([r.country])
    ensures p.prettyLabel == ToPrettyLabel(Some(p.city), Some(p.state), Some(p.country))
  {
    var first: Option<GeocodedAddress> :=
      if results.Some? && |results.value| > 0 then Some(results.value[0]) else None;
    var city := if first.Some? then FirstPresent([first.value.city, first.value.district, first.value.subregion]) else "";
    var state := if first.Some? then FirstPresent([first.value.region, first.value.subregion]) else "";
    var country := if first.Some? then FirstPresent([first.value.country]) else "";
    PrettyPlace(city, state, country, ToPrettyLabel(Some(city), Some(state), Some(country)), lat, lng)
  }

  // ---------------------------------------------------------------------------
  // Properties
  // ---------------------------------------------------------------------------

  /** The label is the upper-cased ", "-join of the trimmed present parts, in city, state, country order. */
  lemma LabelOfAllThree(city: string, state: string, country: string)
    requires city != "" && state != "" && country != ""
    ensures ToPrettyLabel(Some(city), Some(state), Some(country)) ==
            ToUpper(Trim(city) + ", " + Trim(state) + ", " + Trim(country))
  {
    assert JoinedParts(Some(city), Some(state), Some(country)) ==
           Trim(city) + ", " + Trim(state) + ", " + Trim(country) by {
      assert KeepPresent(Some(city), Some(state), Some(country)) == [city, state, country];
      assert TrimAll([city, state, country]) == [Trim(city), Trim(state), Trim(country)];
      JoinThree(Trim(city), Trim(state), Trim(country), ", ");
    }
  }

  /** A missing part is skipped without leaving an empty segment. */
  lemma MissingPartSkipped(city: string, country: string)
    requires city != "" && country != ""
    ensures ToPrettyLabel(Some(city), None, Some(country)) == ToUpper(Trim(city) + ", " + Trim(country))
    ensures ToPrettyLabel(Some(city), Some(""), Some(country)) == ToUpper(Trim(city) + ", " + Trim(country))
  {
    assert KeepPresent(Some(city), None, Some(country)) == [city, country];
    assert KeepPresent(Some(city), Some(""), Some(country)) == [city, country];
    assert TrimAll([city, country]) == [Trim(city), Trim(country)];
    JoinTwo(Trim(city), Trim(country), ", ");
  }

  /** Filtering comes before trimming: a blank part survives as an empty segment. */
  lemma BlankPartKeptAsEmptySegment()
    ensures ToPrettyLabel(Some(" "), Some("Goa"), None) == ", GOA"
  {
    assert JoinedParts(Some(" "), Some("Goa"), None) == ", Goa" by {
      assert KeepPresent(Some(" "), Some("Goa"), None) == [" ", "Goa"];
      assert Trim("Goa") == "Goa" by {
        TrimStartFixed("Goa");
        TrimEndFixed("Goa");
      }
      assert TrimAll([" ", "Goa"]) == ["", "Goa"] by {
        assert Trim(" ") == "";
      }
      JoinTwo("", "Goa", ", ");
    }
    assert ToUpper(", Goa") == ", GOA" by {
      assert ToUpper(", Goa")[4] == UpperChar('a');
    }
  }

  /** The subregion feeds the city when city and district are missing, and the state when region is. */
  lemma SubregionFeedsCityAndState(lat: real, lng: real, sub: string, country: string)
    requires sub != ""
    ensures var p := ReverseGeocode(lat, lng, Some([GeocodedAddress(None, None, Some(sub), None, Some(country))]));
            p.city == sub && p.state == sub && p.country == country
  {
    var cityChain: seq<Option<string>> := [None, None, Some(sub)];
    var stateChain: seq<Option<string>> := [None, Some(sub)];
    assert cityChain[2] == Some(sub) && !Present(cityChain[0]) && !Present(cityChain[1]);
    assert FirstPresent(cityChain) == sub;
    assert stateChain[1] == Some(sub) && !Present(stateChain[0]);
    assert FirstPresent(stateChain) == sub;
  }

  /** The first truthy value of a chain of three, spelled out. */
  lemma FirstOfThree(a: Option<string>, b: Option<string>, c: Option<string>)
    ensures FirstPresent([a, b, c]) ==
            if Present(a) then a.value else if Present(b) then b.value else if Present(c) then c.value else ""
  {
    var chain := [a, b, c];
    if !Present(a) && !Present(b) && Present(c) {
      assert !Present(chain[0]) && !Present(chain[1]) && chain[2] == c;
    }
  }

  /** The first truthy value of a chain of two, spelled out. */
  lemma FirstOfTwo(a: Option<string>, b: Option<string>)
    ensures FirstPresent([a, b]) == if Present(a) then a.value else if Present(b) then b.value else ""
  {
    var chain := [a, b];
    if !Present(a) && Present(b) {
      assert !Present(chain[0]) && chain[1] == b;
    }
  }

  /**
   * The fallback chains over every first result: city, then district, then
   * subregion for the city; region, then subregion for the state; the
   * country or "". Later results are never read.
   */
  lemma FallbackChains(lat: real, lng: real, r: GeocodedAddress, rest: seq<GeocodedAddress>)
    ensures var p := ReverseGeocode(lat, lng, Some([r] + rest));
            p.city == (if Present(r.city) then r.city.value
                       else if Present(r.district) then r.district.value
                       else if Present(r.subregion) then r.subregion.value else "") &&
            p.state == (if Present(r.region) then r.region.value
                        else if Present(r.subregion) then r.subregion.value else "") &&
            p.country == (if Present(r.country) then r.country.value else "") &&
            p == ReverseGeocode(lat, lng, Some([r]))
  {
    var p, q := ReverseGeocode(lat, lng, Some([r] + rest)), ReverseGeocode(lat, lng, Some([r]));
    assert ([r] + rest)[0] == r;
    FirstOfThree(r.city, r.district, r.subregion);
    FirstOfTwo(r.region, r.subregion);
    assert p.city == q.city && p.state == q.state && p.country == q.country;
    assert p.prettyLabel == q.prettyLabel;
  }

  /** With no geocoder result every field is "" and so is the label. */
  lemma NoResultGivesEmptyPlace(lat: real, lng: real)
    ensures ReverseGeocode(lat, lng, Some([])) == PrettyPlace("", "", "", "", lat, lng)
    ensures ReverseGeocode(lat, lng, None) == PrettyPlace("", "", "", "", lat, lng)
  {
  }
}
