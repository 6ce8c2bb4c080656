/** Reverse geocoding: turn the address a lookup service returns for a
    coordinate into one line of text, or into one of two fixed messages
    when there is no address or the lookup fails. The lookup itself is an
    input: what the request produced. */
module Geocode {
  import opened Common

  /** The address object of a lookup response; every part may be absent. */
  datatype Address = Address(
    road: Option<string>,
    neighbourhood: Option<string>,
    suburb: Option<string>,
    city: Option<string>,
    county: Option<string>,
    state: Option<string>,
    postcode: Option<string>,
    country: Option<string>)

  const NoAddress: string := "Could not find address for this location."
  const FetchFailed: string := "Failed to fetch address details."
  const Separator: string := ", "
  const ReverseEndpoint: string := "https://nominatim.openstreetmap.org/reverse?format=jsonv2&lat="

  /** The request URL for a coordinate, given the decimal renderings of
      latitude and longitude. */
  function RequestUrl(latText: string, lonText: string): (u: string)
    ensures |u| == |ReverseEndpoint| + |latText| + 5 + |lonText|
    ensures u[..|ReverseEndpoint|] == ReverseEndpoint
  {
    ReverseEndpoint + latText + "&lon=" + lonText
  }

  /** The URL asks for the `jsonv2` format and carries latitude, then longitude. */
  lemma RequestUrlCarriesCoordinates(latText: string, lonText: string)
    ensures var u := RequestUrl(latText, lonText);
            var prefix := ReverseEndpoint;
            && u[..|prefix|] == prefix
            && u[|prefix|..|prefix| + |latText|] == latText
            && u[|prefix| + |latText|..|prefix| + |latText| + 5] == "&lon="
            && u[|prefix| + |latText| + 5..] == lonText
  {
  }

  /** The six parts used, most specific first; county and country are not among them. */
  function AddressParts(a: Address): seq<Option<string>>
  {
    [a.road, a.neighbourhood, a.suburb, a.city, a.postcode, a.state]
  }

  /** `filter(Boolean)`: the present, non-empty parts, in their original order. */
  function Present(parts: seq<Option<string>>): (r: seq<string>)
    ensures |r| <= |parts|
    ensures forall i :: 0 <= i < |r| ==> r[i] != ""
    ensures r == [] <==> forall i :: 0 <= i < |parts| ==> !TruthyText(parts[i])
  {
    if parts == [] then []
    else
      var rest := Present(parts[1..]);
      assert forall i :: 1 <= i < |parts| ==> parts[i] == parts[1..][i - 1];
      if TruthyText(parts[0]) then
        assert forall i :: 1 <= i < |[parts[0].value] + rest| ==> ([parts[0].value] + rest)[i] == rest[i - 1];
        [parts[0].value] + rest
      else rest
  }

  /** Filtering distributes over concatenation, so parts keep their relative order. */
  lemma {:induction false} PresentAppend(p: seq<Option<string>>, q: seq<Option<string>>)
    ensures Present(p + q) == Present(p) + Present(q)
  {
    if p == [] {
      assert p + q == q;
    } else {
      assert (p + q)[1..] == p[1..] + q;
      PresentAppend(p[1..], q);
    }
  }

  /** The formatted line for an address. */
  function FormatAddress(a: Address): (line: string)
    ensures line == "" <==> forall i :: 0 <= i < 6 ==> !TruthyText(AddressParts(a)[i])
  {
    JoinShape(Present(AddressParts(a)), Separator);
    Join(Present(AddressParts(a)), Separator)
  }

  /** `reverseGeocode`. `lookup` is what the request produced: `Ok(Some(a))`
      when the response was OK and its JSON had an address, `Ok(None)` when
      it had none, `NotOk` for any other status, and `Threw` when the
      request or the JSON decoding threw. The function never throws. */
  function ReverseGeocode(lookup: Outcome<Option<Address>>): (r: string)
    ensures lookup.NotOk? || lookup.Threw? ==> r == FetchFailed
    ensures lookup == Ok(None) ==> r == NoAddress
    ensures lookup.Ok? && lookup.value.Some? ==> r == FormatAddress(lookup.value.value)
  {
    match lookup
    case Ok(Some(a)) => FormatAddress(a)
    case Ok(None) => NoAddress
    case NotOk => FetchFailed
    case Threw(_) => FetchFailed
  }

  /** Filtering a list whose every part is present keeps all of them. */
  lemma {:induction false} PresentAllTruthy(parts: seq<Option<string>>)
    requires forall i :: 0 <= i < |parts| ==> TruthyText(parts[i])
    ensures |Present(parts)| == |parts|
    ensures forall i :: 0 <= i < |parts| ==> Present(parts)[i] == parts[i].value
  {
    if parts != [] {
      PresentAllTruthy(parts[1..]);
      assert forall i :: 1 <= i < |parts| ==> parts[i] == parts[1..][i - 1];
    }
  }

  /** Six parts joined with ", ", written out. */
  lemma JoinSix(n: seq<string>)
    requires |n| == 6
    ensures Join(n, Separator) == n[0] + ", " + n[1] + ", " + n[2] + ", " + n[3] + ", " + n[4] + ", " + n[5]
  {
    assert Join(n[5..], Separator) == n[5];
    assert n[4..][1..] == n[5..];
    assert Join(n[4..], Separator) == n[4] + ", " + n[5];
    assert n[3..][1..] == n[4..];
    assert n[2..][1..] == n[3..];
    assert n[1..][1..] == n[2..];
    assert Join(n[3..], Separator) == n[3] + ", " + (n[4] + ", " + n[5]);
    assert Join(n[2..], Separator) == n[2] + ", " + (n[3] + ", " + (n[4] + ", " + n[5]));
    assert Join(n[1..], Separator) == n[1] + ", " + (n[2] + ", " + (n[3] + ", " + (n[4] + ", " + n[5])));
  }

  /** With every part present the line lists road, neighbourhood, suburb,
      city, postcode and state, in that order, separated by ", ". */
  lemma FullAddressOrder(road: string, neighbourhood: string, suburb: string, city: string,
                         county: Option<string>, state: string, postcode: string, country: Option<string>)
    requires road != "" && neighbourhood != "" && suburb != "" && city != "" && state != "" && postcode != ""
    ensures FormatAddress(Address(Some(road), Some(neighbourhood), Some(suburb), Some(city), county,
                                  Some(state), Some(postcode), country))
            == road + ", " + neighbourhood + ", " + suburb + ", " + city + ", " + postcode + ", " + state
  {
    var a := Address(Some(road), Some(neighbourhood), Some(suburb), Some(city), county, Some(state), Some(postcode), country);
    PresentAllTruthy(AddressParts(a));
    var names := [road, neighbourhood, suburb, city, postcode, state];
    assert Present(AddressParts(a)) == names;
    JoinSix(names);
  }

  /** `r[k]` is the value of the part at position `idx[k]`. */
  predicate Picks(parts: seq<Option<string>>, r: seq<string>, idx: seq<nat>)
  {
    |idx| == |r| && forall k :: 0 <= k < |idx| ==> idx[k] < |parts| && parts[idx[k]] == Some(r[k])
  }

  predicate Increasing(idx: seq<nat>)
  {
    forall k, l :: 0 <= k < l < |idx| ==> idx[k] < idx[l]
  }

  /** Every truthy position of `parts` is listed in `idx`. */
  predicate Covers(parts: seq<Option<string>>, idx: seq<nat>)
  {
    forall i :: 0 <= i < |parts| && TruthyText(parts[i]) ==> i in idx
  }

  /** `r` is the values of the truthy parts of `parts`, in their order:
      `idx` lists the positions they come from, increasing, and every
      truthy position is among them. */
  predicate Selects(parts: seq<Option<string>>, r: seq<string>, idx: seq<nat>)
  {
    Picks(parts, r, idx) && Increasing(idx) && Covers(parts, idx)
  }

  /** Each position moved one place right. */
  function Shifted(idx: seq<nat>): (r: seq<nat>)
    ensures |r| == |idx| && forall k :: 0 <= k < |idx| ==> r[k] == idx[k] + 1
  {
    seq(|idx|, k requires 0 <= k < |idx| => idx[k] + 1)
  }

  lemma PicksShifted(parts: seq<Option<string>>, r: seq<string>, idx: seq<nat>)
    requires parts != [] && Picks(parts[1..], r, idx)
    ensures Picks(parts, r, Shifted(idx))
  {
    forall k | 0 <= k < |idx|
      ensures Shifted(idx)[k] < |parts| && parts[Shifted(idx)[k]] == Some(r[k])
    {
      assert parts[1..][idx[k]] == parts[idx[k] + 1];
    }
  }

  lemma PicksFront(parts: seq<Option<string>>, r: seq<string>, idx: seq<nat>)
    requires parts != [] && TruthyText(parts[0]) && Picks(parts, r, idx)
    ensures Picks(parts, [parts[0].value] + r, [0] + idx)
  {
    forall k | 0 < k < |idx| + 1
      ensures ([0] + idx)[k] == idx[k - 1] && ([parts[0].value] + r)[k] == r[k - 1]
    {
    }
  }

  lemma IncreasingShifted(idx: seq<nat>)
    requires Increasing(idx)
    ensures Increasing(Shifted(idx))
  {
  }

  lemma IncreasingFront(idx: seq<nat>)
    requires Increasing(idx) && forall k :: 0 <= k < |idx| ==> idx[k] > 0
    ensures Increasing([0] + idx)
  {
    forall k, l | 0 <= k < l < |idx| + 1
      ensures ([0] + idx)[k] < ([0] + idx)[l]
    {
      assert ([0] + idx)[l] == idx[l - 1];
      if k > 0 {
        assert ([0] + idx)[k] == idx[k - 1];
      }
    }
  }

  /** A truthy position after the first is a shifted position of the tail. */
  lemma CoversShifted(parts: seq<Option<string>>, idx: seq<nat>)
    requires parts != [] && Covers(parts[1..], idx)
    ensures forall i :: 1 <= i < |parts| && TruthyText(parts[i]) ==> i in Shifted(idx)
  {
    forall i | 1 <= i < |parts| && TruthyText(parts[i])
      ensures i in Shifted(idx)
    {
      assert parts[1..][i - 1] == parts[i];
      var k :| 0 <= k < |idx| && idx[k] == i - 1;
      assert Shifted(idx)[k] == i;
    }
  }

  /** A truthy first part is kept in front of the tail's selection. */
  lemma SelectsKeep(parts: seq<Option<string>>, rest: seq<string>, idx: seq<nat>)
    requires parts != [] && TruthyText(parts[0]) && Selects(parts[1..], rest, idx)
    ensures Selects(parts, [parts[0].value] + rest, [0] + Shifted(idx))
  {
    var sh := Shifted(idx);
    PicksShifted(parts, rest, idx);
    PicksFront(parts, rest, sh);
    IncreasingShifted(idx);
    IncreasingFront(sh);
    CoversShifted(parts, idx);
    assert forall i :: 1 <= i < |parts| && TruthyText(parts[i]) ==> i in [0] + sh;
  }

  /** A falsy first part is dropped. */
  lemma SelectsSkip(parts: seq<Option<string>>, rest: seq<string>, idx: seq<nat>)
    requires parts != [] && !TruthyText(parts[0]) && Selects(parts[1..], rest, idx)
    ensures Selects(parts, rest, Shifted(idx))
  {
    PicksShifted(parts, rest, idx);
    IncreasingShifted(idx);
    CoversShifted(parts, idx);
  }

  /** The positions of the truthy parts, in increasing order. */
  function TruthyPositions(parts: seq<Option<string>>): seq<nat>
  {
    if parts == [] then []
    else if TruthyText(parts[0]) then [0] + Shifted(TruthyPositions(parts[1..]))
    else Shifted(TruthyPositions(parts[1..]))
  }

  /** `filter(Boolean)` keeps exactly the truthy parts, in order. */
  lemma {:induction false} PresentSelects(parts: seq<Option<string>>)
    ensures Selects(parts, Present(parts), TruthyPositions(parts))
  {
    if parts != [] {
      PresentSelects(parts[1..]);
      var rest := Present(parts[1..]);
      if TruthyText(parts[0]) {
        assert Present(parts) == [parts[0].value] + rest;
        SelectsKeep(parts, rest, TruthyPositions(parts[1..]));
      } else {
        assert Present(parts) == rest;
        SelectsSkip(parts, rest, TruthyPositions(parts[1..]));
      }
    }
  }

  /** Absent and empty parts leave no trace: for every address the line is
      the join, with ", ", of exactly the truthy parts in their order, and
      every joined part is non-empty. */
  lemma MissingPartsSkipped(a: Address)
    ensures var parts := Present(AddressParts(a));
            && Selects(AddressParts(a), parts, TruthyPositions(AddressParts(a)))
            && (forall k :: 0 <= k < |parts| ==> parts[k] != "")
            && FormatAddress(a) == Join(parts, Separator)
  {
    PresentSelects(AddressParts(a));
  }

  /** An example: with a missing neighbourhood, an empty suburb and no
      city or postcode, road and state are joined by one separator. */
  lemma MissingPartsExample(road: string, state: string)
    requires road != "" && state != ""
    ensures FormatAddress(Address(Some(road), None, Some(""), None, Some("Thane"), Some(state), None, Some("India")))
            == road + ", " + state
  {
    var a := Address(Some(road), None, Some(""), None, Some("Thane"), Some(state), None, Some("India"));
    assert AddressParts(a) == [Some(road)] + ([None, Some(""), None, None] + [Some(state)]);
    PresentAppend([Some(road)], [None, Some(""), None, None] + [Some(state)]);
    PresentAppend([None, Some(""), None, None], [Some(state)]);
    assert Present([None, Some(""), None, None]) == [];
    PresentAllTruthy([Some(road)]);
    PresentAllTruthy([Some(state)]);
    assert Present(AddressParts(a)) == [road, state];
  }

  /** The line is empty exactly when none of the six parts is present; when
      it is not empty it begins with the first present part and ends with
      the last, so there is no leading or trailing separator. */
  lemma FormatShape(a: Address)
    ensures var parts := Present(AddressParts(a));
            var line := FormatAddress(a);
            && (line == "" <==> forall i :: 0 <= i < 6 ==> !TruthyText(AddressParts(a)[i]))
            && (parts != [] ==>
                  && |parts[0]| <= |line| && line[..|parts[0]|] == parts[0]
                  && |parts[|parts| - 1]| <= |line| && line[|line| - |parts[|parts| - 1]|..] == parts[|parts| - 1])
  {
    JoinShape(Present(AddressParts(a)), Separator);
  }

  /** County and country never reach the line. */
  lemma CountyAndCountryIgnored(a: Address, county: Option<string>, country: Option<string>)
    ensures FormatAddress(a.(county := county, country := country)) == FormatAddress(a)
  {
    assert AddressParts(a.(county := county, country := country)) == AddressParts(a);
  }
}
