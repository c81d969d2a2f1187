/**
 * The label shown for one geocoding suggestion: the present, non-empty parts
 * of name, region (`admin1`) and country, joined with ", ".
 */
module SuggestionLabel {
  import opened Wrappers

  /** One entry of the geocoding service's `results` array. */
  datatype GeocodingResult = GeocodingResult(
    id: int,
    name: string,
    admin1: Option<string>,
    country: Option<string>)

  const Separator: string := ", "

  /** `Boolean(value)` for a string that may be undefined. */
  predicate Truthy(value: Option<string>) {
    value.Some? && value.value != ""
  }

  /** `values.filter(Boolean)`: the present, non-empty strings, in order. */
  function KeepTruthy(values: seq<Option<string>>): (parts: seq<string>)
    ensures |parts| <= |values|
    ensures forall i :: 0 <= i < |parts| ==> parts[i] != ""
    decreases |values|
  {
    if values == [] then []
    else (if Truthy(values[0]) then [values[0].value] else []) + KeepTruthy(values[1..])
  }

  /** `parts.join(", ")`. */
  function Join(parts: seq<string>): (s: string)
    ensures parts == [] ==> s == ""
    ensures parts != [] ==> |s| == TotalLength(parts) + 2 * (|parts| - 1)
    decreases |parts|
  {
    if parts == [] then ""
    else if |parts| == 1 then parts[0]
    else parts[0] + Separator + Join(parts[1..])
  }

  function TotalLength(parts: seq<string>): nat
    decreases |parts|
  {
    if parts == [] then 0 else |parts[0]| + TotalLength(parts[1..])
  }

  /** The parts `formatSuggestionLabel` keeps, in the order name, admin1, country. */
  function LabelParts(result: GeocodingResult): (parts: seq<string>)
    ensures |parts| <= 3
    ensures forall i :: 0 <= i < |parts| ==> parts[i] != ""
    ensures result.name != "" ==> parts != [] && parts[0] == result.name
  {
    KeepTruthy([Some(result.name), result.admin1, result.country])
  }

  /** `formatSuggestionLabel(result)`. */
  function FormatSuggestionLabel(result: GeocodingResult): (text: string)
    ensures text == "" <==> LabelParts(result) == []
    ensures result.name != "" ==> |result.name| <= |text| && text[..|result.name|] == result.name
  {
    Join(LabelParts(result))
  }

  /** Index of the first ", " in `s` at or after `from`, or `|s|` when there
      is none. */
  function SeparatorIndex(s: string, from: nat): (i: nat)
    requires from <= |s|
    ensures from <= i <= |s|
    ensures i < |s| ==> i + 1 < |s| && s[i] == ',' && s[i + 1] == ' '
    decreases |s| - from
  {
    if from + 1 >= |s| then |s|
    else if s[from] == ',' && s[from + 1] == ' ' then from
    else SeparatorIndex(s, from + 1)
  }

  /** Splits a label back into its parts at every ", "; the inverse of `Join`
      for parts that are non-empty and hold no comma. */
  function Split(s: string): seq<string>
    decreases |s|
  {
    if s == [] then []
    else
      var i := SeparatorIndex(s, 0);
      if i == |s| then [s] else [s[..i]] + Split(s[i + 2..])
  }

  predicate Splittable(parts: seq<string>) {
    forall i :: 0 <= i < |parts| ==> parts[i] != "" && ',' !in parts[i]
  }

  /** A comma-free prefix is skipped entirely by the separator search. */
  lemma {:induction false} SeparatorIndexSkips(p: string, rest: string, from: nat)
    requires ',' !in p && from <= |p|
    requires rest == [] || (|rest| >= 2 && rest[..2] == Separator)
    ensures SeparatorIndex(p + rest, from) == |p|
    decreases |p| - from
  {
    var s := p + rest;
    if from < |p| {
      assert s[from] == p[from];
      if from + 1 < |s| {
        SeparatorIndexSkips(p, rest, from + 1);
      }
    } else if rest != [] {
      assert s[from] == rest[..2][0] && s[from + 1] == rest[..2][1];
    }
  }

  /** A comma-free part followed by the separator splits off as one piece. */
  lemma SplitFirst(p: string, rest: string)
    requires p != "" && ',' !in p
    ensures Split(p + Separator + rest) == [p] + Split(rest)
  {
    var s := p + Separator + rest;
    assert (Separator + rest)[..2] == Separator;
    assert s == p + (Separator + rest);
    SeparatorIndexSkips(p, Separator + rest, 0);
    assert s[..|p|] == p;
    assert s[|p| + 2..] == rest;
  }

  /** A comma-free part on its own splits into itself. */
  lemma SplitLast(p: string)
    requires p != "" && ',' !in p
    ensures Split(p) == [p]
  {
    SeparatorIndexSkips(p, [], 0);
    assert p + [] == p;
  }

  /** Splitting a joined label gives back the parts. */
  lemma {:induction false} SplitJoin(parts: seq<string>)
    requires Splittable(parts)
    ensures Split(Join(parts)) == parts
    decreases |parts|
  {
    if |parts| == 1 {
      SplitLast(parts[0]);
    } else if |parts| > 1 {
      SplitFirst(parts[0], Join(parts[1..]));
      SplitJoin(parts[1..]);
      assert parts == [parts[0]] + parts[1..];
    }
  }

  /** The filter looks at the first value, then at the rest. */
  lemma KeepTruthyCons(v: Option<string>, rest: seq<Option<string>>)
    ensures KeepTruthy([v] + rest) == (if Truthy(v) then [v.value] else []) + KeepTruthy(rest)
  {
    assert ([v] + rest)[0] == v;
    assert ([v] + rest)[1..] == rest;
  }

  /** The label keeps name, admin1 and country in that order and omits every
      one that is missing or empty. */
  lemma LabelPartsInOrder(result: GeocodingResult)
    ensures LabelParts(result) ==
      (if result.name != "" then [result.name] else [])
      + (if Truthy(result.admin1) then [result.admin1.value] else [])
      + (if Truthy(result.country) then [result.country.value] else [])
  {
    var n, a, c := Some(result.name), result.admin1, result.country;
    KeepTruthyCons(c, []);
    KeepTruthyCons(a, [c]);
    KeepTruthyCons(n, [a, c]);
    assert [c] + [] == [c] && [a] + [c] == [a, c] && [n] + [a, c] == [n, a, c];
  }

  /** When no field holds a comma, the label splits back into exactly the kept
      parts: nothing is lost, added or reordered by the join. */
  lemma LabelRoundTrip(result: GeocodingResult)
    requires ',' !in result.name
    requires result.admin1.Some? ==> ',' !in result.admin1.value
    requires result.country.Some? ==> ',' !in result.country.value
    ensures Split(FormatSuggestionLabel(result)) == LabelParts(result)
  {
    LabelPartsInOrder(result);
    SplitJoin(LabelParts(result));
  }

  /** A result with only a non-empty name is labelled by its name. */
  lemma NameOnlyLabel(result: GeocodingResult)
    requires result.name != ""
    requires !Truthy(result.admin1) && !Truthy(result.country)
    ensures FormatSuggestionLabel(result) == result.name
  {
    LabelPartsInOrder(result);
  }

  /** Joining puts the separator between the first part and the join of
      the rest. */
  lemma JoinCons(p: string, rest: seq<string>)
    requires rest != []
    ensures Join([p] + rest) == p + Separator + Join(rest)
  {
    assert ([p] + rest)[0] == p;
    assert ([p] + rest)[1..] == rest;
  }

  /** A result with name, region and country is labelled "name, region, country". */
  lemma FullLabel(result: GeocodingResult)
    requires result.name != "" && Truthy(result.admin1) && Truthy(result.country)
    ensures FormatSuggestionLabel(result)
         == result.name + ", " + result.admin1.value + ", " + result.country.value
  {
    var n, a, c := result.name, result.admin1.value, result.country.value;
    LabelPartsInOrder(result);
    assert LabelParts(result) == [n] + ([a] + [c]);
    JoinCons(a, [c]);
    JoinCons(n, [a] + [c]);
    assert Join([c]) == c;
  }

  /** The label is empty exactly when every field is missing or empty. */
  lemma EmptyLabel(result: GeocodingResult)
    ensures FormatSuggestionLabel(result) == ""
        <==> result.name == "" && !Truthy(result.admin1) && !Truthy(result.country)
  {
    LabelPartsInOrder(result);
  }
}
