/** Bucket lists of the configuration: the comma-separated text form and the validity check. */
module BucketConfig {
  import opened Wrappers
  import opened Text
  import opened Scalars

  type ElementParser = string -> Option<real>

  type ElementFormatter = real -> string

  // ----- text form -----

  /** The list a text denotes, or None when some piece is blank or unreadable. */
  function ListOf(pieces: seq<string>, parser: ElementParser): Option<seq<real>> {
    if pieces == [] then Some([])
    else
      var last := |pieces| - 1;
      var trimmed := TrimSpace(pieces[last]);
      match ListOf(pieces[..last], parser)
      case None => None
      case Some(front) =>
        if trimmed == "" || parser(trimmed).None? then None else Some(front + [parser(trimmed).value])
  }

  method ParseBucketCSV(raw: string, parser: ElementParser) returns (r: Option<seq<real>>)
    ensures r == ListOf(Split(raw, ','), parser)
    ensures r.Some? <==> forall p :: p in Split(raw, ',') ==> TrimSpace(p) != "" && parser(TrimSpace(p)).Some?
    ensures r.Some? ==> |r.value| == |Split(raw, ',')|
    ensures r.Some? ==> forall i :: 0 <= i < |r.value| ==> parser(TrimSpace(Split(raw, ',')[i])) == Some(r.value[i])
  {
    ListMeaning(Split(raw, ','), parser);
    var parts := Split(raw, ',');
    var values := [];
    for i := 0 to |parts|
      invariant ListOf(parts[..i], parser) == Some(values)
    {
      assert parts[..i + 1][..i] == parts[..i];
      var trimmed := TrimSpace(parts[i]);
      if trimmed == "" {
        ListOfPrefix(parts, parser, i + 1);
        return None;
      }
      var value := parser(trimmed);
      if value.None? {
        ListOfPrefix(parts, parser, i + 1);
        return None;
      }
      values := values + [value.value];
    }
    assert parts[..|parts|] == parts;
    r := Some(values);
  }

  /** A list is read piece by piece, all of them or none. */
  lemma {:induction false} ListMeaning(pieces: seq<string>, parser: ElementParser)
    ensures ListOf(pieces, parser).Some? <==> forall p :: p in pieces ==> TrimSpace(p) != "" && parser(TrimSpace(p)).Some?
    ensures ListOf(pieces, parser).Some? ==>
      var values := ListOf(pieces, parser).value;
      |values| == |pieces| && forall i :: 0 <= i < |values| ==> parser(TrimSpace(pieces[i])) == Some(values[i])
  {
    if pieces != [] {
      var last := |pieces| - 1;
      ListMeaning(pieces[..last], parser);
      assert pieces == pieces[..last] + [pieces[last]];
    }
  }

  /** One bad piece spoils the whole list. */
  lemma {:induction false} ListOfPrefix(pieces: seq<string>, parser: ElementParser, n: nat)
    requires n <= |pieces| && ListOf(pieces[..n], parser).None?
    ensures ListOf(pieces, parser).None?
    decreases |pieces|
  {
    if n < |pieces| {
      assert pieces[..|pieces| - 1][..n] == pieces[..n];
      ListOfPrefix(pieces[..|pieces| - 1], parser, n);
    } else {
      assert pieces[..n] == pieces;
    }
  }

  function Texts(values: seq<real>, formatter: ElementFormatter): (parts: seq<string>)
    ensures |parts| == |values|
    ensures forall i :: 0 <= i < |values| ==> parts[i] == formatter(values[i])
  {
    if values == [] then []
    else Texts(values[..|values| - 1], formatter) + [formatter(values[|values| - 1])]
  }

  function Formatted(values: seq<real>, formatter: ElementFormatter): string {
    Join(Texts(values, formatter), ',')
  }

  method FormatBuckets(values: seq<real>, formatter: ElementFormatter) returns (s: string)
    ensures s == Formatted(values, formatter)
  {
    var parts := [];
    for i := 0 to |values|
      invariant parts == Texts(values[..i], formatter)
    {
      assert values[..i + 1][..i] == values[..i];
      parts := parts + [formatter(values[i])];
    }
    assert values[..|values|] == values;
    s := Join(parts, ',');
  }

  /** The text of `v` can stand in a list and reads back as `v`. */
  predicate ReadsBack(v: real, parser: ElementParser, formatter: ElementFormatter) {
    var t := formatter(v);
    t != "" && Unpadded(t) && ',' !in t && parser(t) == Some(v)
  }

  /** Printing a bucket list and parsing the text returns the list, unless it was empty. */
  lemma ListRoundTrip(values: seq<real>, parser: ElementParser, formatter: ElementFormatter)
    requires forall i :: 0 <= i < |values| ==> ReadsBack(values[i], parser, formatter)
    ensures ListOf(Split(Formatted(values, formatter), ','), parser) == Some(values) <==> values != []
  {
    var parts := Texts(values, formatter);
    if values == [] {
      assert Split("", ',') == [""];
      assert [""][..0] == [];
    } else {
      SplitJoin(parts, ',');
      ReadsBackList(values, parser, formatter);
    }
  }

  lemma {:induction false} ReadsBackList(values: seq<real>, parser: ElementParser, formatter: ElementFormatter)
    requires forall i :: 0 <= i < |values| ==> ReadsBack(values[i], parser, formatter)
    ensures ListOf(Texts(values, formatter), parser) == Some(values)
  {
    if values != [] {
      var last := |values| - 1;
      ReadsBackList(values[..last], parser, formatter);
      TrimSpaceShape(formatter(values[last]));
      assert Texts(values, formatter)[..last] == Texts(values[..last], formatter);
      assert values == values[..last] + [values[last]];
    }
  }

  // ----- the element readers -----

  /** parseNumericBucketValue */
  function NumericValue(pf: FloatParser): ElementParser {
    (raw: string) => pf(TrimSpace(raw))
  }

  /** parseMemoryBucketValue */
  function MemoryValue(pf: FloatParser): ElementParser {
    (raw: string) => ParseMemoryBytes(pf, raw)
  }

  /** strconv.FormatFloat(value, 'f', -1, 64): whole numbers print as plain decimals. */
  ghost predicate PrintsDecimals(formatter: ElementFormatter) {
    forall n: nat {:trigger formatter(n as real)} :: formatter(n as real) == Digits(n)
  }

  /** Positive whole bounds survive the trip as numbers and as byte sizes alike. */
  lemma WholeBoundsReadBack(n: nat, pf: FloatParser, formatter: ElementFormatter)
    requires n > 0 && ReadsDecimals(pf) && PrintsDecimals(formatter)
    ensures ReadsBack(n as real, NumericValue(pf), formatter)
    ensures ReadsBack(n as real, MemoryValue(pf), formatter)
  {
    var t := Digits(n);
    assert formatter(n as real) == t;
    DigitsUnpadded(t);
    DigitsValueOfDigits(n);
    assert forall i :: 0 <= i < |t| ==> IsDigit(t[i]);
    SuffixFreeSize(pf, t);
  }

  /** A plain digit text reaches the suffix-free branch. */
  lemma SuffixFreeSize(pf: FloatParser, d: string)
    requires d != "" && AllDigits(d) && DigitsValue(d) > 0 && ReadsDecimals(pf)
    ensures ParseMemoryBytes(pf, d) == Some(DigitsValue(d) as real)
  {
    PlainSize(pf, d, None);
    assert d + SuffixOf(None) == d;
  }

  /** The default flag text of any non-empty list of positive whole bounds parses to that list. */
  lemma DefaultFlagsRoundTrip(ns: seq<nat>, values: seq<real>, pf: FloatParser, formatter: ElementFormatter)
    requires ns != [] && |values| == |ns|
    requires forall i :: 0 <= i < |ns| ==> ns[i] > 0 && values[i] == ns[i] as real
    requires ReadsDecimals(pf) && PrintsDecimals(formatter)
    ensures ListOf(Split(Formatted(values, formatter), ','), NumericValue(pf)) == Some(values)
    ensures ListOf(Split(Formatted(values, formatter), ','), MemoryValue(pf)) == Some(values)
  {
    forall i | 0 <= i < |values|
      ensures ReadsBack(values[i], NumericValue(pf), formatter) && ReadsBack(values[i], MemoryValue(pf), formatter)
    {
      WholeBoundsReadBack(ns[i], pf, formatter);
    }
    ListRoundTrip(values, NumericValue(pf), formatter);
    ListRoundTrip(values, MemoryValue(pf), formatter);
  }

  // ----- validation -----

  datatype BucketError = NoBuckets | NotPositive(index: nat) | NotIncreasing(index: nat)

  /** What a Prometheus histogram needs of its bounds. */
  ghost predicate ValidBuckets(values: seq<real>) {
    && values != []
    && (forall i :: 0 <= i < |values| ==> values[i] > 0.0)
    && (forall i, j :: 0 <= i < j < |values| ==> values[i] < values[j])
  }

  /** Accepts exactly the valid lists, and otherwise names the first offending position. */
  method ValidateBucketValues(values: seq<real>) returns (err: Option<BucketError>)
    ensures err.None? <==> ValidBuckets(values)
    ensures err == Some(NoBuckets) <==> values == []
    ensures err.Some? && err.value.NotPositive? ==>
      var k := err.value.index; k < |values| && values[k] <= 0.0 && (k > 0 ==> ValidBuckets(values[..k]))
    ensures err.Some? && err.value.NotIncreasing? ==>
      var k := err.value.index; 0 < k < |values| && 0.0 < values[k] <= values[k - 1] && ValidBuckets(values[..k])
  {
    if |values| == 0 {
      return Some(NoBuckets);
    }
    var previous := 0.0;
    for index := 0 to |values|
      invariant index > 0 ==> previous == values[index - 1] && ValidBuckets(values[..index])
    {
      var value := values[index];
      if value <= 0.0 {
        return Some(NotPositive(index));
      }
      if index > 0 && value <= previous {
        assert values[..index][index - 1] == previous;
        return Some(NotIncreasing(index));
      }
      forall i | 0 <= i < index ensures values[i] < value {
        assert values[..index][i] <= values[..index][index - 1];
      }
      assert forall i :: 0 <= i < index ==> values[..index + 1][i] == values[..index][i];
      previous := value;
    }
    assert values[..|values|] == values;
    err := None;
  }
}
