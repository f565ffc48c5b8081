/** PBS `Key:n Key:n` count texts, such as `Transit:0 Queued:2 Running:4`. */
module NamedCounts {
  import opened Wrappers
  import opened Text

  function IsCountSeparator(): char -> bool {
    (c: char) => c == ' ' || c == ','
  }

  /** The entry one field contributes, or None for a field the loop skips. */
  function FieldEntry(field: string): Option<(string, int)> {
    match Cut(field, ':')
    case None => None
    case Some((key, value)) =>
      match Atoi(TrimSpace(value))
      case None => None
      case Some(n) => Some((TrimSpace(key), n))
  }

  /** Later fields overwrite earlier ones. */
  function EntriesOf(fields: seq<string>): (counts: map<string, int>) {
    if fields == [] then map[]
    else
      var last := |fields| - 1;
      match FieldEntry(fields[last])
      case None => EntriesOf(fields[..last])
      case Some((key, n)) => EntriesOf(fields[..last])[key := n]
  }

  /** What a count text means. */
  function CountsOf(raw: string): map<string, int> {
    EntriesOf(FieldsFunc(raw, IsCountSeparator()))
  }

  method ParseNamedCounts(raw: string) returns (counts: map<string, int>)
    ensures counts == CountsOf(raw)
  {
    counts := map[];
    var fields := FieldsFunc(raw, IsCountSeparator());
    for i := 0 to |fields|
      invariant counts == EntriesOf(fields[..i])
    {
      assert fields[..i + 1][..i] == fields[..i];
      var cut := Cut(fields[i], ':');
      if cut.None? {
        continue;
      }
      var parsed := Atoi(TrimSpace(cut.value.1));
      if parsed.None? {
        continue;
      }
      counts := counts[TrimSpace(cut.value.0) := parsed.value];
    }
    assert fields[..|fields|] == fields;
  }

  lemma {:induction false} EntriesAppend(a: seq<string>, b: seq<string>)
    ensures EntriesOf(a + b) == EntriesOf(a) + EntriesOf(b)
    decreases |b|
  {
    if b == [] {
      assert a + b == a;
    } else {
      assert (a + b)[..|a + b| - 1] == a + b[..|b| - 1];
      EntriesAppend(a, b[..|b| - 1]);
    }
  }

  /** Parsing is a homomorphism from separated texts to right-biased map overlay. */
  lemma CountsHomomorphism(a: string, sep: char, b: string)
    requires IsCountSeparator()(sep)
    ensures CountsOf(a + [sep] + b) == CountsOf(a) + CountsOf(b)
  {
    FieldsAt(a, sep, b, IsCountSeparator());
    EntriesAppend(FieldsFunc(a, IsCountSeparator()), FieldsFunc(b, IsCountSeparator()));
  }

  /** A text with no readable entry can be put anywhere between two others without effect. */
  lemma MalformedFieldsAreInert(a: string, sep1: char, junk: string, sep2: char, b: string)
    requires IsCountSeparator()(sep1) && IsCountSeparator()(sep2)
    requires forall field :: field in FieldsFunc(junk, IsCountSeparator()) ==> FieldEntry(field).None?
    ensures CountsOf(a + [sep1] + junk + [sep2] + b) == CountsOf(a + [sep2] + b)
  {
    NoEntries(FieldsFunc(junk, IsCountSeparator()));
    CountsHomomorphism(a + [sep1] + junk, sep2, b);
    CountsHomomorphism(a, sep1, junk);
    CountsHomomorphism(a, sep2, b);
  }

  lemma {:induction false} NoEntries(fields: seq<string>)
    requires forall field :: field in fields ==> FieldEntry(field).None?
    ensures EntriesOf(fields) == map[]
  {
    if fields != [] {
      NoEntries(fields[..|fields| - 1]);
    }
  }

  // ----- printing -----

  function PrintPair(pair: (string, int)): string {
    pair.0 + ":" + Itoa(pair.1)
  }

  function PrintPairs(pairs: seq<(string, int)>): seq<string> {
    if pairs == [] then [] else [PrintPair(pairs[0])] + PrintPairs(pairs[1..])
  }

  /** The PBS notation for a list of counts. */
  function PrintCounts(pairs: seq<(string, int)>): string {
    Join(PrintPairs(pairs), ' ')
  }

  function LastWins(pairs: seq<(string, int)>): map<string, int> {
    if pairs == [] then map[] else map[pairs[0].0 := pairs[0].1] + LastWins(pairs[1..])
  }

  /** A key the notation can carry: unpadded, without the three structural characters. */
  predicate CleanKey(key: string) {
    Unpadded(key) && ':' !in key && ' ' !in key && ',' !in key
  }

  lemma PairParses(pair: (string, int))
    requires CleanKey(pair.0)
    ensures CountsOf(PrintPair(pair)) == map[pair.0 := pair.1]
  {
    var text, value := PrintPair(pair), Itoa(pair.1);
    ItoaIsClean(pair.1);
    assert text == pair.0 + [':'] + value;
    SplitFree(text, IsCountSeparator());
    assert NonEmpty([text]) == [text] + NonEmpty([]);
    CutAt(pair.0, ':', value);
    TrimSpaceShape(pair.0);
    AtoiOfItoa(pair.1);
    assert FieldEntry(text) == Some(pair);
    assert FieldsFunc(text, IsCountSeparator()) == [text];
    assert [text][..0] == [];
    assert EntriesOf([text]) == EntriesOf([])[pair.0 := pair.1];
  }

  lemma ItoaIsClean(n: int)
    ensures Itoa(n) != "" && TrimSpace(Itoa(n)) == Itoa(n)
    ensures Free(Itoa(n), IsCountSeparator()) && ',' !in Itoa(n)
  {
    var s := Itoa(n);
    assert forall i :: 0 <= i < |s| ==> IsDigit(s[i]) || s[i] == '-';
    TrimSpaceShape(s);
  }

  /** Every key the parser can produce is clean. */
  lemma KeysAreClean(raw: string)
    ensures forall key :: key in CountsOf(raw) ==> CleanKey(key)
  {
    var pieces := SplitWhere(raw, IsCountSeparator());
    PiecesFree(raw, IsCountSeparator());
    NonEmptySelects(pieces);
    EntryKeysAreClean(NonEmpty(pieces));
  }

  lemma {:induction false} EntryKeysAreClean(fields: seq<string>)
    requires forall field :: field in fields ==> Free(field, IsCountSeparator())
    ensures forall key :: key in EntriesOf(fields) ==> CleanKey(key)
  {
    if fields != [] {
      var field := fields[|fields| - 1];
      EntryKeysAreClean(fields[..|fields| - 1]);
      assert field in fields;
      if FieldEntry(field).Some? {
        var key := Cut(field, ':').value.0;
        TrimSpaceShape(key);
        TrimSpaceSelects(key);
        assert forall c :: c in key ==> c in field;
      }
    }
  }

  /** The round trip holds exactly for the lists whose keys are all clean. */
  lemma RoundTripExactly(pairs: seq<(string, int)>)
    ensures CountsOf(PrintCounts(pairs)) == LastWins(pairs)
       <==> forall i :: 0 <= i < |pairs| ==> CleanKey(pairs[i].0)
  {
    KeysAreClean(PrintCounts(pairs));
    LastWinsKeys(pairs);
    if forall i :: 0 <= i < |pairs| ==> CleanKey(pairs[i].0) {
      PrintParse(pairs);
    }
  }

  lemma {:induction false} LastWinsKeys(pairs: seq<(string, int)>)
    ensures forall i :: 0 <= i < |pairs| ==> pairs[i].0 in LastWins(pairs)
  {
    if pairs != [] {
      LastWinsKeys(pairs[1..]);
    }
  }

  /** Printing any list of clean pairs and parsing it back yields the last-wins map. */
  lemma {:induction false} PrintParse(pairs: seq<(string, int)>)
    requires forall i :: 0 <= i < |pairs| ==> CleanKey(pairs[i].0)
    ensures CountsOf(PrintCounts(pairs)) == LastWins(pairs)
  {
    if pairs == [] {
      assert NonEmpty([""]) == NonEmpty([]);
    } else {
      PairParses(pairs[0]);
      if |pairs| == 1 {
        assert PrintPairs(pairs[1..]) == [];
        assert LastWins(pairs[1..]) == map[];
      } else {
        PrintParse(pairs[1..]);
        assert PrintPairs(pairs)[1..] == PrintPairs(pairs[1..]);
        assert PrintPairs(pairs[1..]) != [];
        CountsHomomorphism(PrintPair(pairs[0]), ' ', PrintCounts(pairs[1..]));
      }
    }
  }
}
