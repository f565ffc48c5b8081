/**
 The Go string functions the parsers use, over ASCII text: TrimSpace, ToLower,
 ToUpper, Split, FieldsFunc, Cut, Join and decimal conversion.
 */
module Text {
  import opened Wrappers

  // ----- characters -----

  predicate IsSpace(c: char) {
    c == ' ' || c == '\t' || c == '\n' || c == '\r' || c == '\U{000B}' || c == '\U{000C}'
  }

  predicate IsDigit(c: char) {
    '0' <= c <= '9'
  }

  function LowerChar(c: char): char {
    if 'A' <= c <= 'Z' then c - 'A' + 'a' else c
  }

  function UpperChar(c: char): char {
    if 'a' <= c <= 'z' then c - 'a' + 'A' else c
  }

  function ToLower(s: string): (t: string)
    ensures |t| == |s| && forall i :: 0 <= i < |s| ==> t[i] == LowerChar(s[i])
  {
    if s == "" then "" else [LowerChar(s[0])] + ToLower(s[1..])
  }

  function ToUpper(s: string): (t: string)
    ensures |t| == |s| && forall i :: 0 <= i < |s| ==> t[i] == UpperChar(s[i])
  {
    if s == "" then "" else [UpperChar(s[0])] + ToUpper(s[1..])
  }

  predicate EqualFold(s: string, t: string) {
    ToLower(s) == ToLower(t)
  }

  predicate AllSpace(s: string) {
    forall i :: 0 <= i < |s| ==> IsSpace(s[i])
  }

  predicate AllDigits(s: string) {
    forall i :: 0 <= i < |s| ==> IsDigit(s[i])
  }

  // ----- trimming -----

  function TrimLeft(s: string): string {
    if s != "" && IsSpace(s[0]) then TrimLeft(s[1..]) else s
  }

  function TrimRight(s: string): string {
    if s != "" && IsSpace(s[|s| - 1]) then TrimRight(s[..|s| - 1]) else s
  }

  function TrimSpace(s: string): string {
    TrimRight(TrimLeft(s))
  }

  /** No space at either end. */
  predicate Unpadded(s: string) {
    s == "" || (!IsSpace(s[0]) && !IsSpace(s[|s| - 1]))
  }

  lemma {:induction false} TrimLeftPad(left: string, s: string)
    requires AllSpace(left) && (s == "" || !IsSpace(s[0]))
    ensures TrimLeft(left + s) == s
  {
    if left == "" {
      assert left + s == s;
    } else {
      assert (left + s)[1..] == left[1..] + s;
      TrimLeftPad(left[1..], s);
    }
  }

  lemma {:induction false} TrimRightPad(s: string, right: string)
    requires AllSpace(right) && (s == "" || !IsSpace(s[|s| - 1]))
    ensures TrimRight(s + right) == s
  {
    if right == "" {
      assert s + right == s;
    } else {
      assert (s + right)[..|s + right| - 1] == s + right[..|right| - 1];
      TrimRightPad(s, right[..|right| - 1]);
    }
  }

  lemma {:induction false} TrimLeftShape(s: string)
    ensures TrimLeft(s) == "" || !IsSpace(TrimLeft(s)[0])
    ensures |TrimLeft(s)| <= |s| && TrimLeft(s) == s[|s| - |TrimLeft(s)|..]
  {
    if s != "" && IsSpace(s[0]) {
      TrimLeftShape(s[1..]);
    }
  }

  lemma {:induction false} TrimRightShape(s: string)
    ensures TrimRight(s) == "" || !IsSpace(TrimRight(s)[|TrimRight(s)| - 1])
    ensures |TrimRight(s)| <= |s| && TrimRight(s) == s[..|TrimRight(s)|]
  {
    if s != "" && IsSpace(s[|s| - 1]) {
      TrimRightShape(s[..|s| - 1]);
    }
  }

  /** TrimSpace strips padding, and exactly the unpadded texts are its fixed points. */
  lemma TrimSpaceShape(s: string)
    ensures Unpadded(TrimSpace(s))
    ensures TrimSpace(s) == s <==> Unpadded(s)
  {
    TrimLeftShape(s);
    TrimRightShape(TrimLeft(s));
  }

  lemma {:induction false} TrimLeftDrops(s: string)
    ensures forall c :: c in s ==> c in TrimLeft(s) || IsSpace(c)
  {
    if s != "" && IsSpace(s[0]) {
      TrimLeftDrops(s[1..]);
    }
  }

  lemma {:induction false} TrimRightDrops(s: string)
    ensures forall c :: c in s ==> c in TrimRight(s) || IsSpace(c)
  {
    if s != "" && IsSpace(s[|s| - 1]) {
      TrimRightDrops(s[..|s| - 1]);
      assert s == s[..|s| - 1] + [s[|s| - 1]];
    }
  }

  lemma TrimSpaceSelects(s: string)
    ensures forall c :: c in TrimSpace(s) ==> c in s
    ensures forall c :: c in s ==> c in TrimSpace(s) || IsSpace(c)
  {
    TrimLeftDrops(s);
    TrimRightDrops(TrimLeft(s));
    TrimLeftShape(s);
    TrimRightShape(TrimLeft(s));
  }

  lemma TrimSpacePad(left: string, s: string, right: string)
    requires AllSpace(left) && AllSpace(right) && Unpadded(s) && s != ""
    ensures TrimSpace(left + s + right) == s
  {
    assert left + s + right == left + (s + right);
    assert (s + right)[0] == s[0];
    TrimLeftPad(left, s + right);
    TrimRightPad(s, right);
  }

  lemma ToLowerAppend(a: string, b: string)
    ensures ToLower(a + b) == ToLower(a) + ToLower(b)
  {
  }

  lemma ToLowerKeepsSpaces(s: string, i: nat)
    requires i < |s|
    ensures IsSpace(ToLower(s)[i]) <==> IsSpace(s[i])
  {
  }

  lemma {:induction false} ToLowerTrimLeft(s: string)
    ensures TrimLeft(ToLower(s)) == ToLower(TrimLeft(s))
  {
    if s != "" && IsSpace(s[0]) {
      ToLowerTrimLeft(s[1..]);
    }
  }

  lemma {:induction false} ToLowerTrimRight(s: string)
    ensures TrimRight(ToLower(s)) == ToLower(TrimRight(s))
  {
    if s != "" && IsSpace(s[|s| - 1]) {
      assert ToLower(s)[..|s| - 1] == ToLower(s[..|s| - 1]);
      ToLowerTrimRight(s[..|s| - 1]);
    }
  }

  lemma ToLowerTrimSpace(s: string)
    ensures TrimSpace(ToLower(s)) == ToLower(TrimSpace(s))
  {
    ToLowerTrimLeft(s);
    ToLowerTrimRight(TrimLeft(s));
  }

  // ----- splitting -----

  /** Splits at every character `isSep` accepts; there is always at least one piece. */
  function SplitWhere(s: string, isSep: char -> bool): (pieces: seq<string>)
    ensures |pieces| >= 1
  {
    if s == "" then [""]
    else
      var rest := SplitWhere(s[1..], isSep);
      if isSep(s[0]) then [""] + rest else [[s[0]] + rest[0]] + rest[1..]
  }

  function Is(sep: char): char -> bool {
    (c: char) => c == sep
  }

  /** strings.Split with a one-character separator. */
  function Split(s: string, sep: char): (pieces: seq<string>)
    ensures |pieces| >= 1
  {
    SplitWhere(s, Is(sep))
  }

  function NonEmpty(pieces: seq<string>): (kept: seq<string>) {
    if pieces == [] then []
    else (if pieces[0] == "" then [] else [pieces[0]]) + NonEmpty(pieces[1..])
  }

  /** strings.FieldsFunc: the non-empty runs between separators. */
  function FieldsFunc(s: string, isSep: char -> bool): seq<string> {
    NonEmpty(SplitWhere(s, isSep))
  }

  predicate Free(s: string, isSep: char -> bool) {
    forall i :: 0 <= i < |s| ==> !isSep(s[i])
  }

  lemma {:induction false} SplitFree(s: string, isSep: char -> bool)
    requires Free(s, isSep)
    ensures SplitWhere(s, isSep) == [s]
  {
    if s != "" {
      SplitFree(s[1..], isSep);
      assert [s[0]] + s[1..] == s;
    }
  }

  /** Pieces hold the text's own characters, never a separator. */
  lemma {:induction false} PieceChars(s: string, isSep: char -> bool, p: string, c: char)
    requires p in SplitWhere(s, isSep) && c in p
    ensures c in s && !isSep(c)
  {
    var rest := SplitWhere(s[1..], isSep);
    if isSep(s[0]) {
      PieceChars(s[1..], isSep, p, c);
    } else if p in rest {
      PieceChars(s[1..], isSep, p, c);
    } else if c != s[0] {
      PieceChars(s[1..], isSep, rest[0], c);
    }
  }

  lemma PiecesFree(s: string, isSep: char -> bool)
    ensures forall p :: p in SplitWhere(s, isSep) ==> Free(p, isSep)
  {
    forall p, i | p in SplitWhere(s, isSep) && 0 <= i < |p| ensures !isSep(p[i]) {
      PieceChars(s, isSep, p, p[i]);
    }
  }

  lemma {:induction false} NonEmptySelects(pieces: seq<string>)
    ensures forall p :: p in NonEmpty(pieces) <==> p in pieces && p != ""
  {
    if pieces != [] {
      NonEmptySelects(pieces[1..]);
    }
  }

  /** Splitting is a homomorphism: a separator between two texts joins their pieces. */
  lemma {:induction false} SplitAt(a: string, sep: char, b: string, isSep: char -> bool)
    requires isSep(sep)
    ensures SplitWhere(a + [sep] + b, isSep) == SplitWhere(a, isSep) + SplitWhere(b, isSep)
  {
    var whole := a + [sep] + b;
    if a == "" {
      assert whole[0] == sep && whole[1..] == b;
    } else {
      assert whole[0] == a[0] && whole[1..] == a[1..] + [sep] + b;
      SplitAt(a[1..], sep, b, isSep);
    }
  }

  lemma {:induction false} NonEmptyAppend(a: seq<string>, b: seq<string>)
    ensures NonEmpty(a + b) == NonEmpty(a) + NonEmpty(b)
  {
    if a == [] {
      assert a + b == b;
    } else {
      assert (a + b)[1..] == a[1..] + b;
      NonEmptyAppend(a[1..], b);
    }
  }

  lemma FieldsAt(a: string, sep: char, b: string, isSep: char -> bool)
    requires isSep(sep)
    ensures FieldsFunc(a + [sep] + b, isSep) == FieldsFunc(a, isSep) + FieldsFunc(b, isSep)
  {
    SplitAt(a, sep, b, isSep);
    NonEmptyAppend(SplitWhere(a, isSep), SplitWhere(b, isSep));
  }

  /** strings.Join with a one-character separator. */
  function Join(parts: seq<string>, sep: char): string {
    if parts == [] then ""
    else if |parts| == 1 then parts[0]
    else parts[0] + [sep] + Join(parts[1..], sep)
  }

  lemma {:induction false} SplitJoin(parts: seq<string>, sep: char)
    requires parts != []
    requires forall i :: 0 <= i < |parts| ==> sep !in parts[i]
    ensures Split(Join(parts, sep), sep) == parts
  {
    SplitFree(parts[0], Is(sep));
    if |parts| > 1 {
      SplitJoin(parts[1..], sep);
      SplitAt(parts[0], sep, Join(parts[1..], sep), Is(sep));
    }
  }

  function IndexOf(s: string, c: char): (i: nat)
    ensures i <= |s| && c !in s[..i] && (i < |s| ==> s[i] == c)
  {
    if s == "" || s[0] == c then 0
    else
      var j := IndexOf(s[1..], c);
      assert s[..j + 1] == [s[0]] + s[1..][..j];
      j + 1
  }

  /** strings.Cut at the first occurrence of `c`; None is Go's `ok == false`. */
  function Cut(s: string, c: char): (r: Option<(string, string)>)
    ensures r.Some? <==> c in s
    ensures r.Some? ==> c !in r.value.0 && s == r.value.0 + [c] + r.value.1
  {
    var i := IndexOf(s, c);
    if i == |s| then assert s[..i] == s; None else Some((s[..i], s[i + 1..]))
  }

  lemma {:induction false} IndexOfAt(a: string, c: char, b: string)
    requires c !in a
    ensures IndexOf(a + [c] + b, c) == |a|
  {
    if a != "" {
      assert (a + [c] + b)[1..] == a[1..] + [c] + b;
      IndexOfAt(a[1..], c, b);
    }
  }

  lemma CutAt(a: string, c: char, b: string)
    requires c !in a
    ensures Cut(a + [c] + b, c) == Some((a, b))
  {
    IndexOfAt(a, c, b);
    var s := a + [c] + b;
    assert s[..|a|] == a && s[|a| + 1..] == b;
  }

  // ----- decimal conversion -----

  function DigitChar(d: nat): (c: char)
    requires d < 10
    ensures IsDigit(c) && (c - '0') as int == d
  {
    '0' + d as char
  }

  /** strconv.Itoa on the naturals. */
  function Digits(n: nat): (s: string)
    ensures s != "" && AllDigits(s)
    ensures n < 10 ==> |s| == 1
    ensures s == "0" <==> n == 0
  {
    if n < 10 then [DigitChar(n)] else Digits(n / 10) + [DigitChar(n % 10)]
  }

  function Itoa(n: int): string {
    if n < 0 then "-" + Digits(-n) else Digits(n)
  }

  /** The number a digit text denotes, leading zeros allowed. */
  function DigitsValue(s: string): nat
    requires AllDigits(s)
  {
    if s == "" then 0
    else DigitsValue(s[..|s| - 1]) * 10 + (s[|s| - 1] - '0') as int
  }

  /** strconv.Atoi without the 64-bit range check: an optional sign, then digits. */
  function Atoi(s: string): Option<int> {
    var negative := s != "" && s[0] == '-';
    var signed := s != "" && (s[0] == '-' || s[0] == '+');
    var body := if signed then s[1..] else s;
    if body == "" || !AllDigits(body) then None
    else
      var magnitude: int := DigitsValue(body);
      Some(if negative then -magnitude else magnitude)
  }

  lemma {:induction false} DigitsValueOfDigits(n: nat)
    ensures DigitsValue(Digits(n)) == n
  {
    if n >= 10 {
      DigitsValueOfDigits(n / 10);
      var s := Digits(n);
      assert s[..|s| - 1] == Digits(n / 10);
    }
  }

  lemma AtoiOfDigits(s: string)
    requires s != "" && AllDigits(s)
    ensures Atoi(s) == Some(DigitsValue(s))
  {
    assert IsDigit(s[0]);
  }

  /** A number may carry either sign. */
  lemma AtoiSigned(d: string)
    requires d != "" && AllDigits(d)
    ensures Atoi("+" + d) == Some(DigitsValue(d)) && Atoi("-" + d) == Some(-(DigitsValue(d) as int))
  {
    var plus, minus := "+" + d, "-" + d;
    assert plus[0] == '+' && plus[1..] == d && minus[0] == '-' && minus[1..] == d;
  }

  lemma AtoiOfItoa(n: int)
    ensures Atoi(Itoa(n)) == Some(n)
  {
    var d := if n < 0 then Digits(-n) else Digits(n);
    if n < 0 {
      NegativeReads(d, -n);
    } else {
      DigitsValueOfDigits(n);
      AtoiOfDigits(d);
    }
  }

  lemma NegativeReads(d: string, m: nat)
    requires d == Digits(m)
    ensures Atoi("-" + d) == Some(-(m as int))
  {
    DigitsValueOfDigits(m);
    AtoiSigned(d);
  }

  /** Nothing else is a number. */
  lemma AtoiRejects(s: string)
    requires s == "" || !(AllDigits(s) || (s[0] in {'+', '-'} && |s| > 1 && AllDigits(s[1..])))
    ensures Atoi(s).None?
  {
  }

  /** Six characters count as space. */
  lemma SpacesTrimmed(c: char)
    ensures TrimSpace([c]) == "" <==> c in {' ', '\t', '\n', '\r', '\U{000B}', '\U{000C}'}
  {
    assert TrimLeft([c]) == if IsSpace(c) then TrimLeft([c][1..]) else [c];
    assert [c][1..] == "" && TrimLeft("") == "" && TrimRight("") == "";
    assert !IsSpace(c) ==> TrimRight([c]) == [c];
  }

  lemma DigitsLower(s: string)
    requires AllDigits(s)
    ensures ToLower(s) == s
  {
    assert forall i :: 0 <= i < |s| ==> IsDigit(s[i]);
  }

  lemma DigitsUnpadded(s: string)
    requires s != "" && AllDigits(s)
    ensures Unpadded(s) && TrimSpace(s) == s
  {
    assert IsDigit(s[0]) && IsDigit(s[|s| - 1]);
    TrimSpaceShape(s);
  }
}
