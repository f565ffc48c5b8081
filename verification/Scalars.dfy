/** JSON scalars and the numeric texts PBS puts in them: walltimes, byte sizes, fractions. */
module Scalars {
  import opened Wrappers
  import opened Text

  /** strconv.ParseFloat, whose full syntax stays abstract. */
  type FloatParser = string -> Option<real>

  /** What the properties need of it: plain decimal integer texts are read exactly. */
  ghost predicate ReadsDecimals(pf: FloatParser) {
    forall d: string {:trigger pf(d)} :: d != "" && AllDigits(d) ==> pf(d) == Some(DigitsValue(d) as real)
  }

  datatype Scalar = Scalar(text: string, set_: bool) {
    function TextValue(): string {
      TrimSpace(text)
    }

    predicate BoolValue() {
      ToLower(TextValue()) in {"true", "t", "yes", "y", "1"}
    }

    function OptionalNumber(pf: FloatParser): Option<real> {
      if !set_ || text == "" then None else pf(text)
    }

    function IntValue(pf: FloatParser): int {
      match OptionalNumber(pf) case Some(v) => Truncate(v) case None => 0
    }

    function OptionalDurationSeconds(): Option<int> {
      if !set_ || text == "" then None
      else
        var seconds := WalltimeToSeconds(text);
        if seconds == 0 && TextValue() !in ZERO_WALLTIMES then None else Some(seconds)
    }

    function DurationSecondsValue(): int {
      match OptionalDurationSeconds() case Some(seconds) => seconds case None => 0
    }

    function OptionalBytes(pf: FloatParser): Option<real> {
      if !set_ || text == "" then None
      else
        var value := MemoryToBytes(pf, text);
        if value == 0.0 && TrimSpace(ToLower(text)) !in ZERO_SIZES then None else Some(value)
    }
  }

  /** A set digit text is a number; an unset or empty scalar is none. */
  lemma NumbersRead(pf: FloatParser, d: string)
    requires ReadsDecimals(pf) && d != "" && AllDigits(d)
    ensures Scalar(d, true).OptionalNumber(pf) == Some(DigitsValue(d) as real)
    ensures Scalar(d, true).IntValue(pf) == DigitsValue(d)
    ensures Scalar(d, false).OptionalNumber(pf).None? && Scalar("", true).OptionalNumber(pf).None?
  {
  }

  const ZERO_WALLTIMES: set<string> := {"0", "00:00", "00:00:00"}

  const ZERO_SIZES: set<string> := {"0", "0b", "0kb", "0mb", "0gb", "0tb"}

  /** Go's float-to-int conversion, toward zero. */
  function Truncate(v: real): (n: int)
    ensures v >= 0.0 ==> n as real <= v < n as real + 1.0
    ensures v < 0.0 ==> n as real - 1.0 < v <= n as real
  {
    if v >= 0.0 then v.Floor else -(-v).Floor
  }

  // ----- walltimes -----

  /** strconv.Atoi with its error dropped. */
  function AtoiOrZero(s: string): int {
    match Atoi(s) case Some(n) => n case None => 0
  }

  function WalltimeToSeconds(s: string): int {
    if s == "--" || s == "" then 0
    else
      var parts := Split(s, ':');
      if |parts| == 3 then
        AtoiOrZero(parts[0]) * 3600 + AtoiOrZero(parts[1]) * 60 + AtoiOrZero(parts[2])
      else if |parts| == 2 then AtoiOrZero(parts[0]) * 60 + AtoiOrZero(parts[1])
      else 0
  }

  /** Two digits at least, as PBS prints the fields of a walltime. */
  function Pad2(n: nat): string {
    if n < 10 then "0" + Digits(n) else Digits(n)
  }

  function PrintWalltime(h: nat, m: nat, s: nat): string {
    Pad2(h) + ":" + Pad2(m) + ":" + Pad2(s)
  }

  lemma Pad2Reads(n: nat)
    ensures Pad2(n) != "" && AllDigits(Pad2(n)) && Atoi(Pad2(n)) == Some(n)
    ensures ':' !in Pad2(n)
    ensures |Pad2(n)| >= 2 && (Pad2(n) == "00" <==> n == 0)
  {
    var p := Pad2(n);
    DigitsValueOfDigits(n);
    if n < 10 {
      assert p[..|p| - 1] == "0";
      assert "0"[..0] == "";
    } else {
      assert |Digits(n / 10)| >= 1;
    }
    AtoiOfDigits(p);
    assert forall i :: 0 <= i < |p| ==> IsDigit(p[i]);
  }

  lemma SplitThree(a: string, b: string, c: string)
    requires ':' !in a && ':' !in b && ':' !in c
    ensures Split(a + ":" + b + ":" + c, ':') == [a, b, c]
  {
    SplitFree(a, Is(':'));
    SplitFree(b, Is(':'));
    SplitFree(c, Is(':'));
    SplitAt(a, ':', b, Is(':'));
    SplitAt(a + ":" + b, ':', c, Is(':'));
  }

  /** A printed walltime is always read as set, to its exact number of seconds. */
  lemma WalltimeRoundTrip(h: nat, m: nat, s: nat)
    requires m < 60 && s < 60
    ensures Scalar(PrintWalltime(h, m, s), true).OptionalDurationSeconds() == Some(3600 * h + 60 * m + s)
  {
    PrintedWalltimeSeconds(h, m, s);
    if h == m == s == 0 {
      ZeroWalltimeIsLiteral();
    }
    ReadAsSet(PrintWalltime(h, m, s));
  }

  lemma ZeroWalltimeIsLiteral()
    ensures TrimSpace(PrintWalltime(0, 0, 0)) in ZERO_WALLTIMES
  {
    Pad2Reads(0);
    assert PrintWalltime(0, 0, 0) == "00:00:00";
    TrimSpaceShape("00:00:00");
  }

  lemma PrintedWalltimeSeconds(h: nat, m: nat, s: nat)
    ensures WalltimeToSeconds(PrintWalltime(h, m, s)) == 3600 * h + 60 * m + s
    ensures PrintWalltime(h, m, s) != ""
  {
    Pad2Reads(h);
    Pad2Reads(m);
    Pad2Reads(s);
    SplitThree(Pad2(h), Pad2(m), Pad2(s));
    assert PrintWalltime(h, m, s)[|Pad2(h)|] == ':';
    ThreePartsRead(PrintWalltime(h, m, s), Pad2(h), Pad2(m), Pad2(s), h, m, s);
  }

  lemma ReadAsSet(text: string)
    requires text != "" && (WalltimeToSeconds(text) != 0 || TrimSpace(text) in ZERO_WALLTIMES)
    ensures Scalar(text, true).OptionalDurationSeconds() == Some(WalltimeToSeconds(text))
  {
  }

  lemma ThreePartsRead(text: string, a: string, b: string, c: string, h: int, m: int, s: int)
    requires text != "--" && text != "" && Split(text, ':') == [a, b, c]
    requires Atoi(a) == Some(h) && Atoi(b) == Some(m) && Atoi(c) == Some(s)
    ensures WalltimeToSeconds(text) == h * 3600 + m * 60 + s
  {
  }

  /** The seconds determine all three fields. */
  lemma FieldsOfSeconds(h: nat, m: nat, s: nat)
    requires m < 60 && s < 60
    ensures var total := 3600 * h + 60 * m + s;
      h == total / 3600 && m == total / 60 % 60 && s == total % 60
  {
    var total := 3600 * h + 60 * m + s;
    assert total / 60 == 60 * h + m;
  }

  /** So a printed walltime's fields can be recovered from what the parser returns. */
  lemma WalltimeRecovered(h: nat, m: nat, s: nat)
    requires m < 60 && s < 60
    ensures var total := WalltimeToSeconds(PrintWalltime(h, m, s));
      h == total / 3600 && m == total / 60 % 60 && s == total % 60
  {
    PrintedWalltimeSeconds(h, m, s);
    FieldsOfSeconds(h, m, s);
  }

  /** The shorter form, minutes and seconds, is read too. */
  lemma MinutesRoundTrip(m: nat, s: nat)
    requires s < 60
    ensures Scalar(Pad2(m) + ":" + Pad2(s), true).OptionalDurationSeconds() == Some(60 * m + s)
  {
    PrintedMinutes(m, s);
    if m == s == 0 {
      Pad2Reads(0);
      assert Pad2(0) + ":" + Pad2(0) == "00:00";
      TrimSpaceShape("00:00");
    }
    ReadAsSet(Pad2(m) + ":" + Pad2(s));
  }

  lemma PrintedMinutes(m: nat, s: nat)
    ensures var text := Pad2(m) + ":" + Pad2(s);
      text != "" && WalltimeToSeconds(text) == 60 * m + s
  {
    var a, b := Pad2(m), Pad2(s);
    var text := a + ":" + b;
    Pad2Reads(m);
    Pad2Reads(s);
    SplitFree(a, Is(':'));
    SplitFree(b, Is(':'));
    SplitAt(a, ':', b, Is(':'));
    assert Split(text, ':') == [a, b];
    assert text[|a|] == ':';
    TwoPartsRead(text, a, b, m, s);
  }

  lemma TwoPartsRead(text: string, a: string, b: string, m: int, s: int)
    requires text != "--" && text != "" && Split(text, ':') == [a, b]
    requires Atoi(a) == Some(m) && Atoi(b) == Some(s)
    ensures WalltimeToSeconds(text) == m * 60 + s
  {
  }

  /** A duration is set when it is not zero, or a zero spelled in one of three ways. */
  lemma DurationSetExactly(value: Scalar)
    ensures value.OptionalDurationSeconds().Some? <==>
      value.set_ && value.text != ""
      && (WalltimeToSeconds(value.text) != 0 || TrimSpace(value.text) in {"0", "00:00", "00:00:00"})
    ensures value.OptionalDurationSeconds().Some? ==>
      value.OptionalDurationSeconds().value == WalltimeToSeconds(value.text)
  {
  }

  /** Any other number of parts is no walltime. */
  lemma OtherPartsReadZero(text: string)
    requires |Split(text, ':')| != 2 && |Split(text, ':')| != 3
    ensures WalltimeToSeconds(text) == 0
  {
  }

  /** The first scalar that carries a usable duration. */
  function FirstDurationSeconds(values: seq<Scalar>): int {
    if values == [] then 0
    else
      var value := values[0];
      var seconds := value.DurationSecondsValue();
      if value.set_ && (seconds > 0 || value.TextValue() in ZERO_WALLTIMES) then seconds
      else FirstDurationSeconds(values[1..])
  }

  /** A scalar that is set to a non-negative duration. */
  predicate Usable(value: Scalar) {
    value.OptionalDurationSeconds().Some? && value.OptionalDurationSeconds().value >= 0
  }

  /** The guard with its three literal texts picks exactly the usable scalars. */
  lemma {:induction false} FirstDurationIsFirstUsable(values: seq<Scalar>)
    ensures forall i :: 0 <= i < |values| && Usable(values[i]) && (forall j :: 0 <= j < i ==> !Usable(values[j]))
              ==> Some(FirstDurationSeconds(values)) == values[i].OptionalDurationSeconds()
    ensures (forall i :: 0 <= i < |values| ==> !Usable(values[i])) ==> FirstDurationSeconds(values) == 0
  {
    if values != [] {
      if values[0].TextValue() in ZERO_WALLTIMES {
        ZeroTextsReadZero(values[0].text);
      }
      FirstDurationIsFirstUsable(values[1..]);
      if !Usable(values[0]) {
        forall i | 0 <= i < |values| && Usable(values[i]) && (forall j :: 0 <= j < i ==> !Usable(values[j]))
          ensures Some(FirstDurationSeconds(values)) == values[i].OptionalDurationSeconds()
        {
          assert values[i] == values[1..][i - 1];
          assert forall j :: 0 <= j < i - 1 ==> values[1..][j] == values[j + 1];
        }
      }
    }
  }

  /** However padded, the three literal zero walltimes read as zero. */
  lemma ZeroTextsReadZero(text: string)
    requires TrimSpace(text) in ZERO_WALLTIMES
    ensures text != "" && WalltimeToSeconds(text) == 0
  {
    TrimSpaceSelects(text);
    var zero := TrimSpace(text);
    assert forall c :: c in zero ==> c == '0' || c == ':';
    forall p | p in Split(text, ':') ensures AtoiOrZero(p) == 0 {
      forall c | c in p ensures c == '0' || IsSpace(c) {
        PieceChars(text, Is(':'), p, c);
      }
      ZerosReadZero(p);
    }
  }

  lemma ZerosReadZero(p: string)
    requires forall c :: c in p ==> c == '0' || IsSpace(c)
    ensures AtoiOrZero(p) == 0
  {
    if p != "" && AllDigits(p) {
      assert forall i :: 0 <= i < |p| ==> p[i] in p;
      ZeroDigits(p);
    }
    assert p != "" ==> p[0] in p;
  }

  lemma {:induction false} ZeroDigits(p: string)
    requires AllDigits(p) && forall i :: 0 <= i < |p| ==> p[i] == '0'
    ensures DigitsValue(p) == 0
  {
    if p != "" {
      ZeroDigits(p[..|p| - 1]);
    }
  }

  // ----- byte sizes -----

  datatype Unit = TB | GB | MB | KB | B {
    function Suffix(): string {
      match this case TB => "tb" case GB => "gb" case MB => "mb" case KB => "kb" case B => "b"
    }

    /** `v` of these, in bytes. */
    function Scale(v: real): real {
      match this
      case TB => v * 1099511627776.0
      case GB => v * 1073741824.0
      case MB => v * 1048576.0
      case KB => v * 1024.0
      case B => v
    }
  }

  predicate HasSuffix(s: string, suffix: string) {
    |suffix| <= |s| && s[|s| - |suffix|..] == suffix
  }

  lemma SuffixChars(s: string, t: string)
    ensures |t| == 1 ==> (HasSuffix(s, t) <==> |s| >= 1 && s[|s| - 1] == t[0])
    ensures |t| == 2 ==> (HasSuffix(s, t) <==> |s| >= 2 && s[|s| - 2] == t[0] && s[|s| - 1] == t[1])
  {
    if |t| <= |s| {
      var tail := s[|s| - |t|..];
      assert |t| == 1 && s[|s| - 1] == t[0] ==> tail == t;
      assert |t| == 2 && s[|s| - 2] == t[0] && s[|s| - 1] == t[1] ==> tail == t;
    }
  }

  function NumberOrZero(pf: FloatParser, s: string): real {
    match pf(s) case Some(v) => v case None => 0.0
  }

  function Scaled(pf: FloatParser, s: string, unit: Unit): real
    requires HasSuffix(s, unit.Suffix())
  {
    unit.Scale(NumberOrZero(pf, s[..|s| - |unit.Suffix()|]))
  }

  /** The unit table, tried in order: "b" ends every other suffix, so it comes last. */
  function BytesIn(pf: FloatParser, s: string): real {
    if HasSuffix(s, TB.Suffix()) then Scaled(pf, s, TB)
    else if HasSuffix(s, GB.Suffix()) then Scaled(pf, s, GB)
    else if HasSuffix(s, MB.Suffix()) then Scaled(pf, s, MB)
    else if HasSuffix(s, KB.Suffix()) then Scaled(pf, s, KB)
    else if HasSuffix(s, B.Suffix()) then Scaled(pf, s, B)
    else NumberOrZero(pf, s)
  }

  function MemoryToBytes(pf: FloatParser, text: string): real {
    var s := ToLower(TrimSpace(text));
    if s == "--" || s == "" then 0.0 else BytesIn(pf, s)
  }

  /** The exported reader: None is Go's `ok == false`. */
  function ParseMemoryBytes(pf: FloatParser, text: string): Option<real> {
    var bytes := MemoryToBytes(pf, text);
    if bytes == 0.0 && ToLower(TrimSpace(text)) !in ZERO_SIZES then None else Some(bytes)
  }

  /** Both readers accept the same texts and agree on the value, for every text. */
  lemma ReadersAgree(pf: FloatParser, text: string)
    ensures Scalar(text, true).OptionalBytes(pf) == ParseMemoryBytes(pf, text)
  {
    ToLowerTrimSpace(text);
  }

  function SuffixOf(unit: Option<Unit>): string {
    match unit case Some(u) => u.Suffix() case None => ""
  }

  function ScaleOf(unit: Option<Unit>, v: real): real {
    match unit case Some(u) => u.Scale(v) case None => v
  }

  /** A digit text with a suffix in any letter case, padded on both sides, is number times factor. */
  lemma MemoryText(pf: FloatParser, left: string, d: string, suffix: string, right: string, unit: Option<Unit>)
    requires AllSpace(left) && AllSpace(right) && d != "" && AllDigits(d)
    requires ToLower(suffix) == SuffixOf(unit)
    requires ReadsDecimals(pf)
    ensures MemoryToBytes(pf, left + d + suffix + right) == ScaleOf(unit, DigitsValue(d) as real)
  {
    SuffixLower(unit);
    NormalizedSize(left, d, suffix, right);
    NormalizedBytes(pf, left + d + suffix + right, d + SuffixOf(unit));
    SuffixChosen(pf, d, unit);
  }

  /** The suffixes and their factors, powers of 1024. */
  const FACTORS: seq<(string, real)> := [
    ("", 1.0), ("b", 1.0), ("kb", 1024.0), ("mb", 1024.0 * 1024.0), ("gb", 1024.0 * 1024.0 * 1024.0),
    ("tb", 1024.0 * 1024.0 * 1024.0 * 1024.0)
  ]

  /** Any number with any of these suffixes, however cased and padded, is number times factor. */
  lemma MemoryFactors(pf: FloatParser, left: string, d: string, suffix: string, right: string, i: nat)
    requires AllSpace(left) && AllSpace(right) && d != "" && AllDigits(d) && ReadsDecimals(pf)
    requires i < 6 && ToLower(suffix) == FACTORS[i].0
    ensures MemoryToBytes(pf, left + d + suffix + right) == DigitsValue(d) as real * FACTORS[i].1
  {
    var unit := [None, Some(B), Some(KB), Some(MB), Some(GB), Some(TB)][i];
    UnitOfFactor(i, unit);
    UnitScales(i, unit, DigitsValue(d) as real);
    MemoryText(pf, left, d, suffix, right, unit);
  }

  lemma UnitOfFactor(i: nat, unit: Option<Unit>)
    requires i < 6 && unit == [None, Some(B), Some(KB), Some(MB), Some(GB), Some(TB)][i]
    ensures SuffixOf(unit) == FACTORS[i].0
  {
  }

  lemma UnitScales(i: nat, unit: Option<Unit>, v: real)
    requires i < 6 && unit == [None, Some(B), Some(KB), Some(MB), Some(GB), Some(TB)][i]
    ensures ScaleOf(unit, v) == v * FACTORS[i].1
  {
  }

  lemma NormalizedBytes(pf: FloatParser, text: string, s: string)
    requires ToLower(TrimSpace(text)) == s && s != "" && IsDigit(s[0])
    ensures MemoryToBytes(pf, text) == BytesIn(pf, s)
  {
  }

  lemma NormalizedSize(left: string, d: string, suffix: string, right: string)
    requires AllSpace(left) && AllSpace(right) && d != "" && AllDigits(d)
    requires forall i :: 0 <= i < |suffix| ==> !IsSpace(ToLower(suffix)[i])
    ensures ToLower(TrimSpace(left + d + suffix + right)) == d + ToLower(suffix)
    ensures d + ToLower(suffix) != "" && IsDigit((d + ToLower(suffix))[0])
  {
    var core := d + suffix;
    SizeCoreUnpadded(d, suffix);
    Reassociate(left, d, suffix, right);
    TrimSpacePad(left, core, right);
    ToLowerAppend(d, suffix);
    DigitsLower(d);
    assert IsDigit(d[0]);
  }

  lemma Reassociate(left: string, d: string, suffix: string, right: string)
    ensures left + d + suffix + right == left + (d + suffix) + right
  {
  }

  lemma SizeCoreUnpadded(d: string, suffix: string)
    requires d != "" && AllDigits(d)
    requires forall i :: 0 <= i < |suffix| ==> !IsSpace(ToLower(suffix)[i])
    ensures Unpadded(d + suffix)
  {
    var core := d + suffix;
    assert core[0] == d[0] && IsDigit(d[0]);
    if suffix == "" {
      assert core == d && IsDigit(d[|d| - 1]);
    } else {
      assert core[|core| - 1] == suffix[|suffix| - 1];
      ToLowerKeepsSpaces(suffix, |suffix| - 1);
    }
  }

  /** After a digit text with suffix `unit`, the only other suffix present is the plain "b". */
  lemma SuffixesPresent(d: string, unit: Option<Unit>, other: Unit)
    requires d != "" && AllDigits(d)
    ensures HasSuffix(d + SuffixOf(unit), other.Suffix()) <==> unit == Some(other) || (unit.Some? && other == B)
  {
    SuffixChars(d + SuffixOf(unit), other.Suffix());
    LastChars(d, unit);
  }

  lemma LastChars(d: string, unit: Option<Unit>)
    requires d != "" && AllDigits(d)
    ensures var s, u := d + SuffixOf(unit), SuffixOf(unit);
      && |s| == |d| + |u|
      && (|u| == 0 ==> IsDigit(s[|s| - 1]))
      && (|u| == 1 ==> s[|s| - 1] == u[0] && IsDigit(s[|s| - 2]))
      && (|u| == 2 ==> s[|s| - 1] == u[1] && s[|s| - 2] == u[0])
  {
    assert IsDigit(d[|d| - 1]);
  }

  lemma PicksUnit(pf: FloatParser, s: string, unit: Unit)
    requires HasSuffix(s, unit.Suffix())
    requires forall other: Unit :: HasSuffix(s, other.Suffix()) ==> other == unit || other == B
    ensures BytesIn(pf, s) == Scaled(pf, s, unit)
  {
  }

  lemma PicksPlain(pf: FloatParser, s: string)
    requires forall other: Unit :: !HasSuffix(s, other.Suffix())
    ensures BytesIn(pf, s) == NumberOrZero(pf, s)
  {
  }

  lemma ScaledStem(pf: FloatParser, d: string, unit: Unit)
    ensures HasSuffix(d + unit.Suffix(), unit.Suffix())
    ensures Scaled(pf, d + unit.Suffix(), unit) == unit.Scale(NumberOrZero(pf, d))
  {
    var s := d + unit.Suffix();
    assert s[|d|..] == unit.Suffix() && s[..|d|] == d;
  }

  lemma SuffixChosen(pf: FloatParser, d: string, unit: Option<Unit>)
    requires d != "" && AllDigits(d) && ReadsDecimals(pf)
    ensures BytesIn(pf, d + SuffixOf(unit)) == ScaleOf(unit, DigitsValue(d) as real)
  {
    var s := d + SuffixOf(unit);
    forall other: Unit
      ensures HasSuffix(s, other.Suffix()) <==> unit == Some(other) || (unit.Some? && other == B)
    {
      SuffixesPresent(d, unit, other);
    }
    match unit
    case None =>
      assert s == d;
      PicksPlain(pf, s);
    case Some(u) =>
      PicksUnit(pf, s, u);
      ScaledStem(pf, d, u);
  }

  /** Zero is accepted only as a single digit, every other digit text with a suffix is, however cased and padded. */
  lemma MemoryAcceptedExactly(
      pf: FloatParser, left: string, d: string, suffix: string, right: string, unit: Option<Unit>)
    requires AllSpace(left) && AllSpace(right) && d != "" && AllDigits(d)
    requires ToLower(suffix) == SuffixOf(unit)
    requires ReadsDecimals(pf)
    ensures ParseMemoryBytes(pf, left + d + suffix + right).Some? <==> d == "0" || DigitsValue(d) != 0
  {
    var text := left + d + suffix + right;
    SuffixLower(unit);
    NormalizedSize(left, d, suffix, right);
    MemoryText(pf, left, d, suffix, right, unit);
    ScaleZero(unit, DigitsValue(d), MemoryToBytes(pf, text));
    ZeroSpelling(d, unit);
    ZeroDigit(d);
    AcceptedWhen(pf, text);
  }

  lemma ZeroDigit(d: string)
    ensures d == "0" ==> AllDigits(d) && DigitsValue(d) == 0
  {
    assert d == "0" ==> d[..|d| - 1] == "";
  }

  lemma PlainSize(pf: FloatParser, d: string, unit: Option<Unit>)
    requires d != "" && AllDigits(d) && ReadsDecimals(pf)
    ensures var text := d + SuffixOf(unit);
      ToLower(TrimSpace(text)) == text && MemoryToBytes(pf, text) == ScaleOf(unit, DigitsValue(d) as real)
  {
    SuffixLower(unit);
    EmptyPads(d, SuffixOf(unit));
    NormalizedSize("", d, SuffixOf(unit), "");
    NormalizedBytes(pf, d + SuffixOf(unit), d + SuffixOf(unit));
    SuffixChosen(pf, d, unit);
  }

  lemma EmptyPads(d: string, suffix: string)
    ensures "" + d + suffix + "" == d + suffix
  {
  }

  lemma AcceptedWhen(pf: FloatParser, text: string)
    ensures ParseMemoryBytes(pf, text).Some? <==> MemoryToBytes(pf, text) != 0.0 || ToLower(TrimSpace(text)) in ZERO_SIZES
  {
  }

  lemma SuffixLower(unit: Option<Unit>)
    ensures ToLower(SuffixOf(unit)) == SuffixOf(unit)
    ensures forall i :: 0 <= i < |SuffixOf(unit)| ==> !IsSpace(SuffixOf(unit)[i])
  {
    var u := SuffixOf(unit);
    assert forall i :: 0 <= i < |u| ==> LowerChar(u[i]) == u[i];
  }

  lemma ScaleZero(unit: Option<Unit>, n: nat, bytes: real)
    requires bytes == ScaleOf(unit, n as real)
    ensures bytes == 0.0 <==> n == 0
  {
  }

  lemma ZeroSpelling(d: string, unit: Option<Unit>)
    requires d != "" && AllDigits(d)
    ensures d + SuffixOf(unit) in ZERO_SIZES <==> d == "0"
  {
    var text := d + SuffixOf(unit);
    assert text[0] == d[0] && IsDigit(d[0]);
    assert d == "0" ==> text == (match unit
      case None => "0" case Some(TB) => "0tb" case Some(GB) => "0gb" case Some(MB) => "0mb"
      case Some(KB) => "0kb" case Some(B) => "0b");
    if text in ZERO_SIZES {
      assert |d| > 1 ==> text[1] == d[1];
    }
  }
}
