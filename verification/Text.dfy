/** Text as the engine sees it: strings measured in characters, decimal counts, and the
    markers that stand in for elided payloads. */
module Text {
  const USIZE_MAX: nat := 0xFFFF_FFFF_FFFF_FFFF

  /** The length of a Rust `String` fits in a `usize`. */
  type Str = s: string | |s| <= USIZE_MAX

  const DIGITS: string := "0123456789"

  /** What `{}` prints for an unsigned integer. */
  function Decimal(n: nat): (r: string)
    ensures 1 <= |r| <= n / 10 + 1
  {
    if n < 10 then [DIGITS[n]] else Decimal(n / 10) + [DIGITS[n % 10]]
  }

  /** The number that a string of digits spells. */
  function ValueOf(digits: string): nat
  {
    if digits == "" then 0 else 10 * ValueOf(digits[..|digits| - 1]) + DigitValue(digits[|digits| - 1])
  }

  function DigitValue(c: char): nat { if '0' <= c <= '9' then c as int - '0' as int else 0 }

  lemma LastDigit(digits: string, c: char)
    ensures ValueOf(digits + [c]) == 10 * ValueOf(digits) + DigitValue(c)
  {
    assert (digits + [c])[..|digits|] == digits;
  }

  lemma DigitReads(n: nat)
    requires n < 10
    ensures '0' <= DIGITS[n] <= '9' && DigitValue(DIGITS[n]) == n
  {
  }

  /** A count is printed in digits, and they spell it. */
  lemma {:induction false} DecimalReads(n: nat)
    ensures ValueOf(Decimal(n)) == n && forall i :: 0 <= i < |Decimal(n)| ==> '0' <= Decimal(n)[i] <= '9'
  {
    hide DigitValue, ValueOf;
    DigitReads(n % 10);
    if n < 10 {
      LastDigit("", DIGITS[n]);
      assert "" + [DIGITS[n]] == Decimal(n);
      NoDigits();
    } else {
      DecimalReads(n / 10);
      LastDigit(Decimal(n / 10), DIGITS[n % 10]);
    }
  }

  lemma NoDigits()
    ensures ValueOf("") == 0
  {
  }

  function Pow10(k: nat): (p: nat)
    ensures p >= 1
  {
    if k == 0 then 1 else 10 * Pow10(k - 1)
  }

  lemma {:induction false} DecimalDigits(n: nat, k: nat)
    requires k >= 1 && n < Pow10(k)
    ensures |Decimal(n)| <= k
  {
    if n >= 10 {
      assert k >= 2;
      DecimalDigits(n / 10, k - 1);
    }
  }

  /** A count held in a `usize` prints in at most twenty digits. */
  lemma UsizeDigits(n: nat)
    requires n <= USIZE_MAX
    ensures |Decimal(n)| <= 20
  {
    assert Pow10(4) == 10_000 && Pow10(8) == 10_000 * Pow10(4);
    assert Pow10(12) == 10_000 * Pow10(8) && Pow10(16) == 10_000 * Pow10(12);
    assert Pow10(20) == 10_000 * Pow10(16);
    DecimalDigits(n, 20);
  }

  /** Marker left in place of a string value of a tool call's arguments. */
  function ArgumentMarker(n: nat): (r: string)
    ensures |r| == 19 + |Decimal(n)|
  {
    "[已省略 " + Decimal(n) + " 字符，完整内容见会话记录]"
  }

  /** Marker left in place of a block of reasoning. */
  function ReasoningMarker(n: nat): (r: string)
    ensures |r| == 20 + |Decimal(n)|
  {
    "[已省略 " + Decimal(n) + " 字符的思考内容以节省上下文]"
  }

  datatype Elision = History | OneStep | Inflight

  function ElisionNote(kind: Elision, omitted: nat): (r: string)
    ensures |r| <= 39 + |Decimal(omitted)|
  {
    match kind
    case History =>
      "\n... [历史工具执行结果已自动截断，已省略 " + Decimal(omitted) + " 字符以节省上下文] ...\n"
    case OneStep =>
      "\n... [单步执行结果过大已保护性截断，已省略 " + Decimal(omitted) + " 字符] ...\n"
    case Inflight =>
      "\n... [前序步骤工具执行结果已折叠，已省略 " + Decimal(omitted) + " 字符以节省上下文] ...\n"
  }

  /** Keep the first `head` and the last `tail` characters around a note that counts the rest. */
  function Elide(kind: Elision, t: Str, head: nat, tail: nat): (r: Str)
    requires head + tail + 60 <= |t|
    ensures |r| < |t|
    ensures head + tail <= |r| <= head + tail + 59
  {
    UsizeDigits(|t| - head - tail);
    t[..head] + ElisionNote(kind, |t| - head - tail) + t[|t| - tail..]
  }

  /** The kept ends are the text's own, and the note between them counts the characters left out. */
  lemma ElideKeepsEnds(kind: Elision, t: Str, head: nat, tail: nat)
    requires head + tail + 60 <= |t|
    ensures var r := Elide(kind, t, head, tail);
      r[..head] == t[..head] && r[|r| - tail..] == t[|t| - tail..]
      && r[head..|r| - tail] == ElisionNote(kind, |t| - head - tail)
  {
    var r := Elide(kind, t, head, tail);
    var note := ElisionNote(kind, |t| - head - tail);
    assert r == t[..head] + note + t[|t| - tail..];
  }

  /** Somewhere in the note stands the number. */
  ghost predicate HoldsCount(note: string, n: nat)
  {
    exists i, j :: 0 <= i <= j <= |note| && note[i..j] == Decimal(n)
  }

  /** Of `t` the first `head` and the last `tail` characters are left, and between them a note with
      the number of the others. */
  ghost predicate Cut(t: string, r: string, head: nat, tail: nat)
  {
    head + tail <= |t| && head + tail <= |r|
    && r[..head] == t[..head] && r[|r| - tail..] == t[|t| - tail..]
    && HoldsCount(r[head..|r| - tail], |t| - head - tail)
  }

  lemma NoteCounts(kind: Elision, n: nat)
    ensures HoldsCount(ElisionNote(kind, n), n)
  {
    var note, d := ElisionNote(kind, n), Decimal(n);
    match kind
    case History =>
      var a := "\n... [历史工具执行结果已自动截断，已省略 ";
      assert note[|a|..|a| + |d|] == d;
    case OneStep =>
      var a := "\n... [单步执行结果过大已保护性截断，已省略 ";
      assert note[|a|..|a| + |d|] == d;
    case Inflight =>
      var a := "\n... [前序步骤工具执行结果已折叠，已省略 ";
      assert note[|a|..|a| + |d|] == d;
  }

  lemma ElideCuts(kind: Elision, t: Str, head: nat, tail: nat)
    requires head + tail + 60 <= |t|
    ensures Cut(t, Elide(kind, t, head, tail), head, tail)
  {
    hide ElisionNote;
    ElideKeepsEnds(kind, t, head, tail);
    NoteCounts(kind, |t| - head - tail);
  }

  /** The markers hold the count, too. */
  lemma MarkersCount(n: nat)
    ensures HoldsCount(ArgumentMarker(n), n) && HoldsCount(ReasoningMarker(n), n)
  {
    var a, d := "[已省略 ", Decimal(n);
    assert ArgumentMarker(n)[|a|..|a| + |d|] == d;
    assert ReasoningMarker(n)[|a|..|a| + |d|] == d;
  }

  /** `char::is_whitespace`. */
  predicate IsWhitespace(c: char)
  {
    var n := c as int;
    9 <= n <= 13 || n == 0x20 || n == 0x85 || n == 0xA0 || n == 0x1680 || 0x2000 <= n <= 0x200A
    || n == 0x2028 || n == 0x2029 || n == 0x202F || n == 0x205F || n == 0x3000
  }

  /** `trim().is_empty()`. */
  predicate Blank(s: string)
  {
    forall i :: 0 <= i < |s| ==> IsWhitespace(s[i])
  }
}
