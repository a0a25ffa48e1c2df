/** Decimal text of integers: what Python's `str` writes for an int and `int` reads back. */
module Decimal {

  predicate IsDigit(c: char) {
    '0' <= c <= '9'
  }

  function DigitChar(d: nat): char
    requires d < 10
  {
    '0' + d as char
  }

  function DigitValue(c: char): nat
    requires IsDigit(c)
  {
    c as nat - '0' as nat
  }

  predicate AllDigits(s: string) {
    forall i :: 0 <= i < |s| ==> IsDigit(s[i])
  }

  function NatText(n: nat): (s: string)
    ensures |s| > 0 && AllDigits(s)
  {
    if n < 10 then [DigitChar(n)] else NatText(n / 10) + [DigitChar(n % 10)]
  }

  function IntText(n: int): string {
    if n < 0 then "-" + NatText(-n) else NatText(n)
  }

  function NatValue(s: string): nat
    requires AllDigits(s)
  {
    if s == "" then 0 else 10 * NatValue(s[..|s| - 1]) + DigitValue(s[|s| - 1])
  }

  /** Reading the decimal text of a natural number gives the number back. */
  lemma {:induction false} NatRoundTrip(n: nat)
    ensures NatValue(NatText(n)) == n
  {
    if n >= 10 {
      NatRoundTrip(n / 10);
      assert NatText(n)[..|NatText(n)| - 1] == NatText(n / 10);
    }
  }

  lemma IntTextHead(n: int, s: string)
    ensures IntText(n) + s != "" && (n < 0 <==> (IntText(n) + s)[0] == '-')
    ensures n >= 0 ==> IsDigit((IntText(n) + s)[0])
    ensures n < 0 ==> (IntText(n) + s)[1..] == NatText(-n) + s
  {
    if n >= 0 {
      assert IsDigit(NatText(n)[0]);
    }
  }

  // ---- Reading integers back -----------------------------------------------------------------

  /** What Python's `str.strip` removes. */
  predicate IsSpace(c: char) {
    || '\U{9}' <= c <= '\U{D}' || '\U{1C}' <= c <= ' ' || c in {'\U{85}', '\U{A0}', '\U{1680}'}
    || '\U{2000}' <= c <= '\U{200A}' || c in {'\U{2028}', '\U{2029}', '\U{202F}', '\U{205F}', '\U{3000}'}
  }

  predicate Blank(s: string) {
    forall i :: 0 <= i < |s| ==> IsSpace(s[i])
  }

  function Strip(s: string): string
    decreases |s|
  {
    if s == "" then s
    else if IsSpace(s[0]) then Strip(s[1..])
    else if IsSpace(s[|s| - 1]) then Strip(s[..|s| - 1])
    else s
  }

  /** Digits with single underscores between them. */
  predicate Grouped(s: string) {
    && s != "" && IsDigit(s[0]) && IsDigit(s[|s| - 1])
    && (forall i :: 0 <= i < |s| ==> IsDigit(s[i]) || s[i] == '_')
    && (forall i :: 0 < i < |s| ==> s[i - 1] != '_' || s[i] != '_')
  }

  function Ungrouped(s: string): (t: string)
    requires forall i :: 0 <= i < |s| ==> IsDigit(s[i]) || s[i] == '_'
    ensures AllDigits(t)
  {
    if s == "" then ""
    else if s[|s| - 1] == '_' then Ungrouped(s[..|s| - 1])
    else Ungrouped(s[..|s| - 1]) + [s[|s| - 1]]
  }

  datatype Parsed = Int(value: int) | NotAnInt

  /** What `int` reads: surrounding space, a sign, and grouped digits. */
  function ParseInt(s: string): Parsed {
    var t := Strip(s);
    var digits := if t != "" && t[0] in {'+', '-'} then t[1..] else t;
    if !Grouped(digits) then NotAnInt
    else if t[0] == '-' then Int(0 - NatValue(Ungrouped(digits)))
    else Int(NatValue(Ungrouped(digits)))
  }

  lemma {:induction false} UngroupedDigits(s: string)
    requires AllDigits(s)
    ensures Ungrouped(s) == s
  {
    if s != "" {
      UngroupedDigits(s[..|s| - 1]);
    }
  }

  lemma PlainStrips(s: string)
    requires s != "" && !IsSpace(s[0]) && !IsSpace(s[|s| - 1])
    ensures Strip(s) == s
  {
  }

  lemma PlainGroups(s: string)
    requires AllDigits(s) && s != ""
    ensures Grouped(s) && Ungrouped(s) == s && !IsSpace(s[0]) && !IsSpace(s[|s| - 1]) && s[0] !in {'+', '-'}
  {
    UngroupedDigits(s);
  }

  /** Reading the decimal text of any integer gives the integer back. */
  lemma IntRoundTrip(n: int)
    ensures ParseInt(IntText(n)) == Int(n)
  {
    assert !IsSpace('-');
    hide Grouped;
    hide Ungrouped;
    hide NatValue;
    hide NatText;
    hide IsSpace;
    var m: nat := if n < 0 then 0 - n else n;
    var digits := NatText(m);
    PlainGroups(digits);
    NatRoundTrip(m);
    assert n < 0 ==> IntText(n)[0] == '-' && IntText(n)[1..] == digits && IntText(n)[|digits|] == digits[|digits| - 1];
    PlainStrips(IntText(n));
    hide Strip;
  }

  /** A leading zero does not count. */
  lemma {:induction false} LeadingZero(a: string)
    requires AllDigits(a)
    ensures NatValue("0" + a) == NatValue(a)
  {
    if a == "" {
      assert "0" + a == "0" && "0"[..0] == "";
    } else {
      assert ("0" + a)[..|a|] == "0" + a[..|a| - 1];
      LeadingZero(a[..|a| - 1]);
    }
  }

  // ---- What else `int` reads -----------------------------------------------------------------

  /** The white space of `str.strip`, by code point. */
  lemma SpaceCodes(c: char)
    ensures IsSpace(c)
       <==> c as int in {9, 10, 11, 12, 13, 28, 29, 30, 31, 32, 133, 160, 5760, 8192, 8193, 8194, 8195, 8196, 8197,
                         8198, 8199, 8200, 8201, 8202, 8232, 8233, 8239, 8287, 12288}
  {
  }

  lemma {:induction false} StripFront(pre: string, s: string)
    requires Blank(pre)
    ensures Strip(pre + s) == Strip(s)
  {
    if pre != "" {
      assert (pre + s)[1..] == pre[1..] + s && (pre + s)[0] == pre[0];
      StripFront(pre[1..], s);
    } else {
      assert pre + s == s;
    }
  }

  lemma {:induction false} StripBack(s: string, post: string)
    requires Blank(post) && s != "" && !IsSpace(s[0])
    ensures Strip(s + post) == Strip(s)
  {
    if post != "" {
      assert (s + post)[..|s + post| - 1] == s + post[..|post| - 1];
      StripBack(s, post[..|post| - 1]);
    } else {
      assert s + post == s;
    }
  }

  lemma StrippedReads(s: string, sign: string, digits: string)
    requires Strip(s) == sign + digits && sign in {"", "+", "-"} && Grouped(digits)
    ensures ParseInt(s) == Int(if sign == "-" then 0 - NatValue(Ungrouped(digits)) else NatValue(Ungrouped(digits)))
  {
    assert digits[0] !in {'+', '-'};
    assert sign == "" ==> sign + digits == digits;
    assert sign != "" ==> (sign + digits)[0] == sign[0] && (sign + digits)[1..] == digits;
    hide Strip;
    hide Ungrouped;
    hide NatValue;
    hide Grouped;
  }

  lemma Reads(pre: string, s: string, post: string)
    requires Blank(pre) && Blank(post) && s != ""
    requires s[0] in {'+', '-'} || IsDigit(s[0])
    requires IsDigit(s[|s| - 1])
    ensures Strip(pre + s + post) == s
  {
    assert pre + s + post == pre + (s + post);
    StripFront(pre, s + post);
    StripBack(s, post);
    PlainStrips(s);
  }

  predicate DigitsAndBars(s: string) {
    forall i :: 0 <= i < |s| ==> IsDigit(s[i]) || s[i] == '_'
  }

  /** Underscores drop out, digits stay in their order. */
  lemma {:induction false} Ungroups(a: string, b: string)
    requires DigitsAndBars(a) && DigitsAndBars(b)
    ensures DigitsAndBars(a + b) && Ungrouped(a + b) == Ungrouped(a) + Ungrouped(b)
    ensures Ungrouped("_") == "" && forall c :: IsDigit(c) ==> Ungrouped([c]) == [c]
  {
    forall c | IsDigit(c) ensures Ungrouped([c]) == [c] {
      assert [c][..0] == "";
    }
    assert "_"[..0] == "";
    if b == "" {
      assert a + b == a;
    } else {
      assert (a + b)[..|a + b| - 1] == a + b[..|b| - 1];
      Ungroups(a, b[..|b| - 1]);
    }
  }

  /** A text with an optional sign and then digits, with no underscore first, last or beside another, between
      spaces. */
  ghost predicate SignedDigits(s: string, pre: string, sign: string, digits: string, post: string) {
    && s == pre + (sign + digits) + post && Blank(pre) && Blank(post) && sign in {"", "+", "-"}
    && digits != "" && IsDigit(digits[0]) && IsDigit(digits[|digits| - 1])
    && (forall i :: 0 <= i < |digits| ==> IsDigit(digits[i]) || digits[i] == '_')
    && (forall i :: 0 < i < |digits| ==> digits[i - 1] != '_' || digits[i] != '_')
  }

  /** Such a text reads as the number its digits write, underscores left out. */
  lemma SignedReads(s: string, pre: string, sign: string, digits: string, post: string)
    requires SignedDigits(s, pre, sign, digits, post)
    ensures var value := NatValue(Ungrouped(digits));
            ParseInt(s) == Int(if sign == "-" then 0 - value else value)
  {
    hide IsSpace;
    hide Blank;
    hide Strip;
    hide Ungrouped;
    hide NatValue;
    Reads(pre, sign + digits, post);
    StrippedReads(s, sign, digits);
  }

  lemma ReadParts(s: string) returns (pre: string, sign: string, digits: string, post: string)
    requires ParseInt(s).Int?
    ensures SignedDigits(s, pre, sign, digits, post)
  {
    hide Strip;
    hide Ungrouped;
    hide NatValue;
    hide IsSpace;
    hide Blank;
    pre, post := StripParts(s);
    var t := Strip(s);
    sign := if t != "" && t[0] in {'+', '-'} then [t[0]] else "";
    digits := t[|sign|..];
    assert t == sign + digits;
  }

  /** Nothing else reads as an integer. */
  lemma ReadsIff(s: string)
    ensures ParseInt(s).Int? <==> exists pre, sign, digits, post :: SignedDigits(s, pre, sign, digits, post)
  {
    hide ParseInt;
    hide SignedDigits;
    if ParseInt(s).Int? {
      var _, _, _, _ := ReadParts(s);
    }
    forall pre, sign, digits, post | SignedDigits(s, pre, sign, digits, post) ensures ParseInt(s).Int? {
      SignedReads(s, pre, sign, digits, post);
    }
  }

  lemma {:induction false} StripParts(s: string) returns (pre: string, post: string)
    ensures s == pre + Strip(s) + post && Blank(pre) && Blank(post)
    decreases |s|
  {
    hide IsSpace;
    pre, post := "", "";
    if s != "" && IsSpace(s[0]) {
      pre, post := StripParts(s[1..]);
      pre := [s[0]] + pre;
      assert s == [s[0]] + s[1..];
    } else if s != "" && IsSpace(s[|s| - 1]) {
      pre, post := StripParts(s[..|s| - 1]);
      post := post + [s[|s| - 1]];
      assert s == s[..|s| - 1] + [s[|s| - 1]];
    }
  }
}
