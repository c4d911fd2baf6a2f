/** Bytes, C strings and the few scanf/printf conversions the program relies on.
    A byte is a Dafny `char`; the NUL byte is '\0'. */
module Bytes {

  const NUL: char := '\0'
  const LF: char := '\n'
  const CR: char := '\r'

  /** isspace() in the C locale. */
  predicate IsSpace(c: char) {
    c == ' ' || c == '\t' || c == '\n' || c == '\r' || c == '\U{0B}' || c == '\U{0C}'
  }

  predicate IsDigit(c: char) { '0' <= c <= '9' }

  predicate IsAlpha(c: char) { 'A' <= c <= 'Z' || 'a' <= c <= 'z' }

  /** The three classes by their codes. */
  lemma CharacterClasses(c: char)
    ensures IsSpace(c) <==> c as int == 32 || 9 <= c as int <= 13
    ensures IsDigit(c) <==> 48 <= c as int <= 57
    ensures IsAlpha(c) <==> 65 <= c as int <= 90 || 97 <= c as int <= 122
  {
  }

  predicate NulFree(s: string) { NUL !in s }

  predicate AllDigits(s: string) { forall i :: 0 <= i < |s| ==> IsDigit(s[i]) }

  /** The part of a buffer a C string function sees: everything before the first NUL. */
  function CStr(s: string): string {
    if s == "" || s[0] == NUL then "" else [s[0]] + CStr(s[1..])
  }

  lemma {:induction false} CStrExact(p: string, s: string)
    requires NulFree(p) && (s == "" || s[0] == NUL)
    ensures CStr(p + s) == p
  {
    if p == "" {
      assert p + s == s;
    } else {
      assert (p + s)[1..] == p[1..] + s;
      CStrExact(p[1..], s);
    }
  }

  lemma CStrCons(c: char, s: string)
    requires c != NUL
    ensures CStr([c] + s) == [c] + CStr(s)
  {
    assert ([c] + s)[1..] == s;
  }

  /** strncmp(s, p, |p|) == 0 for a NUL-free literal p. */
  predicate StartsWith(s: string, p: string) { p <= s }

  lemma Regroup(a: string, b: string, c: string)
    ensures (a + b) + c == a + (b + c)
  {
  }

  function Flatten(ss: seq<string>): string {
    if ss == [] then "" else ss[0] + Flatten(ss[1..])
  }

  lemma {:induction false} FlattenAppend(a: seq<string>, b: seq<string>)
    ensures Flatten(a + b) == Flatten(a) + Flatten(b)
  {
    if a == [] {
      assert a + b == b;
    } else {
      FlattenAppend(a[1..], b);
      assert (a + b)[1..] == a[1..] + b;
      assert Flatten(a + b) == a[0] + (Flatten(a[1..]) + Flatten(b));
    }
  }

  lemma FlattenSnoc(a: seq<string>, s: string)
    ensures Flatten(a + [s]) == Flatten(a) + s
  {
    FlattenAppend(a, [s]);
    assert Flatten([s]) == s + Flatten([]);
  }

  /** The longest prefix without a byte of `stop`: what "%[^...]" stores. */
  function Until(s: string, stop: string): string {
    if s == "" || s[0] in stop then "" else [s[0]] + Until(s[1..], stop)
  }

  lemma {:induction false} UntilExact(p: string, s: string, stop: string)
    requires forall c :: c in p ==> c !in stop
    requires s == "" || s[0] in stop
    ensures Until(p + s, stop) == p
  {
    if p == "" {
      assert p + s == s;
    } else {
      assert (p + s)[1..] == p[1..] + s;
      assert p[0] !in stop;
      assert forall c :: c in p[1..] ==> c in p;
      UntilExact(p[1..], s, stop);
    }
  }

  /** Leading white space dropped: what a blank in a scanf format does. */
  function SkipSpace(s: string): (r: string)
    ensures r == "" || !IsSpace(r[0])
  {
    if s == "" || !IsSpace(s[0]) then s else SkipSpace(s[1..])
  }

  /** The longest prefix without white space: what "%s" stores after skipping. */
  function Word(s: string): string {
    if s == "" || IsSpace(s[0]) then "" else [s[0]] + Word(s[1..])
  }

  lemma {:induction false} WordExact(p: string, s: string)
    requires forall i :: 0 <= i < |p| ==> !IsSpace(p[i])
    requires s == "" || IsSpace(s[0])
    ensures Word(p + s) == p
  {
    if p == "" {
      assert p + s == s;
    } else {
      assert (p + s)[1..] == p[1..] + s;
      WordExact(p[1..], s);
    }
  }

  function Digits(s: string): (r: string)
    ensures AllDigits(r)
  {
    if s == "" || !IsDigit(s[0]) then "" else [s[0]] + Digits(s[1..])
  }

  lemma {:induction false} DigitsExact(p: string, s: string)
    requires AllDigits(p)
    requires s == "" || !IsDigit(s[0])
    ensures Digits(p + s) == p
  {
    if p == "" {
      assert p + s == s;
    } else {
      assert (p + s)[1..] == p[1..] + s;
      DigitsExact(p[1..], s);
    }
  }

  function DigitValue(c: char): nat
    requires IsDigit(c)
  {
    c as int - '0' as int
  }

  function DecimalValue(ds: string): nat
    requires AllDigits(ds)
  {
    if ds == "" then 0 else 10 * DecimalValue(ds[..|ds| - 1]) + DigitValue(ds[|ds| - 1])
  }

  /** strtol(s, NULL, 10) and atoi(s): optional space, sign and digits; 0 when there are none.
      Text is at most a few digits wide everywhere it is used, so no width limit applies. */
  function Strtol(s: string): int {
    var t := SkipSpace(s);
    if t != "" && t[0] == '-' then -(DecimalValue(Digits(t[1..])) as int)
    else if t != "" && t[0] == '+' then DecimalValue(Digits(t[1..]))
    else DecimalValue(Digits(t))
  }

  lemma StrtolOfDigits(ds: string, rest: string)
    requires AllDigits(ds) && ds != ""
    requires rest == "" || !IsDigit(rest[0])
    ensures Strtol(ds + rest) == DecimalValue(ds)
  {
    hide DecimalValue;
    var t := ds + rest;
    assert t[0] == ds[0] && IsDigit(t[0]);
    assert SkipSpace(t) == t;
    DigitsExact(ds, rest);
  }

  function DigitChar(d: nat): (c: char)
    requires d < 10
    ensures IsDigit(c) && DigitValue(c) == d
  {
    ('0' as int + d) as char
  }

  /** printf("%04d", n) for the values a four-character entry box can hold. */
  function Pad4(n: nat): (r: string)
    requires n <= 9999
    ensures |r| == 4 && AllDigits(r)
  {
    [DigitChar(n / 10 / 10 / 10), DigitChar(n / 10 / 10 % 10), DigitChar(n / 10 % 10), DigitChar(n % 10)]
  }

  lemma DecimalSnoc(ds: string, c: char)
    requires AllDigits(ds) && IsDigit(c)
    ensures AllDigits(ds + [c]) && DecimalValue(ds + [c]) == 10 * DecimalValue(ds) + DigitValue(c)
  {
    assert (ds + [c])[..|ds|] == ds;
  }

  lemma DecimalOne(c: char)
    requires IsDigit(c)
    ensures DecimalValue([c]) == DigitValue(c)
  {
    DecimalSnoc("", c);
    assert "" + [c] == [c];
  }

  lemma ThreeDigits(a: char, b: char, c: char)
    requires IsDigit(a) && IsDigit(b) && IsDigit(c)
    ensures DecimalValue([a, b, c]) == 100 * DigitValue(a) + 10 * DigitValue(b) + DigitValue(c)
  {
    hide DecimalValue;
    DecimalOne(a);
    DecimalSnoc([a], b);
    DecimalSnoc([a, b], c);
    assert [a] + [b] == [a, b] && [a, b] + [c] == [a, b, c];
  }

  lemma FourDigits(a: char, b: char, c: char, d: char)
    requires IsDigit(a) && IsDigit(b) && IsDigit(c) && IsDigit(d)
    ensures DecimalValue([a, b, c, d])
         == 1000 * DigitValue(a) + 100 * DigitValue(b) + 10 * DigitValue(c) + DigitValue(d)
  {
    hide DecimalValue;
    DecimalOne(a);
    DecimalSnoc([a], b);
    DecimalSnoc([a, b], c);
    DecimalSnoc([a, b, c], d);
    assert [a] + [b] == [a, b] && [a, b] + [c] == [a, b, c] && [a, b, c] + [d] == [a, b, c, d];
  }

  lemma Pad4Value(n: nat)
    requires n <= 9999
    ensures DecimalValue(Pad4(n)) == n
  {
    hide DecimalValue;
    var a, b := n / 10, n / 10 / 10;
    FourDigits(DigitChar(b / 10), DigitChar(b % 10), DigitChar(a % 10), DigitChar(n % 10));
  }

  lemma Pad4Injective(m: nat, n: nat)
    requires m <= 9999 && n <= 9999 && Pad4(m) == Pad4(n)
    ensures m == n
  {
    Pad4Value(m);
    Pad4Value(n);
  }

  /** printf("%d", n) of a natural number. */
  function Decimal(n: nat): string {
    if n < 10 then [DigitChar(n)] else Decimal(n / 10) + [DigitChar(n % 10)]
  }

  lemma {:induction false} DecimalIs(n: nat)
    ensures AllDigits(Decimal(n)) && Decimal(n) != "" && DecimalValue(Decimal(n)) == n
    ensures n <= 99 ==> |Decimal(n)| <= 2
    ensures n <= 999 ==> |Decimal(n)| <= 3
  {
    if n < 10 {
      DecimalOne(DigitChar(n));
    } else {
      DecimalIs(n / 10);
      DecimalSnoc(Decimal(n / 10), DigitChar(n % 10));
    }
  }

  function Zeros(k: int): string {
    if k <= 0 then "" else "0" + Zeros(k - 1)
  }

  /** printf("%04d", n) of any number. */
  function Print04(n: int): string {
    if n < 0 then "-" + Zeros(3 - |Decimal(-n)|) + Decimal(-n) else Zeros(4 - |Decimal(n)|) + Decimal(n)
  }

  lemma Print04IsPad4(n: nat)
    requires n <= 9999
    ensures Print04(n) == Pad4(n)
  {
    var a, b, c := n / 10, n / 10 / 10, n / 10 / 10 / 10;
    assert Zeros(1) == "0" + Zeros(0) && Zeros(2) == "0" + Zeros(1) && Zeros(3) == "0" + Zeros(2);
    assert DigitChar(0) == '0';
    if n < 10 {
      assert Decimal(n) == [DigitChar(n)];
    } else if a < 10 {
      assert Decimal(n) == [DigitChar(a)] + [DigitChar(n % 10)];
    } else if b < 10 {
      assert Decimal(a) == [DigitChar(b)] + [DigitChar(a % 10)];
      assert Decimal(n) == [DigitChar(b), DigitChar(a % 10)] + [DigitChar(n % 10)];
    } else {
      assert Decimal(b) == [DigitChar(c)] + [DigitChar(b % 10)];
      assert Decimal(a) == [DigitChar(c), DigitChar(b % 10)] + [DigitChar(a % 10)];
      assert Decimal(n) == [DigitChar(c), DigitChar(b % 10), DigitChar(a % 10)] + [DigitChar(n % 10)];
    }
  }

  /** A text of at most four digits is a number that four digits can print. */
  lemma {:induction false} DecimalBound(ds: string)
    requires AllDigits(ds) && |ds| <= 4
    ensures DecimalValue(ds) <= if |ds| == 4 then 9999 else if |ds| == 3 then 999 else if |ds| == 2 then 99
                                else if |ds| == 1 then 9 else 0
  {
    if |ds| > 0 { DecimalBound(ds[..|ds| - 1]); }
  }
}
