/** Characters, numbers and words, as C++ streams print and read them. */
module Text {
  import opened Types

  predicate IsSpace(c: char) {
    c == ' ' || c == '\t' || c == '\n' || c == '\U{0b}' || c == '\U{0c}' || c == '\r'
  }

  predicate IsDigit(c: char) {
    '0' <= c <= '9'
  }

  predicate SpaceFree(s: string) {
    forall i :: 0 <= i < |s| ==> !IsSpace(s[i])
  }

  predicate AllDigits(s: string) {
    forall i :: 0 <= i < |s| ==> IsDigit(s[i])
  }

  /** The text ends, or goes on with a character that is not a digit. */
  predicate NoDigit(rest: string) {
    rest == [] || !IsDigit(rest[0])
  }

  // -------------------------------------------------------------------------------- numbers

  function Digit(d: nat): char
    requires d < 10
  {
    "0123456789"[d]
  }

  function Digits(n: nat): string {
    if n < 10 then [Digit(n)] else Digits(n / 10) + [Digit(n % 10)]
  }

  function Decimal(n: int): string {
    if n < 0 then "-" + Digits(-n) else Digits(n)
  }

  function Value(ds: string): nat
    requires AllDigits(ds)
  {
    if ds == [] then 0 else 10 * Value(ds[..|ds| - 1]) + (ds[|ds| - 1] as int - '0' as int)
  }

  lemma {:induction false} DigitsValue(n: nat)
    ensures Digits(n) != [] && AllDigits(Digits(n)) && Value(Digits(n)) == n
  {
    if 10 <= n {
      DigitsValue(n / 10);
      assert Digits(n)[..|Digits(n)| - 1] == Digits(n / 10);
    } else {
      assert Digits(n)[..0] == [];
    }
  }

  /** The number of leading characters that are digits. */
  function DigitSpan(s: string): (k: nat)
    ensures k <= |s| && AllDigits(s[..k]) && NoDigit(s[k..])
  {
    if NoDigit(s) then 0
    else
      var k := DigitSpan(s[1..]);
      assert s[..k + 1] == [s[0]] + s[1..][..k] && s[k + 1..] == s[1..][k..];
      k + 1
  }

  lemma {:induction false} DigitSpanIs(ds: string, rest: string)
    requires AllDigits(ds) && NoDigit(rest)
    ensures DigitSpan(ds + rest) == |ds|
  {
    if ds == [] {
      assert ds + rest == rest;
    } else {
      assert (ds + rest)[1..] == ds[1..] + rest;
      DigitSpanIs(ds[1..], rest);
    }
  }

  function SkipSpace(s: string): (r: string)
    ensures |r| <= |s| && (r == [] || !IsSpace(r[0]))
  {
    if s == [] || !IsSpace(s[0]) then s else SkipSpace(s[1..])
  }

  datatype Read<T> = Read(value: T, rest: string)

  const INT_MAX := 0x7fff_ffff

  predicate IsInt(n: int) {
    -INT_MAX - 1 <= n <= INT_MAX
  }

  /** Reading an int: white space, a sign, and digits; it fails without a digit, and on a
      number that does not fit. */
  function ReadInt(s: string): (r: Option<Read<int>>)
    ensures r.Some? ==> |r.value.rest| < |s|
  {
    var t := SkipSpace(s);
    var signed := t != [] && (t[0] == '-' || t[0] == '+');
    var u := if signed then t[1..] else t;
    var k := DigitSpan(u);
    if k == 0 then None
    else
      var n: int := if signed && t[0] == '-' then 0 - Value(u[..k]) else Value(u[..k]);
      if IsInt(n) then Some(Read(n, u[k..])) else None
  }

  /** Leading white space does not matter. */
  lemma ReadIntSkips(s: string)
    ensures ReadInt(" " + s) == ReadInt(s)
  {
    hide Value, DigitSpan;
    assert (" " + s)[1..] == s;
  }

  lemma ReadUnsigned(u: string)
    requires 0 < DigitSpan(u)
    ensures var k := DigitSpan(u);
      IsInt(Value(u[..k])) ==> ReadInt(u) == Some(Read(0 + Value(u[..k]), u[k..]))
  {
    hide Value, DigitSpan;
    assert IsDigit(u[..DigitSpan(u)][0]);
    assert SkipSpace(u) == u;
  }

  lemma ReadNegative(u: string)
    requires 0 < DigitSpan(u)
    ensures var k := DigitSpan(u);
      IsInt(0 - Value(u[..k])) ==> ReadInt(['-'] + u) == Some(Read(0 - Value(u[..k]), u[k..]))
  {
    hide Value, DigitSpan;
    var t := ['-'] + u;
    assert SkipSpace(t) == t;
    assert t[1..] == u;
  }

  /** The digits of a number are read back whole. */
  lemma Spelled(m: nat, rest: string)
    requires NoDigit(rest)
    ensures var u := Digits(m) + rest;
      var k := DigitSpan(u);
      0 < k && Value(u[..k]) == m && u[k..] == rest
  {
    DigitsValue(m);
    DigitSpanIs(Digits(m), rest);
    var u := Digits(m) + rest;
    assert u[..|Digits(m)|] == Digits(m) && u[|Digits(m)|..] == rest;
  }

  lemma ReadDecimal(n: int, rest: string)
    requires IsInt(n) && NoDigit(rest)
    ensures ReadInt(Decimal(n) + rest) == Some(Read(n, rest))
  {
    hide ReadInt, Digits, Value, DigitSpan, NoDigit;
    if n < 0 {
      Spelled(-n, rest);
      ReadNegative(Digits(-n) + rest);
      assert Decimal(n) + rest == ['-'] + (Digits(-n) + rest);
    } else {
      Spelled(n, rest);
      ReadUnsigned(Digits(n) + rest);
    }
  }

  // ---------------------------------------------------------------------------------- words

  function WordSpan(s: string): (k: nat)
    ensures k <= |s| && SpaceFree(s[..k]) && (k == |s| || IsSpace(s[k]))
  {
    if s == [] || IsSpace(s[0]) then 0
    else
      var k := WordSpan(s[1..]);
      assert s[..k + 1] == [s[0]] + s[1..][..k];
      k + 1
  }

  lemma {:induction false} WordSpanIs(w: string, rest: string)
    requires SpaceFree(w) && (rest == [] || IsSpace(rest[0]))
    ensures WordSpan(w + rest) == |w|
  {
    if w == [] {
      assert w + rest == rest;
    } else {
      assert (w + rest)[1..] == w[1..] + rest;
      WordSpanIs(w[1..], rest);
    }
  }

  /** Reading a word: white space, then everything up to the next white space; it fails at
      the end of the text. */
  function ReadWord(s: string): (r: Option<Read<string>>)
    ensures r.Some? ==> |r.value.rest| < |s| && r.value.value != [] && SpaceFree(r.value.value)
  {
    var t := SkipSpace(s);
    if t == [] then None else Some(Read(t[..WordSpan(t)], t[WordSpan(t)..]))
  }

  lemma ReadsWord(w: string, rest: string)
    requires w != [] && SpaceFree(w) && (rest == [] || IsSpace(rest[0]))
    ensures ReadWord(w + rest) == Some(Read(w, rest))
    ensures ReadWord(" " + w + rest) == Some(Read(w, rest))
  {
    WordSpanIs(w, rest);
    assert !IsSpace(w[0]) && SkipSpace(w + rest) == w + rest;
    assert (" " + w + rest)[1..] == w + rest;
    assert (w + rest)[..|w|] == w && (w + rest)[|w|..] == rest;
  }

  // ------------------------------------------------------------------------------ addresses

  /** Dotted notation. */
  function Ntoa(ip: Ip): string {
    Digits(ip.a) + ("." + (Digits(ip.b) + ("." + (Digits(ip.c) + ("." + Digits(ip.d))))))
  }

  lemma DottedQuad()
    ensures Ntoa(Ip(192, 168, 0, 25)) == "192.168.0.25"
  {
    assert Digits(19) == "19" && Digits(16) == "16";
    assert Digits(192) == "192" && Digits(168) == "168" && Digits(0) == "0" && Digits(25) == "25";
  }

  lemma DigitsOf(n: Octet)
    ensures 1 <= |Digits(n)| <= 3 && AllDigits(Digits(n))
  {
    DigitsValue(n);
    if 10 <= n {
      assert n / 10 < 26 && n / 100 < 10;
      assert |Digits(n / 10)| == if n / 10 < 10 then 1 else 1 + |Digits(n / 10 / 10)|;
    }
  }

  lemma {:induction false} DecimalIsWord(n: int)
    ensures SpaceFree(Decimal(n)) && Decimal(n) != [] && '\0' !in Decimal(n)
  {
    DigitsValue(if n < 0 then -n else n);
  }

  /** Dotted notation is one word without a slash, of at most 15 characters. */
  lemma NtoaIsWord(ip: Ip)
    ensures 7 <= |Ntoa(ip)| <= 15 && SpaceFree(Ntoa(ip)) && '/' !in Ntoa(ip) && '\0' !in Ntoa(ip)
  {
    DigitsOf(ip.a);
    DigitsOf(ip.b);
    DigitsOf(ip.c);
    DigitsOf(ip.d);
    var s := Ntoa(ip);
    forall i | 0 <= i < |s| ensures IsDigit(s[i]) || s[i] == '.' {
      var a, b, c := |Digits(ip.a)|, |Digits(ip.b)|, |Digits(ip.c)|;
      if i > a && i < a + 1 + b { assert s[i] == Digits(ip.b)[i - a - 1]; }
      else if i > a + 1 + b && i < a + b + c + 2 { assert s[i] == Digits(ip.c)[i - a - b - 2]; }
      else if i > a + b + c + 2 { assert s[i] == Digits(ip.d)[i - a - b - c - 3]; }
    }
  }

  /** Numbers with a non-digit behind them can be told apart. */
  lemma SplitDigits(m: nat, n: nat, r: string, t: string)
    requires Digits(m) + r == Digits(n) + t && NoDigit(r) && NoDigit(t)
    ensures m == n && r == t
  {
    DigitsValue(m);
    DigitsValue(n);
    DigitSpanIs(Digits(m), r);
    DigitSpanIs(Digits(n), t);
    assert (Digits(m) + r)[..|Digits(m)|] == Digits(m) && (Digits(n) + t)[..|Digits(n)|] == Digits(n);
    assert (Digits(m) + r)[|Digits(m)|..] == r && (Digits(n) + t)[|Digits(n)|..] == t;
  }

  /** Different addresses are shown differently. */
  lemma NtoaInjective(x: Ip, y: Ip)
    requires Ntoa(x) == Ntoa(y)
    ensures x == y
  {
    var x1 := Digits(x.b) + ("." + (Digits(x.c) + ("." + Digits(x.d))));
    var y1 := Digits(y.b) + ("." + (Digits(y.c) + ("." + Digits(y.d))));
    SplitDigits(x.a, y.a, "." + x1, "." + y1);
    assert ("." + x1)[1..] == x1 && ("." + y1)[1..] == y1;
    var x2, y2 := Digits(x.c) + ("." + Digits(x.d)), Digits(y.c) + ("." + Digits(y.d));
    SplitDigits(x.b, y.b, "." + x2, "." + y2);
    assert ("." + x2)[1..] == x2 && ("." + y2)[1..] == y2;
    SplitDigits(x.c, y.c, "." + Digits(x.d), "." + Digits(y.d));
    assert ("." + Digits(x.d))[1..] == Digits(x.d) && ("." + Digits(y.d))[1..] == Digits(y.d);
    assert Digits(x.d) + [] == Digits(x.d) && Digits(y.d) + [] == Digits(y.d);
    SplitDigits(x.d, y.d, [], []);
  }
}
