/** Strings as the Go sources use them: decimal numbers, trimming, and byte order. */
module Text {

  datatype Option<+T> = None | Some(value: T)

  // ---------------------------------------------------------------- numbers

  predicate IsDigit(c: char) { '0' <= c <= '9' }

  function DigitChar(d: nat): char
    requires d < 10
  {
    '0' + d as char
  }

  function DigitValue(c: char): nat
    requires IsDigit(c)
  {
    c as int - '0' as int
  }

  function Decimal(n: nat): string {
    if n < 10 then [DigitChar(n)] else Decimal(n / 10) + [DigitChar(n % 10)]
  }

  /** The `%d` verb. */
  function Print(n: int): string {
    if n < 0 then "-" + Decimal(-n) else Decimal(n)
  }

  function ParseNat(s: string): Option<nat> {
    if s == [] || !IsDigit(s[|s| - 1]) then None
    else if |s| == 1 then Some(DigitValue(s[0]))
    else match ParseNat(s[..|s| - 1])
      case None => None
      case Some(n) => Some(10 * n + DigitValue(s[|s| - 1]))
  }

  function Signed(negative: bool, n: int): int { if negative then -n else n }

  function ParseSigned(s: string): Option<int> {
    if s != [] && (s[0] == '-' || s[0] == '+') then
      match ParseNat(s[1..])
      case None => None
      case Some(n) => Some(Signed(s[0] == '-', n))
    else
      match ParseNat(s)
      case None => None
      case Some(n) => Some(n)
  }

  /** strconv.Atoi on a 64-bit platform. */
  function Atoi(s: string): Option<int> {
    match ParseSigned(s)
    case None => None
    case Some(n) => if -0x8000_0000_0000_0000 <= n < 0x8000_0000_0000_0000 then Some(n) else None
  }

  lemma {:induction false} Digits()
    ensures forall d: nat :: d < 10 ==> Decimal(d) == ["0123456789"[d]]
    ensures Print(10) == "10" && Print(-12) == "-12"
  {
  }

  lemma {:induction false} DecimalIsDigits(n: nat)
    ensures Decimal(n) != []
    ensures forall i :: 0 <= i < |Decimal(n)| ==> IsDigit(Decimal(n)[i])
  {
    if n >= 10 { DecimalIsDigits(n / 10); }
  }

  lemma {:induction false} ParsePrintNat(n: nat)
    ensures ParseNat(Decimal(n)) == Some(n)
  {
    if n >= 10 {
      DecimalIsDigits(n / 10);
      ParsePrintNat(n / 10);
      var s := Decimal(n);
      assert s[..|s| - 1] == Decimal(n / 10);
    }
  }

  lemma {:induction false} SignBack(d: string, n: nat)
    requires ParseNat(d) == Some(n) && d != [] && IsDigit(d[0])
    ensures ParseSigned("-" + d) == Some(Signed(true, n)) && ParseSigned(d) == Some(n)
  {
    hide ParseNat;
    assert ("-" + d)[1..] == d;
  }

  /** Printing a number and reading it back is the identity. */
  lemma ParsePrint(n: int)
    ensures ParseSigned(Print(n)) == Some(n)
  {
    hide ParseSigned, Decimal, ParseNat;
    var m := if n < 0 then -n else n;
    ParsePrintNat(m);
    DecimalIsDigits(m);
    SignBack(Decimal(m), m);
  }

  function Zeros(n: nat): string { if n == 0 then "" else Zeros(n - 1) + "0" }

  lemma {:induction false} ZerosMore(z: nat)
    ensures "0" + Zeros(z) == Zeros(z) + "0"
  {
    if z > 0 {
      ZerosMore(z - 1);
      assert "0" + Zeros(z) == ("0" + Zeros(z - 1)) + "0";
    }
  }

  lemma {:induction false} ParseZeros(z: nat)
    ensures z > 0 ==> ParseNat(Zeros(z)) == Some(0)
  {
    if z > 1 {
      ParseZeros(z - 1);
      assert Zeros(z)[..|Zeros(z)| - 1] == Zeros(z - 1);
    }
  }

  lemma {:induction false} ParsePadded(z: nat, m: nat)
    ensures ParseNat(Zeros(z) + Decimal(m)) == Some(m)
  {
    var s := Zeros(z) + Decimal(m);
    if m < 10 {
      assert s[..|s| - 1] == Zeros(z) && s[|s| - 1] == DigitChar(m);
      ParseZeros(z);
    } else {
      DecimalIsDigits(m / 10);
      ParsePadded(z, m / 10);
      assert s[..|s| - 1] == Zeros(z) + Decimal(m / 10) && s[|s| - 1] == DigitChar(m % 10);
    }
  }

  lemma {:induction false} ParsedIsPadded(s: string)
    requires ParseNat(s).Some?
    ensures exists z: nat :: s == Zeros(z) + Decimal(ParseNat(s).value)
  {
    var k := |s| - 1;
    var d := DigitValue(s[k]);
    assert s == s[..k] + [s[k]] && DigitChar(d) == s[k];
    if k == 0 {
      assert s == Zeros(0) + Decimal(d);
    } else {
      ParsedIsPadded(s[..k]);
      var q := ParseNat(s[..k]).value;
      var z: nat :| s[..k] == Zeros(z) + Decimal(q);
      OneMoreDigit(s[..k], z, q, s[k]);
    }
  }

  lemma {:induction false} OneMoreDigit(t: string, z: nat, q: nat, c: char)
    requires t == Zeros(z) + Decimal(q) && IsDigit(c)
    ensures exists z': nat :: t + [c] == Zeros(z') + Decimal(10 * q + DigitValue(c))
  {
    var d := DigitValue(c);
    assert DigitChar(d) == c;
    if q == 0 {
      assert t + [c] == Zeros(z + 1) + Decimal(d);
    } else {
      assert Decimal(10 * q + d) == Decimal(q) + [c];
      assert t + [c] == Zeros(z) + Decimal(10 * q + d);
    }
  }

  /** A text of digits reads as `n` exactly if it is the decimal number, with or without zeros in front. */
  lemma {:induction false} ReadsNatIff(s: string, n: nat)
    ensures ParseNat(s) == Some(n) <==> exists z: nat :: s == Zeros(z) + Decimal(n)
  {
    if ParseNat(s) == Some(n) { ParsedIsPadded(s); }
    if z: nat :| s == Zeros(z) + Decimal(n) { ParsePadded(z, n); }
  }

  lemma {:induction false} NoSign(s: string)
    requires ParseNat(s).Some?
    ensures s != [] && s[0] != '-' && s[0] != '+'
  {
    if |s| > 1 { NoSign(s[..|s| - 1]); }
  }

  /** A text reads as `n` exactly if it is a decimal number with an optional sign, and zeros or not. */
  lemma ReadsIff(s: string, n: int)
    ensures ParseSigned(s) == Some(n) <==> exists sign: string, m: nat, z: nat ::
      s == sign + (Zeros(z) + Decimal(m)) && (if sign == "-" then m == -n else sign in {"", "+"} && n == m)
  {
    hide ParseNat, Decimal, Zeros;
    if ParseSigned(s) == Some(n) {
      var signed := s != [] && (s[0] == '-' || s[0] == '+');
      var sign, digits := if signed then s[..1] else "", if signed then s[1..] else s;
      var m := ParseNat(digits).value;
      ReadsNatIff(digits, m);
      var z: nat :| digits == Zeros(z) + Decimal(m);
      assert s == sign + digits;
      assert signed ==> sign == [s[0]];
    }
    if sign: string, m: nat, z: nat :|
      s == sign + (Zeros(z) + Decimal(m)) && (if sign == "-" then m == -n else sign in {"", "+"} && n == m)
    {
      var digits := Zeros(z) + Decimal(m);
      ParsePadded(z, m);
      NoSign(digits);
      if sign == "" { assert s == digits; } else { assert s[1..] == digits && s[0] == sign[0]; }
    }
  }

  /** A text reads as a 64-bit number exactly if it is one in decimal, with an optional sign, and zeros or not. */
  lemma AtoiIff(s: string, n: int)
    ensures Atoi(s) == Some(n) <==>
      -0x8000_0000_0000_0000 <= n < 0x8000_0000_0000_0000 && exists sign: string, m: nat, z: nat ::
        s == sign + (Zeros(z) + Decimal(m)) && (if sign == "-" then m == -n else sign in {"", "+"} && n == m)
  {
    hide ParseSigned;
    ReadsIff(s, n);
  }

  lemma PrintedChars(n: int)
    ensures Print(n) != []
    ensures forall i :: 0 <= i < |Print(n)| ==> IsDigit(Print(n)[i]) || Print(n)[i] == '-'
  {
    DecimalIsDigits(if n < 0 then -n else n);
  }

  lemma ColonFreeTail(a: string, p: string, b: string, q: string)
    requires a + ":" + p == b + ":" + q
    requires ':' !in q
    ensures |q| <= |p|
  {
    var t := b + ":" + q;
    assert (a + ":" + p)[|a|] == ':';
    assert forall i :: |b| < i < |t| ==> t[i] == q[i - |b| - 1] && t[i] != ':';
  }

  /** A colon-free tail can be cut off again, even when the head holds colons itself. */
  lemma CutLastColon(a: string, p: string, b: string, q: string)
    requires a + ":" + p == b + ":" + q
    requires ':' !in p && ':' !in q
    ensures a == b && p == q
  {
    ColonFreeTail(a, p, b, q);
    ColonFreeTail(b, q, a, p);
    var s, t := a + ":" + p, b + ":" + q;
    assert a == s[..|a|] == t[..|b|] == b;
    assert p == s[|a| + 1..] == t[|b| + 1..] == q;
  }

  // --------------------------------------------------------------- ordering

  /** Go's `<` on strings. */
  predicate Less(a: string, b: string) {
    b != [] && (a == [] || a[0] < b[0] || (a[0] == b[0] && Less(a[1..], b[1..])))
  }

  lemma {:induction false} LessTotal(a: string, b: string)
    ensures a == b || Less(a, b) || Less(b, a)
  {
    if a != [] && b != [] {
      LessTotal(a[1..], b[1..]);
      assert a == [a[0]] + a[1..] && b == [b[0]] + b[1..];
    }
  }

  lemma {:induction false} LessIrreflexive(a: string)
    ensures !Less(a, a)
  {
    if a != [] { LessIrreflexive(a[1..]); }
  }

  lemma {:induction false} LessTransitive(a: string, b: string, c: string)
    requires Less(a, b) && Less(b, c)
    ensures Less(a, c)
  {
    if a != [] && a[0] == b[0] == c[0] {
      LessTransitive(a[1..], b[1..], c[1..]);
    }
  }

  /** The shorter of two texts comes first if it begins the other, else the first difference decides. */
  lemma {:induction false} LessIff(a: string, b: string)
    ensures Less(a, b) <==>
      exists i: nat :: i <= |a| && i < |b| && a[..i] == b[..i] && (i == |a| || a[i] < b[i])
  {
    if Less(a, b) {
      if a == [] || a[0] < b[0] {
        assert a[..0] == b[..0];
      } else {
        LessIff(a[1..], b[1..]);
        var i: nat :|
          i <= |a[1..]| && i < |b[1..]| && a[1..][..i] == b[1..][..i] && (i == |a[1..]| || a[1..][i] < b[1..][i]);
        assert a[..i + 1] == [a[0]] + a[1..][..i] && b[..i + 1] == [b[0]] + b[1..][..i];
      }
    }
    if i: nat :| i <= |a| && i < |b| && a[..i] == b[..i] && (i == |a| || a[i] < b[i]) {
      if i > 0 {
        assert a[0] == a[..i][0] == b[..i][0] == b[0];
        assert a[1..][..i - 1] == a[..i][1..] == b[..i][1..] == b[1..][..i - 1];
        LessIff(a[1..], b[1..]);
      }
    }
  }

  // --------------------------------------------------------------- trimming

  /** unicode.IsSpace. */
  predicate IsSpace(c: char) {
    c in {'\t', '\n', '\r', ' '} || c as int in {0x0B, 0x0C, 0x85, 0xA0, 0x1680, 0x2028, 0x2029, 0x202F, 0x205F, 0x3000}
    || 0x2000 <= c as int <= 0x200A
  }

  predicate IsBracket(c: char) { c == '[' || c == ']' }

  function TrimLeft(s: string, cut: char -> bool): string {
    if s != [] && cut(s[0]) then TrimLeft(s[1..], cut) else s
  }

  function TrimRight(s: string, cut: char -> bool): string {
    if s != [] && cut(s[|s| - 1]) then TrimRight(s[..|s| - 1], cut) else s
  }

  function Trim(s: string, cut: char -> bool): string { TrimRight(TrimLeft(s, cut), cut) }

  function TrimSpace(s: string): string { Trim(s, IsSpace) }

  predicate All(cut: char -> bool, s: string) { forall i :: 0 <= i < |s| ==> cut(s[i]) }

  lemma {:induction false} TrimLeftPad(pad: string, s: string, cut: char -> bool)
    requires All(cut, pad)
    ensures TrimLeft(pad + s, cut) == TrimLeft(s, cut)
  {
    if pad == [] { assert pad + s == s; } else {
      assert (pad + s)[1..] == pad[1..] + s;
      TrimLeftPad(pad[1..], s, cut);
    }
  }

  lemma {:induction false} TrimRightPad(s: string, pad: string, cut: char -> bool)
    requires All(cut, pad)
    ensures TrimRight(s + pad, cut) == TrimRight(s, cut)
  {
    if pad == [] { assert s + pad == s; } else {
      var n := |pad| - 1;
      assert (s + pad)[..|s + pad| - 1] == s + pad[..n];
      assert (s + pad)[|s + pad| - 1] == pad[n];
      TrimRightPad(s, pad[..n], cut);
    }
  }

  lemma {:induction false} TrimLeftRest(s: string, cut: char -> bool)
    ensures exists pre :: s == pre + TrimLeft(s, cut) && All(cut, pre)
    ensures TrimLeft(s, cut) != [] ==> !cut(TrimLeft(s, cut)[0])
  {
    if s != [] && cut(s[0]) {
      TrimLeftRest(s[1..], cut);
      var pre :| s[1..] == pre + TrimLeft(s[1..], cut) && All(cut, pre);
      assert s == ([s[0]] + pre) + TrimLeft(s, cut);
    } else {
      assert s == [] + TrimLeft(s, cut);
    }
  }

  lemma {:induction false} TrimRightRest(s: string, cut: char -> bool)
    ensures exists post :: s == TrimRight(s, cut) + post && All(cut, post)
    ensures TrimRight(s, cut) != [] ==> !cut(TrimRight(s, cut)[|TrimRight(s, cut)| - 1])
  {
    if s != [] && cut(s[|s| - 1]) {
      var n := |s| - 1;
      TrimRightRest(s[..n], cut);
      var post :| s[..n] == TrimRight(s[..n], cut) + post && All(cut, post);
      assert s == TrimRight(s, cut) + (post + [s[n]]);
    } else {
      assert s == TrimRight(s, cut) + [];
    }
  }

  /** Trimming takes away all leading and trailing characters of the kind and nothing else. */
  lemma {:induction false} TrimIff(s: string, t: string, cut: char -> bool)
    ensures Trim(s, cut) == t <==>
      && (exists pre, post :: s == pre + t + post && All(cut, pre) && All(cut, post))
      && (t != [] ==> !cut(t[0]) && !cut(t[|t| - 1]))
  {
    if Trim(s, cut) == t {
      TrimLeftRest(s, cut);
      var rest := TrimLeft(s, cut);
      TrimRightRest(rest, cut);
      var pre :| s == pre + rest && All(cut, pre);
      var post :| rest == t + post && All(cut, post);
      assert s == pre + t + post;
    }
    if (t != [] ==> !cut(t[0]) && !cut(t[|t| - 1]))
      && exists pre, post :: s == pre + t + post && All(cut, pre) && All(cut, post)
    {
      var pre, post :| s == pre + t + post && All(cut, pre) && All(cut, post);
      Trimmed(pre, t, post, cut);
    }
  }

  lemma {:induction false} Trimmed(pre: string, t: string, post: string, cut: char -> bool)
    requires All(cut, pre) && All(cut, post) && (t != [] ==> !cut(t[0]) && !cut(t[|t| - 1]))
    ensures Trim(pre + t + post, cut) == t
  {
    assert pre + t + post == pre + (t + post);
    TrimLeftPad(pre, t + post, cut);
    if t == [] {
      assert t + post == post + [];
      TrimLeftPad(post, [], cut);
    } else {
      assert (t + post)[0] == t[0];
      TrimRightPad(t, post, cut);
    }
  }

  predicate HasPrefix(s: string, p: string) { |p| <= |s| && s[..|p|] == p }

  predicate HasSuffix(s: string, p: string) { |p| <= |s| && s[|s| - |p|..] == p }

  function TrimPrefix(s: string, p: string): string { if HasPrefix(s, p) then s[|p|..] else s }

  function TrimSuffix(s: string, p: string): string { if HasSuffix(s, p) then s[..|s| - |p|] else s }
}
