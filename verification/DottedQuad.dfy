/** inet_pton4 of tx_platform.cpp: it accepts exactly the IPv4address language of section 3.2.2 of
    RFC 3986, and is the inverse of printing. */
module DottedQuad {

  newtype Byte = x: int | 0 <= x < 256

  predicate Digit(c: char) { '0' <= c <= '9' }

  function Value(c: char): int
    requires Digit(c)
  {
    c as int - '0' as int
  }

  function Numeral(d: int): (c: char)
    requires 0 <= d < 10
    ensures Digit(c) && Value(c) == d
  {
    d as char + '0'
  }

  // ---------------------------------------------------------------- the language

  /** dec-octet */
  predicate DecOctet(s: string) {
    || (|s| == 1 && Digit(s[0]))                                                   // 0-9
    || (|s| == 2 && '1' <= s[0] <= '9' && Digit(s[1]))                             // 10-99
    || (|s| == 3 && s[0] == '1' && Digit(s[1]) && Digit(s[2]))                     // 100-199
    || (|s| == 3 && s[0] == '2' && '0' <= s[1] <= '4' && Digit(s[2]))              // 200-249
    || (|s| == 3 && s[0] == '2' && s[1] == '5' && '0' <= s[2] <= '5')              // 250-255
  }

  function Dotted(a: string, b: string, c: string, d: string): string { a + "." + b + "." + c + "." + d }

  ghost predicate IPv4Address(s: string) {
    exists a, b, c, d :: s == Dotted(a, b, c, d) && DecOctet(a) && DecOctet(b) && DecOctet(c) && DecOctet(d)
  }

  // ---------------------------------------------------------------- printing

  function Decimal(n: Byte): (s: string)
    ensures DecOctet(s)
  {
    var v := n as int;
    if v < 10 then [Numeral(v)]
    else if v < 100 then [Numeral(v / 10), Numeral(v % 10)]
    else [Numeral(v / 100), Numeral(v / 10 % 10), Numeral(v % 10)]
  }

  function Print(q: seq<Byte>): string
    requires |q| == 4
  {
    Dotted(Decimal(q[0]), Decimal(q[1]), Decimal(q[2]), Decimal(q[3]))
  }

  /** The decimal numerals of the bytes are the dec-octets. */
  lemma OctetIsDecimal(s: string) returns (n: Byte)
    requires DecOctet(s)
    ensures s == Decimal(n)
  {
    if |s| == 1 {
      n := Value(s[0]) as Byte;
    } else if |s| == 2 {
      var a, b := Value(s[0]), Value(s[1]);
      n := (10 * a + b) as Byte;
      Digits(a, b, 0);
      assert Decimal(n) == [Numeral(a), Numeral(b)];
    } else {
      var a, b, c := Value(s[0]), Value(s[1]), Value(s[2]);
      n := (100 * a + 10 * b + c) as Byte;
      Digits(a, b, c);
      assert Decimal(n) == [Numeral(a), Numeral(b), Numeral(c)];
    }
  }

  lemma Digits(a: int, b: int, c: int)
    requires 0 <= a < 10 && 0 <= b < 10 && 0 <= c < 10
    ensures (10 * a + b) / 10 == a && (10 * a + b) % 10 == b
    ensures var v := 100 * a + 10 * b + c; v / 100 == a && v / 10 % 10 == b && v % 10 == c
  {
    assert (100 * a + 10 * b + c) / 10 == 10 * a + b;
  }

  /** The language is what printing produces. */
  lemma PrintedIff(s: string)
    ensures IPv4Address(s) <==> exists q: seq<Byte> :: |q| == 4 && s == Print(q)
  {
    hide Decimal, DecOctet, Dotted;
    if IPv4Address(s) {
      var a, b, c, d :| s == Dotted(a, b, c, d) && DecOctet(a) && DecOctet(b) && DecOctet(c) && DecOctet(d);
      var w := OctetIsDecimal(a);
      var x := OctetIsDecimal(b);
      var y := OctetIsDecimal(c);
      var z := OctetIsDecimal(d);
      assert s == Print([w, x, y, z]);
    }
    if q: seq<Byte> :| |q| == 4 && s == Print(q) {
      assert s == Dotted(Decimal(q[0]), Decimal(q[1]), Decimal(q[2]), Decimal(q[3]));
    }
  }

  // ---------------------------------------------------------------- the scanner

  /** The octets begun so far, the last of them still open, and whether it has a digit. */
  datatype Scanner = Failed | Scanning(octets: seq<Byte>, sawDigit: bool)

  const START := Scanning([0], false)

  predicate WellScanned(s: Scanner) { s.Scanning? ==> 1 <= |s.octets| <= 4 }

  /** The body of the loop. */
  function Scan(s: Scanner, ch: char): (r: Scanner)
    requires WellScanned(s)
    ensures WellScanned(r)
  {
    if s.Failed? then Failed
    else
      var last := |s.octets| - 1;
      if Digit(ch) then
        var nw := s.octets[last] as int * 10 + Value(ch);
        if s.sawDigit && s.octets[last] == 0 then Failed
        else if nw > 255 then Failed
        else Scanning(s.octets[last := nw as Byte], true)
      else if ch == '.' && s.sawDigit then
        if |s.octets| == 4 then Failed else Scanning(s.octets + [0], false)
      else Failed
  }

  function ScanAll(s: Scanner, text: string): (r: Scanner)
    requires WellScanned(s)
    ensures WellScanned(r)
    decreases |text|
  {
    if text == [] then s else ScanAll(Scan(s, text[0]), text[1..])
  }

  predicate Accepted(s: Scanner) { s.Scanning? && |s.octets| == 4 && s.sawDigit }

  lemma {:induction false} ScanAppend(s: Scanner, a: string, b: string)
    requires WellScanned(s)
    ensures ScanAll(s, a + b) == ScanAll(ScanAll(s, a), b)
    decreases |a|
  {
    if a == [] {
      assert a + b == b;
    } else {
      assert (a + b)[0] == a[0] && (a + b)[1..] == a[1..] + b;
      ScanAppend(Scan(s, a[0]), a[1..], b);
    }
  }

  // ---------------------------------------------------------------- soundness

  /** The octets in decimal, each but the last followed by a dot. */
  function Shown(octets: seq<Byte>): string
    requires octets != []
  {
    if |octets| == 1 then Decimal(octets[0])
    else Shown(octets[..|octets| - 1]) + "." + Decimal(octets[|octets| - 1])
  }

  /** What has been read when the scanner is in this state. */
  function Read(s: Scanner): string
    requires s.Scanning? && |s.octets| >= 1
  {
    if s.sawDigit then Shown(s.octets)
    else if |s.octets| == 1 then ""
    else Shown(s.octets[..|s.octets| - 1]) + "."
  }

  /** An octet without a digit is still zero. */
  predicate Tidy(s: Scanner) { s.Scanning? && !s.sawDigit && |s.octets| >= 1 ==> s.octets[|s.octets| - 1] == 0 }

  lemma DecimalGrows(n: Byte, d: int)
    requires 0 < n && 0 <= d < 10 && n as int * 10 + d <= 255
    ensures Decimal((n as int * 10 + d) as Byte) == Decimal(n) + [Numeral(d)]
  {
    var v := n as int;
    assert (v * 10 + d) / 10 == v && (v * 10 + d) % 10 == d;
    if v >= 10 { assert (v * 10 + d) / 100 == v / 10; }
  }

  lemma DigitExact(c: char)
    requires Digit(c)
    ensures Numeral(Value(c)) == c
  {
  }

  lemma ScanReads(s: Scanner, ch: char)
    requires WellScanned(s) && Tidy(s) && Scan(s, ch).Scanning?
    ensures Tidy(Scan(s, ch)) && Read(Scan(s, ch)) == Read(s) + [ch]
  {
    var r, last := Scan(s, ch), |s.octets| - 1;
    if Digit(ch) {
      DigitExact(ch);
      assert r.octets[..last] == s.octets[..last];
      if s.sawDigit {
        DecimalGrows(s.octets[last], Value(ch));
        assert Decimal(r.octets[last]) == Decimal(s.octets[last]) + [ch];
      } else {
        assert Decimal(r.octets[last]) == [ch];
      }
    } else {
      assert r.octets[..last + 1] == s.octets;
    }
  }

  lemma {:induction false} ScanAllReads(s: Scanner, text: string)
    requires WellScanned(s) && Tidy(s) && ScanAll(s, text).Scanning?
    ensures s.Scanning? && Read(ScanAll(s, text)) == Read(s) + text
    decreases |text|
  {
    if text != [] {
      FailedStays(Scan(s, text[0]), text[1..]);
      ScanReads(s, text[0]);
      ScanAllReads(Scan(s, text[0]), text[1..]);
    }
  }

  lemma {:induction false} FailedStays(s: Scanner, text: string)
    requires WellScanned(s) && ScanAll(s, text).Scanning?
    ensures s.Scanning?
    decreases |text|
  {
    if text != [] { FailedStays(Scan(s, text[0]), text[1..]); }
  }

  lemma ShownIsPrint(q: seq<Byte>)
    requires |q| == 4
    ensures Shown(q) == Print(q)
  {
    var p3, p2, p1 := q[..3], q[..3][..2], q[..3][..2][..1];
    assert Shown(p1) == Decimal(q[0]);
    assert Shown(p2) == Shown(p1) + "." + Decimal(q[1]);
    assert Shown(p3) == Shown(p2) + "." + Decimal(q[2]);
  }

  // ---------------------------------------------------------------- completeness

  lemma ScanOne(s: Scanner, ch: char)
    requires WellScanned(s)
    ensures ScanAll(s, [ch]) == Scan(s, ch)
  {
    assert [ch][1..] == [];
  }

  /** Reading the numeral of n completes the open octet with n. */
  lemma ScanDecimal(s: Scanner, n: Byte)
    requires WellScanned(s) && s.Scanning? && !s.sawDigit && Tidy(s)
    ensures var last := |s.octets| - 1; ScanAll(s, Decimal(n)) == Scanning(s.octets[last := n], true)
  {
    var v, last, t := n as int, |s.octets| - 1, Decimal(n);
    if v < 10 {
      ScanOne(s, t[0]);
    } else {
      var a := Scan(s, t[0]);
      ScanOne(a, t[1]);
      assert t == [t[0]] + t[1..];
      if v < 100 {
        assert t[1..] == [t[1]];
      } else {
        var b := Scan(a, t[1]);
        assert t[1..][0] == t[1] && t[1..][1..] == [t[2]];
        assert 10 * (v / 100) + v / 10 % 10 == v / 10;
        ScanOne(b, t[2]);
      }
    }
  }

  /** One octet and the dot after it. */
  lemma ScanOctet(s: Scanner, n: Byte)
    requires WellScanned(s) && s.Scanning? && !s.sawDigit && Tidy(s) && |s.octets| < 4
    ensures var last := |s.octets| - 1; ScanAll(s, Decimal(n) + ".") == Scanning(s.octets[last := n] + [0], false)
  {
    ScanDecimal(s, n);
    ScanAppend(s, Decimal(n), ".");
    ScanOne(ScanAll(s, Decimal(n)), '.');
  }

  /** The scanner accepts what printing produces, and finds the quad that was printed. */
  lemma ScansPrinted(q: seq<Byte>)
    requires |q| == 4
    ensures ScanAll(START, Print(q)) == Scanning(q, true)
  {
    var a, b, c, d := Decimal(q[0]) + ".", Decimal(q[1]) + ".", Decimal(q[2]) + ".", Decimal(q[3]);
    assert Print(q) == a + (b + (c + d));
    ScanOctet(START, q[0]);
    var s1 := Scanning([q[0], 0], false);
    assert ScanAll(START, a) == s1;
    ScanOctet(s1, q[1]);
    var s2 := Scanning([q[0], q[1], 0], false);
    assert ScanAll(s1, b) == s2;
    ScanOctet(s2, q[2]);
    var s3 := Scanning([q[0], q[1], q[2], 0], false);
    assert ScanAll(s2, c) == s3;
    ScanDecimal(s3, q[3]);
    ScanAppend(START, a, b + (c + d));
    ScanAppend(s1, b, c + d);
    ScanAppend(s2, c, d);
    assert s3.octets[3 := q[3]] == q;
  }

  /** The scanner accepts exactly the language, and returns the quad that prints as the text. */
  lemma AcceptsIff(text: string)
    ensures Accepted(ScanAll(START, text)) <==> IPv4Address(text)
    ensures Accepted(ScanAll(START, text)) ==> Print(ScanAll(START, text).octets) == text
    ensures forall q: seq<Byte> :: |q| == 4 && Print(q) == text ==> ScanAll(START, text) == Scanning(q, true)
  {
    var r := ScanAll(START, text);
    PrintedIff(text);
    if Accepted(r) {
      ScanAllReads(START, text);
      ShownIsPrint(r.octets);
    }
    forall q: seq<Byte> | |q| == 4 && Print(q) == text ensures r == Scanning(q, true) {
      ScansPrinted(q);
    }
  }

  // ---------------------------------------------------------------- the parser

  /** The C string at the start of s. */
  function Text(s: string): (t: string)
    requires '\0' in s
    ensures |t| < |s| && t == s[..|t|] && s[|t|] == '\0' && '\0' !in t
  {
    if s[0] == '\0' then [] else [s[0]] + Text(s[1..])
  }

  /** How many octets have been begun, as the loop counts them. */
  predicate Counts(octets: int, tp: int, sawDigit: bool) { octets == if sawDigit then tp + 1 else tp }

  /** The body of the loop, on one character. */
  method Feed(tmp: array<Byte>, tp: int, sawDigit: bool, octets: int, ch: char)
      returns (ok: bool, tq: int, saw: bool, count: int)
    requires tmp.Length == 4 && 0 <= tp < 4 && Counts(octets, tp, sawDigit)
    modifies tmp
    ensures 0 <= tq < 4 && Counts(count, tq, saw)
    ensures Scan(Scanning(old(tmp[..tp + 1]), sawDigit), ch) == if ok then Scanning(tmp[..tq + 1], saw) else Failed
  {
    ghost var s := Scanning(tmp[..tp + 1], sawDigit);
    tq, saw, count := tp, sawDigit, octets;
    if Digit(ch) {
      var nw := tmp[tp] as int * 10 + Value(ch);
      if sawDigit && tmp[tp] == 0 {
        return false, tq, saw, count;
      }
      if nw > 255 {
        return false, tq, saw, count;
      }
      tmp[tp] := nw as Byte;
      assert tmp[..tp + 1] == s.octets[tp := nw as Byte];
      if !sawDigit {
        count := octets + 1;
        if count > 4 {
          assert false;
          return false, tq, saw, count;
        }
        saw := true;
      }
    } else if ch == '.' && sawDigit {
      if octets == 4 {
        return false, tq, saw, count;
      }
      tq := tp + 1;
      tmp[tq] := 0;
      assert tmp[..tq + 1] == s.octets + [0];
      saw, count := false, octets;
    } else {
      return false, tq, saw, count;
    }
    ok := true;
  }

  /** The loop, with tp staying inside the four bytes of tmp. */
  method ScanText(src: string, tmp: array<Byte>) returns (ok: bool)
    requires '\0' in src && tmp.Length == 4
    modifies tmp
    ensures ok == Accepted(ScanAll(START, Text(src)))
    ensures ok ==> tmp[..] == ScanAll(START, Text(src)).octets
  {
    ghost var text := Text(src);
    hide Text, Scan;
    var sawDigit, octets, tp, i := false, 0, 0, 0;
    tmp[tp] := 0;
    assert tmp[..1] == [0] && text[0..] == text;
    while src[i] != '\0'
      invariant 0 <= i <= |text| && 0 <= tp < 4 && Counts(octets, tp, sawDigit)
      invariant ScanAll(Scanning(tmp[..tp + 1], sawDigit), text[i..]) == ScanAll(START, text)
      decreases |text| - i
    {
      var ch := src[i];
      assert text[i..][0] == ch && text[i..][1..] == text[i + 1..];
      i := i + 1;
      ok, tp, sawDigit, octets := Feed(tmp, tp, sawDigit, octets, ch);
      if !ok {
        StuckFails(Failed, text[i..]);
        return;
      }
    }
    assert text[i..] == [];
    assert tp == 3 ==> tmp[..tp + 1] == tmp[..];
    ok := octets >= 4;
  }

  /** It answers 1 exactly for the language, then dst is the quad that prints as the text; otherwise
      dst is not written. */
  method InetPton4(src: string, dst: array<Byte>) returns (r: int)
    requires '\0' in src && dst.Length >= 4
    modifies dst
    ensures r == if IPv4Address(Text(src)) then 1 else 0
    ensures r == 1 ==> Print(dst[..4]) == Text(src) && dst[4..] == old(dst[4..])
    ensures r == 0 ==> dst[..] == old(dst[..])
  {
    hide IPv4Address, Print, Text, ScanAll;
    AcceptsIff(Text(src));
    var tmp := new Byte[4];
    var ok := ScanText(src, tmp);
    if !ok {
      return 0;
    }
    dst[0], dst[1], dst[2], dst[3] := tmp[0], tmp[1], tmp[2], tmp[3];
    assert dst[..4] == tmp[..];
    return 1;
  }

  lemma {:induction false} StuckFails(s: Scanner, text: string)
    requires s.Failed?
    ensures ScanAll(s, text).Failed?
    decreases |text|
  {
    if text != [] { StuckFails(Scan(s, text[0]), text[1..]); }
  }

  /** Parsing what was printed gives the quad back: printing is injective on the accepted texts. */
  lemma PrintInjective(p: seq<Byte>, q: seq<Byte>)
    requires |p| == |q| == 4 && Print(p) == Print(q)
    ensures p == q
  {
    ScansPrinted(p);
    ScansPrinted(q);
  }
}
