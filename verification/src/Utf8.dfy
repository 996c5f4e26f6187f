/**
 UTF-8 (section 3 of RFC 3629): the encoding of one character, and the check a
 byte string must pass before the broker accepts it as a topic name.
 */
module Utf8 {
  import opened Bytes

  /** A number that is a Unicode scalar value. */
  predicate Scalar(p: nat) {
    p < 0xD800 || 0xE000 <= p < 0x110000
  }

  function Encoded(c: nat): Data
    requires c < 0x110000
  {
    if c < 0x80 then [c]
    else if c < 0x800 then [0xC0 + c / 0x40, 0x80 + c % 0x40]
    else if c < 0x10000 then [0xE0 + c / 0x1000, 0x80 + c / 0x40 % 0x40, 0x80 + c % 0x40]
    else [0xF0 + c / 0x40000, 0x80 + c / 0x1000 % 0x40, 0x80 + c / 0x40 % 0x40, 0x80 + c % 0x40]
  }

  lemma EncodedInjective(c: nat, d: nat)
    requires c < 0x110000 && d < 0x110000 && Encoded(c) == Encoded(d)
    ensures c == d
  {
    var a, b := Encoded(c), Encoded(d);
    assert |a| == |b|;
    if c < 0x80 {
      assert a[0] == b[0];
    } else if c < 0x800 {
      assert a[0] == b[0] && a[1] == b[1];
    } else if c < 0x10000 {
      assert a[0] == b[0] && a[1] == b[1] && a[2] == b[2];
      Digits(c);
      Digits(d);
    } else {
      assert a[0] == b[0] && a[1] == b[1] && a[2] == b[2] && a[3] == b[3];
      Digits(c);
      Digits(d);
    }
  }

  lemma Digits(c: nat)
    ensures c == c / 0x1000 * 0x1000 + c / 0x40 % 0x40 * 0x40 + c % 0x40
    ensures c / 0x1000 == c / 0x40000 * 0x40 + c / 0x1000 % 0x40
  {
  }

  /** The examples of section 7 of RFC 3629. */
  lemma Examples()
    ensures Encoded(0x41) == [0x41] && Encoded(0x391) == [0xCE, 0x91]
    ensures Encoded(0x2262) == [0xE2, 0x89, 0xA2] && Encoded(0x233B4) == [0xF0, 0xA3, 0x8E, 0xB4]
  {
  }

  // ---- whole strings ----

  predicate Scalars(cs: seq<nat>) {
    forall i :: 0 <= i < |cs| ==> Scalar(cs[i])
  }

  function Text(cs: seq<nat>): Data
    requires Scalars(cs)
  {
    if cs == [] then [] else Encoded(cs[0]) + Text(cs[1..])
  }

  predicate Tail(b: byte) {
    0x80 <= b < 0xC0
  }

  /** The number of bytes of the well-formed character a string starts with, 0 if
      there is none: too long forms, surrogates and values past U+10FFFF are out. */
  function Lead(s: Data): (n: nat)
    ensures n <= |s|
  {
    if |s| >= 1 && s[0] < 0x80 then 1
    else if |s| >= 2 && 0xC2 <= s[0] < 0xE0 && Tail(s[1]) then 2
    else if |s| >= 3 && 0xE0 <= s[0] < 0xF0 && Tail(s[1]) && Tail(s[2])
         && (s[0] == 0xE0 ==> s[1] >= 0xA0) && (s[0] == 0xED ==> s[1] < 0xA0) then 3
    else if |s| >= 4 && 0xF0 <= s[0] < 0xF5 && Tail(s[1]) && Tail(s[2]) && Tail(s[3])
         && (s[0] == 0xF0 ==> s[1] >= 0x90) && (s[0] == 0xF4 ==> s[1] < 0x90) then 4
    else 0
  }

  predicate ValidUtf8(s: Data) {
    s == [] || (Lead(s) > 0 && ValidUtf8(s[Lead(s)..]))
  }

  function Bits(s: Data, i: nat, mark: nat): nat
    requires i < |s| && mark <= s[i]
  {
    s[i] - mark
  }

  /** The scalar value of a character's bytes. */
  function Decoded(s: Data): nat
    requires Lead(s) > 0
  {
    match Lead(s)
    case 1 => s[0]
    case 2 => Bits(s, 0, 0xC0) * 0x40 + Bits(s, 1, 0x80)
    case 3 => (Bits(s, 0, 0xE0) * 0x40 + Bits(s, 1, 0x80)) * 0x40 + Bits(s, 2, 0x80)
    case _ => ((Bits(s, 0, 0xF0) * 0x40 + Bits(s, 1, 0x80)) * 0x40 + Bits(s, 2, 0x80)) * 0x40 + Bits(s, 3, 0x80)
  }

  lemma Undigit(a: nat, b: nat, c: nat, d: nat)
    requires b < 0x40 && c < 0x40 && d < 0x40
    ensures var n := ((a * 0x40 + b) * 0x40 + c) * 0x40 + d;
      n / 0x40000 == a && n / 0x1000 % 0x40 == b && n / 0x40 % 0x40 == c && n % 0x40 == d
  {
    var k := a * 0x40 + b;
    var m := k * 0x40 + c;
    var n := m * 0x40 + d;
    ModUnique(n, 0x40, m, d);
    ModUnique(m, 0x40, k, c);
    ModUnique(k, 0x40, a, b);
    ModUnique(n, 0x1000, k, c * 0x40 + d);
    ModUnique(n, 0x40000, a, b * 0x1000 + c * 0x40 + d);
  }

  lemma FourDecode(s: Data)
    requires Lead(s) == 4
    ensures Scalar(Decoded(s)) && Encoded(Decoded(s)) == s[..4]
  {
    Undigit(Bits(s, 0, 0xF0), Bits(s, 1, 0x80), Bits(s, 2, 0x80), Bits(s, 3, 0x80));
    assert 0x10000 <= Decoded(s) < 0x110000;
  }

  lemma ThreeDecode(s: Data)
    requires Lead(s) == 3
    ensures Scalar(Decoded(s)) && Encoded(Decoded(s)) == s[..3]
  {
    Undigit(0, Bits(s, 0, 0xE0), Bits(s, 1, 0x80), Bits(s, 2, 0x80));
    assert 0x800 <= Decoded(s) < 0x10000;
  }

  lemma LeadDecodes(s: Data)
    requires Lead(s) > 0
    ensures Scalar(Decoded(s)) && Encoded(Decoded(s)) == s[..Lead(s)]
  {
    if Lead(s) == 4 {
      FourDecode(s);
    } else if Lead(s) == 3 {
      ThreeDecode(s);
    } else if Lead(s) == 2 {
      Undigit(0, 0, Bits(s, 0, 0xC0), Bits(s, 1, 0x80));
    }
  }

  lemma FourLead(c: nat)
    requires 0x10000 <= c < 0x110000
    ensures Lead(Encoded(c)) == 4
  {
    Digits(c);
    assert 0x10 <= c / 0x1000 < 0x110;
  }

  lemma ThreeLead(c: nat)
    requires Scalar(c) && 0x800 <= c < 0x10000
    ensures Lead(Encoded(c)) == 3
  {
    Digits(c);
    assert 0x20 <= c / 0x40 < 0x400 && !(0x360 <= c / 0x40 < 0x380);
  }

  lemma EncodedLead(c: nat)
    requires Scalar(c)
    ensures Lead(Encoded(c)) == |Encoded(c)|
  {
    if c >= 0x10000 {
      FourLead(c);
    } else if c >= 0x800 {
      ThreeLead(c);
    }
  }

  lemma LeadExtends(e: Data, t: Data)
    requires Lead(e) == |e| > 0
    ensures Lead(e + t) == |e|
  {
    var s := e + t;
    assert forall i :: 0 <= i < |e| ==> s[i] == e[i];
  }

  lemma LeadOfEncoded(c: nat, t: Data)
    requires Scalar(c)
    ensures Lead(Encoded(c) + t) == |Encoded(c)|
  {
    EncodedLead(c);
    LeadExtends(Encoded(c), t);
  }

  lemma TextStep(s: Data, rest: seq<nat>)
    requires Lead(s) > 0 && Scalars(rest) && Text(rest) == s[Lead(s)..]
    ensures Scalar(Decoded(s))
    ensures var cs := [Decoded(s)] + rest; Scalars(cs) && Text(cs) == s
  {
    LeadDecodes(s);
    var cs := [Decoded(s)] + rest;
    assert cs[1..] == rest;
    assert s == s[..Lead(s)] + s[Lead(s)..];
  }

  /** The check accepts exactly the encodings of scalar value sequences. */
  lemma {:induction false} ValidIsText(s: Data) returns (cs: seq<nat>)
    requires ValidUtf8(s)
    ensures Scalars(cs) && Text(cs) == s
    decreases |s|
  {
    if s == [] {
      cs := [];
    } else {
      var rest := ValidIsText(s[Lead(s)..]);
      TextStep(s, rest);
      cs := [Decoded(s)] + rest;
    }
  }

  lemma {:induction false} TextIsValid(cs: seq<nat>)
    requires Scalars(cs)
    ensures ValidUtf8(Text(cs))
  {
    if cs != [] {
      TextIsValid(cs[1..]);
      LeadOfEncoded(cs[0], Text(cs[1..]));
      var s := Text(cs);
      assert s[|Encoded(cs[0])|..] == Text(cs[1..]);
    }
  }
}
