/**
 The key under which a committed offset is stored: group, slash, topic, slash,
 and the partition number as one UTF-8 encoded character (section 3 of
 RFC 3629).  Group and topic are byte strings and may hold anything.
 */
module OffsetKeys {
  import opened Bytes
  import opened Utf8

  const SLASH: byte := 0x2F

  /** What the conversion makes of any other number: the replacement character. */
  function Character(p: nat): nat {
    if Scalar(p) then p else 0xFFFD
  }

  function Rune(p: nat): Data {
    Encoded(Character(p))
  }

  function Key(group: Data, topic: Data, partition: nat): Data {
    group + [SLASH] + topic + [SLASH] + Rune(partition)
  }

  /** Numbers share a character exactly when they are equal or both are no scalar
      value or U+FFFD. */
  lemma RuneIff(p: nat, q: nat)
    ensures Rune(p) == Rune(q) <==> Character(p) == Character(q)
  {
    if Rune(p) == Rune(q) {
      EncodedInjective(Character(p), Character(q));
    }
  }

  /** Group "g", topic "t" and partition 65 give the key "g/t/A"; partition 0x391 ends
      in two bytes, and a number that is no scalar value in U+FFFD. */
  lemma KeyExamples()
    ensures Key([0x67], [0x74], 65) == [0x67, 0x2F, 0x74, 0x2F, 0x41]
    ensures Key([0x67], [0x74], 0x391) == [0x67, 0x2F, 0x74, 0x2F, 0xCE, 0x91]
    ensures Key([0x67], [0x74], 0xD800) == [0x67, 0x2F, 0x74, 0x2F, 0xEF, 0xBF, 0xBD]
  {
  }

  /** No byte of a longer character is a slash. */
  lemma LongRunes(p: nat, i: nat)
    requires i < |Rune(p)| && |Rune(p)| > 1
    ensures Rune(p)[i] >= 0x80
  {
  }

  lemma SameTail(x: Data, a: Data, y: Data, b: Data)
    requires x + [SLASH] + a == y + [SLASH] + b && |a| < |b|
    ensures b[|b| - |a| - 1] == SLASH
  {
    var s, t := x + [SLASH] + a, y + [SLASH] + b;
    var i := |x|;
    assert s[i] == SLASH && |s| == |x| + 1 + |a| && |t| == |y| + 1 + |b|;
    assert i == |y| + 1 + (|b| - |a| - 1);
    assert t[i] == b[i - (|y| + 1)];
  }

  lemma TailsMatch(x: Data, p: nat, y: Data, q: nat)
    requires x + [SLASH] + Rune(p) == y + [SLASH] + Rune(q)
    ensures |Rune(p)| == |Rune(q)|
  {
    var a, b := Rune(p), Rune(q);
    if |a| < |b| {
      SameTail(x, a, y, b);
      LongRunes(q, |b| - |a| - 1);
    } else if |b| < |a| {
      SameTail(y, b, x, a);
      LongRunes(p, |a| - |b| - 1);
    }
  }

  /** When two keys are equal, for all groups, topics and partition numbers. */
  lemma KeysEqualIff(g: Data, t: Data, p: nat, g': Data, t': Data, p': nat)
    ensures Key(g, t, p) == Key(g', t', p') <==>
      g + [SLASH] + t == g' + [SLASH] + t' && Character(p) == Character(p')
  {
    var x, y, a, b := g + [SLASH] + t, g' + [SLASH] + t', Rune(p), Rune(p');
    RuneIff(p, p');
    if Key(g, t, p) == Key(g', t', p') {
      TailsMatch(x, p, y, p');
      assert x == Key(g, t, p)[..|x|] && y == Key(g', t', p')[..|x|];
      assert a == Key(g, t, p)[|x| + 1..] && b == Key(g', t', p')[|x| + 1..];
    }
  }

  /** Group ids without a slash and partition numbers that are scalar values: the
      keys the code can tell apart. */
  predicate Plain(group: Data, partition: nat) {
    SLASH !in group && Scalar(partition)
  }

  lemma SplitAtSlash(g: Data, t: Data, g': Data, t': Data)
    requires SLASH !in g && SLASH !in g' && g + [SLASH] + t == g' + [SLASH] + t'
    ensures g == g' && t == t'
  {
    var s, s' := g + [SLASH] + t, g' + [SLASH] + t';
    assert s[|g|] == SLASH && s'[|g'|] == SLASH;
    assert |g| == |g'|;
    assert g == s[..|g|] && g' == s'[..|g|];
    assert t == s[|g| + 1..] && t' == s'[|g| + 1..];
  }

  /** On those, the key is injective. */
  lemma KeyInjective(g: Data, t: Data, p: nat, g': Data, t': Data, p': nat)
    requires Plain(g, p) && Plain(g', p') && Key(g, t, p) == Key(g', t', p')
    ensures g == g' && t == t' && p == p'
  {
    KeysEqualIff(g, t, p, g', t', p');
    SplitAtSlash(g, t, g', t');
  }

  /** Outside them it is not: a slash in a group id moves the boundary, and all
      partition numbers that are no scalar value share a character. */
  lemma KeysCollide(a: Data, b: Data, c: Data, p: nat, q: nat)
    requires p == q || (!Scalar(p) && !Scalar(q))
    ensures Key(a + [SLASH] + b, c, p) == Key(a, b + [SLASH] + c, q)
  {
    assert (a + [SLASH] + b) + [SLASH] + c == a + [SLASH] + (b + [SLASH] + c);
    KeysEqualIff(a + [SLASH] + b, c, p, a, b + [SLASH] + c, q);
  }
}
