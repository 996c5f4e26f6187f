/**
 Segment file names.  A segment with base offset b lives in two files whose
 names are b in decimal, zero-padded to 20 digits, with extension log or idx.
 Recovery and cold lookup rebuild base offsets from a directory listing.
 */
module FileNames {
  import opened Bytes

  predicate IsDigit(c: char) {
    '0' <= c <= '9'
  }

  predicate AllDigits(s: string) {
    forall i :: 0 <= i < |s| ==> IsDigit(s[i])
  }

  function Digit(d: nat): (c: char)
    requires d < 10
    ensures IsDigit(c) && c as int - '0' as int == d
  {
    ('0' as int + d) as char
  }

  function Pow10(w: nat): (p: nat)
    ensures p > 0
  {
    if w == 0 then 1 else 10 * Pow10(w - 1)
  }

  /** `n` in exactly `w` decimal digits, zero-padded (`{:020}` for w = 20). */
  function Decimal(n: nat, w: nat): (s: string)
    ensures |s| == w
    decreases w, n
  {
    if w == 0 then [] else Decimal(n / 10, w - 1) + [Digit(n % 10)]
  }

  function DigitsValue(s: string): nat
    requires AllDigits(s)
  {
    if s == [] then 0
    else DigitsValue(s[..|s| - 1]) * 10 + (s[|s| - 1] as int - '0' as int)
  }

  /** Width of the number in a segment file name. */
  const NAME_DIGITS: nat := 20

  /** Rust's `str::parse::<u64>`: an optional plus sign, at least one digit,
      nothing else, and a value that fits. */
  function ParseU64(s: string): Option<nat> {
    var digits := if s != [] && s[0] == '+' then s[1..] else s;
    if digits != [] && AllDigits(digits) && DigitsValue(digits) < U64
    then Some(DigitsValue(digits))
    else None
  }

  /** A segment's two files. */
  datatype FileId = LogFile(base: nat) | IdxFile(base: nat)

  /** The name a file has on disk. */
  function FileName(f: FileId): (s: string)
    ensures |s| == 24
  {
    Decimal(f.base, NAME_DIGITS) + if f.LogFile? then ".log" else ".idx"
  }

  /** The base offset a directory entry stands for, if any.  Extension `log` and
      a 20-byte stem together mean: 24 characters ending in ".log". */
  function ScanName(name: string): Option<nat> {
    if |name| == 24 && name[20..] == ".log" then ParseU64(name[..20]) else None
  }

  lemma {:induction false} DecimalValue(n: nat, w: nat)
    requires n < Pow10(w)
    ensures AllDigits(Decimal(n, w)) && DigitsValue(Decimal(n, w)) == n
    decreases w
  {
    if w > 0 {
      DecimalValue(n / 10, w - 1);
      var s := Decimal(n, w);
      assert s[..|s| - 1] == Decimal(n / 10, w - 1);
    }
  }

  lemma U64FitsTwentyDigits()
    ensures U64 <= Pow10(20)
  {
    assert Pow10(4) == 10 * (10 * (10 * (10 * Pow10(0))));
    assert Pow10(8) == 10 * (10 * (10 * (10 * Pow10(4))));
    assert Pow10(12) == 10 * (10 * (10 * (10 * Pow10(8))));
    assert Pow10(16) == 10 * (10 * (10 * (10 * Pow10(12))));
    assert Pow10(20) == 10 * (10 * (10 * (10 * Pow10(16))));
  }

  /** Names convert back and forth without loss for every u64 base offset; only
      log files stand for segments. */
  lemma NameRoundTrip(f: FileId)
    requires f.base < U64
    ensures ScanName(FileName(f)) == if f.LogFile? then Some(f.base) else None
    ensures f.IdxFile? ==> FileName(f)[..20] + ".log" == FileName(LogFile(f.base))
  {
    U64FitsTwentyDigits();
    DecimalValue(f.base, NAME_DIGITS);
    var s, name := Decimal(f.base, NAME_DIGITS), FileName(f);
    assert name[..20] == s && name[20..] == if f.LogFile? then ".log" else ".idx";
    assert IsDigit(s[0]);
    if f.IdxFile? {
      assert name[21] == 'i';
    }
  }

  /** Distinct files have distinct names. */
  lemma DivDivTen(n: nat, p: nat)
    requires p > 0
    ensures n / 10 / p == n / (10 * p)
  {
    var q, r := n / 10, n % 10;
    var a, b := q / p, q % p;
    assert n == 10 * (p * a + b) + r == (10 * p) * a + (10 * b + r);
    assert b <= p - 1;
    ModUnique(n, 10 * p, a, 10 * b + r);
  }

  lemma {:induction false} DecimalDigit(n: nat, w: nat, i: nat)
    requires i < w
    ensures Decimal(n, w)[i] == Digit(n / Pow10(w - 1 - i) % 10)
    decreases w
  {
    if i < w - 1 {
      DecimalDigit(n / 10, w - 1, i);
      DivDivTen(n, Pow10(w - 2 - i));
    }
  }

  /** A name is 20 decimal digits of the base offset, the most significant first, and
      the extension. */
  lemma NameLayout(f: FileId, i: nat)
    requires i < 20
    ensures FileName(f)[i] == Digit(f.base / Pow10(19 - i) % 10)
    ensures FileName(f)[20..] == if f.LogFile? then ".log" else ".idx"
  {
    DecimalDigit(f.base, 20, i);
  }

  lemma NamesDistinct(f: FileId, g: FileId)
    requires f.base < U64 && g.base < U64 && FileName(f) == FileName(g)
    ensures f == g
  {
    NameRoundTrip(f);
    NameRoundTrip(g);
    NameRoundTrip(LogFile(f.base));
    NameRoundTrip(LogFile(g.base));
  }
}
