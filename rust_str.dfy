/**
  The parts of Rust's `str` and integer parsing that the event decoders rely on:
  `find` / `split_once` (leftmost occurrence), `split(char)` collected into a
  vector, `join`, and `str::parse::<u8>` / `str::parse::<u32>`.

  Rust strings are UTF-8 and are sliced by byte offsets; every separator the
  decoders look for (">>", ",") is ASCII, so splitting a sequence of characters
  at those separators yields the same pieces.
 */
module RustStr {

  datatype Option<+T> = None | Some(value: T)

  datatype Result<+T, +E> = Ok(value: T) | Err(error: E)

  /** Largest values of Rust's `u8` and `u32`. */
  const U8_MAX: nat := 0xFF
  const U32_MAX: nat := 0xFFFF_FFFF

  type U8 = n: nat | n <= U8_MAX
  type U32 = n: nat | n <= U32_MAX

  // ---------------------------------------------------------------------------
  // Searching for a pattern
  // ---------------------------------------------------------------------------

  /** `pat` occurs in `s` starting at index `i`. */
  predicate OccursAt(s: string, pat: string, i: nat)
  {
    i + |pat| <= |s| && s[i..i + |pat|] == pat
  }

  /** `s.contains(pat)` */
  predicate Contains(s: string, pat: string)
  {
    exists i: nat :: i <= |s| && OccursAt(s, pat, i)
  }

  /** An occurrence at index j >= 1 of `s` is an occurrence at j - 1 of `s[1..]`. */
  lemma OccursAtTail(s: string, pat: string)
    requires |s| > 0
    ensures forall j: nat :: 1 <= j ==> (OccursAt(s, pat, j) <==> OccursAt(s[1..], pat, j - 1))
  {
    forall j: nat | 1 <= j
      ensures OccursAt(s, pat, j) <==> OccursAt(s[1..], pat, j - 1)
    {
      if j + |pat| <= |s| {
        var here, there := s[j..j + |pat|], s[1..][j - 1..j - 1 + |pat|];
        assert forall k :: 0 <= k < |here| ==> here[k] == there[k];
        assert here == there;
      }
    }
  }

  /** `s.find(pat)`: the index of the leftmost occurrence of a non-empty pattern. */
  function Find(s: string, pat: string): (r: Option<nat>)
    requires pat != ""
    ensures r.None? <==> !Contains(s, pat)
    ensures r.Some? ==> OccursAt(s, pat, r.value)
    ensures r.Some? ==> forall j: nat :: j < r.value ==> !OccursAt(s, pat, j)
    decreases |s|
  {
    if |s| < |pat| then
      None
    else if s[..|pat|] == pat then
      assert OccursAt(s, pat, 0);
      Some(0)
    else
      OccursAtTail(s, pat);
      assert !OccursAt(s, pat, 0);
      match Find(s[1..], pat)
      case None => None
      case Some(i) =>
        assert OccursAt(s, pat, i + 1);
        Some(i + 1)
  }

  /**
    `s.split_once(pat)`: the text before and the text after the leftmost
    occurrence of `pat`, or None when `pat` does not occur.
   */
  function SplitOnce(s: string, pat: string): (r: Option<(string, string)>)
    requires pat != ""
    ensures r.None? <==> !Contains(s, pat)
    ensures r.Some? ==> r.value.0 + pat + r.value.1 == s
    ensures r.Some? ==> !Contains(r.value.0, pat)
    ensures r.Some? ==> forall j: nat :: j < |r.value.0| ==> !OccursAt(s, pat, j)
  {
    match Find(s, pat)
    case None => None
    case Some(i) =>
      var before, after := s[..i], s[i + |pat|..];
      assert before + pat + after == s by {
        assert s == s[..i] + s[i..i + |pat|] + s[i + |pat|..];
      }
      PrefixOccurrence(before, pat, after);
      Some((before, after))
  }

  /** An occurrence of `pat` inside the prefix `a` of `s` is an occurrence in `s`. */
  lemma PrefixOccurrence(a: string, pat: string, b: string)
    requires pat != ""
    ensures forall j: nat :: OccursAt(a, pat, j) ==> OccursAt(a + pat + b, pat, j) && j < |a|
  {
    var s := a + pat + b;
    forall j: nat | OccursAt(a, pat, j)
      ensures OccursAt(s, pat, j) && j < |a|
    {
      assert s[j..j + |pat|] == a[j..j + |pat|];
    }
  }

  /**
    `split_once` is characterised by its result alone: it returns `(a, b)`
    exactly when `s` is `a`, the pattern, then `b`, and the pattern does not
    start anywhere inside `a`.
   */
  lemma SplitOnceIff(s: string, pat: string, a: string, b: string)
    requires pat != ""
    ensures SplitOnce(s, pat) == Some((a, b)) <==>
              s == a + pat + b && forall j: nat :: j < |a| ==> !OccursAt(s, pat, j)
  {
    if s == a + pat + b && forall j: nat :: j < |a| ==> !OccursAt(s, pat, j) {
      assert s[|a|..|a| + |pat|] == pat;
      assert OccursAt(s, pat, |a|);
      var i := Find(s, pat).value;
      assert i == |a|;
      assert s[..i] == a && s[i + |pat|..] == b;
    }
    if SplitOnce(s, pat) == Some((a, b)) {
      var i := Find(s, pat).value;
      assert s[..i] == a;
    }
  }

  /** When the pattern's first character is absent from `a`, `a` is the text before it. */
  lemma SplitOnceAt(a: string, pat: string, b: string)
    requires pat != "" && pat[0] !in a
    ensures SplitOnce(a + pat + b, pat) == Some((a, b))
  {
    var s := a + pat + b;
    forall j: nat | j < |a|
      ensures !OccursAt(s, pat, j)
    {
      assert s[j] == a[j] != pat[0];
      OccursAtStart(s, pat, j);
    }
    SplitOnceIff(s, pat, a, b);
  }

  /** An occurrence starts with the pattern's first character. */
  lemma OccursAtStart(s: string, pat: string, j: nat)
    requires pat != ""
    ensures OccursAt(s, pat, j) ==> j < |s| && s[j] == pat[0]
  {
    if OccursAt(s, pat, j) {
      assert s[j..j + |pat|][0] == s[j];
    }
  }

  /** A pattern whose first character is absent from `s` does not occur in it. */
  lemma FirstCharAbsent(s: string, pat: string)
    requires pat != "" && pat[0] !in s
    ensures !Contains(s, pat)
  {
    forall j: nat | j <= |s|
      ensures !OccursAt(s, pat, j)
    {
      OccursAtStart(s, pat, j);
    }
  }

  /** A one-character pattern occurs exactly when the character does. */
  lemma ContainsChar(s: string, c: char)
    ensures Contains(s, [c]) <==> c in s
  {
    if c in s {
      var i :| 0 <= i < |s| && s[i] == c;
      assert OccursAt(s, [c], i);
    }
    if Contains(s, [c]) {
      var i: nat :| i <= |s| && OccursAt(s, [c], i);
      assert s[i] == s[i..i + 1][0];
    }
  }

  // ---------------------------------------------------------------------------
  // Splitting at every occurrence of a character, and joining
  // ---------------------------------------------------------------------------

  /** `s.split(c).collect::<Vec<&str>>()`: the pieces between the occurrences of `c`. */
  function Split(s: string, c: char): (parts: seq<string>)
    ensures |parts| >= 1
    decreases |s|
  {
    match SplitOnce(s, [c])
    case None => [s]
    case Some((before, after)) =>
      assert |after| < |s| by { assert s == before + [c] + after; }
      [before] + Split(after, c)
  }

  /** Splitting once at a character: the character is absent from the text before it. */
  lemma SplitOnceChar(s: string, c: char)
    ensures SplitOnce(s, [c]).None? <==> c !in s
    ensures SplitOnce(s, [c]).Some? ==>
              var (before, after) := SplitOnce(s, [c]).value;
              before + [c] + after == s && c !in before && |after| < |s|
  {
    ContainsChar(s, c);
    if SplitOnce(s, [c]).Some? {
      ContainsChar(SplitOnce(s, [c]).value.0, c);
    }
  }

  /** One more piece than there are occurrences of `c`. */
  lemma {:induction false} SplitCount(s: string, c: char)
    ensures |Split(s, c)| == multiset(s)[c] + 1
    decreases |s|
  {
    SplitOnceChar(s, c);
    if c in s {
      var (before, after) := SplitOnce(s, [c]).value;
      assert multiset(s) == multiset(before) + multiset([c]) + multiset(after) by {
        assert s == before + [c] + after;
      }
      SplitCount(after, c);
    } else {
      assert multiset(s)[c] == 0;
    }
  }

  /** No piece of a split contains the separator. */
  lemma {:induction false} SplitPieces(s: string, c: char)
    ensures forall k :: 0 <= k < |Split(s, c)| ==> c !in Split(s, c)[k]
    decreases |s|
  {
    SplitOnceChar(s, c);
    if c in s {
      var (before, after) := SplitOnce(s, [c]).value;
      SplitPieces(after, c);
      var parts, rest := Split(s, c), Split(after, c);
      assert parts == [before] + rest;
      forall k | 0 <= k < |parts|
        ensures c !in parts[k]
      {
        if k > 0 {
          assert parts[k] == rest[k - 1];
        }
      }
    }
  }

  /** One more piece than there are occurrences of `c`, and no piece contains `c`. */
  lemma SplitSpec(s: string, c: char)
    ensures |Split(s, c)| == multiset(s)[c] + 1
    ensures forall k :: 0 <= k < |Split(s, c)| ==> c !in Split(s, c)[k]
  {
    SplitCount(s, c);
    SplitPieces(s, c);
  }

  /** `parts.join(sep)` */
  function Join(parts: seq<string>, sep: string): string
  {
    if |parts| == 0 then ""
    else if |parts| == 1 then parts[0]
    else parts[0] + sep + Join(parts[1..], sep)
  }

  /** Joining the pieces of a split with the separator gives back the text. */
  lemma {:induction false} JoinSplit(s: string, c: char)
    ensures Join(Split(s, c), [c]) == s
    decreases |s|
  {
    ContainsChar(s, c);
    match SplitOnce(s, [c])
    case None =>
    case Some((before, after)) =>
      JoinSplit(after, c);
  }

  /** Splitting a join of separator-free pieces gives back the pieces. */
  lemma {:induction false} SplitJoin(parts: seq<string>, c: char)
    requires |parts| >= 1
    requires forall k :: 0 <= k < |parts| ==> c !in parts[k]
    ensures Split(Join(parts, [c]), c) == parts
  {
    if |parts| == 1 {
      ContainsChar(parts[0], c);
    } else {
      SplitOnceAt(parts[0], [c], Join(parts[1..], [c]));
      SplitJoin(parts[1..], c);
    }
  }

  // ---------------------------------------------------------------------------
  // Unsigned integers in decimal
  // ---------------------------------------------------------------------------

  predicate IsDigit(ch: char)
  {
    '0' <= ch <= '9'
  }

  predicate AllDigits(s: string)
  {
    forall k :: 0 <= k < |s| ==> IsDigit(s[k])
  }

  function DigitValue(ch: char): nat
    requires IsDigit(ch)
  {
    ch as int - '0' as int
  }

  function DigitChar(d: nat): char
    requires d < 10
  {
    ('0' as int + d) as char
  }

  /** The value of a string of decimal digits, most significant first. */
  function DigitsValue(ds: string): nat
    requires AllDigits(ds)
    decreases |ds|
  {
    if ds == [] then 0 else DigitsValue(ds[..|ds| - 1]) * 10 + DigitValue(ds[|ds| - 1])
  }

  /**
    `s.parse::<uN>()` for the unsigned type whose largest value is `max`: an
    optional leading '+', then one or more ASCII digits (leading zeros allowed)
    whose value is at most `max`; anything else is an error (None).
   */
  function ParseUInt(s: string, max: nat): (r: Option<nat>)
    ensures r.Some? ==> r.value <= max
  {
    match DecimalValue(Unsigned(s))
    case None => None
    case Some(v) => if v <= max then Some(v) else None
  }

  /** `s` without the one leading '+' that `parse` accepts for unsigned types. */
  function Unsigned(s: string): string
  {
    if |s| > 0 && s[0] == '+' then s[1..] else s
  }

  /** The value of a non-empty string of ASCII digits, scanned left to right; None if any is not a digit. */
  function DecimalValue(ds: string): Option<nat>
    decreases |ds|
  {
    if ds == [] || !IsDigit(ds[|ds| - 1]) then None
    else if |ds| == 1 then Some(DigitValue(ds[0]))
    else
      match DecimalValue(ds[..|ds| - 1])
      case None => None
      case Some(v) => Some(v * 10 + DigitValue(ds[|ds| - 1]))
  }

  /** The scan accepts exactly the non-empty digit strings, with the value `DigitsValue` gives. */
  lemma {:induction false} DecimalValueSpec(ds: string)
    ensures DecimalValue(ds) == if ds != [] && AllDigits(ds) then Some(DigitsValue(ds)) else None
    decreases |ds|
  {
    if ds != [] && IsDigit(ds[|ds| - 1]) {
      var init := ds[..|ds| - 1];
      DecimalValueSpec(init);
      assert AllDigits(ds) <==> AllDigits(init) by {
        assert forall k :: 0 <= k < |init| ==> init[k] == ds[k];
      }
      if |ds| == 1 {
        assert AllDigits(ds);
        assert DigitsValue(init) == 0;
      }
    }
  }

  /** The canonical decimal text of `n` (what `n.to_string()` writes). */
  function ToDecimal(n: nat): string
    decreases n
  {
    if n < 10 then [DigitChar(n)] else ToDecimal(n / 10) + [DigitChar(n % 10)]
  }

  /** `k` ASCII zeros. */
  function Zeros(k: nat): (z: string)
    ensures |z| == k && AllDigits(z)
  {
    seq(k, _ => '0')
  }

  /** The decimal text of `n` is a non-empty digit string without a redundant leading zero, of value `n`. */
  lemma {:induction false} ToDecimalValue(n: nat)
    ensures ToDecimal(n) != [] && AllDigits(ToDecimal(n))
    ensures ToDecimal(n)[0] != '0' || n == 0
    ensures DigitsValue(ToDecimal(n)) == n
    decreases n
  {
    if n >= 10 {
      ToDecimalValue(n / 10);
      var ds := ToDecimal(n);
      assert ds[..|ds| - 1] == ToDecimal(n / 10);
    }
  }

  /** Leading zeros do not change the value of a digit string. */
  lemma {:induction false} ZerosValue(k: nat, ds: string)
    requires AllDigits(ds)
    ensures AllDigits(Zeros(k) + ds)
    ensures DigitsValue(Zeros(k) + ds) == DigitsValue(ds)
    decreases |ds|
  {
    var s := Zeros(k) + ds;
    if ds == [] {
      assert s == Zeros(k);
      AllZerosValue(k);
    } else {
      assert s[..|s| - 1] == Zeros(k) + ds[..|ds| - 1];
      ZerosValue(k, ds[..|ds| - 1]);
    }
  }

  lemma {:induction false} AllZerosValue(k: nat)
    ensures DigitsValue(Zeros(k)) == 0
  {
    if k > 0 {
      assert Zeros(k)[..k - 1] == Zeros(k - 1);
      AllZerosValue(k - 1);
    }
  }

  /** A digit string that starts with a non-zero digit has a positive value. */
  lemma {:induction false} LeadingNonZeroPositive(ds: string)
    requires ds != [] && AllDigits(ds) && ds[0] != '0'
    ensures DigitsValue(ds) > 0
    decreases |ds|
  {
    if |ds| > 1 {
      LeadingNonZeroPositive(ds[..|ds| - 1]);
    }
  }

  /** A digit string without a redundant leading zero is the decimal text of its value. */
  lemma {:induction false} CanonicalDigits(ds: string)
    requires ds != [] && AllDigits(ds) && (ds[0] != '0' || |ds| == 1)
    ensures ToDecimal(DigitsValue(ds)) == ds
    decreases |ds|
  {
    if |ds| > 1 {
      var init := ds[..|ds| - 1];
      LeadingNonZeroPositive(init);
      CanonicalDigits(init);
      var n := DigitsValue(ds);
      assert n / 10 == DigitsValue(init) && n % 10 == DigitValue(ds[|ds| - 1]);
      assert ds == init + [ds[|ds| - 1]];
    }
  }

  /** Every non-empty digit string is some zeros followed by the decimal text of its value. */
  lemma {:induction false} DigitsShape(ds: string) returns (k: nat)
    requires ds != [] && AllDigits(ds)
    ensures ds == Zeros(k) + ToDecimal(DigitsValue(ds))
    decreases |ds|
  {
    if ds[0] != '0' || |ds| == 1 {
      CanonicalDigits(ds);
      k := 0;
      assert Zeros(0) + ds == ds;
    } else {
      var rest := ds[1..];
      var k' := DigitsShape(rest);
      assert ds == Zeros(1) + rest;
      ZerosValue(1, rest);
      k := k' + 1;
      assert Zeros(k) == Zeros(1) + Zeros(k');
    }
  }

  /** The optional sign `parse` accepts in front of the digits. */
  function Sign(plus: bool): string
  {
    if plus then "+" else ""
  }

  /**
    `parse` accepts the decimal text of any value up to `max`, with an optional
    '+' and any number of leading zeros, and rejects the same text for a value
    above `max`.
   */
  lemma ParseUIntDecimal(plus: bool, k: nat, n: nat, max: nat)
    ensures ParseUInt(Sign(plus) + Zeros(k) + ToDecimal(n), max) == if n <= max then Some(n) else None
  {
    var digits := Zeros(k) + ToDecimal(n);
    assert DecimalValue(digits) == Some(n) && IsDigit(digits[0]) by {
      ToDecimalValue(n);
      ZerosValue(k, ToDecimal(n));
      DecimalValueSpec(digits);
    }
    UnsignedOfSigned(plus, Zeros(k), ToDecimal(n));
  }

  /** `Unsigned` strips exactly the sign written in front of digits. */
  lemma UnsignedOfSigned(plus: bool, zeros: string, digits: string)
    requires zeros + digits != [] && (zeros + digits)[0] != '+'
    ensures Unsigned(Sign(plus) + zeros + digits) == zeros + digits
  {
    var s := Sign(plus) + zeros + digits;
    assert s == Sign(plus) + (zeros + digits);
    if plus {
      assert s[1..] == zeros + digits;
    }
  }

  /**
    Every text `parse` accepts is an optional '+', some zeros and the decimal
    text of the value; with ParseUIntDecimal this is exactly the accepted set.
   */
  lemma ParseUIntShape(s: string, max: nat)
    requires ParseUInt(s, max).Some?
    ensures exists plus: bool, k: nat :: s == Sign(plus) + Zeros(k) + ToDecimal(ParseUInt(s, max).value)
  {
    var plus := |s| > 0 && s[0] == '+';
    var digits := Unsigned(s);
    var n := ParseUInt(s, max).value;
    assert digits != [] && AllDigits(digits) && DigitsValue(digits) == n by {
      DecimalValueSpec(digits);
    }
    var k := DigitsShape(digits);
    SignedDigits(s, plus, Zeros(k), ToDecimal(n));
  }

  /** A text is its optional '+' followed by what `Unsigned` leaves. */
  lemma SignedDigits(s: string, plus: bool, zeros: string, digits: string)
    requires plus == (|s| > 0 && s[0] == '+') && Unsigned(s) == zeros + digits
    ensures s == Sign(plus) + zeros + digits
  {
    if plus {
      assert s == [s[0]] + s[1..];
    }
  }

  // ---------------------------------------------------------------------------
  // How `parse::<uN>()` scans, and the error it reports
  // ---------------------------------------------------------------------------

  /** The `IntErrorKind`s an unsigned `parse` can report. */
  datatype IntErrorKind = Empty | InvalidDigit | PosOverflow

  /** The longest run of ASCII digits at the start of `u`. */
  function LeadingDigits(u: string): (d: string)
    ensures AllDigits(d) && |d| <= |u| && d == u[..|d|]
    ensures AllDigits(u) ==> d == u
    decreases |u|
  {
    if u == [] || !IsDigit(u[0]) then [] else [u[0]] + LeadingDigits(u[1..])
  }

  /**
    The error `s.parse::<uN>()` reports when it fails: `Empty` for the empty
    text, `PosOverflow` when the digits it reads before anything else already
    exceed `max`, and `InvalidDigit` for everything else (a lone '+', a '-',
    any other character).
   */
  function ParseIntErrorOf(s: string, max: nat): IntErrorKind
  {
    if s == [] then Empty
    else if DigitsValue(LeadingDigits(Unsigned(s))) > max then PosOverflow
    else InvalidDigit
  }

  /**
    `from_str_radix` for an unsigned type in base 10, the way the standard
    library writes it: the empty text and a lone sign are rejected first, then
    the digits are read left to right, each checked to be a digit and the
    running value checked against `max`, so the first offending character or
    the first overflow decides the error. It agrees with `ParseUInt` and
    reports the error `ParseIntErrorOf` names.
   */
  function FromStrRadix(s: string, max: nat): (r: Result<nat, IntErrorKind>)
    ensures r.Ok? <==> ParseUInt(s, max).Some?
    ensures r.Ok? ==> r.value == ParseUInt(s, max).value
    ensures r.Err? ==> r.error == ParseIntErrorOf(s, max)
  {
    if s == [] then Err(Empty)
    else if s == "+" then
      assert Unsigned(s) == [];
      Err(InvalidDigit)
    else
      var u := Unsigned(s);
      AccumulateSpec(u, 0, max);
      ReadDigitsValue([], LeadingDigits(u));
      assert [] + LeadingDigits(u) == LeadingDigits(u);
      DecimalValueSpec(u);
      AccumulateDigits(u, 0, max)
  }

  /** The digit loop of `from_str_radix`, with the value read so far in `acc`. */
  function AccumulateDigits(ds: string, acc: nat, max: nat): Result<nat, IntErrorKind>
    decreases |ds|
  {
    if ds == [] then Ok(acc)
    else if !IsDigit(ds[0]) then Err(InvalidDigit)
    else if acc * 10 + DigitValue(ds[0]) > max then Err(PosOverflow)
    else AccumulateDigits(ds[1..], acc * 10 + DigitValue(ds[0]), max)
  }

  /** The value the digit loop holds after reading the digits `ds`, starting from `acc`. */
  function ReadDigits(acc: nat, ds: string): nat
    requires AllDigits(ds)
    decreases |ds|
  {
    if ds == [] then acc else ReadDigits(acc * 10 + DigitValue(ds[0]), ds[1..])
  }

  /** Reading more digits never makes the value smaller. */
  lemma {:induction false} ReadDigitsGrows(acc: nat, ds: string)
    requires AllDigits(ds)
    ensures ReadDigits(acc, ds) >= acc
    decreases |ds|
  {
    if ds != [] {
      ReadDigitsGrows(acc * 10 + DigitValue(ds[0]), ds[1..]);
    }
  }

  /** Reading `ds` after the digits `p` gives the value of `p + ds`. */
  lemma {:induction false} ReadDigitsValue(p: string, ds: string)
    requires AllDigits(p) && AllDigits(ds)
    ensures AllDigits(p + ds) && ReadDigits(DigitsValue(p), ds) == DigitsValue(p + ds)
    decreases |ds|
  {
    if ds == [] {
      assert p + ds == p;
    } else {
      var p' := p + [ds[0]];
      assert p'[..|p'| - 1] == p;
      assert p' + ds[1..] == p + ds;
      ReadDigitsValue(p', ds[1..]);
    }
  }

  /**
    The digit loop, started from `acc`, stops at the first overflow of the
    leading digits, otherwise at the first non-digit, and otherwise returns
    the value of all the digits.
   */
  lemma {:induction false} AccumulateSpec(rest: string, acc: nat, max: nat)
    requires acc <= max
    ensures AccumulateDigits(rest, acc, max) ==
              if ReadDigits(acc, LeadingDigits(rest)) > max then Err(PosOverflow)
              else if AllDigits(rest) then Ok(ReadDigits(acc, rest))
              else Err(InvalidDigit)
    decreases |rest|, 1
  {
    if rest == [] {
      assert LeadingDigits(rest) == [] && AllDigits(rest);
    } else if !IsDigit(rest[0]) {
      assert LeadingDigits(rest) == [] && !AllDigits(rest);
    } else {
      AccumulateDigitSpec(rest, acc, max);
    }
  }

  /** `AccumulateSpec` when the loop reads a digit first. */
  lemma {:induction false} AccumulateDigitSpec(rest: string, acc: nat, max: nat)
    requires acc <= max && rest != [] && IsDigit(rest[0])
    ensures AccumulateDigits(rest, acc, max) ==
              if ReadDigits(acc, LeadingDigits(rest)) > max then Err(PosOverflow)
              else if AllDigits(rest) then Ok(ReadDigits(acc, rest))
              else Err(InvalidDigit)
    decreases |rest|, 0
  {
    var acc' := acc * 10 + DigitValue(rest[0]);
    var tail := rest[1..];
    assert ReadDigits(acc, LeadingDigits(rest)) == ReadDigits(acc', LeadingDigits(tail)) by {
      assert LeadingDigits(rest)[1..] == LeadingDigits(tail);
    }
    assert AllDigits(rest) <==> AllDigits(tail) by {
      assert forall k :: 0 <= k < |tail| ==> tail[k] == rest[k + 1];
    }
    if acc' > max {
      ReadDigitsGrows(acc', LeadingDigits(tail));
    } else {
      AccumulateSpec(tail, acc', max);
    }
  }
}
