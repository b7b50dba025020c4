/**
 * Version strings and the three ways the detector compares them against a
 * minimum: dotted numeric (`3.6.0`, `2.9.20150512`), a WezTerm build stamp
 * (`20220319-142410-0fcdea07`, only the leading date counts) and a bare build
 * number (`KONSOLE_VERSION=220400`). Anything that does not parse fails the gate.
 */
module Versions {
  import opened Wrappers

  // ---------------------------------------------------------------------------
  // Decimal numbers

  predicate IsDigit(c: char) { '0' <= c <= '9' }

  predicate AllDigits(s: string) { forall i :: 0 <= i < |s| ==> IsDigit(s[i]) }

  /** The value of a run of decimal digits, most significant digit first. */
  function DigitsValue(s: string): (v: nat)
    requires AllDigits(s)
    ensures v < Pow10(|s|)
  {
    if s == [] then 0 else DigitsValue(s[..|s| - 1]) * 10 + (s[|s| - 1] as int - '0' as int)
  }

  /** A non-empty run of decimal digits as a number; anything else does not parse. */
  function ParseNat(s: string): (r: Option<nat>)
    ensures r.Some? ==> s != [] && AllDigits(s) && r.value < Pow10(|s|)
  {
    if s != [] && AllDigits(s) then Some(DigitsValue(s)) else None
  }

  function DigitChar(d: nat): (c: char)
    requires d < 10
    ensures IsDigit(c)
  {
    ('0' as int + d) as char
  }

  /** The shortest decimal rendering of `n`: the inverse of ParseNat. */
  function Decimal(n: nat): (r: string)
    ensures r != [] && AllDigits(r)
  {
    if n < 10 then [DigitChar(n)] else Decimal(n / 10) + [DigitChar(n % 10)]
  }

  lemma {:induction false} DigitsValueOfDecimal(n: nat)
    ensures DigitsValue(Decimal(n)) == n
  {
    if n >= 10 {
      var s := Decimal(n);
      assert s[..|s| - 1] == Decimal(n / 10);
      DigitsValueOfDecimal(n / 10);
    }
  }

  /** Rendering a number and parsing it back gives the number. */
  lemma DecimalRoundTrip(n: nat)
    ensures ParseNat(Decimal(n)) == Some(n)
  {
    DigitsValueOfDecimal(n);
  }

  /** Appending a digit to a rendering multiplies by ten and adds the digit. */
  lemma DecimalAppend(n: nat, d: nat)
    requires n >= 1 && d < 10
    ensures Decimal(10 * n + d) == Decimal(n) + [DigitChar(d)]
  {
  }

  function Pow10(k: nat): (p: nat)
    ensures p >= 1
  {
    if k == 0 then 1 else 10 * Pow10(k - 1)
  }

  /** A number with k digits renders as exactly k characters. */
  lemma {:induction false} DecimalLength(n: nat, k: nat)
    requires k >= 1 && Pow10(k - 1) <= n < Pow10(k)
    ensures |Decimal(n)| == k
  {
    if n >= 10 {
      DecimalLength(n / 10, k - 1);
    }
  }

  // ---------------------------------------------------------------------------
  // Splitting on a separator, as `version.split('.')` does

  /** Concatenation of `parts` with `sep` between neighbours. */
  function Join(parts: seq<string>, sep: char): string
    requires |parts| >= 1
  {
    if |parts| == 1 then parts[0] else parts[0] + [sep] + Join(parts[1..], sep)
  }

  /**
   * The pieces of `s` between occurrences of `sep`. Like JavaScript's
   * `split`, it always yields at least one piece, and adjacent or edge
   * separators yield empty pieces.
   */
  function Split(s: string, sep: char): (parts: seq<string>)
    ensures |parts| >= 1
    ensures forall i :: 0 <= i < |parts| ==> sep !in parts[i]
    ensures Join(parts, sep) == s
  {
    if s == [] then [[]]
    else
      var rest := Split(s[1..], sep);
      if s[0] == sep then
        assert ([[]] + rest)[1..] == rest;
        [[]] + rest
      else
        var parts := [[s[0]] + rest[0]] + rest[1..];
        assert |rest| > 1 ==> parts[1..] == rest[1..];
        parts
  }

  lemma {:induction false} SplitPiece(p: string, sep: char)
    requires sep !in p
    ensures Split(p, sep) == [p]
  {
    if p != [] {
      SplitPiece(p[1..], sep);
    }
  }

  lemma {:induction false} SplitFirst(p: string, sep: char, t: string)
    requires sep !in p
    ensures Split(p + [sep] + t, sep) == [p] + Split(t, sep)
  {
    var s := p + [sep] + t;
    if p == [] {
      assert s[0] == sep && s[1..] == t;
    } else {
      assert s[0] == p[0] && s[1..] == p[1..] + [sep] + t;
      SplitFirst(p[1..], sep, t);
      assert [p[0]] + p[1..] == p;
    }
  }

  /** Splitting undoes joining, provided no piece contains the separator. */
  lemma {:induction false} SplitJoin(parts: seq<string>, sep: char)
    requires |parts| >= 1
    requires forall i :: 0 <= i < |parts| ==> sep !in parts[i]
    ensures Split(Join(parts, sep), sep) == parts
  {
    if |parts| == 1 {
      SplitPiece(parts[0], sep);
    } else {
      SplitFirst(parts[0], sep, Join(parts[1..], sep));
      SplitJoin(parts[1..], sep);
      assert parts == [parts[0]] + parts[1..];
    }
  }

  // ---------------------------------------------------------------------------
  // Dotted numeric versions

  /** Every piece parsed as a number, or None when some piece does not parse. */
  function ParseAll(pieces: seq<string>): (r: Option<seq<nat>>)
    ensures r.Some? ==> |r.value| == |pieces|
    ensures r.Some? ==> forall i :: 0 <= i < |pieces| ==> ParseNat(pieces[i]) == Some(r.value[i])
    ensures r.None? ==> exists i :: 0 <= i < |pieces| && ParseNat(pieces[i]).None?
  {
    if pieces == [] then Some([])
    else
      match ParseNat(pieces[0])
      case None => None
      case Some(n) =>
        match ParseAll(pieces[1..])
        case None => None
        case Some(ns) => Some([n] + ns)
  }

  /** The numeric components of a dotted version such as `2.9.20150512`. */
  function Components(version: string): Option<seq<nat>>
  {
    ParseAll(Split(version, '.'))
  }

  function DecimalAll(c: seq<nat>): (r: seq<string>)
    ensures |r| == |c|
    ensures forall i :: 0 <= i < |c| ==> r[i] == Decimal(c[i])
  {
    if c == [] then [] else [Decimal(c[0])] + DecimalAll(c[1..])
  }

  /** The dotted rendering of a list of components, e.g. [1, 80, 0] as `1.80.0`. */
  function Render(c: seq<nat>): string
    requires |c| >= 1
  {
    Join(DecimalAll(c), '.')
  }

  lemma {:induction false} ParseAllDecimal(c: seq<nat>)
    ensures ParseAll(DecimalAll(c)) == Some(c)
  {
    if c != [] {
      var pieces := DecimalAll(c);
      assert pieces[0] == Decimal(c[0]) && pieces[1..] == DecimalAll(c[1..]);
      DecimalRoundTrip(c[0]);
      ParseAllDecimal(c[1..]);
      assert ParseAll(pieces) == Some([c[0]] + c[1..]);
      assert c == [c[0]] + c[1..];
    }
  }

  /** Rendering components and reading them back gives the same components. */
  lemma ComponentsRoundTrip(c: seq<nat>)
    requires |c| >= 1
    ensures Components(Render(c)) == Some(c)
  {
    var pieces := DecimalAll(c);
    forall i | 0 <= i < |pieces|
      ensures '.' !in pieces[i]
    {
      assert forall j :: 0 <= j < |pieces[i]| ==> IsDigit(pieces[i][j]);
    }
    SplitJoin(pieces, '.');
    ParseAllDecimal(c);
  }

  /** The component at the front, 0 when there are no components left. */
  function Head(a: seq<nat>): nat { if a == [] then 0 else a[0] }

  function Tail(a: seq<nat>): seq<nat> { if a == [] then [] else a[1..] }

  /**
   * `a` is at least `b`: components compared as numbers, most significant
   * first, a missing component counting as 0.
   */
  predicate DottedAtLeast(a: seq<nat>, b: seq<nat>)
    decreases |a| + |b|
  {
    if a == [] && b == [] then true
    else Head(a) > Head(b) || (Head(a) == Head(b) && DottedAtLeast(Tail(a), Tail(b)))
  }

  /** The step DottedAtLeast takes, stated for all arguments, both empty included. */
  lemma DottedAtLeastStep(a: seq<nat>, b: seq<nat>)
    ensures DottedAtLeast(a, b) ==
      (Head(a) > Head(b) || (Head(a) == Head(b) && DottedAtLeast(Tail(a), Tail(b))))
  {
  }

  lemma {:induction false} DottedReflexive(a: seq<nat>)
    ensures DottedAtLeast(a, a)
    decreases |a|
  {
    if a != [] {
      DottedReflexive(Tail(a));
    }
  }

  lemma {:induction false} DottedTransitive(a: seq<nat>, b: seq<nat>, c: seq<nat>)
    requires DottedAtLeast(a, b) && DottedAtLeast(b, c)
    ensures DottedAtLeast(a, c)
    decreases |a| + |b| + |c|
  {
    DottedAtLeastStep(a, b);
    DottedAtLeastStep(b, c);
    DottedAtLeastStep(a, c);
    if !(a == [] && b == [] && c == []) && Head(a) == Head(b) == Head(c) {
      DottedTransitive(Tail(a), Tail(b), Tail(c));
    }
  }

  lemma {:induction false} DottedTotal(a: seq<nat>, b: seq<nat>)
    ensures DottedAtLeast(a, b) || DottedAtLeast(b, a)
    decreases |a| + |b|
  {
    if !(a == [] && b == []) && Head(a) == Head(b) {
      DottedTotal(Tail(a), Tail(b));
    }
  }

  /** `a` is at least `b` and `b` at least `a` exactly when they agree once padded with zeros. */
  lemma {:induction false} DottedAntisymmetric(a: seq<nat>, b: seq<nat>)
    requires DottedAtLeast(a, b) && DottedAtLeast(b, a)
    ensures Pad(a, Max(|a|, |b|)) == Pad(b, Max(|a|, |b|))
    decreases |a| + |b|
  {
    var n := Max(|a|, |b|);
    if n > 0 {
      DottedAntisymmetric(Tail(a), Tail(b));
      PadStep(a, n);
      PadStep(b, n);
      assert Max(|Tail(a)|, |Tail(b)|) == n - 1;
      var pa, pb := Pad(a, n), Pad(b, n);
      assert pa == [pa[0]] + pa[1..];
      assert pb == [pb[0]] + pb[1..];
    }
  }

  // A reference definition: the lexicographic order of the zero-padded components.

  function Max(x: nat, y: nat): nat { if x >= y then x else y }

  /** `a` extended with zeros to length `n`. */
  function Pad(a: seq<nat>, n: nat): (p: seq<nat>)
    requires |a| <= n
    ensures |p| == n
  {
    seq(n, i requires 0 <= i < n => if i < |a| then a[i] else 0)
  }

  /** Of two sequences of one length: equal, or `x` larger at the first place they differ. */
  ghost predicate LexGeq(x: seq<nat>, y: seq<nat>)
    requires |x| == |y|
  {
    x == y || exists k :: 0 <= k < |x| && x[k] > y[k] && forall j :: 0 <= j < k ==> x[j] == y[j]
  }

  /** Padded to `n`, `a` is lexicographically at least `b`. */
  ghost predicate LexAtLeast(a: seq<nat>, b: seq<nat>, n: nat)
    requires |a| <= n && |b| <= n
  {
    LexGeq(Pad(a, n), Pad(b, n))
  }

  lemma PadStep(a: seq<nat>, n: nat)
    requires |a| <= n && n > 0
    ensures Pad(a, n)[0] == Head(a)
    ensures |Tail(a)| <= n - 1 && Pad(a, n)[1..] == Pad(Tail(a), n - 1)
  {
  }

  lemma LexGeqFirst(x: seq<nat>, y: seq<nat>)
    requires |x| == |y| > 0 && LexGeq(x, y)
    ensures x[0] > y[0] || (x[0] == y[0] && LexGeq(x[1..], y[1..]))
  {
    if x != y && x[0] <= y[0] {
      var k :| 0 <= k < |x| && x[k] > y[k] && forall j :: 0 <= j < k ==> x[j] == y[j];
      assert k > 0;
      assert x[1..][k - 1] > y[1..][k - 1];
    }
  }

  lemma LexGeqFromFirst(x: seq<nat>, y: seq<nat>)
    requires |x| == |y| > 0
    requires x[0] > y[0] || (x[0] == y[0] && LexGeq(x[1..], y[1..]))
    ensures LexGeq(x, y)
  {
    if x[0] > y[0] {
      assert LexGeq(x, y) by {
        var k := 0;
        assert 0 <= k < |x| && x[k] > y[k];
      }
    } else if x[1..] == y[1..] {
      assert x == [x[0]] + x[1..] && y == [y[0]] + y[1..];
    } else {
      var k :| 0 <= k < |x| - 1 && x[1..][k] > y[1..][k] && forall j :: 0 <= j < k ==> x[1..][j] == y[1..][j];
      assert x[k + 1] > y[k + 1];
      assert forall j :: 0 <= j < k + 1 ==> x[j] == y[j] by {
        forall j | 0 <= j < k + 1 ensures x[j] == y[j] {
          if j > 0 { assert x[j] == x[1..][j - 1] && y[j] == y[1..][j - 1]; }
        }
      }
    }
  }

  lemma LexAtLeastStep(a: seq<nat>, b: seq<nat>, n: nat)
    requires |a| <= n && |b| <= n && n > 0
    ensures |Tail(a)| <= n - 1 && |Tail(b)| <= n - 1
    ensures LexAtLeast(a, b, n) <==>
      Head(a) > Head(b) || (Head(a) == Head(b) && LexAtLeast(Tail(a), Tail(b), n - 1))
  {
    PadStep(a, n);
    PadStep(b, n);
    var pa, pb := Pad(a, n), Pad(b, n);
    if LexGeq(pa, pb) {
      LexGeqFirst(pa, pb);
    }
    if pa[0] > pb[0] || (pa[0] == pb[0] && LexGeq(pa[1..], pb[1..])) {
      LexGeqFromFirst(pa, pb);
    }
  }

  /**
   * DottedAtLeast is the lexicographic order of the components, most
   * significant first, once both are padded with zeros to any common length.
   */
  lemma {:induction false} DottedIsLexicographic(a: seq<nat>, b: seq<nat>, n: nat)
    requires |a| <= n && |b| <= n
    ensures DottedAtLeast(a, b) <==> LexAtLeast(a, b, n)
  {
    DottedAtLeastStep(a, b);
    if n == 0 {
      assert Pad(a, n) == Pad(b, n);
    } else {
      LexAtLeastStep(a, b, n);
      DottedIsLexicographic(Tail(a), Tail(b), n - 1);
    }
  }

  /** Trailing zero components do not change a comparison: `1.80` reads as `1.80.0`. */
  lemma {:induction false} DottedTrailingZero(a: seq<nat>, b: seq<nat>)
    ensures DottedAtLeast(a + [0], b) == DottedAtLeast(a, b)
    ensures DottedAtLeast(b, a + [0]) == DottedAtLeast(b, a)
    decreases |a| + |b|
  {
    DottedAtLeastStep(a + [0], b);
    DottedAtLeastStep(a, b);
    DottedAtLeastStep(b, a + [0]);
    DottedAtLeastStep(b, a);
    if a == [] {
      assert Tail([0]) == [];
      DottedZeros(Tail(b));
    } else {
      assert Tail(a + [0]) == Tail(a) + [0];
      DottedTrailingZero(Tail(a), Tail(b));
    }
  }

  /** An empty list of components sits level with any list of zeros. */
  lemma {:induction false} DottedZeros(b: seq<nat>)
    ensures DottedAtLeast([0], b) == DottedAtLeast([], b)
    ensures DottedAtLeast(b, [0]) == DottedAtLeast(b, [])
    decreases |b|
  {
    DottedAtLeastStep([0], b);
    DottedAtLeastStep([], b);
    DottedAtLeastStep(b, [0]);
    DottedAtLeastStep(b, []);
    assert Tail([0]) == [];
  }

  // ---------------------------------------------------------------------------
  // WezTerm build stamps

  /**
   * The build date of a stamp `YYYYMMDD-HHMMSS-hash`: the leading eight
   * digits, which must end the string or be followed by `-`.
   */
  function DateStamp(version: string): (r: Option<nat>)
    ensures r.Some? ==> |version| >= 8 && r.value < Pow10(8) && ParseNat(version[..8]) == r
  {
    if |version| >= 8 && AllDigits(version[..8]) && (|version| == 8 || version[8] == '-')
    then Some(DigitsValue(version[..8]))
    else None
  }

  /** Only the date counts: whatever follows the first `-` is ignored. */
  lemma DateStampIgnoresRest(date: nat, rest: string)
    requires Pow10(7) <= date < Pow10(8)
    ensures DateStamp(Decimal(date) + "-" + rest) == Some(date)
  {
    DecimalLength(date, 8);
    var d := Decimal(date);
    assert (d + "-" + rest)[..8] == d;
    DigitsValueOfDecimal(date);
  }

  // ---------------------------------------------------------------------------
  // Gates

  /** How a rule compares the version it reads against its minimum. */
  datatype Gate =
    | Dotted(components: seq<nat>)  // `TERM_PROGRAM_VERSION` as dotted numbers
    | Dated(date: nat)              // `TERM_PROGRAM_VERSION` as a WezTerm build stamp
    | Build(number: nat)            // `KONSOLE_VERSION` as one integer

  /** The three ways of reading a version string. */
  datatype Scheme = DottedScheme | DateScheme | BuildScheme

  function SchemeOf(gate: Gate): Scheme
  {
    match gate
    case Dotted(_) => DottedScheme
    case Dated(_) => DateScheme
    case Build(_) => BuildScheme
  }

  /** The version can be read under the scheme. */
  predicate Parses(scheme: Scheme, version: string)
  {
    match scheme
    case DottedScheme => Components(version).Some?
    case DateScheme => DateStamp(version).Some?
    case BuildScheme => ParseNat(version).Some?
  }

  /** `v` is at least `w` under the scheme, both parsing. */
  predicate NotOlder(scheme: Scheme, v: string, w: string)
  {
    Parses(scheme, v) && Parses(scheme, w) &&
    match scheme
    case DottedScheme => DottedAtLeast(Components(v).value, Components(w).value)
    case DateScheme => DateStamp(v).value >= DateStamp(w).value
    case BuildScheme => ParseNat(v).value >= ParseNat(w).value
  }

  /** The version passes the gate; an absent or unparsable version never does. */
  predicate Admits(gate: Gate, version: Option<string>)
  {
    match version
    case None => false
    case Some(v) =>
      match gate
      case Dotted(min) => Components(v).Some? && DottedAtLeast(Components(v).value, min)
      case Dated(min) => DateStamp(v).Some? && DateStamp(v).value >= min
      case Build(min) => ParseNat(v).Some? && ParseNat(v).value >= min
  }

  /** Gates are monotone: a version no older than an admitted one is admitted. */
  lemma AdmitsMonotone(gate: Gate, v: string, w: string)
    requires Admits(gate, Some(w)) && NotOlder(SchemeOf(gate), v, w)
    ensures Admits(gate, Some(v))
  {
    if gate.Dotted? {
      DottedTransitive(Components(v).value, Components(w).value, gate.components);
    }
  }

  /** Gates fail closed: a version that does not parse is never admitted, nor is a missing one. */
  lemma AdmitsOnlyParsed(gate: Gate, version: Option<string>)
    requires Admits(gate, version)
    ensures version.Some? && Parses(SchemeOf(gate), version.value)
  {
  }

  /** A dotted gate admits its own minimum, written out: `3.6.0` passes the 3.6.0 gate. */
  lemma DottedAdmitsMinimum(min: seq<nat>)
    requires |min| >= 1
    ensures Admits(Dotted(min), Some(Render(min)))
  {
    ComponentsRoundTrip(min);
    DottedReflexive(min);
  }

  /** A dotted gate admits a rendered version exactly when it is at least the minimum. */
  lemma DottedAdmitsRendered(min: seq<nat>, c: seq<nat>)
    requires |c| >= 1
    ensures Admits(Dotted(min), Some(Render(c))) <==> DottedAtLeast(c, min)
  {
    ComponentsRoundTrip(c);
  }
}
