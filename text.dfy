/** The Python string operations the core relies on, over `seq<char>`:
    `str.strip`, `in`, `str.find`, `str.replace`, `str.lower`, `str.upper`,
    `str.title`, `str.startswith`, `str.join`, slicing, and `float()` /
    `Decimal()` restricted to plain decimal literals.  Case mapping is ASCII-only. */
module Text {
  import opened Wrappers

  /** Python's `str.isspace` (also what the regular-expression class `\s` matches). */
  predicate IsSpace(c: char) {
    var n := c as int;
    (9 <= n <= 13) || (28 <= n <= 32) || n == 0x85 || n == 0xA0 || n == 0x1680
    || (0x2000 <= n <= 0x200A) || n == 0x2028 || n == 0x2029 || n == 0x202F
    || n == 0x205F || n == 0x3000
  }

  predicate NoEdgeSpace(s: string) {
    s == [] || (!IsSpace(s[0]) && !IsSpace(s[|s| - 1]))
  }

  predicate AllSpace(s: string) {
    forall k :: 0 <= k < |s| ==> IsSpace(s[k])
  }

  /** `s.lstrip()`: the suffix left after the leading whitespace. */
  function LStrip(s: string): (r: string)
    ensures |r| <= |s| && r == s[|s| - |r|..]
    ensures r == [] || !IsSpace(r[0])
    ensures AllSpace(s[..|s| - |r|])
  {
    if s != [] && IsSpace(s[0]) then
      var r := LStrip(s[1..]);
      assert s[..|s| - |r|] == [s[0]] + s[1..][..|s| - 1 - |r|];
      r
    else s
  }

  /** `s.rstrip()`: the prefix left before the trailing whitespace. */
  function RStrip(s: string): (r: string)
    ensures |r| <= |s| && r == s[..|r|]
    ensures r == [] || !IsSpace(r[|r| - 1])
    ensures AllSpace(s[|r|..])
  {
    if s != [] && IsSpace(s[|s| - 1]) then
      var r := RStrip(s[..|s| - 1]);
      assert s[|r|..] == s[..|s| - 1][|r|..] + [s[|s| - 1]];
      r
    else s
  }

  /** `s.strip()`. */
  function Strip(s: string): string {
    RStrip(LStrip(s))
  }

  /** Where `strip` starts cutting: the length of the leading whitespace. */
  function StripStart(s: string): nat {
    |s| - |LStrip(s)|
  }

  /** Stripping keeps a contiguous part of `s` with whitespace on both sides
      removed and no whitespace left at its ends. */
  lemma StripIsTrimmedSlice(s: string)
    ensures StripStart(s) + |Strip(s)| <= |s|
    ensures Strip(s) == s[StripStart(s)..StripStart(s) + |Strip(s)|]
    ensures AllSpace(s[..StripStart(s)]) && AllSpace(s[StripStart(s) + |Strip(s)|..])
    ensures NoEdgeSpace(Strip(s))
  {
    var l := LStrip(s);
    var i := |s| - |l|;
    var r := RStrip(l);
    assert Strip(s) == r && StripStart(s) == i;
    SuffixSlices(s, i, |r|);
    assert NoEdgeSpace(r) by {
      if r != [] {
        assert r[0] == l[0];
      }
    }
  }

  lemma SuffixSlices(s: string, i: nat, n: nat)
    requires i + n <= |s|
    ensures s[i..][..n] == s[i..i + n] && s[i..][n..] == s[i + n..]
  {
  }

  lemma LStripNoEdge(s: string)
    requires s == [] || !IsSpace(s[0])
    ensures LStrip(s) == s
  {
  }

  lemma RStripNoEdge(s: string)
    requires s == [] || !IsSpace(s[|s| - 1])
    ensures RStrip(s) == s
  {
  }

  /** Text without edge whitespace is left alone by `strip`. */
  lemma StripNoEdge(s: string)
    requires NoEdgeSpace(s)
    ensures Strip(s) == s
  {
    LStripNoEdge(s);
    RStripNoEdge(s);
  }

  /** `strip` is idempotent. */
  lemma StripIdempotent(s: string)
    ensures Strip(Strip(s)) == Strip(s)
  {
    StripIsTrimmedSlice(s);
    StripNoEdge(Strip(s));
  }

  lemma {:induction false} LStripPadded(w: string, s: string)
    requires AllSpace(w) && (s == [] || !IsSpace(s[0]))
    ensures LStrip(w + s) == s
  {
    if w != [] {
      assert (w + s)[1..] == w[1..] + s;
      LStripPadded(w[1..], s);
    } else {
      assert w + s == s;
    }
  }

  lemma {:induction false} RStripPadded(s: string, w: string)
    requires AllSpace(w) && (s == [] || !IsSpace(s[|s| - 1]))
    ensures RStrip(s + w) == s
  {
    if w != [] {
      assert (s + w)[..|s + w| - 1] == s + w[..|w| - 1];
      RStripPadded(s, w[..|w| - 1]);
    } else {
      assert s + w == s;
    }
  }

  /** Whitespace around text without edge whitespace is exactly what `strip` removes. */
  lemma StripPadded(w1: string, s: string, w2: string)
    requires AllSpace(w1) && AllSpace(w2) && NoEdgeSpace(s)
    ensures Strip(w1 + s + w2) == s
  {
    if s == [] {
      assert w1 + s + w2 == w1 + w2;
      assert AllSpace(w1 + w2);
      LStripPadded(w1 + w2, []);
      assert w1 + w2 + [] == w1 + w2;
    } else {
      assert w1 + s + w2 == w1 + (s + w2);
      LStripPadded(w1, s + w2);
      RStripPadded(s, w2);
    }
  }

  // ---------------------------------------------------------------------
  // Substring search

  predicate OccursAt(s: string, pat: string, k: nat) {
    k + |pat| <= |s| && s[k..k + |pat|] == pat
  }

  /** Python's `pat in s`. */
  predicate Contains(s: string, pat: string) {
    exists k :: 0 <= k <= |s| && OccursAt(s, pat, k)
  }

  /** Python's `s.find(pat, from)`, as an Option: the first occurrence at or after `from`. */
  function IndexOf(s: string, pat: string, from: nat): (r: Option<nat>)
    decreases |s| - from
    ensures r.Some? ==> from <= r.value && OccursAt(s, pat, r.value)
    ensures r.Some? ==> forall k :: from <= k < r.value ==> !OccursAt(s, pat, k)
    ensures r.None? ==> forall k :: from <= k ==> !OccursAt(s, pat, k)
  {
    if from + |pat| > |s| then None
    else if s[from..from + |pat|] == pat then Some(from)
    else IndexOf(s, pat, from + 1)
  }

  lemma ContainsIffFound(s: string, pat: string)
    ensures Contains(s, pat) <==> IndexOf(s, pat, 0).Some?
  {
    var r := IndexOf(s, pat, 0);
    if r.Some? {
      assert OccursAt(s, pat, r.value);
    }
  }

  /** The first occurrence of `pat` is `k`, characterised without `IndexOf`. */
  predicate FirstAt(s: string, pat: string, from: nat, k: nat) {
    from <= k && OccursAt(s, pat, k) && forall j :: from <= j < k ==> !OccursAt(s, pat, j)
  }

  lemma FirstAtIsIndexOf(s: string, pat: string, from: nat, k: nat)
    requires FirstAt(s, pat, from, k)
    ensures IndexOf(s, pat, from) == Some(k)
  {
  }

  /** `s.find(pat, from)` is -1 when no occurrence starts at or after `from`. */
  lemma {:induction false} IndexOfNone(s: string, pat: string, from: nat)
    requires forall k :: from <= k ==> !OccursAt(s, pat, k)
    ensures IndexOf(s, pat, from) == None
    decreases |s| - from
  {
    if from + |pat| <= |s| {
      assert !OccursAt(s, pat, from);
      IndexOfNone(s, pat, from + 1);
    }
  }

  /** Python's `s.rfind(c)` for one character. */
  function LastIndexOfChar(s: string, c: char): (r: Option<nat>)
    ensures r.Some? ==> r.value < |s| && s[r.value] == c
    ensures r.Some? ==> forall k :: r.value < k < |s| ==> s[k] != c
    ensures r.None? ==> forall k :: 0 <= k < |s| ==> s[k] != c
  {
    if s == [] then None
    else if s[|s| - 1] == c then Some(|s| - 1)
    else LastIndexOfChar(s[..|s| - 1], c)
  }

  predicate StartsWith(s: string, p: string) {
    |p| <= |s| && s[..|p|] == p
  }

  // ---------------------------------------------------------------------
  // Character-level rewriting

  /** `s.replace(c, "")`. */
  function RemoveChar(s: string, c: char): (r: string)
    ensures |r| <= |s|
    ensures forall k :: 0 <= k < |r| ==> r[k] != c
  {
    if s == [] then []
    else if s[0] == c then RemoveChar(s[1..], c)
    else [s[0]] + RemoveChar(s[1..], c)
  }

  lemma {:induction false} RemoveCharAbsent(s: string, c: char)
    requires forall k :: 0 <= k < |s| ==> s[k] != c
    ensures RemoveChar(s, c) == s
  {
    if s != [] {
      RemoveCharAbsent(s[1..], c);
    }
  }

  lemma {:induction false} RemoveCharConcat(a: string, b: string, c: char)
    ensures RemoveChar(a + b, c) == RemoveChar(a, c) + RemoveChar(b, c)
  {
    if a == [] {
      assert a + b == b;
    } else {
      assert (a + b)[1..] == a[1..] + b;
      RemoveCharConcat(a[1..], b, c);
    }
  }

  /** Removing a character that occurs once, between two parts without it. */
  lemma RemoveCharSkip(a: string, c: char, b: string)
    requires forall k :: 0 <= k < |a| ==> a[k] != c
    requires forall k :: 0 <= k < |b| ==> b[k] != c
    ensures RemoveChar(a + [c] + b, c) == a + b
  {
    RemoveCharConcat(a + [c], b, c);
    RemoveCharConcat(a, [c], c);
    RemoveCharAbsent(a, c);
    RemoveCharAbsent(b, c);
    assert [c][1..] == [];
    assert a + [] == a;
  }

  /** Removing a leading character that does not occur again. */
  lemma RemoveCharFirst(c: char, b: string)
    requires forall k :: 0 <= k < |b| ==> b[k] != c
    ensures RemoveChar([c] + b, c) == b
  {
    assert ([c] + b)[1..] == b;
    RemoveCharAbsent(b, c);
  }

  /** Digits avoid any other character, and so does a decimal literal `b.c`. */
  lemma DigitsAvoid(s: string, c: char)
    requires AllDigits(s) && !IsDigit(c)
    ensures forall k :: 0 <= k < |s| ==> s[k] != c
  {
  }

  lemma FractionAvoids(b: string, c: string, d: char)
    requires AllDigits(b) && AllDigits(c) && !IsDigit(d) && d != '.'
    ensures forall k :: 0 <= k < |b + "." + c| ==> (b + "." + c)[k] != d
  {
    var t := b + "." + c;
    forall k | 0 <= k < |t| ensures t[k] != d {
      if k < |b| { assert t[k] == b[k]; }
      else if k > |b| { assert t[k] == c[k - |b| - 1]; }
    }
  }

  /** Removing characters introduces none: a character absent before is absent after. */
  lemma {:induction false} RemoveCharKeepsAbsent(s: string, c: char, d: char)
    requires forall k :: 0 <= k < |s| ==> s[k] != d
    ensures forall k :: 0 <= k < |RemoveChar(s, c)| ==> RemoveChar(s, c)[k] != d
  {
    if s != [] {
      RemoveCharKeepsAbsent(s[1..], c, d);
    }
  }

  /** `s.replace(a, b)` for single characters. */
  function ReplaceChar(s: string, a: char, b: char): (r: string)
    ensures |r| == |s|
    ensures forall k :: 0 <= k < |s| ==> r[k] == (if s[k] == a then b else s[k])
  {
    seq(|s|, k requires 0 <= k < |s| => if s[k] == a then b else s[k])
  }

  function LowerChar(c: char): char {
    if 'A' <= c <= 'Z' then (c as int + 32) as char else c
  }

  function UpperChar(c: char): char {
    if 'a' <= c <= 'z' then (c as int - 32) as char else c
  }

  predicate IsCased(c: char) {
    ('a' <= c <= 'z') || ('A' <= c <= 'Z')
  }

  /** `s.lower()` on ASCII letters. */
  function Lower(s: string): (r: string)
    ensures |r| == |s|
    ensures forall k :: 0 <= k < |s| ==> r[k] == LowerChar(s[k])
  {
    seq(|s|, k requires 0 <= k < |s| => LowerChar(s[k]))
  }

  /** Lower-casing leaves a string without upper-case letters as it is. */
  lemma LowerNoUpper(s: string)
    requires forall k :: 0 <= k < |s| ==> !('A' <= s[k] <= 'Z')
    ensures Lower(s) == s
  {
  }

  /** `s.upper()` on ASCII letters. */
  function Upper(s: string): (r: string)
    ensures |r| == |s|
    ensures forall k :: 0 <= k < |s| ==> r[k] == UpperChar(s[k])
  {
    seq(|s|, k requires 0 <= k < |s| => UpperChar(s[k]))
  }

  /** `s.title()`: a cased character is upper-cased when the character before it
      is not cased, and lower-cased otherwise. */
  function TitleFrom(s: string, prevCased: bool): (r: string)
    ensures |r| == |s|
  {
    if s == [] then []
    else
      var c := s[0];
      var out := if !IsCased(c) then c else if prevCased then LowerChar(c) else UpperChar(c);
      [out] + TitleFrom(s[1..], IsCased(c))
  }

  function Title(s: string): string {
    TitleFrom(s, false)
  }

  /** `sep.join(parts)`. */
  function Join(sep: string, parts: seq<string>): string {
    if parts == [] then []
    else if |parts| == 1 then parts[0]
    else parts[0] + sep + Join(sep, parts[1..])
  }

  /** `"".join(parts)`. */
  function Concat(parts: seq<string>): string {
    if parts == [] then [] else parts[0] + Concat(parts[1..])
  }

  /** `s[:n]`. */
  function Take(s: string, n: nat): (r: string)
    ensures |r| == if |s| < n then |s| else n
    ensures r == s[..|r|]
  {
    if |s| <= n then s else s[..n]
  }

  // ---------------------------------------------------------------------
  // Decimal literals: Python `float()` and `Decimal()` on `[+-]?digits[.digits]`
  // with surrounding whitespace.

  predicate IsDigit(c: char) {
    '0' <= c <= '9'
  }

  predicate AllDigits(s: string) {
    forall k :: 0 <= k < |s| ==> IsDigit(s[k])
  }

  function DigitValue(c: char): nat
    requires IsDigit(c)
  {
    c as int - '0' as int
  }

  function DigitsValue(s: string): nat
    requires AllDigits(s)
  {
    if s == [] then 0 else 10 * DigitsValue(s[..|s| - 1]) + DigitValue(s[|s| - 1])
  }

  function Pow10(n: nat): (r: nat)
    ensures r >= 1
  {
    if n == 0 then 1 else 10 * Pow10(n - 1)
  }

  /** An unsigned literal `ddd`, `ddd.`, `.ddd` or `ddd.ddd` with at least one digit. */
  function ParseUnsigned(t: string): (r: Option<real>)
    ensures r.Some? ==> r.value >= 0.0
  {
    var dot := IndexOf(t, ".", 0);
    var ip := if dot.Some? then t[..dot.value] else t;
    var fp := if dot.Some? then t[dot.value + 1..] else "";
    if AllDigits(ip) && AllDigits(fp) && |ip| + |fp| > 0 then
      Some(LiteralValue(ip, fp))
    else None
  }

  /** The value of the literal `ip.fp`. */
  function LiteralValue(ip: string, fp: string): real
    requires AllDigits(ip) && AllDigits(fp)
  {
    DigitsValue(ip) as real + DigitsValue(fp) as real / Pow10(|fp|) as real
  }

  /** `float(s)` / `Decimal(s)` on plain decimal literals; `None` is the raised `ValueError`. */
  function ParseDecimal(s: string): Option<real> {
    var t := Strip(s);
    if t != [] && t[0] == '-' then
      match ParseUnsigned(t[1..])
      case Some(v) => Some(-v)
      case None => None
    else if t != [] && t[0] == '+' then ParseUnsigned(t[1..])
    else ParseUnsigned(t)
  }

  lemma NoDotInDigits(s: string)
    requires AllDigits(s)
    ensures IndexOf(s, ".", 0).None?
  {
    forall k: nat | k + 1 <= |s| ensures !OccursAt(s, ".", k) {
      assert s[k..k + 1][0] == s[k];
    }
  }

  /** Any literal whose unsigned part is all digits parses to its integer value. */
  lemma ParseDigits(s: string)
    requires AllDigits(s) && s != []
    ensures ParseDecimal(s) == Some(DigitsValue(s) as real)
  {
    assert IsDigit(s[0]) && NoEdgeSpace(s);
    UnsignedLiteral(s);
    UnsignedDigits(s);
  }

  lemma UnsignedDigits(s: string)
    requires AllDigits(s) && s != []
    ensures ParseUnsigned(s) == Some(DigitsValue(s) as real)
  {
    NoDotInDigits(s);
    assert ParseUnsigned(s) == Some(LiteralValue(s, ""));
  }

  /** A literal without edge whitespace or sign is parsed unsigned. */
  lemma UnsignedLiteral(t: string)
    requires t != [] && IsDigit(t[0]) && NoEdgeSpace(t)
    ensures ParseDecimal(t) == ParseUnsigned(t)
  {
    StripNoEdge(t);
  }

  /** A literal `ip.fp` with digits on both sides (the fraction may be empty)
      parses to its value. */
  lemma DecimalLiteral(ip: string, fp: string)
    requires ip != [] && AllDigits(ip) && AllDigits(fp)
    ensures ParseDecimal(ip + "." + fp) == Some(LiteralValue(ip, fp))
  {
    var t := ip + "." + fp;
    LiteralShape(ip, fp, t);
    UnsignedParts(t, |ip|);
    UnsignedLiteral(t);
  }

  lemma LiteralShape(ip: string, fp: string, t: string)
    requires ip != [] && AllDigits(ip) && AllDigits(fp) && t == ip + "." + fp
    ensures IsDigit(t[0]) && NoEdgeSpace(t)
    ensures IndexOf(t, ".", 0) == Some(|ip|)
    ensures t[..|ip|] == ip && t[|ip| + 1..] == fp
  {
    assert t[0] == ip[0];
    assert t[|t| - 1] == '.' || t[|t| - 1] == fp[|fp| - 1];
    assert t[|ip|..|ip| + 1] == ".";
    forall j: nat | j < |ip| ensures !OccursAt(t, ".", j) {
      assert t[j..j + 1][0] == ip[j];
    }
    FirstAtIsIndexOf(t, ".", 0, |ip|);
  }

  lemma UnsignedParts(t: string, i: nat)
    requires IndexOf(t, ".", 0) == Some(i)
    requires i < |t| && t[..i] != [] && AllDigits(t[..i]) && AllDigits(t[i + 1..])
    ensures ParseUnsigned(t) == Some(LiteralValue(t[..i], t[i + 1..]))
  {
  }

  /** `str(n)` for a natural number: its decimal digits, no leading zeros. */
  function NatToString(n: nat): (r: string)
    ensures r != [] && AllDigits(r) && DigitsValue(r) == n
  {
    var d := [('0' as int + n % 10) as char];
    assert d[..0] == [];
    if n < 10 then d
    else
      var r := NatToString(n / 10) + d;
      assert r[..|r| - 1] == NatToString(n / 10);
      r
  }
}
