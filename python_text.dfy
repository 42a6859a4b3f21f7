/**
 * The Python built-ins on text and numbers that the chatbot service relies on:
 * `str.strip()`, `int(str)`, `str(int)`, `sep.join(parts)` and `sum(xs)`.
 * They are stated here as the Python language defines them, restricted to what
 * the service can meet (see the README for the parts left out).
 */
module PythonText {
  import opened Wrappers

  // ---------------------------------------------------------------------------
  // str.strip()
  // ---------------------------------------------------------------------------

  /** Python's `str.isspace()` on a single character. */
  predicate IsSpace(c: char)
  {
    ('\t' <= c <= '\r') || ('\U{1C}' <= c <= '\U{1F}') || c == ' ' ||
    c == '\U{85}' || c == '\U{A0}' || c == '\U{1680}' ||
    ('\U{2000}' <= c <= '\U{200A}') || c == '\U{2028}' || c == '\U{2029}' ||
    c == '\U{202F}' || c == '\U{205F}' || c == '\U{3000}'
  }

  predicate AllSpace(s: string)
  {
    forall k :: 0 <= k < |s| ==> IsSpace(s[k])
  }

  /** No whitespace at either end: what `strip()` leaves behind. */
  predicate Trimmed(s: string)
  {
    s == [] || (!IsSpace(s[0]) && !IsSpace(s[|s| - 1]))
  }

  /** `s.lstrip()`: drops the whitespace prefix and nothing else. */
  function StripLeading(s: string): (r: string)
    ensures |r| <= |s| && r == s[|s| - |r|..]
    ensures forall k :: 0 <= k < |s| - |r| ==> IsSpace(s[k])
    ensures r == [] || !IsSpace(r[0])
  {
    if s != [] && IsSpace(s[0]) then StripLeading(s[1..]) else s
  }

  /** `s.rstrip()`: drops the whitespace suffix and nothing else. */
  function StripTrailing(s: string): (r: string)
    ensures |r| <= |s| && r == s[..|r|]
    ensures forall k :: |r| <= k < |s| ==> IsSpace(s[k])
    ensures r == [] || !IsSpace(r[|r| - 1])
  {
    if s != [] && IsSpace(s[|s| - 1]) then StripTrailing(s[..|s| - 1]) else s
  }

  /** `s.strip()`. */
  function Strip(s: string): (r: string)
    ensures Trimmed(r)
    ensures |r| <= |s|
  {
    StripTrailing(StripLeading(s))
  }

  lemma {:induction false} StripLeadingSpaces(p: string, u: string)
    requires AllSpace(p)
    requires u == [] || !IsSpace(u[0])
    ensures StripLeading(p + u) == u
  {
    if p != [] {
      assert (p + u)[1..] == p[1..] + u;
      StripLeadingSpaces(p[1..], u);
    }
  }

  lemma {:induction false} StripTrailingSpaces(u: string, q: string)
    requires AllSpace(q)
    requires u == [] || !IsSpace(u[|u| - 1])
    ensures StripTrailing(u + q) == u
  {
    if q != [] {
      assert (u + q)[..|u + q| - 1] == u + q[..|q| - 1];
      StripTrailingSpaces(u, q[..|q| - 1]);
    }
  }

  /**
   * `strip()` removes exactly the surrounding whitespace: any text with no
   * whitespace at its ends comes back unchanged whatever whitespace is put
   * around it.
   */
  lemma StripSurrounded(p: string, t: string, q: string)
    requires AllSpace(p) && AllSpace(q) && Trimmed(t)
    ensures Strip(p + t + q) == t
  {
    if t == [] {
      assert p + t + q == p + q;
      assert AllSpace(p + q);
      assert StripLeading(p + q) == [];
    } else {
      assert p + t + q == p + (t + q);
      StripLeadingSpaces(p, t + q);
      StripTrailingSpaces(t, q);
    }
  }

  // ---------------------------------------------------------------------------
  // int(str), base 10
  // ---------------------------------------------------------------------------

  predicate IsDigit(c: char)
  {
    '0' <= c <= '9'
  }

  function DigitValue(c: char): nat
    requires IsDigit(c)
  {
    (c as int) - ('0' as int)
  }

  function DigitChar(d: nat): (c: char)
    requires d < 10
    ensures IsDigit(c) && DigitValue(c) == d
  {
    (('0' as int) + d) as char
  }

  /**
   * The digit part of a Python integer literal: digits at both ends, and in
   * between digits and single underscores.
   */
  predicate IsDigitRun(s: string)
  {
    |s| > 0 && IsDigit(s[0]) && IsDigit(s[|s| - 1]) &&
    (forall k :: 0 <= k < |s| ==> IsDigit(s[k]) || s[k] == '_') &&
    (forall i, j :: 0 <= i < |s| && 0 <= j < |s| && j == i + 1 && s[i] == '_' ==> s[j] != '_')
  }

  /** What `int(s)` accepts once `s` carries no surrounding whitespace. */
  predicate IsIntLiteral(s: string)
  {
    |s| > 0 && (if s[0] == '+' || s[0] == '-' then IsDigitRun(s[1..]) else IsDigitRun(s))
  }

  /** The digits of `s` in order, underscores and everything else dropped. */
  function DigitsOf(s: string): (ds: string)
    ensures forall k :: 0 <= k < |ds| ==> IsDigit(ds[k])
  {
    if s == [] then []
    else DigitsOf(s[..|s| - 1]) + (if IsDigit(s[|s| - 1]) then [s[|s| - 1]] else [])
  }

  /** The value of a string of decimal digits, most significant first. */
  function DecimalValue(ds: string): nat
    requires forall k :: 0 <= k < |ds| ==> IsDigit(ds[k])
  {
    if ds == [] then 0 else 10 * DecimalValue(ds[..|ds| - 1]) + DigitValue(ds[|ds| - 1])
  }

  /** The integer a literal denotes: its sign applied to the value of its digits. */
  function LiteralValue(s: string): int
    requires IsIntLiteral(s)
  {
    if s[0] == '-' then 0 - DecimalValue(DigitsOf(s[1..]))
    else if s[0] == '+' then DecimalValue(DigitsOf(s[1..]))
    else DecimalValue(DigitsOf(s))
  }

  /**
   * `int(s)` on a string with no surrounding whitespace (the only kind the
   * service passes): the value of a literal, `None` where Python raises
   * `ValueError`.
   */
  function ParseInt(s: string): (r: Option<int>)
    ensures r.Some? <==> IsIntLiteral(s)
    ensures r.Some? ==> Trimmed(s)
    ensures r.Some? && r.value < 0 ==> s[0] == '-'
  {
    if IsIntLiteral(s) then Some(LiteralValue(s)) else None
  }

  // ---------------------------------------------------------------------------
  // str(n)
  // ---------------------------------------------------------------------------

  /** Decimal digits of `n`, without leading zeros. */
  function RenderNat(n: nat): (r: string)
    ensures |r| > 0 && (r[0] == '0' ==> n == 0)
    ensures forall k :: 0 <= k < |r| ==> IsDigit(r[k])
  {
    if n < 10 then [DigitChar(n)] else RenderNat(n / 10) + [DigitChar(n % 10)]
  }

  /** `str(n)`. */
  function Render(n: int): string
  {
    if n < 0 then "-" + RenderNat(-n) else RenderNat(n)
  }

  lemma {:induction false} RenderNatValue(n: nat)
    ensures DigitsOf(RenderNat(n)) == RenderNat(n)
    ensures DecimalValue(RenderNat(n)) == n
  {
    var r := RenderNat(n);
    if n >= 10 {
      RenderNatValue(n / 10);
      assert r[..|r| - 1] == RenderNat(n / 10);
    }
  }

  /** A string of digits is a literal with no whitespace at its ends. */
  lemma DigitsAreLiteral(ds: string)
    requires |ds| > 0 && forall k :: 0 <= k < |ds| ==> IsDigit(ds[k])
    ensures IsDigitRun(ds)
    ensures !IsSpace(ds[0]) && !IsSpace(ds[|ds| - 1])
  {
    assert IsDigit(ds[0]) && IsDigit(ds[|ds| - 1]);
  }

  /** `int(str(n)) == n` for every integer `n`, and `str(n)` has nothing for `strip()` to remove. */
  lemma ParseRendered(n: int)
    ensures Trimmed(Render(n))
    ensures ParseInt(Render(n)) == Some(n)
  {
    var m: nat := if n < 0 then -n else n;
    var ds := RenderNat(m);
    RenderNatValue(m);
    DigitsAreLiteral(ds);
    if n < 0 {
      var r := Render(n);
      assert r[1..] == ds && r[0] == '-' && r[|r| - 1] == ds[|ds| - 1];
      assert IsIntLiteral(r);
      assert LiteralValue(r) == 0 - m;
    } else {
      assert IsIntLiteral(ds);
    }
  }

  // ---------------------------------------------------------------------------
  // sep.join(parts) and sum(xs)
  // ---------------------------------------------------------------------------

  /** `sep.join(parts)`: "" for no parts, the part itself for one. */
  function Join(parts: seq<string>, sep: string): (joined: string)
    ensures parts == [] ==> joined == ""
    ensures |parts| == 1 ==> joined == parts[0]
  {
    if parts == [] then ""
    else if |parts| == 1 then parts[0]
    else Join(parts[..|parts| - 1], sep) + sep + parts[|parts| - 1]
  }

  /** Joining keeps the parts in order: the join of a concatenation is the two joins separated once. */
  lemma {:induction false} JoinAppend(a: seq<string>, b: seq<string>, sep: string)
    requires a != [] && b != []
    ensures Join(a + b, sep) == Join(a, sep) + sep + Join(b, sep)
  {
    if |b| == 1 {
      assert (a + b)[..|a + b| - 1] == a;
    } else {
      var b' := b[..|b| - 1];
      assert (a + b)[..|a + b| - 1] == a + b';
      JoinAppend(a, b', sep);
    }
  }

  /** `sum(xs)`: 0 for no entries, the entry itself for one. */
  function Sum(xs: seq<int>): (total: int)
    ensures xs == [] ==> total == 0
    ensures |xs| == 1 ==> total == xs[0]
  {
    if xs == [] then 0 else Sum(xs[..|xs| - 1]) + xs[|xs| - 1]
  }

  /** The sum of two lists one after the other is the sum of their sums. */
  lemma {:induction false} SumAppend(a: seq<int>, b: seq<int>)
    ensures Sum(a + b) == Sum(a) + Sum(b)
  {
    if b != [] {
      assert (a + b)[..|a + b| - 1] == a + b[..|b| - 1];
      SumAppend(a, b[..|b| - 1]);
    } else {
      assert a + b == a;
    }
  }

  /** Entries that each lie in 0..3 sum to between 0 and 3 per entry. */
  lemma {:induction false} SumOfItemScores(xs: seq<int>)
    requires forall k :: 0 <= k < |xs| ==> 0 <= xs[k] <= 3
    ensures 0 <= Sum(xs) <= 3 * |xs|
  {
    if xs != [] {
      SumOfItemScores(xs[..|xs| - 1]);
    }
  }
}
