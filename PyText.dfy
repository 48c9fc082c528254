/**
 * The Python string operations the handlers rely on, with Python's own
 * edge cases: `str.startswith`, `str.replace` (every non-overlapping
 * occurrence, left to right, and the empty-pattern case), `str.split`,
 * `str.strip(chars)`, `str.lower`/`str.upper` restricted to ASCII,
 * `int(str)` and `str(int)`.
 */
module PyText {
  import opened Wrappers

  /** `os.environ.get(name, default)`. */
  function EnvGet(env: map<string, string>, name: string, default: string): string
  {
    if name in env then env[name] else default
  }

  predicate StartsWith(s: string, p: string)
  {
    |p| <= |s| && s[..|p|] == p
  }

  predicate EndsWith(s: string, p: string)
  {
    |p| <= |s| && s[|s| - |p|..] == p
  }

  // ---------------------------------------------------------------------
  // str.replace, str.split and str.join

  /**
   * `s.replace(pat, repl)`: scans left to right and replaces each
   * occurrence of `pat` that does not overlap an earlier replaced one.
   * An empty `pat` matches before every character and at the end.
   */
  function Replace(s: string, pat: string, repl: string): string
    decreases |s|
  {
    if pat == [] then
      (if s == [] then repl else repl + [s[0]] + Replace(s[1..], pat, repl))
    else if s == [] then []
    else if StartsWith(s, pat) then repl + Replace(s[|pat|..], pat, repl)
    else [s[0]] + Replace(s[1..], pat, repl)
  }

  /** `s.find(p)` for a non-empty `p`: the leftmost index where `p` occurs. */
  function Find(s: string, p: string): (r: Option<nat>)
    requires p != []
    ensures r.Some? ==> r.value + |p| <= |s|
    decreases |s|
  {
    if s == [] then None
    else if StartsWith(s, p) then Some(0)
    else
      match Find(s[1..], p)
      case None => None
      case Some(i) => Some(i + 1)
  }

  /**
   * `Find` is the leftmost occurrence: `p` occurs at the index found and
   * at no earlier index, and when nothing is found `p` occurs nowhere.
   */
  lemma {:induction false} FindLeftmost(s: string, p: string)
    requires p != []
    ensures Find(s, p).Some? ==> StartsWith(s[Find(s, p).value..], p)
    ensures Find(s, p).Some? ==> forall k :: 0 <= k < Find(s, p).value ==> !StartsWith(s[k..], p)
    ensures Find(s, p).None? ==> forall k :: 0 <= k <= |s| ==> !StartsWith(s[k..], p)
    decreases |s|
  {
    if s != [] && !StartsWith(s, p) {
      FindLeftmost(s[1..], p);
      assert s[0..] == s;
      forall k | 1 <= k <= |s| ensures s[k..] == s[1..][k - 1..] {
      }
    }
  }

  /** `s.split(p)` for a non-empty separator `p`. */
  function Split(s: string, p: string): (r: seq<string>)
    requires p != []
    ensures |r| >= 1
    ensures |r| == 1 <==> Find(s, p).None?
    decreases |s|
  {
    match Find(s, p)
    case None => [s]
    case Some(i) => [s[..i]] + Split(s[i + |p|..], p)
  }

  /** `sep.join(parts)` for a non-empty list of parts. */
  function Join(parts: seq<string>, sep: string): string
    requires |parts| >= 1
  {
    if |parts| == 1 then parts[0] else parts[0] + sep + Join(parts[1..], sep)
  }

  lemma {:induction false} ReplaceWithoutOccurrence(s: string, pat: string, repl: string)
    requires pat != [] && Find(s, pat).None?
    ensures Replace(s, pat, repl) == s
    decreases |s|
  {
    if s != [] {
      ReplaceWithoutOccurrence(s[1..], pat, repl);
      assert [s[0]] + s[1..] == s;
    }
  }

  /** The replacement up to and including the first occurrence of the pattern. */
  lemma {:induction false} ReplaceAtFirstOccurrence(s: string, pat: string, repl: string, i: nat)
    requires pat != [] && Find(s, pat) == Some(i)
    ensures Replace(s, pat, repl) == s[..i] + repl + Replace(s[i + |pat|..], pat, repl)
    decreases |s|
  {
    if StartsWith(s, pat) {
      ReplaceLeading(s, pat, repl);
      assert i == 0;
      assert s[..i] + repl == repl;
    } else {
      assert Find(s[1..], pat) == Some(i - 1);
      ReplaceAtFirstOccurrence(s[1..], pat, repl, i - 1);
      ReplaceMissStep(s, pat, repl, i);
    }
  }

  /** A string that starts with the pattern has it replaced at the front. */
  lemma ReplaceLeading(s: string, pat: string, repl: string)
    requires pat != [] && StartsWith(s, pat)
    ensures Replace(s, pat, repl) == repl + Replace(s[|pat|..], pat, repl)
  {
  }

  /** One character that does not start the pattern is copied in front of the rest. */
  lemma ReplaceMissStep(s: string, pat: string, repl: string, i: nat)
    requires pat != [] && s != [] && !StartsWith(s, pat) && 0 < i && i + |pat| <= |s|
    requires Replace(s[1..], pat, repl) == s[1..][..i - 1] + repl + Replace(s[1..][i - 1 + |pat|..], pat, repl)
    ensures Replace(s, pat, repl) == s[..i] + repl + Replace(s[i + |pat|..], pat, repl)
  {
    var rest := Replace(s[i + |pat|..], pat, repl);
    assert Replace(s[1..][i - 1 + |pat|..], pat, repl) == rest by {
      assert s[1..][i - 1 + |pat|..] == s[i + |pat|..];
    }
    assert Replace(s, pat, repl) == [s[0]] + Replace(s[1..], pat, repl);
    assert [s[0]] + s[1..][..i - 1] == s[..i];
    ConsAssoc(s[0], s[1..][..i - 1], s[..i], repl, rest);
  }

  lemma ConsAssoc(c: char, head: string, pre: string, repl: string, tail: string)
    requires [c] + head == pre
    ensures [c] + (head + repl + tail) == pre + repl + tail
  {
  }

  /**
   * Python's `str.replace` agrees with the split-and-join reading of it:
   * `s.replace(p, r) == r.join(s.split(p))` for every non-empty `p`.
   */
  lemma {:induction false} ReplaceIsSplitJoin(s: string, pat: string, repl: string)
    requires pat != []
    ensures Replace(s, pat, repl) == Join(Split(s, pat), repl)
    decreases |s|
  {
    match Find(s, pat)
    case None =>
      ReplaceWithoutOccurrence(s, pat, repl);
    case Some(i) =>
      ReplaceAtFirstOccurrence(s, pat, repl, i);
      ReplaceIsSplitJoin(s[i + |pat|..], pat, repl);
  }

  // ---------------------------------------------------------------------
  // str.strip(chars) with a single character

  function TrimLeft(s: string, c: char): (r: string)
    ensures |r| <= |s| && r == s[|s| - |r|..]
    ensures r == [] || r[0] != c
    ensures forall k :: 0 <= k < |s| - |r| ==> s[k] == c
  {
    if s != [] && s[0] == c then TrimLeft(s[1..], c) else s
  }

  function TrimRight(s: string, c: char): (r: string)
    ensures |r| <= |s| && r == s[..|r|]
    ensures r == [] || r[|r| - 1] != c
    ensures forall k :: |r| <= k < |s| ==> s[k] == c
  {
    if s != [] && s[|s| - 1] == c then TrimRight(s[..|s| - 1], c) else s
  }

  /** `s.strip(c)`: drops every leading and every trailing `c`. */
  function Strip(s: string, c: char): string
  {
    TrimRight(TrimLeft(s, c), c)
  }

  /**
   * What `Strip` removes and what it keeps: the result is the slice
   * `s[i..j]`, everything outside it is `c`, and the slice neither starts
   * nor ends with `c`.
   */
  lemma StripSlice(s: string, c: char) returns (i: nat, j: nat)
    ensures i <= j <= |s| && Strip(s, c) == s[i..j]
    ensures forall k :: 0 <= k < i ==> s[k] == c
    ensures forall k :: j <= k < |s| ==> s[k] == c
    ensures Strip(s, c) == [] || (s[i] != c && s[j - 1] != c)
  {
    var l := TrimLeft(s, c);
    i := |s| - |l|;
    var r := TrimRight(l, c);
    j := i + |r|;
    assert r == l[..|r|];
    assert l[..|r|] == s[i..j];
    forall k | j <= k < |s| ensures s[k] == c {
      assert s[k] == l[k - i];
    }
  }

  /** Stripping a quote-wrapped value gives the value back. */
  lemma {:induction false} StripWrapped(v: string, c: char)
    requires v == [] || (v[0] != c && v[|v| - 1] != c)
    ensures Strip([c] + v + [c], c) == v
  {
    var w := [c] + v + [c];
    assert w[1..] == v + [c];
    if v == [] {
      assert TrimLeft(w[1..], c) == TrimLeft([c][1..], c);
    } else {
      assert TrimLeft(v + [c], c) == v + [c];
      assert (v + [c])[..|v|] == v;
    }
  }

  // ---------------------------------------------------------------------
  // ASCII case mapping

  function LowerChar(c: char): char
  {
    if 'A' <= c <= 'Z' then (c as int + 32) as char else c
  }

  /** `s.lower()` on ASCII letters. */
  function Lower(s: string): (r: string)
    ensures |r| == |s|
  {
    seq(|s|, i requires 0 <= i < |s| => LowerChar(s[i]))
  }

  /** Lower-casing is idempotent. */
  lemma LowerIdempotent(s: string)
    ensures Lower(Lower(s)) == Lower(s)
  {
    var once := Lower(s);
    forall i | 0 <= i < |s| ensures Lower(once)[i] == once[i] {
      assert LowerChar(LowerChar(s[i])) == LowerChar(s[i]);
    }
  }

  // ---------------------------------------------------------------------
  // int(str) and str(int)

  predicate IsDigit(c: char)
  {
    '0' <= c <= '9'
  }

  /** The ASCII characters `str.strip()` and `int()` treat as white space. */
  predicate IsSpace(c: char)
  {
    c == ' ' || (9 <= c as int <= 13) || (28 <= c as int <= 31)
  }

  function StripSpaces(s: string): (r: string)
    ensures |r| <= |s|
    decreases |s|
  {
    if s != [] && IsSpace(s[0]) then StripSpaces(s[1..])
    else if s != [] && IsSpace(s[|s| - 1]) then StripSpaces(s[..|s| - 1])
    else s
  }

  /** Decimal digits, with single underscores allowed between two digits. */
  predicate DigitText(s: string)
  {
    && |s| > 0
    && IsDigit(s[0])
    && IsDigit(s[|s| - 1])
    && forall k :: 0 <= k < |s| ==>
         IsDigit(s[k]) || (s[k] == '_' && 0 < k < |s| - 1 && IsDigit(s[k - 1]) && IsDigit(s[k + 1]))
  }

  function DigitValue(c: char): nat
  {
    if IsDigit(c) then c as int - '0' as int else 0
  }

  /** The value of the digits of `s`, skipping underscores. */
  function DigitsValue(s: string): nat
  {
    if s == [] then 0
    else if s[|s| - 1] == '_' then DigitsValue(s[..|s| - 1])
    else DigitsValue(s[..|s| - 1]) * 10 + DigitValue(s[|s| - 1])
  }

  /** `int(s)` for a string `s`; `None` where Python raises `ValueError`. */
  function ParseInt(s: string): Option<int>
  {
    var t := StripSpaces(s);
    if t != [] && (t[0] == '+' || t[0] == '-') then
      if DigitText(t[1..]) then
        var v: int := DigitsValue(t[1..]);
        Some(if t[0] == '-' then -v else v)
      else None
    else if DigitText(t) then Some(DigitsValue(t))
    else None
  }

  function DigitChar(d: nat): char
    requires d < 10
  {
    ('0' as int + d) as char
  }

  /** `str(n)` for a natural number. */
  function Decimal(n: nat): (r: string)
    ensures |r| >= 1
    ensures forall k :: 0 <= k < |r| ==> IsDigit(r[k])
  {
    if n < 10 then [DigitChar(n)] else Decimal(n / 10) + [DigitChar(n % 10)]
  }

  lemma {:induction false} DecimalValue(n: nat)
    ensures DigitsValue(Decimal(n)) == n
  {
    if n >= 10 {
      var d := Decimal(n);
      assert d[..|d| - 1] == Decimal(n / 10);
      DecimalValue(n / 10);
    }
  }

  lemma StripSpacesOfDigits(s: string)
    requires s != [] && forall k :: 0 <= k < |s| ==> IsDigit(s[k])
    ensures StripSpaces(s) == s
  {
  }

  /** `int(str(n)) == n`: the decimal rendering parses back. */
  lemma ParseDecimal(n: nat)
    ensures ParseInt(Decimal(n)) == Some(n)
  {
    var d := Decimal(n);
    StripSpacesOfDigits(d);
    assert DigitText(d);
    DecimalValue(n);
  }
}
