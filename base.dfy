/**
 * Small helpers shared by the backend (Python) and frontend (TypeScript) models:
 * an Option type for absent optional fields, integer min/max, substring tests,
 * decimal rendering of integers, plain lexicographic string order, and the
 * Python `s[-n:]` tail slice with its newest-first reading.
 */
module Base {

  datatype Option<T> = None | Some(value: T) {
    function GetOr(default: T): T {
      match this
      case Some(v) => v
      case None => default
    }
  }

  function Min(a: int, b: int): int { if a <= b then a else b }
  function Max(a: int, b: int): int { if a >= b then a else b }

  /** True when the word w occurs in s starting at position i. */
  predicate StartsAt(s: string, i: int, w: string) {
    0 <= i && i + |w| <= |s| && s[i..i + |w|] == w
  }

  predicate IsPrefix(p: string, s: string) {
    |p| <= |s| && s[..|p|] == p
  }

  lemma PrefixOfConcat(p: string, rest: string)
    ensures IsPrefix(p, p + rest)
  {
    assert (p + rest)[..|p|] == p;
  }

  /** True when `c` is one of the characters of the bracket class `cs`. */
  predicate OneOf(c: char, cs: string) { c in cs }

  function DigitChar(d: int): char
    requires 0 <= d < 10
  {
    "0123456789"[d]
  }

  function NatToString(n: nat): string
    decreases n
  {
    if n < 10 then [DigitChar(n)] else NatToString(n / 10) + [DigitChar(n % 10)]
  }

  /** Decimal text of an integer, as a JavaScript template literal prints it. */
  function IntToString(n: int): string {
    if n < 0 then "-" + NatToString(-n) else NatToString(n)
  }

  /** Python `sep.join(parts)`. */
  function Join(parts: seq<string>, sep: string): string
    decreases |parts|
  {
    if parts == [] then ""
    else if |parts| == 1 then parts[0]
    else Join(parts[..|parts| - 1], sep) + sep + parts[|parts| - 1]
  }

  /** Python's `repr` of a list of strings without quotes or backslashes in them: `['a', 'b']`. */
  function PyListRepr(parts: seq<string>): string {
    "[" + Join(seq(|parts|, i requires 0 <= i < |parts| => "'" + parts[i] + "'"), ", ") + "]"
  }

  /**
   * Plain lexicographic order on character codes; it stands for the
   * `localeCompare` tie-break of the incident timeline.
   */
  predicate StrLess(a: string, b: string) {
    if a == [] then b != []
    else if b == [] then false
    else if a[0] != b[0] then a[0] < b[0]
    else StrLess(a[1..], b[1..])
  }

  lemma {:induction false} StrLessIrreflexive(a: string)
    ensures !StrLess(a, a)
  {
    if a != [] { StrLessIrreflexive(a[1..]); }
  }

  lemma {:induction false} StrLessTransitive(a: string, b: string, c: string)
    requires StrLess(a, b) && StrLess(b, c)
    ensures StrLess(a, c)
  {
    if a != [] && b != [] && c != [] && a[0] == b[0] && b[0] == c[0] {
      StrLessTransitive(a[1..], b[1..], c[1..]);
    }
  }

  lemma {:induction false} StrLessTotal(a: string, b: string)
    requires a != b
    ensures StrLess(a, b) || StrLess(b, a)
  {
    if a != [] && b != [] && a[0] == b[0] {
      assert a == [a[0]] + a[1..] && b == [b[0]] + b[1..];
      StrLessTotal(a[1..], b[1..]);
    }
  }

  lemma {:induction false} StrLessAsymmetric(a: string, b: string)
    requires StrLess(a, b)
    ensures !StrLess(b, a)
  {
    if a != [] && b != [] && a[0] == b[0] {
      StrLessAsymmetric(a[1..], b[1..]);
    }
  }

  /**
   * Length of the Python slice `s[-limit:]` of a list of length n: the last
   * `limit` entries for a positive limit, the whole list for 0 (since -0 == 0),
   * and all but the first `-limit` entries for a negative limit.
   */
  function TailLength(n: nat, limit: int): nat {
    if limit > 0 then Min(limit, n)
    else if limit == 0 then n
    else Max(0, n + limit)
  }

  /** `r` is `s[-limit:]` read newest first: `list(reversed(s[-limit:]))`. */
  ghost predicate IsNewestFirst<T>(r: seq<T>, s: seq<T>, limit: int) {
    |r| == TailLength(|s|, limit) &&
    forall i :: 0 <= i < |r| ==> r[i] == s[|s| - 1 - i]
  }

  function Reverse<T>(s: seq<T>): (r: seq<T>)
    ensures |r| == |s|
    ensures forall i :: 0 <= i < |s| ==> r[i] == s[|s| - 1 - i]
  {
    seq(|s|, i requires 0 <= i < |s| => s[|s| - 1 - i])
  }

  /** Python `s[-limit:]`. */
  function TailSlice<T>(s: seq<T>, limit: int): (r: seq<T>)
    ensures |r| == TailLength(|s|, limit)
    ensures r == s[|s| - |r|..]
  {
    if limit > 0 then (if limit >= |s| then s else s[|s| - limit..])
    else if limit == 0 then s
    else (if -limit >= |s| then [] else s[-limit..])
  }

  /** `list(reversed(s[-limit:]))`, shared by the three "latest first" queries. */
  function NewestFirst<T>(s: seq<T>, limit: int): (r: seq<T>)
    ensures IsNewestFirst(r, s, limit)
  {
    Reverse(TailSlice(s, limit))
  }

  /** Small map and sequence identities the state-changing proofs cite. */
  lemma UpdateTwice<K, V>(m: map<K, V>, k: K, v: V, w: V)
    ensures m[k := v][k := w] == m[k := w]
  {
  }

  lemma UpdateSame<K, V>(m: map<K, V>, k: K)
    requires k in m
    ensures m[k := m[k]] == m
  {
  }

  lemma AppendAssoc<T>(a: seq<T>, b: seq<T>, c: seq<T>)
    ensures (a + b) + c == a + (b + c)
  {
  }
}
