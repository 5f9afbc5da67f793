/** Option and Result, the two failure-carrying shapes the rest of the model uses. */
module Wrappers {

  datatype Option<+T> = None | Some(value: T) {
    function GetOr(default: T): T {
      match this
      case Some(v) => v
      case None => default
    }
  }

  datatype Result<+T, +E> = Ok(value: T) | Err(error: E)
}

/**
 * The few Python string operations the backend relies on, restricted to
 * ASCII where Python consults the Unicode database (`str.isspace`,
 * `str.isalnum`, `str.lower`).
 */
module Text {
  import opened Wrappers

  /** `str.isspace` on the ASCII range: blank, \t, \n, \v, \f, \r and \x1c-\x1f. */
  predicate IsSpace(c: char) {
    c == ' ' || c == '\t' || c == '\n' || c == '\r' || c == '\U{000B}' || c == '\U{000C}'
    || ('\U{001C}' <= c <= '\U{001F}')
  }

  predicate IsBlank(s: string) {
    forall i :: 0 <= i < |s| ==> IsSpace(s[i])
  }

  /** The characters `IsSpace` accepts, as a set. */
  const Blanks: set<char> :=
    {' ', '\t', '\n', '\r', '\U{000B}', '\U{000C}', '\U{001C}', '\U{001D}', '\U{001E}', '\U{001F}'}

  lemma BlanksAreSpaces(c: char)
    ensures IsSpace(c) <==> c in Blanks
  {
  }

  predicate IsHexDigit(c: char) {
    ('0' <= c <= '9') || ('a' <= c <= 'f') || ('A' <= c <= 'F')
  }

  function HexValue(c: char): (v: nat)
    requires IsHexDigit(c)
    ensures v < 16
  {
    if '0' <= c <= '9' then c as int - '0' as int
    else if 'a' <= c <= 'f' then c as int - 'a' as int + 10
    else c as int - 'A' as int + 10
  }

  /** `str.isalnum` on the ASCII range. */
  predicate IsAlnum(c: char) {
    ('0' <= c <= '9') || ('a' <= c <= 'z') || ('A' <= c <= 'Z')
  }

  function LowerChar(c: char): char {
    if 'A' <= c <= 'Z' then (c as int - 'A' as int + 'a' as int) as char else c
  }

  /** `str.lower` on ASCII letters. */
  function Lower(s: string): (r: string)
    ensures |r| == |s|
    ensures forall i :: 0 <= i < |s| ==> r[i] == LowerChar(s[i])
  {
    if s == [] then [] else [LowerChar(s[0])] + Lower(s[1..])
  }

  /** `str.lstrip()` with no argument. */
  function LStrip(s: string): (r: string)
    ensures |r| <= |s| && r == s[|s| - |r|..]
    ensures r != [] ==> !IsSpace(r[0])
    ensures IsBlank(s[..|s| - |r|])
  {
    if s != [] && IsSpace(s[0]) then LStrip(s[1..]) else s
  }

  /** `str.rstrip()` with no argument. */
  function RStrip(s: string): (r: string)
    ensures |r| <= |s| && r == s[..|r|]
    ensures r != [] ==> !IsSpace(r[|r| - 1])
    ensures IsBlank(s[|r|..])
  {
    if s != [] && IsSpace(s[|s| - 1]) then RStrip(s[..|s| - 1]) else s
  }

  /** `str.strip()` with no argument. */
  function Strip(s: string): string {
    RStrip(LStrip(s))
  }

  /** A string that neither starts nor ends with a blank is its own strip. */
  lemma StripKeepsTrimmed(s: string)
    requires s != [] ==> !IsSpace(s[0]) && !IsSpace(s[|s| - 1])
    ensures Strip(s) == s
  {
    assert LStrip(s) == s;
  }

  lemma {:induction false} StripEmptyIffBlank(s: string)
    ensures Strip(s) == [] <==> IsBlank(s)
  {
    var l := LStrip(s);
    if l == [] {
      assert s[..|s| - |l|] == s;
    } else {
      assert !IsSpace(l[0]);
      assert s[|s| - |l|] == l[0];
      assert l[0..] == l;
    }
  }

  /** `str.lstrip(c)` for a single character `c`: removes every leading `c`. */
  function LStripChar(s: string, c: char): (r: string)
    ensures |r| <= |s| && r == s[|s| - |r|..]
    ensures r != [] ==> r[0] != c
    ensures forall i :: 0 <= i < |s| - |r| ==> s[i] == c
  {
    if s != [] && s[0] == c then LStripChar(s[1..], c) else s
  }

  /** `str.startswith`. */
  predicate StartsWith(s: string, p: string) {
    |p| <= |s| && s[..|p|] == p
  }

  /** `str.endswith`. */
  predicate EndsWith(s: string, p: string) {
    |p| <= |s| && s[|s| - |p|..] == p
  }

  /** `p` occurs in `s` starting at index `j`. */
  predicate OccursAt(s: string, p: string, j: int) {
    0 <= j && j + |p| <= |s| && s[j..j + |p|] == p
  }

  /** `str.find`: the first index at which `p` occurs in `s`. */
  function IndexOf(s: string, p: string): (r: Option<nat>)
    ensures r.Some? ==> OccursAt(s, p, r.value)
    ensures r.Some? ==> forall j :: 0 <= j < r.value ==> !OccursAt(s, p, j)
    ensures r.None? ==> forall j :: !OccursAt(s, p, j)
    decreases |s|
  {
    if |s| < |p| then None
    else if s[..|p|] == p then Some(0)
    else
      match IndexOf(s[1..], p)
      case None => (
        assert forall j :: OccursAt(s, p, j) ==> j == 0 || OccursAt(s[1..], p, j - 1) by {
          forall j | OccursAt(s, p, j) && j != 0 ensures OccursAt(s[1..], p, j - 1) {
            assert s[j..j + |p|] == s[1..][j - 1..j - 1 + |p|];
          }
        }
        None)
      case Some(k) => (
        assert forall j :: 1 <= j <= k + 1 ==> (OccursAt(s, p, j) <==> OccursAt(s[1..], p, j - 1)) by {
          forall j | 1 <= j <= k + 1 ensures OccursAt(s, p, j) <==> OccursAt(s[1..], p, j - 1) {
            if j + |p| <= |s| {
              assert s[j..j + |p|] == s[1..][j - 1..j - 1 + |p|];
            }
          }
        }
        Some(k + 1))
  }

  /** Python's `s.split(sep, 1)[1]`: the text after the first `sep`, or None where Python raises IndexError. */
  function AfterFirst(s: string, sep: string): (r: Option<string>)
    ensures r.Some? <==> IndexOf(s, sep).Some?
    ensures r.Some? ==> r.value == s[IndexOf(s, sep).value + |sep|..]
  {
    match IndexOf(s, sep)
    case None => None
    case Some(i) => Some(s[i + |sep|..])
  }

  /**
   * If `sep` does not start anywhere inside `prefix` (it may not even straddle
   * the join), the text after the first `sep` in `prefix + sep + rest` is `rest`.
   */
  lemma AfterFirstOfJoin(prefix: string, sep: string, rest: string)
    requires forall j :: 0 <= j < |prefix| ==> !OccursAt(prefix + sep + rest, sep, j)
    ensures AfterFirst(prefix + sep + rest, sep) == Some(rest)
  {
    var s := prefix + sep + rest;
    assert s[|prefix|..|prefix| + |sep|] == sep;
    assert OccursAt(s, sep, |prefix|);
    var i := IndexOf(s, sep);
    assert i.Some? && i.value == |prefix|;
    assert s[|prefix| + |sep|..] == rest;
  }

  /** `os.path.basename`: the text after the last '/'. */
  function Basename(p: string): (r: string)
    ensures EndsWith(p, r) && '/' !in r
    ensures |r| < |p| ==> p[|p| - |r| - 1] == '/'
  {
    if p == [] then []
    else if p[|p| - 1] == '/' then []
    else Basename(p[..|p| - 1]) + [p[|p| - 1]]
  }

  function DigitChar(d: nat): char
    requires d < 10
  {
    ('0' as int + d) as char
  }

  /** `str(n)` for a natural number. */
  function NatToString(n: nat): (r: string)
    ensures r != []
    ensures forall i :: 0 <= i < |r| ==> '0' <= r[i] <= '9'
  {
    if n < 10 then [DigitChar(n)] else NatToString(n / 10) + [DigitChar(n % 10)]
  }

  /** `str.replace(a, b)` for single characters. */
  function ReplaceChar(s: string, a: char, b: char): (r: string)
    ensures |r| == |s|
    ensures forall i :: 0 <= i < |s| ==> r[i] == (if s[i] == a then b else s[i])
  {
    if s == [] then [] else [if s[0] == a then b else s[0]] + ReplaceChar(s[1..], a, b)
  }

  /** `sep.join(xs)`. */
  function Join(sep: string, xs: seq<string>): string {
    if xs == [] then []
    else if |xs| == 1 then xs[0]
    else xs[0] + sep + Join(sep, xs[1..])
  }

  /** Python's `xs[:stop]`: a negative `stop` counts back from the end. */
  function Take<T>(xs: seq<T>, stop: int): (r: seq<T>)
    ensures 0 <= stop ==> |r| == if stop < |xs| then stop else |xs|
    ensures stop < 0 ==> |r| == if |xs| + stop < 0 then 0 else |xs| + stop
    ensures r == xs[..|r|]
  {
    if 0 <= stop then (if stop < |xs| then xs[..stop] else xs)
    else if |xs| + stop < 0 then []
    else xs[..|xs| + stop]
  }

  lemma LowerIdempotent(s: string)
    ensures Lower(Lower(s)) == Lower(s)
  {
  }

  /** `sub in s` for strings. */
  predicate Contains(s: string, sub: string) {
    IndexOf(s, sub).Some?
  }
}

/**
 * A request body or an options dictionary as the Django side sees it after
 * JSON decoding: a map from field name to a scalar value.
 */
module Json {
  datatype Value = Null | Bool(b: bool) | Int(i: int) | Str(s: string)

  type Object = map<string, Value>

  /** Python truthiness of a scalar. */
  predicate Truthy(v: Value) {
    match v
    case Null => false
    case Bool(b) => b
    case Int(i) => i != 0
    case Str(s) => s != []
  }

  /** `d.get(key, default)`. */
  function Get(d: Object, key: string, default: Value): Value {
    if key in d then d[key] else default
  }
}
