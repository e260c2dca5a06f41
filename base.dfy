/**
 * Shared value types and the string helpers the TypeScript code relies on
 * (`includes`, `indexOf`, `lastIndexOf`, `startsWith`, `replace` with a string
 * pattern, `split(c)[1]`, `trim`, and `toLowerCase` on ASCII letters).
 */
module Base {

  datatype Option<+T> = None | Some(value: T)

  /** A thrown `Error` is modelled by its message. */
  datatype Result<+T> = Ok(value: T) | Err(error: string)

  /** JavaScript truthiness of an optional string: present and non-empty. */
  predicate Truthy(o: Option<string>) {
    o.Some? && o.value != ""
  }

  /** `o || fallback` for an optional string. */
  function OrElse(o: Option<string>, fallback: string): (r: string)
    ensures Truthy(o) ==> r == o.value
    ensures !Truthy(o) ==> r == fallback
  {
    if Truthy(o) then o.value else fallback
  }

  /** `xs || []` (or `|| {}` for an object held as its entries): the value, or an empty one when there is none. */
  function OrEmpty<T>(o: Option<seq<T>>): seq<T> {
    match o
    case Some(xs) => xs
    case None => []
  }

  /** `p` occurs in `s` starting at index `i`. */
  predicate HasAt(s: string, i: int, p: string) {
    0 <= i && i + |p| <= |s| && s[i..i + |p|] == p
  }

  predicate StartsWith(s: string, p: string) {
    HasAt(s, 0, p)
  }

  /** `s.indexOf(p, from)`: the first index at or after `from` where `p` occurs. */
  function IndexOfFrom(s: string, p: string, from: nat): (r: Option<nat>)
    decreases |s| - from
    ensures r.Some? ==> from <= r.value && HasAt(s, r.value, p)
    ensures r.Some? ==> forall j :: from <= j < r.value ==> !HasAt(s, j, p)
    ensures r.None? ==> forall j :: from <= j ==> !HasAt(s, j, p)
  {
    if from + |p| > |s| then None
    else if s[from..from + |p|] == p then Some(from)
    else IndexOfFrom(s, p, from + 1)
  }

  function IndexOf(s: string, p: string): (r: Option<nat>)
    ensures r.Some? ==> HasAt(s, r.value, p) && forall j :: 0 <= j < r.value ==> !HasAt(s, j, p)
    ensures r.None? ==> forall j :: !HasAt(s, j, p)
  {
    IndexOfFrom(s, p, 0)
  }

  /** `s.includes(p)`. */
  predicate Contains(s: string, p: string) {
    IndexOf(s, p).Some?
  }

  lemma ContainsAt(s: string, p: string, i: int)
    requires HasAt(s, i, p)
    ensures Contains(s, p)
  {
  }

  /** `s.lastIndexOf(c)` for a single character. */
  function LastIndexOfChar(s: string, c: char): (r: Option<nat>)
    ensures r.Some? ==> r.value < |s| && s[r.value] == c && c !in s[r.value + 1..]
    ensures r.None? ==> c !in s
  {
    if s == [] then None
    else if s[|s| - 1] == c then Some(|s| - 1)
    else
      var r := LastIndexOfChar(s[..|s| - 1], c);
      assert s == s[..|s| - 1] + [s[|s| - 1]];
      r
  }

  /** The last `c` in `s` is at `k`. */
  lemma LastIndexOfCharIs(s: string, c: char, k: nat)
    requires k < |s| && s[k] == c && c !in s[k + 1..]
    ensures LastIndexOfChar(s, c) == Some(k)
  {
    assert s[k] in s;
  }

  /** `s.replace(p, rep)` with a string pattern: only the first occurrence changes. */
  function ReplaceFirst(s: string, p: string, rep: string): (r: string)
    ensures IndexOf(s, p).None? ==> r == s
    ensures IndexOf(s, p).Some? ==>
      var k := IndexOf(s, p).value; r == s[..k] + rep + s[k + |p|..]
  {
    match IndexOf(s, p)
    case None => s
    case Some(k) => s[..k] + rep + s[k + |p|..]
  }

  /** `s.split(c)[1]`: the text between the first and second `c` (or the end); absent without any `c`. */
  function SecondField(s: string, c: char): (r: Option<string>)
    ensures r.None? <==> c !in s
    ensures r.Some? ==> c !in r.value && |r.value| < |s|
  {
    HasAtChar(s, c);
    match IndexOf(s, [c])
    case None => None
    case Some(k) =>
      var rest := s[k + 1..];
      match IndexOf(rest, [c])
      case None =>
        HasAtChar(rest, c);
        Some(rest)
      case Some(m) =>
        HasAtChar(rest, c);
        assert c !in rest[..m];
        Some(rest[..m])
  }

  lemma HasAtChar(s: string, c: char)
    ensures forall j :: 0 <= j < |s| ==> (HasAt(s, j, [c]) <==> s[j] == c)
  {
    forall j | 0 <= j < |s| ensures HasAt(s, j, [c]) <==> s[j] == c {
      assert s[j..j + 1] == [s[j]];
    }
  }

  /** A pattern with a character that does not occur in `s` does not occur in `s`. */
  lemma NotContainsChar(s: string, p: string, k: nat)
    requires k < |p| && p[k] !in s
    ensures !Contains(s, p)
  {
    forall j | 0 <= j && j + |p| <= |s| ensures !HasAt(s, j, p) {
      assert s[j..j + |p|][k] == s[j + k];
    }
  }

  /** `p` occurs in `a + p + b` right after `a`. */
  lemma HasAtMiddle(a: string, p: string, b: string)
    ensures HasAt(a + p + b, |a|, p)
  {
    assert (a + p + b)[|a|..|a| + |p|] == p;
  }

  /** A pattern whose first character does not occur in `a` is first found right after `a`. */
  lemma IndexOfAfter(a: string, p: string, b: string)
    requires p != [] && p[0] !in a
    ensures IndexOf(a + p + b, p) == Some(|a|)
  {
    var s := a + p + b;
    assert s[|a|..|a| + |p|] == p;
    forall j | 0 <= j < |a| ensures !HasAt(s, j, p) {
      assert s[j] == a[j];
      if j + |p| <= |s| { assert s[j..j + |p|][0] == s[j]; }
    }
    assert HasAt(s, |a|, p);
    var r := IndexOf(s, p);
    assert r.Some? && r.value <= |a|;
  }

  /** Splitting `a, b` at commas, when neither side has one, gives `b` as the second field. */
  lemma SecondFieldOf(a: string, c: char, b: string)
    requires c !in a && c !in b
    ensures SecondField(a + [c] + b, c) == Some(b)
  {
    var s := a + [c] + b;
    IndexOfAfter(a, [c], b);
    assert s[|a| + 1..] == b;
    HasAtChar(b, c);
  }

  /** `replace` puts its replacement in the result. */
  lemma ReplaceFirstContains(s: string, p: string, rep: string)
    requires Contains(s, p)
    ensures Contains(ReplaceFirst(s, p, rep), rep)
  {
    var k := IndexOf(s, p).value;
    var r := ReplaceFirst(s, p, rep);
    assert r[k..k + |rep|] == rep;
    ContainsAt(r, rep, k);
  }

  /** Whatever contains `p + q` contains `q`. */
  lemma ContainsSuffix(s: string, p: string, q: string)
    requires Contains(s, p + q)
    ensures Contains(s, q)
  {
    var k := IndexOf(s, p + q).value;
    assert s[k + |p|..k + |p| + |q|] == s[k..k + |p + q|][|p|..];
    ContainsAt(s, q, k + |p|);
  }

  /** ASCII `toLowerCase`. */
  function LowerChar(c: char): char {
    if 'A' <= c <= 'Z' then (c as int + 32) as char else c
  }

  function ToLower(s: string): (r: string)
    ensures |r| == |s| && forall i :: 0 <= i < |s| ==> r[i] == LowerChar(s[i])
  {
    seq(|s|, i requires 0 <= i < |s| => LowerChar(s[i]))
  }

  /**
   * The characters `trim` removes and the regular expression class `\s`
   * matches: the ECMAScript WhiteSpace and LineTerminator sets (tab, line
   * feed, vertical tab, form feed, carriage return, space, no-break space,
   * the Unicode space separators, line and paragraph separators, and the
   * byte order mark).
   */
  predicate IsSpace(c: char) {
    c == '\t' || c == '\n' || c == '\U{000B}' || c == '\U{000C}' || c == '\r' || c == ' '
    || c == '\U{00A0}' || c == '\U{1680}' || '\U{2000}' <= c <= '\U{200A}'
    || c == '\U{2028}' || c == '\U{2029}' || c == '\U{202F}' || c == '\U{205F}'
    || c == '\U{3000}' || c == '\U{FEFF}'
  }

  predicate IsBlank(s: string) {
    forall i :: 0 <= i < |s| ==> IsSpace(s[i])
  }

  /** The number of space characters `s` starts with. */
  function LeadingSpaces(s: string): (n: nat)
    ensures n <= |s|
  {
    if s != [] && IsSpace(s[0]) then 1 + LeadingSpaces(s[1..]) else 0
  }

  /** The leading spaces are spaces, and the character after them is not. */
  lemma {:induction false} LeadingSpacesAre(s: string)
    ensures forall i :: 0 <= i < LeadingSpaces(s) ==> IsSpace(s[i])
    ensures LeadingSpaces(s) < |s| ==> !IsSpace(s[LeadingSpaces(s)])
  {
    if s != [] && IsSpace(s[0]) {
      LeadingSpacesAre(s[1..]);
      forall i | 0 <= i < LeadingSpaces(s)
        ensures IsSpace(s[i])
      {
        if i > 0 {
          assert s[i] == s[1..][i - 1];
        }
      }
    }
  }

  /** The number of space characters `s` ends with. */
  function TrailingSpaces(s: string): (n: nat)
    ensures n <= |s|
  {
    if s != [] && IsSpace(s[|s| - 1]) then 1 + TrailingSpaces(s[..|s| - 1]) else 0
  }

  /** The trailing spaces are spaces, and the character before them is not. */
  lemma {:induction false} TrailingSpacesAre(s: string)
    ensures forall i :: |s| - TrailingSpaces(s) <= i < |s| ==> IsSpace(s[i])
    ensures TrailingSpaces(s) < |s| ==> !IsSpace(s[|s| - 1 - TrailingSpaces(s)])
  {
    if s != [] && IsSpace(s[|s| - 1]) {
      var init := s[..|s| - 1];
      TrailingSpacesAre(init);
      forall i | |s| - TrailingSpaces(s) <= i < |s|
        ensures IsSpace(s[i])
      {
        if i < |s| - 1 {
          assert s[i] == init[i];
        }
      }
      if TrailingSpaces(s) < |s| {
        assert s[|s| - 1 - TrailingSpaces(s)] == init[|init| - 1 - TrailingSpaces(init)];
      }
    }
  }

  /**
   * `s.trim()`: the result is the slice of `s` left once its leading and
   * trailing space is cut off, so it has no space at either end, and it is
   * empty exactly for blank input.
   */
  function Trim(s: string): (r: string)
    ensures exists a, b :: 0 <= a <= b <= |s| && r == s[a..b] && IsBlank(s[..a]) && IsBlank(s[b..])
    ensures r == [] || (!IsSpace(r[0]) && !IsSpace(r[|r| - 1]))
    ensures r == [] <==> IsBlank(s)
  {
    var lead := LeadingSpaces(s);
    LeadingSpacesAre(s);
    if lead == |s| then
      assert [] == s[0..0] && IsBlank(s[..0]) && IsBlank(s[0..]);
      []
    else
      var trail := TrailingSpaces(s);
      TrailingSpacesAre(s);
      assert trail < |s| - lead by {
        assert !IsSpace(s[lead]);
      }
      var r := s[lead..|s| - trail];
      assert r[0] == s[lead] && r[|r| - 1] == s[|s| - 1 - trail];
      assert IsBlank(s[..lead]) && IsBlank(s[|s| - trail..]);
      r
  }

  function DigitChar(d: nat): char
    requires d < 10
  {
    "0123456789"[d]
  }

  /** `String(n)` for a non-negative integer. */
  function NatToString(n: nat): (r: string)
    ensures |r| >= 1
    ensures forall i :: 0 <= i < |r| ==> '0' <= r[i] <= '9'
    ensures n >= 10 ==> |r| >= 2
  {
    if n < 10 then [DigitChar(n)] else NatToString(n / 10) + [DigitChar(n % 10)]
  }

  /** The text after the last `/`, or the whole string when there is none. */
  function LastSegment(s: string): (r: string)
    ensures '/' !in r
    ensures |r| <= |s| && r == s[|s| - |r|..]
    ensures '/' !in s ==> r == s
    ensures '/' in s ==> |r| < |s| && s[|s| - |r| - 1] == '/'
  {
    match LastIndexOfChar(s, '/')
    case None => s
    case Some(k) => s[k + 1..]
  }

  /** `base:quant` becomes `base (quant)` when the last `:` is past index 0. */
  function QuantName(s: string): (r: string)
    ensures (LastIndexOfChar(s, ':').Some? && LastIndexOfChar(s, ':').value > 0) ==>
      var k := LastIndexOfChar(s, ':').value;
      r == s[..k] + " (" + s[k + 1..] + ")"
    ensures ':' !in s ==> r == s
    ensures |r| >= |s| && ('/' !in s ==> '/' !in r)
  {
    match LastIndexOfChar(s, ':')
    case Some(k) => if k > 0 then s[..k] + " (" + s[k + 1..] + ")" else s
    case None => s
  }
}
