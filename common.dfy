/**
 * Shared vocabulary of the portal model: an optional value (JavaScript's
 * `null`/`undefined`) and the few string operations the controllers and
 * pages rely on (`trim`, `toLowerCase`, `includes`, `startsWith`,
 * `split(' ')[1]`, `join`).
 */
module Common {

  datatype Option<+T> = None | Some(value: T) {
    /** The value when present, the default otherwise. */
    function GetOr(default: T): T {
      match this
      case Some(v) => v
      case None => default
    }
  }

  /** JavaScript truthiness of an optional string: absent or empty is falsy. */
  predicate Truthy(s: Option<string>) {
    s.Some? && s.value != ""
  }

  /**
   * The white-space and line-terminator characters `String.prototype.trim`
   * removes, restricted to the ones a form field or a header can plausibly
   * carry (see README "Left out").
   */
  predicate IsSpace(c: char) {
    c == ' ' || c == '\t' || c == '\n' || c == '\r' || c == '\U{000B}' || c == '\U{000C}'
    || c == '\U{00A0}' || c == '\U{FEFF}' || c == '\U{2028}' || c == '\U{2029}'
  }

  predicate AllSpace(s: string) {
    forall i :: 0 <= i < |s| ==> IsSpace(s[i])
  }

  function TrimStart(s: string): (r: string)
    ensures |r| <= |s| && r == s[|s| - |r|..]
    ensures r == [] || !IsSpace(r[0])
    ensures AllSpace(s[..|s| - |r|])
  {
    if s == [] || !IsSpace(s[0]) then s
    else
      var r := TrimStart(s[1..]);
      assert s[1..][..|s[1..]| - |r|] == s[1..|s| - |r|];
      r
  }

  function TrimEnd(s: string): (r: string)
    ensures |r| <= |s| && r == s[..|r|]
    ensures r == [] || !IsSpace(r[|r| - 1])
    ensures AllSpace(s[|r|..])
  {
    if s == [] || !IsSpace(s[|s| - 1]) then s
    else
      var r := TrimEnd(s[..|s| - 1]);
      assert s[..|s| - 1][|r|..] + [s[|s| - 1]] == s[|r|..];
      r
  }

  /** `s.trim()`: the longest slice of `s` without white space at either end. */
  function Trim(s: string): (r: string)
  {
    TrimEnd(TrimStart(s))
  }

  /** `!s.trim()`: nothing but white space. */
  predicate IsBlank(s: string) {
    Trim(s) == ""
  }

  /** No white space at either end. */
  predicate IsTrimmed(s: string) {
    s == [] || (!IsSpace(s[0]) && !IsSpace(s[|s| - 1]))
  }

  /** Trim keeps a contiguous slice and drops only white space. */
  lemma TrimIsInnerSlice(s: string)
    ensures var r := Trim(s);
      exists i :: 0 <= i <= |s| - |r| && r == s[i..i + |r|] && AllSpace(s[..i]) && AllSpace(s[i + |r|..])
  {
    var t := TrimStart(s);
    var r := TrimEnd(t);
    var i := |s| - |t|;
    assert t == s[i..];
    assert r == s[i..i + |r|];
    assert s[i + |r|..] == t[|r|..];
  }

  /** Trim changes a string exactly when it has white space at an end. */
  lemma TrimFixedIff(s: string)
    ensures Trim(s) == s <==> IsTrimmed(s)
  {
    TrimIsTrimmed(s);
    if IsTrimmed(s) {
      TrimmedIsFixed(s);
    }
  }

  /** Trim leaves no white space at either end. */
  lemma TrimIsTrimmed(s: string)
    ensures IsTrimmed(Trim(s))
  {
    var t := TrimStart(s);
    var r := TrimEnd(t);
    if r != [] {
      assert r[0] == t[0];
    }
  }

  /** Trim leaves a string with no white space at either end as it is. */
  lemma TrimmedIsFixed(s: string)
    requires IsTrimmed(s)
    ensures Trim(s) == s
  {
    if s != [] {
      assert TrimStart(s) == s;
      assert TrimEnd(s) == s;
    }
  }

  /** Trimming twice is trimming once. */
  lemma TrimIdempotent(s: string)
    ensures Trim(Trim(s)) == Trim(s)
  {
    TrimIsTrimmed(s);
    TrimmedIsFixed(Trim(s));
  }

  /** A string is blank exactly when every one of its characters is white space. */
  lemma {:induction false} BlankIffAllSpace(s: string)
    ensures IsBlank(s) <==> AllSpace(s)
  {
    var t := TrimStart(s);
    var r := TrimEnd(t);
    var d := |s| - |t|;
    assert forall j :: 0 <= j < d ==> IsSpace(s[j]) by {
      forall j | 0 <= j < d ensures IsSpace(s[j]) { assert s[..d][j] == s[j]; }
    }
    assert forall j :: |r| <= j < |t| ==> IsSpace(t[j]) by {
      forall j | |r| <= j < |t| ensures IsSpace(t[j]) { assert t[|r|..][j - |r|] == t[j]; }
    }
    assert forall j :: 0 <= j < |t| ==> t[j] == s[d + j];
    if !AllSpace(s) {
      var k :| 0 <= k < |s| && !IsSpace(s[k]);
      assert d <= k;
      assert !IsSpace(t[k - d]);
      assert |r| > k - d;
    }
  }

  /** `c.toLowerCase()` on the ASCII letters (see README "Left out"). */
  function LowerChar(c: char): char {
    if 'A' <= c <= 'Z' then (c as int + 32) as char else c
  }

  function ToLower(s: string): (r: string)
    ensures |r| == |s|
    ensures forall i :: 0 <= i < |s| ==> r[i] == LowerChar(s[i])
  {
    if s == [] then [] else [LowerChar(s[0])] + ToLower(s[1..])
  }

  /** Lowering twice is lowering once. */
  lemma ToLowerIdempotent(s: string)
    ensures ToLower(ToLower(s)) == ToLower(s)
  {
    var l := ToLower(s);
    assert forall i :: 0 <= i < |l| ==> LowerChar(l[i]) == l[i];
  }

  predicate StartsWith(s: string, prefix: string) {
    |prefix| <= |s| && s[..|prefix|] == prefix
  }

  /** `sub` occurs in `s` starting at position `i`. */
  predicate OccursAt(s: string, sub: string, i: int) {
    0 <= i <= |s| - |sub| && s[i..i + |sub|] == sub
  }

  /** `s.includes(sub)`: `sub` occurs as a contiguous slice of `s`. */
  predicate Includes(s: string, sub: string) {
    exists i :: 0 <= i <= |s| - |sub| && OccursAt(s, sub, i)
  }

  /** Executable search for `Includes`, one start position at a time. */
  function IncludesFrom(s: string, sub: string, from: nat): (b: bool)
    requires from <= |s| + 1
    ensures b <==> exists i :: from <= i && OccursAt(s, sub, i)
    decreases |s| + 1 - from
  {
    if from + |sub| > |s| then false
    else if s[from..from + |sub|] == sub then
      assert OccursAt(s, sub, from);
      true
    else
      assert !OccursAt(s, sub, from);
      IncludesFrom(s, sub, from + 1)
  }

  /** The empty string is included in every string, as in JavaScript. */
  lemma IncludesEmpty(s: string)
    ensures Includes(s, "")
  {
    assert OccursAt(s, "", 0);
  }

  /** The text before the first space, or all of `s` when it has none. */
  function UpToSpace(s: string): (r: string)
    ensures StartsWith(s, r)
    ensures ' ' !in r
    ensures |r| < |s| ==> s[|r|] == ' '
  {
    if s == [] || s[0] == ' ' then [] else [s[0]] + UpToSpace(s[1..])
  }

  /** A string without a space is its own first segment. */
  lemma {:induction false} UpToSpaceWithoutSpace(s: string)
    requires ' ' !in s
    ensures UpToSpace(s) == s
  {
    if s != [] {
      assert s[1..] + [] == s[1..];
      assert ' ' !in s[1..] by {
        forall i | 0 <= i < |s[1..]| ensures s[1..][i] != ' ' {
          assert s[1..][i] == s[i + 1];
        }
      }
      UpToSpaceWithoutSpace(s[1..]);
    }
  }

  /** The text after the first space, or nothing when `s` has none. */
  function AfterSpace(s: string): (r: string)
    ensures |r| <= |s|
  {
    var head := UpToSpace(s);
    if |head| < |s| then s[|head| + 1..] else []
  }

  /**
   * `s.split(' ')[1]`: the second space-separated segment; `None` stands
   * for JavaScript's `undefined` when `s` holds no space at all.
   */
  function SecondSegment(s: string): (r: Option<string>)
    ensures r.None? <==> ' ' !in s
  {
    if |UpToSpace(s)| < |s| then Some(UpToSpace(AfterSpace(s))) else None
  }

  /** `parts.join(sep)`. */
  function Join(parts: seq<string>, sep: string): (r: string)
    ensures parts == [] ==> r == ""
    ensures |parts| == 1 ==> r == parts[0]
  {
    if parts == [] then ""
    else if |parts| == 1 then parts[0]
    else parts[0] + sep + Join(parts[1..], sep)
  }

  /** Every part occurs in the joined string, at the offset of the parts and separators before it. */
  lemma {:induction false} JoinIncludesEachPart(parts: seq<string>, sep: string, i: nat)
    requires i < |parts|
    ensures Includes(Join(parts, sep), parts[i])
  {
    var j := Join(parts, sep);
    if |parts| == 1 {
      assert OccursAt(j, parts[0], 0);
    } else if i == 0 {
      assert j == parts[0] + (sep + Join(parts[1..], sep));
      assert j[..|parts[0]|] == parts[0];
      assert OccursAt(j, parts[0], 0);
    } else {
      var rest := Join(parts[1..], sep);
      JoinIncludesEachPart(parts[1..], sep, i - 1);
      var k :| 0 <= k <= |rest| - |parts[i]| && OccursAt(rest, parts[i], k);
      var off := |parts[0]| + |sep|;
      assert j == (parts[0] + sep) + rest;
      assert j[off + k..off + k + |parts[i]|] == rest[k..k + |parts[i]|];
      assert OccursAt(j, parts[i], off + k);
    }
  }

  function IsDigit(c: char): bool {
    '0' <= c <= '9'
  }

  function DecimalValue(s: string): (n: nat)
    requires forall i :: 0 <= i < |s| ==> IsDigit(s[i])
  {
    if s == [] then 0
    else
      assert IsDigit(s[|s| - 1]);
      DecimalValue(s[..|s| - 1]) * 10 + (s[|s| - 1] as int - '0' as int)
  }

  /**
   * How a route or body id string selects a row: a non-empty string of
   * decimal digits names that key; anything else names no row (the
   * database's own casting of other strings is not modelled).
   */
  function KeyOf(s: string): (k: Option<nat>)
    ensures k.Some? <==> s != "" && forall i :: 0 <= i < |s| ==> IsDigit(s[i])
  {
    if s != "" && forall i :: 0 <= i < |s| ==> IsDigit(s[i]) then Some(DecimalValue(s)) else None
  }

  /**
   * `isNaN(parseInt(s))`: after leading white space and an optional sign,
   * `parseInt` needs at least one decimal digit.
   */
  predicate ParseIntIsNaN(s: string) {
    var t := TrimStart(s);
    var u := if t != [] && (t[0] == '+' || t[0] == '-') then t[1..] else t;
    u == [] || !IsDigit(u[0])
  }

  /** Every key string passes the `parseInt` guard. */
  lemma KeyPassesParseInt(s: string)
    requires KeyOf(s).Some?
    ensures !ParseIntIsNaN(s)
  {
    assert IsDigit(s[0]);
    assert !IsSpace(s[0]);
    assert TrimStart(s) == s;
    assert s[0] != '+' && s[0] != '-';
  }
}
