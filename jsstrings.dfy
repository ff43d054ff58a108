/** The JavaScript string built-ins the modelled code relies on, restricted to the
    argument shapes it uses: `indexOf` / `includes` with a string argument,
    `replace` with a string pattern and a string replacement (first occurrence
    only, with the `$`-patterns of the replacement expanded), `trim`, `slice`
    and `toLowerCase`. */
module JsStrings {
  import opened Prelude

  /** `pat` occurs in `s` starting at index `i`. */
  predicate OccursAt(s: string, pat: string, i: nat) {
    i + |pat| <= |s| && s[i..i + |pat|] == pat
  }

  /** The first occurrence of `pat` at or after `from`. */
  function IndexFrom(s: string, pat: string, from: nat): (r: Option<nat>)
    ensures r.Some? ==> from <= r.value && OccursAt(s, pat, r.value)
    ensures r.Some? ==> forall j: nat :: from <= j < r.value ==> !OccursAt(s, pat, j)
    ensures r.None? ==> forall j: nat :: from <= j ==> !OccursAt(s, pat, j)
    decreases |s| - from
  {
    if from + |pat| > |s| then None
    else if s[from..from + |pat|] == pat then Some(from)
    else IndexFrom(s, pat, from + 1)
  }

  /** `String.prototype.indexOf(pat)`: the first index at which `pat` occurs,
      `None` for the result -1. */
  function IndexOf(s: string, pat: string): (r: Option<nat>)
    ensures r.Some? ==> OccursAt(s, pat, r.value) && forall j: nat :: j < r.value ==> !OccursAt(s, pat, j)
    ensures r.None? <==> forall j: nat :: !OccursAt(s, pat, j)
  {
    IndexFrom(s, pat, 0)
  }

  /** `String.prototype.includes(sub)`. */
  function Includes(s: string, sub: string): (r: bool)
    ensures r <==> exists i: nat :: OccursAt(s, sub, i)
  {
    IndexOf(s, sub).Some?
  }

  predicate NoDollar(s: string) {
    forall i :: 0 <= i < |s| ==> s[i] != '$'
  }

  /** The expansion of a replacement string by `String.prototype.replace` when the
      pattern is a string (so there are no capture groups): `$$` is `$`, `$&` is
      the matched text, `` $` `` the text before the match, `$'` the text after it;
      every other `$` stands for itself. */
  function Expand(rep: string, matched: string, before: string, after: string): string
  {
    if rep == [] then []
    else if rep[0] == '$' && |rep| >= 2 && rep[1] == '$' then "$" + Expand(rep[2..], matched, before, after)
    else if rep[0] == '$' && |rep| >= 2 && rep[1] == '&' then matched + Expand(rep[2..], matched, before, after)
    else if rep[0] == '$' && |rep| >= 2 && rep[1] == '`' then before + Expand(rep[2..], matched, before, after)
    else if rep[0] == '$' && |rep| >= 2 && rep[1] == '\'' then after + Expand(rep[2..], matched, before, after)
    else [rep[0]] + Expand(rep[1..], matched, before, after)
  }

  /** A replacement without `$` is inserted literally. */
  lemma {:induction false} ExpandLiteral(rep: string, matched: string, before: string, after: string)
    requires NoDollar(rep)
    ensures Expand(rep, matched, before, after) == rep
  {
    if rep != [] {
      assert NoDollar(rep[1..]) by {
        forall i | 0 <= i < |rep[1..]| ensures rep[1..][i] != '$' { assert rep[1..][i] == rep[i + 1]; }
      }
      ExpandLiteral(rep[1..], matched, before, after);
    }
  }

  /** `s.replace(pat, rep)` with a string pattern: only the first occurrence of
      `pat` is replaced; without an occurrence `s` is returned unchanged. */
  function ReplaceFirst(s: string, pat: string, rep: string): (r: string)
    ensures (forall j: nat :: !OccursAt(s, pat, j)) ==> r == s
    ensures forall i: nat :: OccursAt(s, pat, i) && (forall j: nat :: j < i ==> !OccursAt(s, pat, j)) ==>
      r == s[..i] + Expand(rep, pat, s[..i], s[i + |pat|..]) + s[i + |pat|..]
  {
    match IndexOf(s, pat)
    case None => s
    case Some(i) => s[..i] + Expand(rep, pat, s[..i], s[i + |pat|..]) + s[i + |pat|..]
  }

  /** With a `$`-free replacement, the first occurrence is replaced literally and
      the rest of the text, later occurrences included, is kept. */
  lemma {:induction false} ReplaceFirstLiteral(s: string, pat: string, rep: string, i: nat)
    requires NoDollar(rep)
    requires OccursAt(s, pat, i) && forall j: nat :: j < i ==> !OccursAt(s, pat, j)
    ensures ReplaceFirst(s, pat, rep) == s[..i] + rep + s[i + |pat|..]
  {
    ExpandLiteral(rep, pat, s[..i], s[i + |pat|..]);
  }

  /** The characters `String.prototype.trim` removes: ECMAScript WhiteSpace and
      LineTerminator code points. */
  predicate IsJsSpace(c: char) {
    var n := c as int;
    (0x09 <= n <= 0x0D) || n == 0x20 || n == 0xA0 || n == 0x1680 || (0x2000 <= n <= 0x200A)
    || n == 0x2028 || n == 0x2029 || n == 0x202F || n == 0x205F || n == 0x3000 || n == 0xFEFF
  }

  /** The number of whitespace characters in a row from position `i` on. */
  function SpacesFrom(s: string, i: nat): (n: nat)
    requires i <= |s|
    ensures i + n <= |s|
    decreases |s| - i
  {
    if i < |s| && IsJsSpace(s[i]) then 1 + SpacesFrom(s, i + 1) else 0
  }

  lemma {:induction false} SpacesFromSpec(s: string, i: nat)
    requires i <= |s|
    ensures var n := SpacesFrom(s, i);
      && (forall k :: i <= k < i + n ==> IsJsSpace(s[k]))
      && (i + n < |s| ==> !IsJsSpace(s[i + n]))
    decreases |s| - i
  {
    if i < |s| && IsJsSpace(s[i]) {
      SpacesFromSpec(s, i + 1);
    }
  }

  /** The number of whitespace characters in a row just before position `j`. */
  function SpacesBefore(s: string, j: nat): (n: nat)
    requires j <= |s|
    ensures n <= j
  {
    if j > 0 && IsJsSpace(s[j - 1]) then 1 + SpacesBefore(s, j - 1) else 0
  }

  lemma {:induction false} SpacesBeforeSpec(s: string, j: nat)
    requires j <= |s|
    ensures var n := SpacesBefore(s, j);
      && (forall k :: j - n <= k < j ==> IsJsSpace(s[k]))
      && (n < j ==> !IsJsSpace(s[j - n - 1]))
  {
    if j > 0 && IsJsSpace(s[j - 1]) {
      SpacesBeforeSpec(s, j - 1);
    }
  }

  /** `s` with its leading whitespace removed. */
  function TrimStart(s: string): (r: string)
    ensures |r| <= |s|
  {
    s[SpacesFrom(s, 0)..]
  }

  /** What `TrimStart` drops is whitespace, and what it keeps starts with
      something else. */
  lemma {:induction false} TrimStartSpec(s: string)
    ensures var r := TrimStart(s);
      && r == s[|s| - |r|..]
      && (forall i :: 0 <= i < |s| - |r| ==> IsJsSpace(s[i]))
      && (r != [] ==> !IsJsSpace(r[0]))
  {
    SpacesFromSpec(s, 0);
  }

  /** `s` with its trailing whitespace removed. */
  function TrimEnd(s: string): (r: string)
    ensures |r| <= |s|
  {
    s[..|s| - SpacesBefore(s, |s|)]
  }

  /** What `TrimEnd` drops is whitespace, and what it keeps ends with
      something else. */
  lemma {:induction false} TrimEndSpec(s: string)
    ensures var r := TrimEnd(s);
      && r == s[..|r|]
      && (forall i :: |r| <= i < |s| ==> IsJsSpace(s[i]))
      && (r != [] ==> !IsJsSpace(r[|r| - 1]))
  {
    SpacesBeforeSpec(s, |s|);
  }

  /** `String.prototype.trim`. */
  function Trim(s: string): string {
    TrimEnd(TrimStart(s))
  }

  /** Trimming leaves the text between the first and the last non-whitespace
      character, and leaves nothing exactly when the text is all whitespace. */
  lemma {:induction false} TrimSpec(s: string)
    ensures exists i, j :: (0 <= i <= j <= |s| && Trim(s) == s[i..j]
                            && (forall k :: 0 <= k < i ==> IsJsSpace(s[k]))
                            && (forall k :: j <= k < |s| ==> IsJsSpace(s[k])))
    ensures Trim(s) != [] ==> !IsJsSpace(Trim(s)[0]) && !IsJsSpace(Trim(s)[|Trim(s)| - 1])
    ensures Trim(s) == [] <==> forall k :: 0 <= k < |s| ==> IsJsSpace(s[k])
  {
    var t := TrimStart(s);
    var i := |s| - |t|;
    var j := i + |TrimEnd(t)|;
    TrimStartSpec(s);
    TrimEndSpec(t);
    assert Trim(s) == s[i..j];
    forall k | j <= k < |s| ensures IsJsSpace(s[k]) { assert s[k] == t[k - i]; }
    if Trim(s) != [] {
      assert Trim(s)[0] == t[0];
    }
  }

  predicate AllJsSpace(s: string) {
    forall i :: 0 <= i < |s| ==> IsJsSpace(s[i])
  }

  /** A run of whitespace from `i` to `k` is counted in full. */
  lemma {:induction false} SpacesFromRun(s: string, i: nat, k: nat)
    requires i <= k <= |s| && forall m :: i <= m < k ==> IsJsSpace(s[m])
    ensures SpacesFrom(s, i) == (k - i) + SpacesFrom(s, k)
    decreases k - i
  {
    if i < k {
      SpacesFromRun(s, i + 1, k);
    }
  }

  /** A run of whitespace from `k` to `j` is counted in full. */
  lemma {:induction false} SpacesBeforeRun(s: string, j: nat, k: nat)
    requires k <= j <= |s| && forall m :: k <= m < j ==> IsJsSpace(s[m])
    ensures SpacesBefore(s, j) == (j - k) + SpacesBefore(s, k)
    decreases j - k
  {
    if k < j {
      SpacesBeforeRun(s, j - 1, k);
    }
  }

  /** Text that neither starts nor ends with whitespace is what `trim` leaves of
      it with any whitespace before and after it. */
  lemma {:induction false} TrimAround(p: string, t: string, q: string)
    requires AllJsSpace(p) && AllJsSpace(q)
    requires t != [] && !IsJsSpace(t[0]) && !IsJsSpace(t[|t| - 1])
    ensures Trim(p + t + q) == t
  {
    var s := p + t + q;
    var u := t + q;
    SpacesFromRun(s, 0, |p|);
    assert s[|p|] == t[0];
    assert TrimStart(s) == u by { assert s[|p|..] == u; }
    forall m | |t| <= m < |u| ensures IsJsSpace(u[m]) { assert u[m] == q[m - |t|]; }
    SpacesBeforeRun(u, |u|, |t|);
    assert u[|t| - 1] == t[|t| - 1];
    assert u[..|t|] == t;
  }

  /** `String.prototype.slice(start, end)` for integer arguments: negative
      positions count from the end, positions are clamped to the string. */
  function Slice(s: string, start: int, end: int): (r: string)
    ensures 0 <= start <= end <= |s| ==> r == s[start..end]
    ensures |r| <= |s|
  {
    var len := |s|;
    var from := if start < 0 then (if len + start < 0 then 0 else len + start) else (if start < len then start else len);
    var to := if end < 0 then (if len + end < 0 then 0 else len + end) else (if end < len then end else len);
    if from < to then s[from..to] else []
  }

  function LowerChar(c: char): char {
    if 'A' <= c <= 'Z' then (c as int + 32) as char else c
  }

  /** `toLowerCase` on the ASCII letters; other characters are kept. */
  function LowerAscii(s: string): (r: string)
    ensures |r| == |s|
    ensures forall i :: 0 <= i < |s| ==> r[i] == LowerChar(s[i])
  {
    if s == [] then [] else [LowerChar(s[0])] + LowerAscii(s[1..])
  }
}
