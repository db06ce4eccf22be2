/**
 * The JavaScript string built-ins the console plugin relies on, over
 * Dafny strings: String.prototype.indexOf, padEnd and substring,
 * Array.prototype.join, plus the value shapes (Option, a RegExp's
 * source and flags, a Date) shared by both versions of the plugin.
 */
module JsText {

  datatype Option<+T> = None | Some(value: T)

  /** A Date, as milliseconds since the epoch; only Date.toISOString reads it. */
  type Timestamp = nat

  /** A RegExp built as `new RegExp(source, ignoreCase ? 'i' : '')`. */
  datatype Regex = Regex(source: string, ignoreCase: bool)

  /** JavaScript truthiness of an optional string: present and non-empty. */
  predicate Truthy(o: Option<string>)
  {
    o.Some? && o.value != ""
  }

  /** `t` occurs in `s` starting at index `k`. */
  predicate OccursAt(s: string, t: string, k: int)
  {
    0 <= k <= |s| - |t| && s[k..k + |t|] == t
  }

  lemma OccursAtShift(s: string, t: string, k: int)
    requires |s| > 0 && 0 <= k
    ensures OccursAt(s[1..], t, k) <==> OccursAt(s, t, k + 1)
  {
    if 0 <= k <= |s[1..]| - |t| {
      assert s[1..][k..k + |t|] == s[k + 1..k + 1 + |t|];
    }
  }

  /**
   * `s.indexOf(t)`: the first index at which `t` occurs in `s`, or -1
   * when it occurs nowhere.
   */
  function IndexOf(s: string, t: string): (r: int)
    ensures -1 <= r <= |s|
    ensures r >= 0 ==> OccursAt(s, t, r)
    ensures r >= 0 ==> forall k :: 0 <= k < r ==> !OccursAt(s, t, k)
    ensures r == -1 ==> forall k :: !OccursAt(s, t, k)
    decreases |s|
  {
    if |t| > |s| then -1
    else if s[..|t|] == t then 0
    else
      var r := IndexOf(s[1..], t);
      assert forall k :: 0 <= k ==> (OccursAt(s[1..], t, k) <==> OccursAt(s, t, k + 1)) by {
        forall k | 0 <= k ensures OccursAt(s[1..], t, k) <==> OccursAt(s, t, k + 1) {
          OccursAtShift(s, t, k);
        }
      }
      assert !OccursAt(s, t, 0);
      if r == -1 then
        assert forall k :: !OccursAt(s, t, k) by {
          forall k ensures !OccursAt(s, t, k) {
            if k >= 1 { assert !OccursAt(s[1..], t, k - 1); }
          }
        }
        -1
      else
        assert forall k :: 0 <= k < r + 1 ==> !OccursAt(s, t, k) by {
          forall k | 0 <= k < r + 1 ensures !OccursAt(s, t, k) {
            if k >= 1 { assert !OccursAt(s[1..], t, k - 1); }
          }
        }
        r + 1
  }

  /** `s.indexOf(t) > -1`. */
  predicate Contains(s: string, t: string)
  {
    IndexOf(s, t) > -1
  }

  lemma ContainsIff(s: string, t: string)
    ensures Contains(s, t) <==> exists k :: OccursAt(s, t, k)
  {
  }

  /** The empty string occurs in every string, so it never filters anything out. */
  lemma ContainsEmpty(s: string)
    ensures Contains(s, "")
  {
    assert OccursAt(s, "", 0);
  }

  /** A string of `n` spaces. */
  function Spaces(n: nat): (r: string)
    ensures |r| == n && forall i :: 0 <= i < n ==> r[i] == ' '
  {
    if n == 0 then "" else Spaces(n - 1) + " "
  }

  /** `s.padEnd(n)`: right-pad with spaces to length `n`; never shortens. */
  function PadEnd(s: string, n: int): (r: string)
    ensures |s| <= |r| && (|s| < n ==> |r| == n) && (n <= |s| ==> r == s)
    ensures r[..|s|] == s && forall i :: |s| <= i < |r| ==> r[i] == ' '
  {
    if n <= |s| then s else s + Spaces(n - |s|)
  }

  /** `s.substring(0, n)`: `n` is clamped to `0 .. s.length`. */
  function Prefix(s: string, n: int): (r: string)
    ensures |r| == (if n < 0 then 0 else if n > |s| then |s| else n)
    ensures s == r + s[|r|..]
  {
    if n < 0 then "" else if n > |s| then s else s[..n]
  }

  /**
   * `s.padEnd(w).substring(0, w)`, the fixed-width column used for spoke
   * names: exactly `w` characters (none when `w` is negative), holding
   * `s` truncated, then spaces.
   */
  function Column(s: string, w: int): (r: string)
    ensures |r| == (if w < 0 then 0 else w)
    ensures forall i :: 0 <= i < |r| ==> r[i] == (if i < |s| then s[i] else ' ')
  {
    var padded := PadEnd(s, w);
    var r := Prefix(padded, w);
    assert forall i :: 0 <= i < |r| ==> r[i] == padded[i];
    assert forall i :: 0 <= i < |r| && i < |s| ==> padded[i] == padded[..|s|][i];
    r
  }

  /** The summed lengths of a list of strings. */
  function TotalLength(xs: seq<string>): (n: nat)
    ensures xs != [] ==> |xs[0]| <= n && |xs[|xs| - 1]| <= n
  {
    if xs == [] then 0
    else
      assert xs[..|xs| - 1] != [] ==> xs[..|xs| - 1][0] == xs[0];
      TotalLength(xs[..|xs| - 1]) + |xs[|xs| - 1]|
  }

  /**
   * `xs.join(sep)`: the items in order with `sep` between neighbours, so the
   * first item opens the result and the last one closes it.
   */
  function Join(xs: seq<string>, sep: string): (r: string)
    ensures xs == [] ==> r == ""
    ensures xs != [] ==> |r| == TotalLength(xs) + (|xs| - 1) * |sep| && (|xs| - 1) * |sep| >= 0
    ensures xs != [] ==> r[..|xs[0]|] == xs[0] && r[|r| - |xs[|xs| - 1]|..] == xs[|xs| - 1]
  {
    if |xs| == 0 then ""
    else if |xs| == 1 then xs[0]
    else
      var init := xs[..|xs| - 1];
      var j := Join(init, sep);
      assert init[0] == xs[0];
      assert (|xs| - 2) * |sep| + |sep| == (|xs| - 1) * |sep|;
      assert (j + sep + xs[|xs| - 1])[..|xs[0]|] == j[..|xs[0]|];
      j + sep + xs[|xs| - 1]
  }

  /** Pushing one more item onto a non-empty list adds the separator and the item at the end. */
  lemma JoinPush(xs: seq<string>, x: string, sep: string)
    ensures Join(xs + [x], sep) == if xs == [] then x else Join(xs, sep) + sep + x
  {
    assert (xs + [x])[..|xs|] == xs;
  }

  /** Each of six concatenated pieces can be sliced back out at the sum of the lengths before it. */
  lemma ConcatSlices(a: string, b: string, c: string, d: string, e: string, f: string)
    ensures var x := a + b + c + d + e + f;
      var i := |a|; var j := i + |b|; var k := j + |c|; var l := k + |d|; var m := l + |e|;
      |x| == m + |f| && x[..i] == a && x[i..j] == b && x[j..k] == c && x[k..l] == d && x[l..m] == e && x[m..] == f
  {
  }
}
