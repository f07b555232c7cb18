/**
 * The part of `java.io.File` that the rename operation relies on: building a
 * `File` from a path string (which normalises the path) and `getParent()`.
 * Semantics are those of the JDK on a Unix file system, whose separator is '/'.
 */
module JavaFile {
  import opened Wrappers

  const Separator: char := '/'

  /** No separator directly follows another one. */
  predicate NoDoubleSeparator(s: string) {
    forall i :: 0 < i < |s| ==> s[i - 1] != Separator || s[i] != Separator
  }

  predicate EndsWithSeparator(s: string) {
    |s| > 0 && s[|s| - 1] == Separator
  }

  /** Every run of separators collapsed into a single one. */
  function Collapse(s: string): (r: string)
    ensures NoDoubleSeparator(r)
    ensures |r| <= |s|
    ensures |s| > 0 ==> |r| > 0 && r[0] == s[0] && r[|r| - 1] == s[|s| - 1]
  {
    if |s| <= 1 then s
    else if s[0] == Separator && s[1] == Separator then Collapse(s[1..])
    else [s[0]] + Collapse(s[1..])
  }

  /**
   * The path a `File` keeps for the string it was built from: runs of
   * separators collapsed, and a trailing separator removed unless the whole
   * path is the root "/".
   */
  function Normalize(s: string): (r: string)
    ensures NoDoubleSeparator(r)
    ensures |r| == 0 <==> |s| == 0
    ensures |r| > 1 ==> !EndsWithSeparator(r)
    ensures |s| > 0 ==> r[0] == s[0]
  {
    var c := Collapse(s);
    if |c| > 1 && c[|c| - 1] == Separator then c[..|c| - 1] else c
  }

  /** A path without a run of separators is left as it is by `Collapse`. */
  lemma {:induction false} CollapseRunFree(s: string)
    requires NoDoubleSeparator(s)
    ensures Collapse(s) == s
    decreases |s|
  {
    if |s| > 1 {
      NoDoubleSeparatorSuffix(s);
      CollapseRunFree(s[1..]);
      assert s == [s[0]] + s[1..];
    }
  }

  /** A path that is already normal is kept as it is by `new File`. */
  lemma NormalizeNormalPath(s: string)
    requires NoDoubleSeparator(s) && (|s| <= 1 || !EndsWithSeparator(s))
    ensures Normalize(s) == s
  {
    CollapseRunFree(s);
  }

  /** `String.lastIndexOf(c)`: the last index holding `c`, or -1 when there is none. */
  function LastIndexOf(s: string, c: char): (r: int)
    ensures -1 <= r < |s|
    ensures r >= 0 ==> s[r] == c
    ensures forall i :: r < i < |s| ==> s[i] != c
    ensures r == -1 <==> c !in s
  {
    if |s| == 0 then -1
    else if s[|s| - 1] == c then |s| - 1
    else LastIndexOf(s[..|s| - 1], c)
  }

  /** Length of the root prefix of a normalised Unix path: 1 for an absolute path. */
  function PrefixLength(path: string): nat {
    if |path| > 0 && path[0] == Separator then 1 else 0
  }

  /**
   * `new File(path).getParent()`: the normalised path up to its last
   * separator, the root when that is the only separator of an absolute path,
   * and null (`None`) when the path has no parent.
   */
  function GetParent(path: string): (r: Option<string>)
    ensures r.Some? <==> Separator in Normalize(path) && Normalize(path) != [Separator]
    ensures r.Some? ==> r.value != [] && NoDoubleSeparator(r.value)
    ensures r.Some? ==> r.value == [Separator] || !EndsWithSeparator(r.value)
  {
    var p := Normalize(path);
    var prefixLength := PrefixLength(p);
    var index := LastIndexOf(p, Separator);
    if index < prefixLength then
      if prefixLength > 0 && |p| > prefixLength then Some(p[..prefixLength]) else None
    else
      NoDoubleSeparatorPrefix(p, index);
      Some(p[..index])
  }

  predicate HasParent(path: string) {
    GetParent(path).Some?
  }

  /** One step of `Collapse` on a path written as its first character and the rest. */
  lemma CollapseCons(c: char, u: string)
    requires u != []
    ensures Collapse([c] + u) == if c == Separator && u[0] == Separator then Collapse(u) else [c] + Collapse(u)
  {
    assert ([c] + u)[1..] == u;
  }

  /** Removing one separator of a doubled pair does not change the collapsed string. */
  lemma {:induction false} CollapseDouble(x: string, y: string)
    ensures Collapse(x + [Separator, Separator] + y) == Collapse(x + [Separator] + y)
    decreases |x|
  {
    if x == [] {
      var t := [Separator] + y;
      assert x + [Separator, Separator] + y == [Separator] + t && x + [Separator] + y == t;
      CollapseCons(Separator, t);
    } else {
      var x' := x[1..];
      var s' := x' + [Separator, Separator] + y;
      var t' := x' + [Separator] + y;
      CollapseDouble(x', y);
      SplitFirst(x, [Separator, Separator], y);
      SplitFirst(x, [Separator], y);
      assert s'[0] == t'[0] by {
        if x' == [] { assert s'[0] == Separator == t'[0]; }
        else { assert s'[0] == x'[0] == t'[0]; }
      }
      CollapseCons(x[0], s');
      CollapseCons(x[0], t');
    }
  }

  lemma SplitFirst(x: string, m: string, y: string)
    requires x != []
    ensures x + m + y == [x[0]] + (x[1..] + m + y)
  {
    assert x == [x[0]] + x[1..];
  }

  /** A separator appended to a path is absorbed when the collapsed path already ends with one. */
  lemma {:induction false} CollapseTrailing(s: string)
    requires s != []
    ensures EndsWithSeparator(Collapse(s)) ==> Collapse(s + [Separator]) == Collapse(s)
    ensures !EndsWithSeparator(Collapse(s)) ==> Collapse(s + [Separator]) == Collapse(s) + [Separator]
    decreases |s|
  {
    if |s| == 1 {
      assert s == [s[0]] && s + [Separator] == [s[0]] + [Separator];
      CollapseCons(s[0], [Separator]);
    } else {
      var u := s[1..];
      CollapseTrailing(u);
      CollapseTrailingStep(s[0], u);
      assert s == [s[0]] + u;
    }
  }

  /** The inductive step of `CollapseTrailing`: one more character in front. */
  lemma CollapseTrailingStep(c: char, u: string)
    requires u != []
    requires EndsWithSeparator(Collapse(u)) ==> Collapse(u + [Separator]) == Collapse(u)
    requires !EndsWithSeparator(Collapse(u)) ==> Collapse(u + [Separator]) == Collapse(u) + [Separator]
    ensures EndsWithSeparator(Collapse([c] + u)) ==> Collapse([c] + u + [Separator]) == Collapse([c] + u)
    ensures !EndsWithSeparator(Collapse([c] + u)) ==>
              Collapse([c] + u + [Separator]) == Collapse([c] + u) + [Separator]
  {
    var v := u + [Separator];
    assert [c] + u + [Separator] == [c] + v && v[0] == u[0];
    CollapseCons(c, u);
    CollapseCons(c, v);
    PrependKeepsTrailing(c, u[0], Collapse(u), Collapse(v));
  }

  /**
   * `CollapseTrailingStep` on values: if `after` is `before` with a trailing
   * separator absorbed or added, the same holds once both get the same first
   * character, or lose nothing, as `Collapse` decides from `c` and `next`.
   */
  lemma PrependKeepsTrailing(c: char, next: char, before: string, after: string)
    requires before != []
    requires EndsWithSeparator(before) ==> after == before
    requires !EndsWithSeparator(before) ==> after == before + [Separator]
    ensures var keep := c == Separator && next == Separator;
      var b := if keep then before else [c] + before;
      var a := if keep then after else [c] + after;
      (EndsWithSeparator(b) ==> a == b) && (!EndsWithSeparator(b) ==> a == b + [Separator])
  {
    if !(c == Separator && next == Separator) {
      assert EndsWithSeparator([c] + before) <==> EndsWithSeparator(before);
      assert [c] + (before + [Separator]) == ([c] + before) + [Separator];
    }
  }

  /** `new File(p + "/")` and `new File(p)` denote the same path. */
  lemma NormalizeTrailing(s: string)
    requires s != []
    ensures Normalize(s + [Separator]) == Normalize(s)
  {
    CollapseTrailing(s);
    var c := Collapse(s);
    if !EndsWithSeparator(c) {
      assert (c + [Separator])[..|c|] == c;
    }
  }

  /** A doubled separator anywhere in a path does not change the path a `File` keeps. */
  lemma NormalizeDouble(x: string, y: string)
    ensures Normalize(x + [Separator, Separator] + y) == Normalize(x + [Separator] + y)
  {
    CollapseDouble(x, y);
  }

  /** A trailing separator does not change a path's parent: `getParent` of "/a/b/" is "/a". */
  lemma GetParentTrailing(path: string)
    requires path != []
    ensures GetParent(path + [Separator]) == GetParent(path)
  {
    NormalizeTrailing(path);
  }

  /** A doubled separator does not change a path's parent: `getParent` of "/a//b" is "/a". */
  lemma GetParentDouble(x: string, y: string)
    ensures GetParent(x + [Separator, Separator] + y) == GetParent(x + [Separator] + y)
  {
    NormalizeDouble(x, y);
  }

  lemma NoDoubleSeparatorSuffix(s: string)
    requires NoDoubleSeparator(s) && s != []
    ensures NoDoubleSeparator(s[1..])
  {
    forall i | 0 < i < |s| - 1 ensures s[1..][i - 1] != Separator || s[1..][i] != Separator {
      assert s[1..][i - 1] == s[i] && s[1..][i] == s[i + 1];
    }
  }

  lemma NoDoubleSeparatorPrefix(s: string, n: nat)
    requires NoDoubleSeparator(s) && n <= |s|
    ensures NoDoubleSeparator(s[..n])
  {
    forall i | 0 < i < n ensures s[..n][i - 1] != Separator || s[..n][i] != Separator {
      assert s[..n][i - 1] == s[i - 1] && s[..n][i] == s[i];
    }
  }
}
