/**
 * The functions of Go's `path/filepath` package that the command line uses,
 * for Unix paths ('/' is the only separator and there are no volume names).
 */
module GoFilepath {

  /** Index of the last '/' in `s`, or -1 when there is none. */
  function LastSlash(s: string): (r: int)
    ensures -1 <= r < |s|
    ensures r >= 0 ==> s[r] == '/'
    ensures forall i :: r < i < |s| ==> s[i] != '/'
  {
    if s == [] then -1
    else if s[|s| - 1] == '/' then |s| - 1
    else LastSlash(s[..|s| - 1])
  }

  /** The path cut at every '/': "a//b" gives ["a", "", "b"]. */
  function Split(s: string): (r: seq<string>)
    ensures |r| >= 1
    decreases |s|
  {
    var i := LastSlash(s);
    if i < 0 then [s] else Split(s[..i]) + [s[i + 1..]]
  }

  /** The element "." */
  predicate IsDot(e: string) {
    |e| == 1 && e[0] == '.'
  }

  /** The element ".." */
  predicate IsDotDot(e: string) {
    |e| == 2 && e[0] == '.' && e[1] == '.'
  }

  /** One step of lexical resolution: "" and "." vanish, ".." cancels the element before it. */
  function Step(stack: seq<string>, elem: string, rooted: bool): seq<string> {
    if |elem| == 0 || IsDot(elem) then stack
    else if IsDotDot(elem) then
      if |stack| > 0 && !IsDotDot(stack[|stack| - 1]) then stack[..|stack| - 1]
      else if rooted then stack
      else stack + [".."]
    else stack + [elem]
  }

  function Resolve(elems: seq<string>, rooted: bool): seq<string> {
    if |elems| == 0 then []
    else Step(Resolve(elems[..|elems| - 1], rooted), elems[|elems| - 1], rooted)
  }

  function JoinElems(elems: seq<string>): string {
    if |elems| == 0 then ""
    else if |elems| == 1 then elems[0]
    else JoinElems(elems[..|elems| - 1]) + "/" + elems[|elems| - 1]
  }

  /**
   * filepath.Clean: the shortest lexically equivalent path.  Repeated
   * slashes, "." elements and inner ".." elements (with the element they
   * cancel) are removed, a ".." at the start of a rooted path is dropped,
   * and the empty result is ".".
   */
  function Clean(path: string): string {
    if |path| == 0 then "."
    else
      var rooted := path[0] == '/';
      var body := JoinElems(Resolve(Split(path), rooted));
      if rooted then "/" + body else if |body| == 0 then "." else body
  }

  function TrimTrailingSlashes(s: string): (r: string)
    ensures r <= s
    ensures r == [] || r[|r| - 1] != '/'
  {
    if s != [] && s[|s| - 1] == '/' then TrimTrailingSlashes(s[..|s| - 1]) else s
  }

  /** filepath.Base: the last element, trailing slashes ignored; "." for "", "/" for all slashes. */
  function Base(path: string): string {
    if path == "" then "."
    else
      var p := TrimTrailingSlashes(path);
      var b := p[LastSlash(p) + 1..];
      if b == "" then "/" else b
  }

  /** filepath.Ext: the suffix from the last '.' of the last element, or "". */
  function Ext(path: string): (r: string)
    ensures |r| <= |path| && path[|path| - |r|..] == r
    ensures r == "" || r[0] == '.'
    ensures forall i :: 0 <= i < |r| ==> r[i] != '/'
  {
    if path == [] || path[|path| - 1] == '/' then ""
    else if path[|path| - 1] == '.' then "."
    else
      var e := Ext(path[..|path| - 1]);
      if e == "" then "" else e + [path[|path| - 1]]
  }

  /** filepath.Dir: everything up to the last '/', cleaned. */
  function Dir(path: string): string {
    Clean(path[..LastSlash(path) + 1])
  }

  /** filepath.Join of two elements: empty elements are skipped and the result is cleaned. */
  function Join(a: string, b: string): string {
    if a != "" then Clean(a + "/" + b)
    else if b != "" then Clean(b)
    else ""
  }

  /** An element that Clean keeps: not empty, not "." or "..", and free of '/'. */
  predicate NormalElement(e: string) {
    |e| > 0 && !IsDot(e) && !IsDotDot(e) && forall i :: 0 <= i < |e| ==> e[i] != '/'
  }

  lemma JoinElemsLast(elems: seq<string>, e: string)
    ensures elems == [] ==> JoinElems(elems + [e]) == e
    ensures elems != [] ==> JoinElems(elems + [e]) == JoinElems(elems) + "/" + e
  {
    assert (elems + [e])[..|elems|] == elems;
  }

  /** Joining elements that end in `e` gives a directory part ending in '/' (or nothing), then `e`. */
  lemma JoinEndsWith(stack: seq<string>, e: string) returns (mid: string)
    ensures JoinElems(stack + [e]) == mid + e
    ensures |mid| > 0 ==> mid[|mid| - 1] == '/'
  {
    JoinElemsLast(stack, e);
    if stack == [] {
      mid := "";
    } else {
      mid := JoinElems(stack) + "/";
    }
  }

  /** Putting the root in front keeps a directory part a directory part. */
  lemma RootedPrefix(mid: string, e: string) returns (pre: string)
    requires |mid| > 0 ==> mid[|mid| - 1] == '/'
    ensures "/" + (mid + e) == pre + e
    ensures |pre| > 0 && pre[|pre| - 1] == '/'
  {
    pre := "/" + mid;
    if |mid| > 0 {
      assert pre[|pre| - 1] == mid[|mid| - 1];
    }
  }

  lemma SplitAppendLast(a: string, e: string)
    requires forall i :: 0 <= i < |e| ==> e[i] != '/'
    ensures Split(a + "/" + e)[|Split(a + "/" + e)| - 1] == e
  {
    SplitAppend(a, e);
  }

  /** Resolving elements whose last one is a plain name keeps that name last, after a directory part. */
  lemma ResolveKeepsLast(parts: seq<string>, rooted: bool) returns (mid: string)
    requires |parts| >= 1 && NormalElement(parts[|parts| - 1])
    ensures JoinElems(Resolve(parts, rooted)) == mid + parts[|parts| - 1]
    ensures |mid| > 0 ==> mid[|mid| - 1] == '/'
  {
    var e := parts[|parts| - 1];
    var stack := Resolve(parts[..|parts| - 1], rooted);
    assert Resolve(parts, rooted) == Step(stack, e, rooted);
    assert Step(stack, e, rooted) == stack + [e];
    mid := JoinEndsWith(stack, e);
  }

  /**
   * Clean never touches a plain name appended after a '/': the cleaned path
   * is that name, possibly preceded by a directory part ending in '/'.
   */
  lemma CleanKeepsLastElement(dir: string, e: string) returns (pre: string)
    requires NormalElement(e)
    ensures Clean(dir + "/" + e) == pre + e
    ensures |pre| > 0 ==> pre[|pre| - 1] == '/'
  {
    var path := dir + "/" + e;
    SplitAppendLast(dir, e);
    var parts := Split(path);
    var rooted := path[0] == '/';
    var mid := ResolveKeepsLast(parts, rooted);
    if rooted {
      pre := RootedPrefix(mid, e);
    } else {
      pre := mid;
    }
  }

  /** Clean never returns the empty path. */
  lemma CleanNotEmpty(path: string)
    ensures Clean(path) != ""
  {
  }

  /** Joining a directory and a plain name gives a path whose Base is that name. */
  lemma BaseOfJoin(dir: string, e: string)
    requires dir != "" && NormalElement(e)
    ensures Base(Join(dir, e)) == e
  {
    var pre := CleanKeepsLastElement(dir, e);
    BaseOfNamedPath(pre, e);
  }

  /** The Base of a path that ends in a plain name is that name. */
  lemma BaseOfNamedPath(pre: string, e: string)
    requires NormalElement(e)
    requires |pre| > 0 ==> pre[|pre| - 1] == '/'
    ensures Base(pre + e) == e
  {
    var p := pre + e;
    assert p[|p| - 1] == e[|e| - 1];
    assert TrimTrailingSlashes(p) == p;
    var i := LastSlash(p);
    if pre != "" {
      assert p[|pre| - 1] == '/';
      assert i == |pre| - 1 by {
        assert forall j :: |pre| <= j < |p| ==> p[j] == e[j - |pre|];
      }
    } else {
      assert forall j :: 0 <= j < |p| ==> p[j] == e[j];
    }
    assert p[i + 1..] == e;
  }

  /** Cutting `a + "/" + e` at its slashes gives the pieces of `a`, then `e`. */
  lemma SplitAppend(a: string, e: string)
    requires forall i :: 0 <= i < |e| ==> e[i] != '/'
    ensures Split(a + "/" + e) == Split(a) + [e]
  {
    var s := a + "/" + e;
    assert s[|a|] == '/';
    assert forall j :: |a| < j < |s| ==> s[j] == e[j - |a| - 1];
    assert LastSlash(s) == |a|;
    assert s[..|a|] == a;
    assert s[|a| + 1..] == e;
  }
}
