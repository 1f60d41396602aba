/** Go's path and path/filepath functions with Unix semantics ('/' is the only
    separator, there are no volume names, filepath.ToSlash is the identity).

    Clean is defined the way the Go documentation describes it: split the path
    into elements, drop empty and "." elements, let ".." cancel the element
    before it (or vanish at the root), and render the remaining stack.  The
    element list and the stack are built from the END of the path, so that the
    clean form of dir + "/" + name unfolds in one step. */
module GoPath {

  /** Index of the last '/' in s, or -1. */
  function LastSlash(s: string): (i: int)
    ensures -1 <= i < |s|
    ensures i >= 0 ==> s[i] == '/'
    ensures forall k :: i < k < |s| ==> s[k] != '/'
  {
    if s == [] then -1 else if s[|s| - 1] == '/' then |s| - 1 else LastSlash(s[..|s| - 1])
  }

  lemma LastSlashNone(s: string)
    requires '/' !in s
    ensures LastSlash(s) == -1
  {
  }

  lemma {:induction false} LastSlashAppend(a: string, b: string)
    requires '/' !in b
    ensures LastSlash(a + "/" + b) == |a|
  {
    var s := a + "/" + b;
    if b != [] {
      var b' := b[..|b| - 1];
      assert s[|s| - 1] == b[|b| - 1];
      assert s[..|s| - 1] == a + "/" + b';
      LastSlashAppend(a, b');
    }
  }

  function StripTrailingSlashes(s: string): (r: string)
    ensures |r| <= |s| && r == s[..|r|]
    ensures r == [] || r[|r| - 1] != '/'
  {
    if s != [] && s[|s| - 1] == '/' then StripTrailingSlashes(s[..|s| - 1]) else s
  }

  /** filepath.Base / path.Base */
  function Base(s: string): (r: string)
  {
    if s == [] then "."
    else
      var t := StripTrailingSlashes(s);
      var last := t[LastSlash(t) + 1..];
      if last == [] then "/" else last
  }

  /** The base name is never empty, and it is "/" or free of separators. */
  lemma BaseShape(s: string)
    ensures Base(s) != []
    ensures Base(s) == "/" || '/' !in Base(s)
  {
    if s != [] {
      var t := StripTrailingSlashes(s);
      var i := LastSlash(t);
      var last := t[i + 1..];
      assert forall k :: 0 <= k < |last| ==> last[k] == t[i + 1 + k];
    }
  }

  /** A separator-free, non-empty name is its own base name. */
  lemma BaseOfName(name: string)
    requires name != [] && '/' !in name
    ensures Base(name) == name
  {
    LastSlashNone(name);
  }

  /** filepath.Ext: the suffix from the last '.' of the final element. */
  function Ext(s: string): (r: string)
    ensures |r| <= |s| && s[|s| - |r|..] == r
    ensures r == [] || r[0] == '.'
    ensures '/' !in r
  {
    if s == [] || s[|s| - 1] == '/' then ""
    else if s[|s| - 1] == '.' then "."
    else
      var e := Ext(s[..|s| - 1]);
      if e == [] then "" else e + [s[|s| - 1]]
  }

  /** The elements of s between separators, in order; never empty. */
  function Split(s: string): (segs: seq<string>)
    ensures |segs| >= 1
    ensures forall k :: 0 <= k < |segs| ==> '/' !in segs[k]
    decreases |s|
  {
    var i := LastSlash(s);
    if i < 0 then [s] else Split(s[..i]) + [s[i + 1..]]
  }

  lemma SplitAppend(a: string, b: string)
    requires '/' !in b
    ensures Split(a + "/" + b) == Split(a) + [b]
  {
    LastSlashAppend(a, b);
    assert (a + "/" + b)[..|a|] == a;
    assert (a + "/" + b)[|a| + 1..] == b;
  }

  /** An element that survives cleaning as itself. */
  predicate NormalName(x: string)
  {
    x != "" && x != "." && x != ".." && '/' !in x
  }

  predicate Rooted(s: string)
  {
    s != [] && s[0] == '/'
  }

  /** One element of the lexical walk. */
  function Push(rooted: bool, stack: seq<string>, seg: string): seq<string>
  {
    if seg == "" || seg == "." then stack
    else if seg == ".." then
      if stack != [] && stack[|stack| - 1] != ".." then stack[..|stack| - 1]
      else if rooted then stack
      else stack + [".."]
    else stack + [seg]
  }

  function Fold(rooted: bool, stack: seq<string>, segs: seq<string>): seq<string>
  {
    if segs == [] then stack
    else Push(rooted, Fold(rooted, stack, segs[..|segs| - 1]), segs[|segs| - 1])
  }

  /** The elements that remain of s after cleaning. */
  function CleanStack(s: string): seq<string>
  {
    Fold(Rooted(s), [], Split(s))
  }

  /** Elements joined with '/'. */
  function JoinSlash(st: seq<string>): string
  {
    if st == [] then ""
    else if |st| == 1 then st[0]
    else JoinSlash(st[..|st| - 1]) + "/" + st[|st| - 1]
  }

  function Render(rooted: bool, st: seq<string>): string
  {
    if rooted then "/" + JoinSlash(st)
    else if st == [] then "."
    else JoinSlash(st)
  }

  /** filepath.Clean / path.Clean */
  function Clean(s: string): string
  {
    Render(Rooted(s), CleanStack(s))
  }

  /** filepath.Join / path.Join of two elements. */
  function Join(a: string, b: string): string
  {
    if a == [] && b == [] then ""
    else if a == [] then Clean(b)
    else Clean(a + "/" + b)
  }

  /** The shape of every clean stack: normal names, with ".." only as a
      prefix, and no ".." at all under the root. */
  ghost predicate WellFormed(rooted: bool, st: seq<string>)
  {
    (forall i :: 0 <= i < |st| ==> st[i] == ".." || NormalName(st[i]))
    && (rooted ==> forall i :: 0 <= i < |st| ==> st[i] != "..")
    && (forall i, j :: 0 <= i < j < |st| && st[j] == ".." ==> st[i] == "..")
  }

  lemma {:induction false} FoldWellFormed(rooted: bool, stack: seq<string>, segs: seq<string>)
    requires WellFormed(rooted, stack)
    requires forall k :: 0 <= k < |segs| ==> '/' !in segs[k]
    ensures WellFormed(rooted, Fold(rooted, stack, segs))
  {
    if segs != [] {
      FoldWellFormed(rooted, stack, segs[..|segs| - 1]);
    }
  }

  lemma {:induction false} FoldAppend(rooted: bool, stack: seq<string>, p: seq<string>, q: seq<string>)
    ensures Fold(rooted, stack, p + q) == Fold(rooted, Fold(rooted, stack, p), q)
    decreases |q|
  {
    if q == [] {
      assert p + q == p;
    } else {
      assert (p + q)[..|p + q| - 1] == p + q[..|q| - 1];
      FoldAppend(rooted, stack, p, q[..|q| - 1]);
    }
  }

  /** Walking a well-formed stack from empty rebuilds it. */
  lemma {:induction false} FoldOfWellFormed(rooted: bool, st: seq<string>)
    requires WellFormed(rooted, st)
    ensures Fold(rooted, [], st) == st
  {
    if st != [] {
      var init := st[..|st| - 1];
      assert WellFormed(rooted, init);
      FoldOfWellFormed(rooted, init);
      assert st == init + [st[|st| - 1]];
    }
  }

  lemma {:induction false} SplitJoin(st: seq<string>)
    requires st != []
    requires forall k :: 0 <= k < |st| ==> '/' !in st[k]
    ensures Split(JoinSlash(st)) == st
  {
    if |st| == 1 {
      LastSlashNone(st[0]);
    } else {
      var init := st[..|st| - 1];
      SplitJoin(init);
      SplitAppend(JoinSlash(init), st[|st| - 1]);
      assert st == init + [st[|st| - 1]];
    }
  }

  lemma {:induction false} JoinSlashShape(st: seq<string>)
    requires st != []
    requires forall k :: 0 <= k < |st| ==> NormalName(st[k]) || st[k] == ".."
    ensures |JoinSlash(st)| >= |st[0]| && JoinSlash(st)[..|st[0]|] == st[0]
  {
    if |st| > 1 {
      JoinSlashShape(st[..|st| - 1]);
    }
  }

  lemma CleanStackWellFormed(s: string)
    ensures WellFormed(Rooted(s), CleanStack(s))
  {
    FoldWellFormed(Rooted(s), [], Split(s));
  }

  /** Cleaning never produces the empty path. */
  lemma CleanNonEmpty(s: string)
    ensures Clean(s) != ""
  {
    CleanStackWellFormed(s);
    var st := CleanStack(s);
    if !Rooted(s) && |st| > 1 {
      assert JoinSlash(st) == JoinSlash(st[..|st| - 1]) + "/" + st[|st| - 1];
    } else if !Rooted(s) && |st| == 1 {
      assert st[0] == ".." || NormalName(st[0]);
    }
  }

  /** The rendered path is rooted exactly when its walk was. */
  lemma RenderRooted(rooted: bool, st: seq<string>)
    requires WellFormed(rooted, st)
    ensures Rooted(Render(rooted, st)) == rooted
  {
    if !rooted && st != [] {
      JoinSlashShape(st);
    }
  }

  /** Clean is idempotent: a clean path is a fixed point. */
  lemma CleanIdempotent(s: string)
    ensures Clean(Clean(s)) == Clean(s)
  {
    var r, st := Rooted(s), CleanStack(s);
    CleanStackWellFormed(s);
    if r && st == [] {
      CleanRoot();
    } else if r {
      SplitAfterRoot(st);
    } else if st == [] {
      assert Clean(s) == ".";
      assert Split(".") == ["."];
    } else {
      RenderRooted(r, st);
      SplitJoin(st);
      FoldOfWellFormed(r, st);
    }
  }

  lemma CleanRoot()
    ensures Clean("/") == "/"
  {
    assert LastSlash("/") == 0;
    assert "/"[..0] == "" && "/"[1..] == "";
    assert Split("") == [""];
    assert Split("/") == ["", ""];
    assert Fold(true, [], ["", ""]) == [];
  }

  lemma SplitAfterRoot(st: seq<string>)
    requires st != []
    requires WellFormed(true, st)
    ensures Clean("/" + JoinSlash(st)) == "/" + JoinSlash(st)
    ensures CleanStack("/" + JoinSlash(st)) == st
  {
    var c := "/" + JoinSlash(st);
    SplitRooted(st);
    FoldRooted(st);
    assert Rooted(c) by { assert c[0] == '/'; }
  }

  lemma SplitRooted(st: seq<string>)
    requires st != []
    requires forall k :: 0 <= k < |st| ==> '/' !in st[k]
    ensures Split("/" + JoinSlash(st)) == [""] + st
  {
    var j := JoinSlash(st);
    assert "/" + j == "" + "/" + j;
    SplitJoinAfter("", st);
    assert Split("") == [""];
  }

  lemma FoldRooted(st: seq<string>)
    requires WellFormed(true, st)
    ensures Fold(true, [], [""] + st) == st
  {
    FoldAppend(true, [], [""], st);
    assert Fold(true, [], [""]) == [];
    FoldOfWellFormed(true, st);
  }

  lemma {:induction false} SplitJoinAfter(p: string, st: seq<string>)
    requires st != []
    requires forall k :: 0 <= k < |st| ==> '/' !in st[k]
    ensures Split(p + "/" + JoinSlash(st)) == Split(p) + st
  {
    if |st| == 1 {
      SplitAppend(p, st[0]);
    } else {
      var init, last := st[..|st| - 1], st[|st| - 1];
      var j := JoinSlash(init);
      var q := p + "/" + j;
      SplitJoinAfter(p, init);
      assert p + "/" + JoinSlash(st) == q + "/" + last by {
        assert JoinSlash(st) == j + "/" + last;
        SlashAssoc(p, j, last);
      }
      SplitAppend(q, last);
      SnocAfter(Split(p), init, last, st);
    }
  }

  lemma SnocAfter(a: seq<string>, init: seq<string>, last: string, st: seq<string>)
    requires st != [] && init == st[..|st| - 1] && last == st[|st| - 1]
    ensures a + init + [last] == a + st
  {
    assert init + [last] == st;
  }

  lemma SlashAssoc(p: string, j: string, last: string)
    ensures p + "/" + (j + "/" + last) == (p + "/" + j) + "/" + last
  {
  }

  /** Joining a normal name below a non-empty directory adds exactly that
      element to the directory's clean form. */
  lemma CleanUnder(dir: string, name: string)
    requires dir != [] && NormalName(name)
    ensures CleanStack(dir + "/" + name) == CleanStack(dir) + [name]
    ensures Clean(dir + "/" + name) == Render(Rooted(dir), CleanStack(dir) + [name])
  {
    SplitAppend(dir, name);
    assert (dir + "/" + name)[0] == dir[0];
  }

  /** Joining ".." below a directory whose clean form ends in a normal name
      yields the directory's parent. */
  lemma CleanParent(dir: string)
    requires dir != []
    requires CleanStack(dir) != [] && CleanStack(dir)[|CleanStack(dir)| - 1] != ".."
    ensures CleanStack(dir + "/" + "..") == CleanStack(dir)[..|CleanStack(dir)| - 1]
  {
    var segs := Split(dir);
    SplitAppend(dir, "..");
    assert (dir + "/" + "..")[0] == dir[0];
    assert (segs + [".."])[..|segs|] == segs;
  }

  /** A character other than '/' and '.' that the path lacks is absent from
      every element, every walk of those elements and their rendering. */
  lemma {:induction false} SplitAvoids(s: string, c: char)
    requires c !in s
    ensures forall k :: 0 <= k < |Split(s)| ==> c !in Split(s)[k]
    decreases |s|
  {
    var i := LastSlash(s);
    if i >= 0 {
      assert forall x :: x in s[..i] ==> x in s;
      assert forall x :: x in s[i + 1..] ==> x in s;
      SplitAvoids(s[..i], c);
    }
  }

  lemma {:induction false} FoldAvoids(rooted: bool, stack: seq<string>, segs: seq<string>, c: char)
    requires c != '.'
    requires forall k :: 0 <= k < |stack| ==> c !in stack[k]
    requires forall k :: 0 <= k < |segs| ==> c !in segs[k]
    ensures forall k :: 0 <= k < |Fold(rooted, stack, segs)| ==> c !in Fold(rooted, stack, segs)[k]
  {
    if segs != [] {
      FoldAvoids(rooted, stack, segs[..|segs| - 1], c);
    }
  }

  lemma {:induction false} JoinSlashAvoids(st: seq<string>, c: char)
    requires c != '/'
    requires forall k :: 0 <= k < |st| ==> c !in st[k]
    ensures c !in JoinSlash(st)
  {
    if |st| > 1 {
      JoinSlashAvoids(st[..|st| - 1], c);
    }
  }

  /** Cleaning introduces no character but '/' and '.'. */
  lemma CleanAvoids(s: string, c: char)
    requires c != '/' && c != '.' && c !in s
    ensures c !in Clean(s)
  {
    SplitAvoids(s, c);
    FoldAvoids(Rooted(s), [], Split(s), c);
    JoinSlashAvoids(CleanStack(s), c);
  }

  /** The clean form of a rooted path is rooted. */
  lemma CleanRooted(s: string)
    requires Rooted(s)
    ensures Rooted(Clean(s))
  {
    CleanStackWellFormed(s);
    RenderRooted(true, CleanStack(s));
  }
}
