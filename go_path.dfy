/**
 * Go's `path` package as the plugin uses it: `path.Join` and the lexical clean-up
 * `path.Clean` that it ends with.  Both are written from the rules Go documents for them:
 * runs of slashes become one, `.` elements go, each `..` removes the element before it,
 * `..` at the start of a rooted path goes, and only the root "/" ends in a slash.
 */
module GoPath {

  /** strings.Split(s, "/"): the pieces between slashes (one more piece than slashes). */
  function Split(s: string): (parts: seq<string>)
    ensures |parts| >= 1
    ensures forall i :: 0 <= i < |parts| ==> '/' !in parts[i]
    decreases |s|
  {
    if s == [] then [""]
    else if s[0] == '/' then [""] + Split(s[1..])
    else
      var r := Split(s[1..]);
      [[s[0]] + r[0]] + r[1..]
  }

  /** strings.Join(parts, "/"). */
  function Unsplit(parts: seq<string>): string
    decreases |parts|
  {
    if parts == [] then ""
    else if |parts| == 1 then parts[0]
    else parts[0] + "/" + Unsplit(parts[1..])
  }

  /** Splitting at a slash splits the two sides independently. */
  lemma {:induction false} SplitAtSlash(a: string, b: string)
    ensures Split(a + "/" + b) == Split(a) + Split(b)
    decreases |a|
  {
    if a == [] {
      assert a + "/" + b == "/" + b;
      assert ("/" + b)[1..] == b;
    } else {
      var t := a + "/" + b;
      assert t[1..] == a[1..] + "/" + b;
      SplitAtSlash(a[1..], b);
    }
  }

  /** A piece without slashes splits into itself. */
  lemma {:induction false} SplitWord(w: string)
    requires '/' !in w
    ensures Split(w) == [w]
    decreases |w|
  {
    if w != [] {
      SplitWord(w[1..]);
      assert [w[0]] + w[1..] == w;
    }
  }

  /** Joining the pieces of a split gives the string back. */
  lemma {:induction false} UnsplitSplit(s: string)
    ensures Unsplit(Split(s)) == s
    decreases |s|
  {
    if s != [] {
      UnsplitSplit(s[1..]);
      var r := Split(s[1..]);
      if s[0] == '/' {
        assert Split(s) == [""] + r;
        assert Split(s)[1..] == r;
      } else {
        var p := Split(s);
        assert p[0] == [s[0]] + r[0] && p[1..] == r[1..];
        if |r| == 1 {
          assert Unsplit(p) == [s[0]] + r[0];
        } else {
          assert Unsplit(p) == [s[0]] + r[0] + "/" + Unsplit(r[1..]);
          assert Unsplit(r) == r[0] + "/" + Unsplit(r[1..]);
        }
        assert [s[0]] + s[1..] == s;
      }
    }
  }

  /** Splitting a join of slash-free pieces gives the pieces back. */
  lemma {:induction false} SplitUnsplit(parts: seq<string>)
    requires |parts| >= 1
    requires forall i :: 0 <= i < |parts| ==> '/' !in parts[i]
    ensures Split(Unsplit(parts)) == parts
    decreases |parts|
  {
    SplitWord(parts[0]);
    if |parts| > 1 {
      SplitAtSlash(parts[0], Unsplit(parts[1..]));
      SplitUnsplit(parts[1..]);
    }
  }

  /** The path elements: the pieces that are neither empty nor ".". */
  function Elements(parts: seq<string>): (es: seq<string>)
    ensures forall i :: 0 <= i < |es| ==> es[i] in parts && es[i] != "" && es[i] != "."
    decreases |parts|
  {
    if parts == [] then []
    else if parts[0] == "" || parts[0] == "." then Elements(parts[1..])
    else [parts[0]] + Elements(parts[1..])
  }

  lemma {:induction false} ElementsConcat(a: seq<string>, b: seq<string>)
    ensures Elements(a + b) == Elements(a) + Elements(b)
    decreases |a|
  {
    if a != [] {
      assert a + b == [a[0]] + (a[1..] + b);
      assert (a + b)[0] == a[0] && (a + b)[1..] == a[1..] + b;
      ElementsConcat(a[1..], b);
      if a[0] != "" && a[0] != "." {
        assert Elements(a) + Elements(b) == [a[0]] + (Elements(a[1..]) + Elements(b));
      }
    } else {
      assert a + b == b;
    }
  }

  /** Slash-free, non-empty names, the building blocks of a cleaned path. */
  predicate Segments(xs: seq<string>) {
    forall i :: 0 <= i < |xs| ==> xs[i] != "" && '/' !in xs[i]
  }

  /**
   * The `..` rule of path.Clean, applied left to right with a stack of kept names:
   * `..` pops the last kept name, unless there is none (or it is itself a `..` that could
   * not be resolved); then a rooted path drops it and a relative path keeps it.
   */
  function Resolve(stack: seq<string>, names: seq<string>, rooted: bool): seq<string>
    decreases |names|
  {
    if names == [] then stack
    else if names[0] == ".." then
      if |stack| > 0 && stack[|stack| - 1] != ".." then Resolve(stack[..|stack| - 1], names[1..], rooted)
      else if rooted then Resolve(stack, names[1..], rooted)
      else Resolve(stack + [".."], names[1..], rooted)
    else Resolve(stack + [names[0]], names[1..], rooted)
  }

  /** path.Clean. */
  function Clean(s: string): string {
    if s == "" then "."
    else
      var rooted := s[0] == '/';
      var body := Unsplit(Resolve([], Elements(Split(s)), rooted));
      if rooted then "/" + body
      else if body == "" then "."
      else body
  }

  /** The elements before the first non-empty one that path.Join skips. */
  function DropLeadingEmpty(elems: seq<string>): (rest: seq<string>)
    ensures rest == [] || rest[0] != ""
    ensures exists k :: 0 <= k <= |elems| && rest == elems[k..] && forall j :: 0 <= j < k ==> elems[j] == ""
    decreases |elems|
  {
    if elems != [] && elems[0] == "" then
      var rest := DropLeadingEmpty(elems[1..]);
      ghost var k :| 0 <= k <= |elems[1..]| && rest == elems[1..][k..] && forall j :: 0 <= j < k ==> elems[1..][j] == "";
      assert rest == elems[k + 1..];
      rest
    else
      assert elems == elems[0..];
      elems
  }

  /** path.Join: join the elements from the first non-empty one with slashes, then Clean. */
  function Join(elems: seq<string>): string {
    var rest := DropLeadingEmpty(elems);
    if rest == [] then "" else Clean(Unsplit(rest))
  }

  // ---------------------------------------------------------------------------------------
  // The shape of a cleaned path.

  predicate NoDoubleSlash(s: string) {
    forall i :: 0 <= i < |s| - 1 ==> !(s[i] == '/' && s[i + 1] == '/')
  }

  /** Resolving keeps the stack made of slash-free, non-empty names. */
  lemma {:induction false} ResolveSegments(stack: seq<string>, names: seq<string>, rooted: bool)
    requires Segments(stack) && Segments(names)
    ensures Segments(Resolve(stack, names, rooted))
    decreases |names|
  {
    if names != [] {
      if names[0] == ".." {
        if |stack| > 0 && stack[|stack| - 1] != ".." {
          ResolveSegments(stack[..|stack| - 1], names[1..], rooted);
        } else if rooted {
          ResolveSegments(stack, names[1..], rooted);
        } else {
          ResolveSegments(stack + [".."], names[1..], rooted);
        }
      } else {
        ResolveSegments(stack + [names[0]], names[1..], rooted);
      }
    }
  }

  /** Joining slash-free non-empty names never yields a double slash, nor a slash at either end. */
  lemma {:induction false} UnsplitSegments(xs: seq<string>)
    requires Segments(xs)
    ensures var s := Unsplit(xs);
      && (s == "" <==> xs == [])
      && (xs != [] ==> s[0] == xs[0][0] && s[0] != '/' && s[|s| - 1] != '/')
      && NoDoubleSlash(s)
    decreases |xs|
  {
    if |xs| == 1 {
      assert xs[0][0] in xs[0];
      assert xs[0][|xs[0]| - 1] in xs[0];
      forall i | 0 <= i < |xs[0]| - 1 ensures xs[0][i] != '/' {
        assert xs[0][i] in xs[0];
      }
    } else if |xs| > 1 {
      UnsplitSegments(xs[1..]);
      var a, t := xs[0], Unsplit(xs[1..]);
      var s := a + "/" + t;
      assert a[0] in a;
      forall i | 0 <= i < |s| - 1 ensures !(s[i] == '/' && s[i + 1] == '/') {
        if i < |a| - 1 {
          assert s[i] == a[i] && a[i] in a;
        } else if i == |a| - 1 {
          assert s[i] == a[i] && a[i] in a;
        } else if i == |a| {
          assert s[i + 1] == t[0];
        } else {
          assert s[i] == t[i - |a| - 1] && s[i + 1] == t[i - |a|];
        }
      }
    }
  }

  /**
   * What path.Clean promises about its result: it is never empty, it starts with a slash
   * exactly when the input does, it has no double slash, and it ends in a slash only
   * when it is the root "/".
   */
  lemma CleanShape(s: string)
    ensures var r := Clean(s);
      && r != ""
      && (s != "" ==> (r[0] == '/' <==> s[0] == '/'))
      && NoDoubleSlash(r)
      && (r[|r| - 1] == '/' ==> r == "/")
  {
    if s != "" {
      var rooted := s[0] == '/';
      var xs := Resolve([], Elements(Split(s)), rooted);
      ResolveSegments([], Elements(Split(s)), rooted);
      UnsplitSegments(xs);
      var body := Unsplit(xs);
      if rooted && body != "" {
        var r := "/" + body;
        forall i | 0 <= i < |r| - 1 ensures !(r[i] == '/' && r[i + 1] == '/') {
          if i > 0 {
            assert r[i] == body[i - 1] && r[i + 1] == body[i];
          }
        }
      }
    }
  }

  // ---------------------------------------------------------------------------------------
  // Joining plain elements: no `.` or `..` anywhere.

  /** The pieces of every element, in order. */
  function SplitAll(elems: seq<string>): seq<string>
    decreases |elems|
  {
    if elems == [] then [] else Split(elems[0]) + SplitAll(elems[1..])
  }

  /** The path elements of all the elements, in order. */
  function Components(elems: seq<string>): seq<string> {
    Elements(SplitAll(elems))
  }

  /** No element contains a `.` or `..` piece, so cleaning only drops empty pieces. */
  predicate Plain(elems: seq<string>) {
    forall p :: p in SplitAll(elems) ==> p != "." && p != ".."
  }

  lemma {:induction false} SplitAllConcat(a: seq<string>, b: seq<string>)
    ensures SplitAll(a + b) == SplitAll(a) + SplitAll(b)
    decreases |a|
  {
    if a != [] {
      assert (a + b)[0] == a[0] && (a + b)[1..] == a[1..] + b;
      SplitAllConcat(a[1..], b);
      assert SplitAll(a + b) == Split(a[0]) + (SplitAll(a[1..]) + SplitAll(b));
    } else {
      assert a + b == b;
    }
  }

  lemma {:induction false} SplitAllLeadingEmpty(elems: seq<string>)
    ensures Elements(SplitAll(elems)) == Elements(SplitAll(DropLeadingEmpty(elems)))
    decreases |elems|
  {
    if elems != [] && elems[0] == "" {
      var tail := SplitAll(elems[1..]);
      SplitAllLeadingEmpty(elems[1..]);
      assert DropLeadingEmpty(elems) == DropLeadingEmpty(elems[1..]);
      assert Split(elems[0]) == [""];
      assert SplitAll(elems) == [""] + tail;
      ElementsConcat([""], tail);
      assert Elements([""]) == [] + Elements([]);
    } else {
      DropLeadingEmptyKeeps(elems);
    }
  }

  /** Nothing is skipped when the first element is not empty. */
  lemma DropLeadingEmptyKeeps(elems: seq<string>)
    requires elems == [] || elems[0] != ""
    ensures DropLeadingEmpty(elems) == elems
  {
  }

  /** Splitting the joined elements is splitting each of them. */
  lemma {:induction false} SplitOfUnsplit(elems: seq<string>)
    requires elems != []
    ensures Split(Unsplit(elems)) == SplitAll(elems)
    decreases |elems|
  {
    if |elems| == 1 {
      assert SplitAll(elems) == Split(elems[0]) + SplitAll([]);
    } else {
      SplitAtSlash(elems[0], Unsplit(elems[1..]));
      SplitOfUnsplit(elems[1..]);
    }
  }

  /** Without `..`, resolving just pushes every name. */
  lemma {:induction false} ResolveWithoutDotDot(stack: seq<string>, names: seq<string>, rooted: bool)
    requires forall i :: 0 <= i < |names| ==> names[i] != ".."
    ensures Resolve(stack, names, rooted) == stack + names
    decreases |names|
  {
    if names != [] {
      ResolveWithoutDotDot(stack + [names[0]], names[1..], rooted);
      assert stack + [names[0]] + names[1..] == stack + names;
    }
  }

  lemma {:induction false} UnsplitPrefix(elems: seq<string>)
    requires elems != [] && elems[0] != ""
    ensures Unsplit(elems) != "" && Unsplit(elems)[0] == elems[0][0]
  {
  }

  /** Cleaning a path without `.` or `..` pieces only drops the empty pieces. */
  lemma CleanPlain(s: string)
    requires s != ""
    requires forall p :: p in Split(s) ==> p != "." && p != ".."
    ensures Clean(s) == (if s[0] == '/' then "/" else "") + Unsplit(Elements(Split(s)))
    ensures s[0] != '/' ==> Elements(Split(s)) != []
  {
    var c := Elements(Split(s));
    forall i | 0 <= i < |c| ensures c[i] != ".." {
      assert c[i] in Split(s);
    }
    ResolveWithoutDotDot([], c, s[0] == '/');
    assert Resolve([], c, s[0] == '/') == c;
    if s[0] != '/' {
      var p := Split(s);
      assert p[0] != "" && p[0] in p;
      assert p == [p[0]] + p[1..];
      assert c == [p[0]] + Elements(p[1..]);
      ResolveSegments([], c, false);
      UnsplitSegments(c);
    }
  }

  /**
   * path.Join over plain elements: the result is the components joined by single slashes,
   * led by a slash exactly when the first non-empty element starts with one.
   */
  lemma JoinPlain(elems: seq<string>)
    requires Plain(elems)
    ensures var rest := DropLeadingEmpty(elems);
      && (rest == [] ==> Join(elems) == "" && Components(elems) == [])
      && (rest != [] ==>
            Join(elems) == (if rest[0][0] == '/' then "/" else "") + Unsplit(Components(elems))
            && (rest[0][0] != '/' ==> Components(elems) != []))
  {
    var rest := DropLeadingEmpty(elems);
    SplitAllLeadingEmpty(elems);
    if rest != [] {
      var k :| 0 <= k <= |elems| && rest == elems[k..] && forall j :: 0 <= j < k ==> elems[j] == "";
      JoinPlainRest(elems, k, rest);
    } else {
      assert SplitAll(rest) == [];
    }
  }

  /** The case of JoinPlain with a non-empty element: clean the joined rest. */
  lemma JoinPlainRest(elems: seq<string>, k: nat, rest: seq<string>)
    requires Plain(elems) && k <= |elems| && rest == elems[k..] && rest != [] && rest[0] != ""
    ensures Clean(Unsplit(rest)) == (if rest[0][0] == '/' then "/" else "") + Unsplit(Elements(SplitAll(rest)))
    ensures rest[0][0] != '/' ==> Elements(SplitAll(rest)) != []
  {
    var s := Unsplit(rest);
    UnsplitPrefix(rest);
    SplitOfUnsplit(rest);
    assert elems == elems[..k] + rest;
    SplitAllConcat(elems[..k], rest);
    forall p | p in Split(s) ensures p != "." && p != ".." {
      assert p in SplitAll(elems);
    }
    CleanPlain(s);
  }
}
