/** client.buildURL: a textual join of the configured server with path segments. */
module UrlBuilder {
  import opened GoStrings
  import opened GoPath

  /** The path half of buildURL: path.Join of the segments, one slash appended, leading slashes trimmed. */
  function PathPart(paths: seq<string>): string {
    TrimLeftSlashes(Join(paths) + "/")
  }

  /** client.buildURL(paths...) for a client whose configured server is `server`. */
  function BuildURL(server: string, paths: seq<string>): string {
    TrimRightSlashes(server) + "/" + PathPart(paths)
  }

  /** Each name followed by one slash: "a/b/" for ["a", "b"]. */
  function Slashed(names: seq<string>): string
    decreases |names|
  {
    if names == [] then "" else names[0] + "/" + Slashed(names[1..])
  }

  lemma {:induction false} SlashedUnsplit(names: seq<string>)
    requires names != []
    ensures Unsplit(names) + "/" == Slashed(names)
    decreases |names|
  {
    if |names| > 1 {
      SlashedUnsplit(names[1..]);
    }
  }

  lemma {:induction false} SlashedConcat(a: seq<string>, b: seq<string>)
    ensures Slashed(a + b) == Slashed(a) + Slashed(b)
    decreases |a|
  {
    if a == [] {
      assert a + b == b;
    } else {
      assert (a + b)[0] == a[0] && (a + b)[1..] == a[1..] + b;
      SlashedConcat(a[1..], b);
    }
  }

  lemma {:induction false} SplitAllNoSlash(elems: seq<string>)
    ensures forall p :: p in SplitAll(elems) ==> '/' !in p
    decreases |elems|
  {
    if elems != [] {
      SplitAllNoSlash(elems[1..]);
      forall p | p in Split(elems[0]) ensures '/' !in p {
        var i :| 0 <= i < |Split(elems[0])| && Split(elems[0])[i] == p;
      }
    }
  }

  lemma ComponentsSegments(elems: seq<string>)
    ensures Segments(Components(elems))
  {
    SplitAllNoSlash(elems);
    var c := Components(elems);
    forall i | 0 <= i < |c| ensures c[i] != "" && '/' !in c[i] {
      assert c[i] in SplitAll(elems);
    }
  }

  lemma TrimLeftLeadingSlash(x: string)
    ensures TrimLeftSlashes("/" + x) == TrimLeftSlashes(x)
  {
    assert ("/" + x)[1..] == x;
  }

  /**
   * The shape of every URL buildURL makes: the server with all its trailing slashes
   * removed, exactly one slash, then a path part that does not start with a slash, has
   * no double slash, and is either empty or ends in a slash; so the URL ends in a slash.
   */
  lemma BuildURLShape(server: string, paths: seq<string>)
    ensures var url, s, p := BuildURL(server, paths), TrimRightSlashes(server), PathPart(paths);
      && url == s + "/" + p
      && (s == "" || s[|s| - 1] != '/')
      && HasPrefix(server, s) && (forall j :: |s| <= j < |server| ==> server[j] == '/')
      && (p == "" || (p[0] != '/' && p[|p| - 1] == '/'))
      && NoDoubleSlash(p)
      && url[|url| - 1] == '/'
  {
    var j := Join(paths);
    if j != "" && j != "/" {
      CleanShape(Unsplit(DropLeadingEmpty(paths)));
      SlashedTail(j);
    } else if j == "/" {
      assert j + "/" == "/" + "/";
      TrimLeftLeadingSlash("/");
    }
  }

  /** A cleaned path other than "" and "/", with a slash added and its leading slashes cut. */
  lemma SlashedTail(j: string)
    requires j != "" && j != "/" && NoDoubleSlash(j) && j[|j| - 1] != '/'
    ensures var p := TrimLeftSlashes(j + "/");
      p != "" && p[0] != '/' && p[|p| - 1] == '/' && NoDoubleSlash(p)
  {
    var t := j + "/";
    var p := TrimLeftSlashes(t);
    assert NoDoubleSlash(t) by {
      forall i | 0 <= i < |t| - 1 ensures !(t[i] == '/' && t[i + 1] == '/') {
        if i < |j| - 1 {
          assert t[i] == j[i] && t[i + 1] == j[i + 1];
        }
      }
    }
    assert t[|j| - 1] != '/';
    assert p == t[|t| - |p|..];
    assert |p| > 1;
    forall i | 0 <= i < |p| - 1 ensures !(p[i] == '/' && p[i + 1] == '/') {
      assert p[i] == t[|t| - |p| + i] && p[i + 1] == t[|t| - |p| + i + 1];
    }
  }

  /** The path part of a join result made of a possible leading slash and joined names. */
  lemma PathPartOfJoin(j: string, lead: string, c: seq<string>)
    requires lead == "" || lead == "/"
    requires Segments(c) && j == lead + Unsplit(c)
    requires lead == "" ==> c != []
    ensures TrimLeftSlashes(j + "/") == Slashed(c)
  {
    if c == [] {
      assert j + "/" == "/" + "/";
      TrimLeftLeadingSlash("/");
    } else {
      UnsplitSegments(c);
      SlashedUnsplit(c);
      if lead == "/" {
        assert j + "/" == "/" + (Unsplit(c) + "/");
        TrimLeftLeadingSlash(Unsplit(c) + "/");
      } else {
        assert j + "/" == Unsplit(c) + "/";
      }
      TrimLeftKeeps(Unsplit(c) + "/");
    }
  }

  /**
   * For plain segments (no `.` or `..` piece), buildURL drops empty segments and empty
   * pieces and collapses every run of slashes: the path part is the non-empty pieces of
   * all segments, in order, each followed by one slash.
   */
  lemma BuildURLPlain(server: string, paths: seq<string>)
    requires Plain(paths)
    ensures PathPart(paths) == Slashed(Components(paths))
    ensures BuildURL(server, paths) == TrimRightSlashes(server) + "/" + Slashed(Components(paths))
  {
    JoinPlain(paths);
    ComponentsSegments(paths);
    var rest := DropLeadingEmpty(paths);
    if rest != [] {
      PathPartOfJoin(Join(paths), if rest[0][0] == '/' then "/" else "", Components(paths));
    } else {
      assert Join(paths) + "/" == "/";
    }
  }

  /** A server part and a path part of the shape buildURL makes lose only the final slash to TrimRight. */
  lemma TrimRightBuilt(t: string, p: string)
    requires t == "" || t[|t| - 1] != '/'
    requires p == "" || (p[0] != '/' && p[|p| - 1] == '/')
    requires NoDoubleSlash(p)
    ensures TrimRightSlashes(t + "/" + p) + "/" == t + "/" + p
  {
    if p == "" {
      TrimRightOneSlash(t);
      assert t + "/" + p == t + "/";
    } else {
      assert |p| >= 2 && p[|p| - 2] != '/';
      var u := t + "/" + p[..|p| - 1];
      assert t + "/" + p == u + "/";
      TrimRightOneSlash(u);
    }
  }

  /**
   * A built URL loses exactly its final slash to TrimRight, so building on it with no
   * further segments gives it back unchanged.
   */
  lemma BuildURLFixpoint(server: string, paths: seq<string>)
    ensures TrimRightSlashes(BuildURL(server, paths)) + "/" == BuildURL(server, paths)
    ensures BuildURL(BuildURL(server, paths), []) == BuildURL(server, paths)
  {
    BuildURLShape(server, paths);
    TrimRightBuilt(TrimRightSlashes(server), PathPart(paths));
    BuildURLNoSegments(BuildURL(server, paths));
  }

  /** With no segments, buildURL gives the server with its trailing slashes replaced by one. */
  lemma BuildURLNoSegments(server: string)
    ensures BuildURL(server, []) == TrimRightSlashes(server) + "/"
  {
    PathPartNoSegments();
  }

  lemma PathPartNoSegments()
    ensures PathPart([]) == ""
  {
    assert DropLeadingEmpty([]) == [];
    assert Join([]) + "/" == "/";
  }

  /**
   * Re-joining: building on a built URL with more plain segments is building once with all
   * the segments.
   */
  lemma BuildURLAppend(server: string, paths1: seq<string>, paths2: seq<string>)
    requires Plain(paths1) && Plain(paths2)
    ensures BuildURL(BuildURL(server, paths1), paths2) == BuildURL(server, paths1 + paths2)
  {
    var t := TrimRightSlashes(server);
    var s1, s2 := Slashed(Components(paths1)), Slashed(Components(paths2));
    var u := BuildURL(server, paths1);
    BuildURLPlain(server, paths1);
    BuildURLFixpoint(server, paths1);
    BuildURLPlain(u, paths2);
    BuildURLConcatenated(server, paths1, paths2);
    SlashedConcat(Components(paths1), Components(paths2));
    Reassociate(t, s1, s2, u, BuildURL(u, paths2), BuildURL(server, paths1 + paths2));
  }

  lemma Reassociate(t: string, s1: string, s2: string, u: string, x: string, y: string)
    requires u == t + "/" + s1 && x == u + s2 && y == t + "/" + (s1 + s2)
    ensures x == y
  {
  }

  /** Building once from two runs of plain segments. */
  lemma BuildURLConcatenated(server: string, paths1: seq<string>, paths2: seq<string>)
    requires Plain(paths1) && Plain(paths2)
    ensures BuildURL(server, paths1 + paths2)
         == TrimRightSlashes(server) + "/" + Slashed(Components(paths1) + Components(paths2))
  {
    ComponentsAppend(paths1, paths2);
    BuildURLPlain(server, paths1 + paths2);
  }

  lemma ComponentsAppend(paths1: seq<string>, paths2: seq<string>)
    requires Plain(paths1) && Plain(paths2)
    ensures Components(paths1 + paths2) == Components(paths1) + Components(paths2)
    ensures Plain(paths1 + paths2)
  {
    SplitAllConcat(paths1, paths2);
    ElementsConcat(SplitAll(paths1), SplitAll(paths2));
  }

  // ---------------------------------------------------------------------------------------
  // Segments of known shape.

  /** A segment that is one plain path element: non-empty, slash-free, neither `.` nor `..`. */
  predicate Simple(w: string) {
    w != "" && '/' !in w && w != "." && w != ".."
  }

  lemma SplitAllSingle(x: string)
    ensures SplitAll([x]) == Split(x)
  {
    assert [x][1..] == [];
  }

  /** One simple segment is plain and contributes itself and a slash. */
  lemma SimpleSlashed(w: string)
    requires Simple(w)
    ensures Plain([w])
    ensures Components([w]) == [w]
    ensures Slashed(Components([w])) == w + "/"
  {
    SplitAllSingle(w);
    SplitWord(w);
    assert [w][1..] == [];
    assert Elements([w]) == [w] + Elements([]);
  }

  /** Simple segments are their own path elements. */
  lemma {:induction false} ElementsOfSimple(xs: seq<string>)
    requires forall i :: 0 <= i < |xs| ==> Simple(xs[i])
    ensures Elements(xs) == xs
    decreases |xs|
  {
    if xs != [] {
      ElementsOfSimple(xs[1..]);
      assert [xs[0]] + xs[1..] == xs;
    }
  }

  /** The empty segment is plain and contributes nothing. */
  lemma EmptySlashed()
    ensures Plain([""]) && Components([""]) == [] && Slashed(Components([""])) == ""
  {
    SplitAllSingle("");
  }

  lemma SplitThree(a: string, b: string, c: string)
    requires '/' !in a && '/' !in b && '/' !in c
    ensures Split(a + "/" + b + "/" + c) == [a, b, c]
  {
    SplitAtSlash(a + "/" + b, c);
    SplitAtSlash(a, b);
    SplitWord(a);
    SplitWord(b);
    SplitWord(c);
  }

  /** Three simple segments joined by slashes are plain and contribute themselves and a slash. */
  lemma ThreeSlashed(a: string, b: string, c: string)
    requires Simple(a) && Simple(b) && Simple(c)
    ensures var p := a + "/" + b + "/" + c;
      Plain([p]) && Slashed(Components([p])) == p + "/"
  {
    var p := a + "/" + b + "/" + c;
    SplitThree(a, b, c);
    SplitAllSingle(p);
    var parts := [a, b, c];
    ElementsOfSimple(parts);
    SlashedUnsplit(parts);
    assert Unsplit(parts) == p by {
      UnsplitSplit(p);
    }
  }

  /** Three runs of plain segments each contribute their components, each followed by a slash. */
  lemma SlashedRuns(p1: seq<string>, p2: seq<string>, p3: seq<string>)
    requires Plain(p1) && Plain(p2) && Plain(p3)
    ensures Plain(p1 + p2 + p3)
    ensures Slashed(Components(p1 + p2 + p3)) ==
            Slashed(Components(p1)) + Slashed(Components(p2)) + Slashed(Components(p3))
  {
    ComponentsAppend(p1, p2);
    ComponentsAppend(p1 + p2, p3);
    SlashedConcat(Components(p1) + Components(p2), Components(p3));
    SlashedConcat(Components(p1), Components(p2));
  }

  /**
   * A run of segments whose first contributes itself and a slash and whose last is simple:
   * the components are the first, then the middle's components, then the last.
   */
  lemma FramedSlashed(first: string, middle: seq<string>, last: string)
    requires Plain([first]) && Slashed(Components([first])) == first + "/"
    requires Plain(middle) && Simple(last)
    ensures Plain([first] + middle + [last])
    ensures Slashed(Components([first] + middle + [last])) == first + "/" + Slashed(Components(middle)) + last + "/"
  {
    SimpleSlashed(last);
    SlashedRuns([first], middle, [last]);
  }

  /** A run of plain segments extended by a plain segment and a simple one. */
  lemma ExtendedSlashed(paths: seq<string>, path: string, next: string, last: string)
    requires Plain(paths) && Slashed(Components(paths)) == path
    requires Plain([next]) && Simple(last)
    ensures Plain(paths + [next] + [last])
    ensures Slashed(Components(paths + [next] + [last])) == path + Slashed(Components([next])) + last + "/"
  {
    SimpleSlashed(last);
    SlashedRuns(paths, [next], [last]);
    AppendPair(path + Slashed(Components([next])), last, "/");
  }

  lemma AppendPair(x: string, a: string, b: string)
    ensures x + (a + b) == x + a + b
  {
  }

  /** buildURL over plain segments whose components, slashed, are `path`. */
  lemma PlainURL(server: string, paths: seq<string>, path: string)
    requires Plain(paths) && Slashed(Components(paths)) == path
    ensures BuildURL(server, paths) == TrimRightSlashes(server) + "/" + path
  {
    BuildURLPlain(server, paths);
  }

  /** A simple segment with a trailing slash contributes the same component as without it. */
  lemma SlashEndedSlashed(w: string)
    requires Simple(w)
    ensures Plain([w + "/"]) && Slashed(Components([w + "/"])) == w + "/"
  {
    SplitAllSingle(w + "/");
    assert w + "/" == w + "/" + "";
    SplitAtSlash(w, "");
    SplitWord(w);
    assert Split(w + "/") == [w, ""];
    ElementsConcat([w], [""]);
    ElementsOfSimple([w]);
    assert [w] + [""] == [w, ""];
    assert Elements([""]) == [] by {
      assert [""][1..] == [];
    }
    assert [w][1..] == [];
  }

  lemma RegroupThree(t: string, a: string, b: string, c: string)
    ensures t + "/" + (a + "/" + (b + "/") + (c + "/")) == t + "/" + a + "/" + b + "/" + c + "/"
  {
  }

  /** Segments `a`, `b/`, `c` build `{server}/a/b/c/`: the slash ending `b/` is not doubled. */
  lemma BuildURLSlashEnded(server: string, a: string, b: string, c: string)
    requires Simple(a) && Simple(b) && Simple(c)
    ensures BuildURL(server, [a, b + "/", c]) == TrimRightSlashes(server) + "/" + a + "/" + b + "/" + c + "/"
  {
    SimpleSlashed(a);
    SlashEndedSlashed(b);
    SimpleSlashed(c);
    assert [a, b + "/", c] == [a] + [b + "/"] + [c];
    SlashedRuns([a], [b + "/"], [c]);
    PlainURL(server, [a, b + "/", c], a + "/" + (b + "/") + (c + "/"));
    RegroupThree(TrimRightSlashes(server), a, b, c);
  }

  lemma RegroupTwo(t: string, a: string, c: string)
    ensures t + "/" + (a + "/" + "" + (c + "/")) == t + "/" + a + "/" + c + "/"
  {
  }

  /** An empty segment disappears: `a`, ``, `c` build `{server}/a/c/`. */
  lemma BuildURLEmptySegment(server: string, a: string, c: string)
    requires Simple(a) && Simple(c)
    ensures BuildURL(server, [a, "", c]) == TrimRightSlashes(server) + "/" + a + "/" + c + "/"
  {
    SimpleSlashed(a);
    EmptySlashed();
    SimpleSlashed(c);
    assert [a, "", c] == [a] + [""] + [c];
    SlashedRuns([a], [""], [c]);
    PlainURL(server, [a, "", c], a + "/" + "" + (c + "/"));
    RegroupTwo(TrimRightSlashes(server), a, c);
  }
}
