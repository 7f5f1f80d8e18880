/** The plugin's two string helpers (utils.go). */
module Utils {
  import opened GoTypes

  /** `val`, or `def` when `val` is empty. */
  function DefaultString(val: string, def: string): (r: string)
    ensures r == def <==> val == "" || val == def
    ensures val != "" ==> r == val
  {
    if val == "" then def else val
  }

  /** The result is never empty when the default is not. */
  lemma DefaultStringNonEmpty(val: string, def: string)
    requires def != ""
    ensures DefaultString(val, def) != ""
  {
  }

  /** Defaulting twice with the same default changes nothing more. */
  lemma DefaultStringIdempotent(val: string, def: string)
    ensures DefaultString(DefaultString(val, def), def) == DefaultString(val, def)
  {
  }

  /** The non-empty strings of `xs`, in order: the filter StripEmptyStrings computes. */
  function NonEmpty(xs: seq<string>): (ys: seq<string>)
    ensures |ys| <= |xs|
    ensures forall k :: 0 <= k < |ys| ==> ys[k] != ""
  {
    if xs == [] then []
    else if xs[|xs| - 1] == "" then NonEmpty(xs[..|xs| - 1])
    else NonEmpty(xs[..|xs| - 1]) + [xs[|xs| - 1]]
  }

  /**
   * The slice with its empty strings removed. The result is never nil: a nil slice gives
   * an empty one.
   */
  method StripEmptyStrings(slice: GoSlice<string>) returns (out: GoSlice<string>)
    ensures out.Of?
    ensures out.elems == NonEmpty(slice.Items())
  {
    out := Of([]);
    if slice.Nil? {
      return;
    }
    for i := 0 to |slice.elems|
      invariant out.Of? && out.elems == NonEmpty(slice.elems[..i])
    {
      assert slice.elems[..i + 1][..i] == slice.elems[..i];
      if slice.elems[i] != "" {
        out := Of(out.elems + [slice.elems[i]]);
      }
    }
    assert slice.elems[..|slice.elems|] == slice.elems;
  }

  /** Filtering distributes over concatenation. */
  lemma {:induction false} NonEmptyConcat(xs: seq<string>, ys: seq<string>)
    ensures NonEmpty(xs + ys) == NonEmpty(xs) + NonEmpty(ys)
    decreases |ys|
  {
    if ys == [] {
      assert xs + ys == xs;
    } else {
      var init := ys[..|ys| - 1];
      assert (xs + ys)[..|xs + ys| - 1] == xs + init;
      NonEmptyConcat(xs, init);
    }
  }

  /** Each non-empty string is kept as often as it occurs; the empty string is dropped. */
  lemma {:induction false} NonEmptyMultiplicity(xs: seq<string>)
    ensures forall s :: s != "" ==> multiset(NonEmpty(xs))[s] == multiset(xs)[s]
    ensures "" !in NonEmpty(xs)
  {
    if xs != [] {
      var init := xs[..|xs| - 1];
      assert xs == init + [xs[|xs| - 1]];
      NonEmptyMultiplicity(init);
    }
  }

  /** A sequence without empty strings is its own filter; hence the filter is idempotent. */
  lemma {:induction false} NonEmptyKeeps(xs: seq<string>)
    requires forall k :: 0 <= k < |xs| ==> xs[k] != ""
    ensures NonEmpty(xs) == xs
  {
    if xs != [] {
      var init := xs[..|xs| - 1];
      NonEmptyKeeps(init);
      assert init + [xs[|xs| - 1]] == xs;
    }
  }

  lemma NonEmptyIdempotent(xs: seq<string>)
    ensures NonEmpty(NonEmpty(xs)) == NonEmpty(xs)
  {
    NonEmptyKeeps(NonEmpty(xs));
  }

  /** A single string is kept exactly when it is non-empty: with NonEmptyConcat, this pins the filter down. */
  lemma NonEmptySingle(s: string)
    ensures NonEmpty([s]) == if s == "" then [] else [s]
  {
    assert [s][..0] == [];
  }
}
