/** The two functions of Go's `strings` package the core relies on. */
module Strings {

  /** Go's `strings.TrimRight(s, cutset)`: drop every trailing character that
      belongs to `cutset`. */
  function TrimRight(s: string, cutset: set<char>): (r: string)
    ensures r <= s
    ensures r == [] || r[|r| - 1] !in cutset
    ensures forall i :: |r| <= i < |s| ==> s[i] in cutset
  {
    if |s| == 0 || s[|s| - 1] !in cutset then s
    else TrimRight(s[..|s| - 1], cutset)
  }

  /** The three ensures of TrimRight pin its result down: any prefix that
      keeps no trailing cut character and drops only cut characters is it. */
  lemma {:induction false} TrimRightUnique(s: string, cutset: set<char>, r: string)
    requires r <= s
    requires r == [] || r[|r| - 1] !in cutset
    requires forall i :: |r| <= i < |s| ==> s[i] in cutset
    ensures r == TrimRight(s, cutset)
  {
    var t := TrimRight(s, cutset);
    if |r| < |t| {
      assert false;
    } else if |t| < |r| {
      assert false;
    }
  }

  /** A string that does not end in a cut character is left as it is. */
  lemma TrimRightKeeps(s: string, cutset: set<char>)
    requires s == [] || s[|s| - 1] !in cutset
    ensures TrimRight(s, cutset) == s
  {
  }

  /** Go's `strings.TrimPrefix(s, prefix)`: `s` without a leading `prefix`,
      or `s` unchanged when it does not start with `prefix`. */
  function TrimPrefix(s: string, prefix: string): (r: string)
    ensures prefix <= s ==> prefix + r == s
    ensures !(prefix <= s) ==> r == s
  {
    if prefix <= s then s[|prefix|..] else s
  }

  /** With a non-empty prefix, "the trimmed string equals the input" is
      exactly "the input does not carry the prefix". */
  lemma TrimPrefixUnchanged(s: string, prefix: string)
    requires prefix != []
    ensures TrimPrefix(s, prefix) == s <==> !(prefix <= s)
  {
    if prefix <= s {
      assert |TrimPrefix(s, prefix)| == |s| - |prefix|;
    }
  }

  /** Trimming a prefix undoes prepending it. */
  lemma TrimPrefixOfConcat(prefix: string, x: string)
    ensures TrimPrefix(prefix + x, prefix) == x
  {
    assert (prefix + x)[|prefix|..] == x;
  }
}
