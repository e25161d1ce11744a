/** The goal gap: which required facts the agent does not currently believe. */
module GapAnalysis {
  import opened JavaStrings

  /** `sub` is `s` with some elements left out, the rest kept in order. */
  predicate IsSubsequence<T(==)>(sub: seq<T>, s: seq<T>)
    decreases |s|
  {
    sub == [] ||
    (s != [] &&
     ((sub[|sub| - 1] == s[|s| - 1] && IsSubsequence(sub[..|sub| - 1], s[..|s| - 1])) ||
      IsSubsequence(sub, s[..|s| - 1])))
  }

  lemma SubsequenceExtend<T>(sub: seq<T>, s: seq<T>, x: T)
    requires IsSubsequence(sub, s)
    ensures IsSubsequence(sub, s + [x]) && IsSubsequence(sub + [x], s + [x])
  {
    assert (s + [x])[..|s|] == s;
    assert (sub + [x])[..|sub|] == sub;
  }

  /** The facts of `want` that are not in `have`, in `want`'s order: the list every
      `findPredicates` builds. */
  function Missing(have: seq<string>, want: seq<string>): (r: seq<string>)
    ensures |r| <= |want|
    ensures IsSubsequence(r, want)
    ensures forall x :: x in r <==> x in want && x !in have
  {
    if want == [] then []
    else
      var init := want[..|want| - 1];
      var last := want[|want| - 1];
      assert want == init + [last];
      SubsequenceExtend(Missing(have, init), init, last);
      if last in have then Missing(have, init) else Missing(have, init) + [last]
  }

  /** Repeated wanted facts are all kept: a fact not held is reported as often as it is
      wanted, a held one never. */
  lemma {:induction false} MissingCounts(have: seq<string>, want: seq<string>)
    ensures forall x :: multiset(Missing(have, want))[x] == if x in have then 0 else multiset(want)[x]
    decreases |want|
  {
    if want != [] {
      var init := want[..|want| - 1];
      var last := want[|want| - 1];
      assert want == init + [last];
      MissingCounts(have, init);
    }
  }

  /** The gap is empty exactly when every wanted fact is held; nothing wanted, nothing missing. */
  lemma MissingEmpty(have: seq<string>, want: seq<string>)
    ensures Missing(have, want) == [] <==> forall x :: x in want ==> x in have
    ensures want == [] ==> Missing(have, want) == []
  {
    if Missing(have, want) != [] {
      assert Missing(have, want)[0] in Missing(have, want);
    }
  }

  /** The predicate list with `[source(self)]`/`[source(percepts)]` removed from each entry. */
  function StripAll(ps: seq<string>): (r: seq<string>)
    ensures |r| == |ps|
    ensures forall i :: 0 <= i < |ps| ==> r[i] == StripSource(ps[i])
  {
    if ps == [] then [] else StripAll(ps[..|ps| - 1]) + [StripSource(ps[|ps| - 1])]
  }

  /** Predicates without `[` carry no annotation and pass through unchanged. */
  lemma StripAllPlain(ps: seq<string>)
    requires forall p :: p in ps ==> '[' !in p
    ensures StripAll(ps) == ps
  {
    forall i | 0 <= i < |ps| ensures StripAll(ps)[i] == ps[i] {
      StripSourcePlain(ps[i]);
    }
  }
}
