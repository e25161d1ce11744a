/** PDDL 1.2 problem emission: the belief list becomes the `:init` block and the predicates
    to achieve become the `(and ...)` goal, written to one fixed problem file. */
module PDDLGenerator {
  import opened JavaStrings
  import opened Environment
  import opened Options

  /** The file `generate` always writes, whichever agent it is called for. */
  const ProblemPath: string := "src/examples/gwendolen/project/problem.pddl"
  const ProblemName: string := "textingproblem"
  const DomainName: string := "shoppingdomain"
  /** The fact listed last in every initial state. */
  const Anchor: string := "dummyPredicate"
  /** The text the goal loop of `writePDDLGoalState` removes with a literal (not a regex)
      replace. */
  const GoalPatternText: string := "\\[source\\((self|percepts)\\)\\]"

  // ---------------------------------------------------------------------------------------
  // preprocessPredicates

  predicate IsLineTerminator(c: char) {
    c == '\n' || c == '\r' || c == '\U{85}' || c == '\U{2028}' || c == '\U{2029}'
  }

  predicate NoLineTerminator(s: string) {
    forall i :: 0 <= i < |s| ==> !IsLineTerminator(s[i])
  }

  /** `replaceAll("^\\((.*)\\)$", "$1")`: `.` does not cross a line terminator and `$` also
      matches before one final line terminator, which the replacement keeps. */
  function Unwrap(s: string): (r: string)
    ensures |r| <= |s|
    ensures forall c :: c in r ==> c in s
  {
    if |s| >= 2 && s[0] == '(' && s[|s| - 1] == ')' && NoLineTerminator(s[1..|s| - 1]) then
      s[1..|s| - 1]
    else if |s| >= 3 && s[0] == '(' && s[|s| - 2] == ')' && IsLineTerminator(s[|s| - 1])
         && NoLineTerminator(s[1..|s| - 2]) then
      s[1..|s| - 2] + s[|s| - 1..]
    else if |s| >= 4 && s[0] == '(' && s[|s| - 3] == ')' && s[|s| - 2..] == "\r\n"
         && NoLineTerminator(s[1..|s| - 3]) then
      s[1..|s| - 3] + "\r\n"
    else s
  }

  /** On one line, the outer parentheses are removed exactly when the text both starts with `(`
      and ends with `)`. */
  lemma UnwrapOneLine(s: string)
    requires NoLineTerminator(s)
    ensures Unwrap(s) == if |s| >= 2 && s[0] == '(' && s[|s| - 1] == ')' then s[1..|s| - 1] else s
  {
  }

  function TrimAll(ps: seq<string>): (r: seq<string>)
    ensures |r| == |ps|
    ensures forall i :: 0 <= i < |ps| ==> r[i] == Trim(ps[i])
  {
    if ps == [] then [] else [Trim(ps[0])] + TrimAll(ps[1..])
  }

  /** What `preprocessPredicates` makes of one predicate string. */
  function PreprocessOne(p: string): seq<string> {
    var w := Trim(Unwrap(p));
    if '&' in w then TrimAll(Split(w, '&')) else [w]
  }

  /** The list `preprocessPredicates` returns. */
  function Preprocessed(ps: seq<string>): seq<string>
  {
    if ps == [] then [] else Preprocessed(ps[..|ps| - 1]) + PreprocessOne(ps[|ps| - 1])
  }

  /** A conjunction yields its `&`-separated parts, trimmed, in order: glued back together
      with `&` the parts give the text again, and only trailing empty parts, which `split`
      drops, are missing. */
  lemma ConjunctionParts(w: string)
    requires '&' in w
    ensures var parts := RawSplit(w, '&');
      var r := TrimAll(Split(w, '&'));
      && Join(parts, '&') == w
      && |r| <= |parts|
      && (forall i :: 0 <= i < |r| ==> r[i] == Trim(parts[i]))
      && (forall i :: |r| <= i < |parts| ==> parts[i] == [])
  {
    JoinRawSplit(w, '&');
    var parts := RawSplit(w, '&');
    var kept := DropTrailingEmpty(parts);
    assert Split(w, '&') == kept;
    assert forall i :: 0 <= i < |kept| ==> kept[i] == parts[i];
  }

  /** A predicate without `&` yields exactly one entry: itself unwrapped and trimmed. */
  lemma PreprocessOneSingle(p: string)
    requires '&' !in Trim(Unwrap(p))
    ensures PreprocessOne(p) == [Trim(Unwrap(p))]
  {
  }

  /** Each predicate unwrapped and trimmed, in order. */
  function Cleaned(ps: seq<string>): (r: seq<string>)
    ensures |r| == |ps|
  {
    if ps == [] then [] else Cleaned(ps[..|ps| - 1]) + [Trim(Unwrap(ps[|ps| - 1]))]
  }

  /** No predicate, once unwrapped and trimmed, holds a conjunction. */
  predicate NoConjunctions(ps: seq<string>) {
    ps == [] || (NoConjunctions(ps[..|ps| - 1]) && '&' !in Trim(Unwrap(ps[|ps| - 1])))
  }

  lemma {:induction false} CleanedAt(ps: seq<string>, i: nat)
    requires i < |ps|
    ensures Cleaned(ps)[i] == Trim(Unwrap(ps[i]))
    decreases |ps|
  {
    if i < |ps| - 1 {
      CleanedAt(ps[..|ps| - 1], i);
    }
  }

  lemma {:induction false} NoConjunctionsAt(ps: seq<string>)
    requires forall i :: 0 <= i < |ps| ==> '&' !in Trim(Unwrap(ps[i]))
    ensures NoConjunctions(ps)
    decreases |ps|
  {
    if ps != [] {
      var front := ps[..|ps| - 1];
      forall i | 0 <= i < |front| ensures '&' !in Trim(Unwrap(front[i])) {
        assert front[i] == ps[i];
      }
      NoConjunctionsAt(front);
    }
  }

  lemma {:induction false} PreprocessedCleaned(ps: seq<string>)
    requires NoConjunctions(ps)
    ensures Preprocessed(ps) == Cleaned(ps)
    decreases |ps|
  {
    if ps != [] {
      PreprocessedCleaned(ps[..|ps| - 1]);
      PreprocessOneSingle(ps[|ps| - 1]);
    }
  }

  /** Predicates without conjunctions yield one entry each, in order: each unwrapped and
      trimmed. */
  lemma PreprocessedSingles(ps: seq<string>)
    requires forall i :: 0 <= i < |ps| ==> '&' !in Trim(Unwrap(ps[i]))
    ensures |Preprocessed(ps)| == |ps|
    ensures forall i :: 0 <= i < |ps| ==> Preprocessed(ps)[i] == Trim(Unwrap(ps[i]))
  {
    NoConjunctionsAt(ps);
    PreprocessedCleaned(ps);
    forall i | 0 <= i < |ps| ensures Cleaned(ps)[i] == Trim(Unwrap(ps[i])) {
      CleanedAt(ps, i);
    }
  }

  lemma AtomWithoutAmpersand(p: string)
    requires IsAtom(p)
    ensures '&' !in p
  {
    forall i | 0 <= i < |p| ensures p[i] != '&' { assert IsAtomChar(p[i]); }
  }

  lemma AtomUnwrapped(p: string)
    requires IsAtom(p)
    ensures Trim(Unwrap(p)) == p
  {
    assert IsAtomChar(p[0]) && IsAtomChar(p[|p| - 1]);
    assert Unwrap(p) == p;
    TrimUntrimmed(p);
  }

  /** A plain fact name is its own preprocessed form. */
  lemma PreprocessOneAtom(p: string)
    requires IsAtom(p)
    ensures PreprocessOne(p) == [p]
  {
    AtomUnwrapped(p);
    AtomWithoutAmpersand(p);
  }

  /** A list of plain fact names passes through preprocessing unchanged. */
  lemma {:induction false} PreprocessedAtoms(ps: seq<string>)
    requires forall i :: 0 <= i < |ps| ==> IsAtom(ps[i])
    ensures Preprocessed(ps) == ps
    decreases |ps|
  {
    if ps != [] {
      PreprocessOneAtom(ps[|ps| - 1]);
      PreprocessedAtoms(ps[..|ps| - 1]);
      SnocParts(ps);
    }
  }

  lemma PreprocessedSnoc(ps: seq<string>, k: nat)
    requires k < |ps|
    ensures Preprocessed(ps[..k + 1]) == Preprocessed(ps[..k]) + PreprocessOne(ps[k])
  {
    assert ps[..k + 1][..k] == ps[..k];
  }

  lemma TrimAllSnoc(parts: seq<string>, m: nat)
    requires m < |parts|
    ensures TrimAll(parts[..m + 1]) == TrimAll(parts[..m]) + [Trim(parts[m])]
  {
  }

  /** The inner loop of `preprocessPredicates`: each part of a conjunction, trimmed, appended
      in order. */
  method AddTrimmedParts(formatted: seq<string>, parts: seq<string>) returns (r: seq<string>)
    ensures r == formatted + TrimAll(parts)
  {
    r := formatted;
    for m := 0 to |parts|
      invariant r == formatted + TrimAll(parts[..m])
    {
      TrimAllSnoc(parts, m);
      AppendAssoc(formatted, TrimAll(parts[..m]), [Trim(parts[m])]);
      r := r + [Trim(parts[m])];
    }
    assert parts[..|parts|] == parts;
  }

  /** `preprocessPredicates`: for each predicate, outer parentheses removed and the text
      trimmed; a conjunction contributes each trimmed part, anything else itself. */
  method PreprocessPredicates(predicates: seq<string>) returns (formatted: seq<string>)
    ensures formatted == Preprocessed(predicates)
  {
    formatted := [];
    for k := 0 to |predicates|
      invariant formatted == Preprocessed(predicates[..k])
    {
      var withoutParentheses := Trim(Unwrap(predicates[k]));
      if '&' in withoutParentheses {
        var parts := Split(withoutParentheses, '&');
        formatted := AddTrimmedParts(formatted, parts);
      } else {
        formatted := formatted + [withoutParentheses];
      }
      PreprocessedSnoc(predicates, k);
    }
    assert predicates[..|predicates|] == predicates;
  }

  lemma {:induction false} PreprocessOneChars(p: string)
    ensures forall c, i :: 0 <= i < |PreprocessOne(p)| && c in PreprocessOne(p)[i] ==> c in p
  {
    var w := Trim(Unwrap(p));
    if '&' in w {
      var parts := Split(w, '&');
      JoinRawSplit(w, '&');
      forall c, i | 0 <= i < |PreprocessOne(p)| && c in PreprocessOne(p)[i] ensures c in p {
        assert c in parts[i];
        PartCharsInJoin(RawSplit(w, '&'), '&', i, c);
      }
    }
  }

  lemma {:induction false} PartCharsInJoin(parts: seq<string>, sep: char, i: nat, c: char)
    requires |parts| >= 1 && i < |parts| && c in parts[i]
    ensures c in Join(parts, sep)
    decreases |parts|
  {
    if |parts| > 1 {
      assert Join(parts, sep) == parts[0] + [sep] + Join(parts[1..], sep);
      if i > 0 {
        PartCharsInJoin(parts[1..], sep, i - 1, c);
      }
    }
  }

  lemma {:induction false} PreprocessedChars(ps: seq<string>)
    ensures forall c, i :: 0 <= i < |Preprocessed(ps)| && c in Preprocessed(ps)[i] ==>
      exists j :: 0 <= j < |ps| && c in ps[j]
    decreases |ps|
  {
    if ps != [] {
      var init := ps[..|ps| - 1];
      PreprocessedChars(init);
      PreprocessOneChars(ps[|ps| - 1]);
      forall c, i | 0 <= i < |Preprocessed(ps)| && c in Preprocessed(ps)[i]
        ensures exists j :: 0 <= j < |ps| && c in ps[j]
      {
        if i < |Preprocessed(init)| {
          var j :| 0 <= j < |init| && c in init[j];
          assert ps[j] == init[j];
        } else {
          assert Preprocessed(ps)[i] == PreprocessOne(ps[|ps| - 1])[i - |Preprocessed(init)|];
        }
      }
    }
  }

  // ---------------------------------------------------------------------------------------
  // The problem text, line by line

  /** The text of a list of lines, each followed by a newline, as the `write` calls emit it. */
  function Unlines(ls: seq<string>): string {
    if ls == [] then "" else ls[0] + "\n" + Unlines(ls[1..])
  }

  /** `inner` between a pair of parentheses. */
  function Parens(inner: string): string { "(" + inner + ")" }

  // The fixed lines of the problem text, spelled with each parenthesis on its own.
  function DefineLine(problemName: string): string { "(" + "define " + Parens("problem " + problemName) }
  function DomainLine(domainName: string): string { "  " + Parens(":domain " + domainName) }
  const InitOpen: string := "  " + "(" + ":init"
  const BlockClose: string := "  " + ")"
  const GoalOpen: string := "  " + "(" + ":goal"
  const AndOpen: string := "    " + "(" + "and"
  const AndClose: string := "    " + ")"
  const FooterLine: string := ")"

  function FactLine(fact: string): string { "    " + Parens(fact) }
  const AnchorLine: string := FactLine(Anchor)
  function NegatedLine(goal: string): string { "    " + Parens("not " + Parens(goal)) }

  /** A goal as the goal loop of `writePDDLGoalState` leaves it: a literal (not a regex) replace of a text that does not
      occur in predicates, so nothing is removed. */
  function GoalFact(p: string): string {
    Replace(p, GoalPatternText, "")
  }

  function GoalLine(goal: string): string { "      " + Parens(GoalFact(goal)) }

  function FactLines(facts: seq<string>): (r: seq<string>)
    ensures |r| == |facts|
    ensures forall i :: 0 <= i < |facts| ==> r[i] == FactLine(facts[i])
  {
    if facts == [] then [] else FactLines(facts[..|facts| - 1]) + [FactLine(facts[|facts| - 1])]
  }

  function NegatedLines(goals: seq<string>): (r: seq<string>)
    ensures |r| == |goals|
    ensures forall i :: 0 <= i < |goals| ==> r[i] == NegatedLine(goals[i])
  {
    if goals == [] then [] else NegatedLines(goals[..|goals| - 1]) + [NegatedLine(goals[|goals| - 1])]
  }

  function GoalLines(goals: seq<string>): (r: seq<string>)
    ensures |r| == |goals|
    ensures forall i :: 0 <= i < |goals| ==> r[i] == GoalLine(goals[i])
  {
    if goals == [] then [] else GoalLines(goals[..|goals| - 1]) + [GoalLine(goals[|goals| - 1])]
  }

  function HeaderLines(problemName: string, domainName: string): seq<string> {
    [DefineLine(problemName), DomainLine(domainName)]
  }

  /** `writePDDLInitialState`: the beliefs, or, when there are none, the negated goals; then the
      anchor. */
  function InitLines(initial: seq<string>, goals: seq<string>): seq<string> {
    [InitOpen] + (if |initial| >= 1 then FactLines(initial) else NegatedLines(goals)) + [AnchorLine, BlockClose]
  }

  function GoalBlockLines(goals: seq<string>): seq<string> {
    [GoalOpen, AndOpen] + GoalLines(goals) + [AndClose, BlockClose]
  }

  /** The lines of the problem `generate` writes for a belief list and the predicates to achieve. */
  function ProblemLines(beliefs: seq<string>, predicates: seq<string>): seq<string> {
    ProblemLinesFor(beliefs, Preprocessed(predicates))
  }

  function ProblemLinesFor(beliefs: seq<string>, goals: seq<string>): seq<string> {
    HeaderLines(ProblemName, DomainName) + InitLines(beliefs, goals) + GoalBlockLines(goals) + [FooterLine]
  }

  function ProblemText(beliefs: seq<string>, predicates: seq<string>): string {
    Unlines(ProblemLines(beliefs, predicates))
  }

  lemma UnlinesAppend(a: seq<string>, b: seq<string>)
    ensures Unlines(a + b) == Unlines(a) + Unlines(b)
  {
    if a != [] {
      assert (a + b)[1..] == a[1..] + b;
      UnlinesAppend(a[1..], b);
    } else {
      assert a + b == b;
    }
  }

  /** Writing one more line after a block of lines. */
  lemma UnlinesSnoc(ls: seq<string>, l: string)
    ensures Unlines(ls + [l]) == Unlines(ls) + (l + "\n")
  {
    UnlinesAppend(ls, [l]);
    assert [l][1..] == [];
  }

  /** The first newline of the written text ends the first line. */
  lemma UnlinesFirstLine(ls: seq<string>)
    requires ls != [] && '\n' !in ls[0]
    ensures var s := Unlines(ls);
      && '\n' in s && FirstIndex(s, '\n') == |ls[0]|
      && s[..|ls[0]|] == ls[0] && s[|ls[0]| + 1..] == Unlines(ls[1..])
  {
    var s := Unlines(ls);
    assert s == ls[0] + ("\n" + Unlines(ls[1..]));
    assert s[|ls[0]|] == '\n';
    assert s[..|ls[0]|] == ls[0];
  }

  /** Splitting the written text at its newlines gives back the lines, followed by the empty
      text after the last newline. */
  lemma {:induction false} SplitUnlines(ls: seq<string>)
    requires forall i :: 0 <= i < |ls| ==> '\n' !in ls[i]
    ensures RawSplit(Unlines(ls), '\n') == ls + [""]
    decreases |ls|
  {
    if ls != [] {
      UnlinesFirstLine(ls);
      SplitUnlines(ls[1..]);
      assert RawSplit(Unlines(ls), '\n') == [ls[0]] + (ls[1..] + [""]);
      ConsParts(ls);
    }
  }

  /** The initial state lists every belief, in order, when there is at least one belief;
      otherwise the negation of every goal. Either way the anchor closes it. */
  lemma InitLinesContent(initial: seq<string>, goals: seq<string>)
    ensures var ls := InitLines(initial, goals);
      var n := if |initial| >= 1 then |initial| else |goals|;
      && |ls| == n + 3
      && ls[0] == InitOpen && ls[n + 1] == AnchorLine && ls[n + 2] == BlockClose
      && (|initial| >= 1 ==> forall i :: 0 <= i < |initial| ==> ls[i + 1] == FactLine(initial[i]))
      && (|initial| == 0 ==> forall i :: 0 <= i < |goals| ==> ls[i + 1] == NegatedLine(goals[i]))
  {
  }

  /** The goal is the conjunction of the preprocessed predicates, each on its own line, in order. */
  lemma GoalBlockContent(goals: seq<string>)
    ensures var ls := GoalBlockLines(goals);
      && |ls| == |goals| + 4
      && ls[0] == GoalOpen && ls[1] == AndOpen
      && ls[|goals| + 2] == AndClose && ls[|goals| + 3] == BlockClose
      && forall i :: 0 <= i < |goals| ==> ls[i + 2] == GoalLine(goals[i])
  {
  }

  /** The literal replace in the goal loop of `writePDDLGoalState` changes nothing in a goal
      without a backslash. */
  lemma GoalFactPlain(p: string)
    requires '\\' !in p
    ensures GoalFact(p) == p
  {
    ReplaceAbsent(p, GoalPatternText, "");
  }

  /** So a goal that still carries its provenance annotation is written with it: the regex the
      call spells out is never applied. */
  lemma GoalAnnotationKept(fact: string)
    requires '\\' !in fact
    ensures GoalLine(fact + SelfAnnotation) == "      " + Parens(fact + SelfAnnotation)
  {
    assert '\\' !in SelfAnnotation;
    GoalFactPlain(fact + SelfAnnotation);
  }

  /** The whole problem: header, initial state, goal, footer. */
  lemma ProblemTextBlocks(beliefs: seq<string>, predicates: seq<string>)
    ensures var goals := Preprocessed(predicates);
      ProblemText(beliefs, predicates)
        == Unlines(HeaderLines(ProblemName, DomainName)) + Unlines(InitLines(beliefs, goals))
           + Unlines(GoalBlockLines(goals)) + Unlines([FooterLine])
  {
    var goals := Preprocessed(predicates);
    var h := HeaderLines(ProblemName, DomainName);
    var i := InitLines(beliefs, goals);
    var g := GoalBlockLines(goals);
    UnlinesAppend(h + i + g, [FooterLine]);
    UnlinesAppend(h + i, g);
    UnlinesAppend(h, i);
  }

  /** The problem file starts with the problem and domain names, opens the initial state on
      its third line, and ends with the footer. */
  lemma ProblemLinesFrame(beliefs: seq<string>, goals: seq<string>)
    ensures var ls := ProblemLinesFor(beliefs, goals);
      && |ls| == 10 + (if |beliefs| >= 1 then |beliefs| else |goals|) + |goals|
      && ls[0] == DefineLine(ProblemName) && ls[1] == DomainLine(DomainName) && ls[2] == InitOpen
      && ls[|ls| - 1] == FooterLine
  {
    var h := HeaderLines(ProblemName, DomainName);
    var body := InitLines(beliefs, goals) + GoalBlockLines(goals);
    assert ProblemLinesFor(beliefs, goals) == h + body + [FooterLine];
    assert body[0] == InitOpen;
  }

  /** The anchor line occurs once in the initial state, right after the facts, as long as no
      belief is the anchor itself: no negated goal line can look like it. */
  lemma AnchorOnce(initial: seq<string>, goals: seq<string>)
    requires Anchor !in initial
    ensures var ls := InitLines(initial, goals);
      var n := if |initial| >= 1 then |initial| else |goals|;
      forall i :: 0 <= i < |ls| && ls[i] == AnchorLine ==> i == n + 1
  {
    var ls := InitLines(initial, goals);
    var n := if |initial| >= 1 then |initial| else |goals|;
    InitLinesContent(initial, goals);
    forall i | 0 <= i < |ls| && ls[i] == AnchorLine ensures i == n + 1 {
      if 1 <= i <= n {
        if |initial| >= 1 {
          FactLineInjective(initial[i - 1], Anchor);
        } else {
          NegatedNotAnchor(goals[i - 1]);
        }
      } else {
        assert i == 0 || i == n + 1 || i == n + 2;
        assert InitOpen != AnchorLine by { assert |InitOpen| != |AnchorLine|; }
        assert BlockClose != AnchorLine by { assert |BlockClose| != |AnchorLine|; }
      }
    }
  }

  lemma NegatedNotAnchor(g: string)
    ensures NegatedLine(g) != AnchorLine
  {
    assert NegatedLine(g)[5] == ("not " + Parens(g))[0] == 'n';
    assert AnchorLine[5] == Anchor[0] == 'd';
  }

  lemma FactLineInjective(a: string, b: string)
    requires FactLine(a) == FactLine(b)
    ensures a == b
  {
    assert a == FactLine(a)[5..|FactLine(a)| - 1];
    assert b == FactLine(b)[5..|FactLine(b)| - 1];
  }

  // ---------------------------------------------------------------------------------------
  // Parenthesis balance

  /** The nesting depth after reading `s` from depth `d`, or None when a `)` closes nothing. */
  function Scan(d: nat, s: string): Option<nat>
    decreases |s|
  {
    if s == [] then Some(d)
    else if s[0] == '(' then Scan(d + 1, s[1..])
    else if s[0] == ')' then (if d == 0 then None else Scan(d - 1, s[1..]))
    else Scan(d, s[1..])
  }

  predicate ParenFree(s: string) {
    '(' !in s && ')' !in s
  }

  lemma {:induction false} ScanAppend(d: nat, a: string, b: string)
    ensures Scan(d, a + b) == if Scan(d, a).None? then None else Scan(Scan(d, a).value, b)
    decreases |a|
  {
    if a == [] {
      assert a + b == b;
    } else {
      assert (a + b)[1..] == a[1..] + b;
      if a[0] == '(' {
        ScanAppend(d + 1, a[1..], b);
      } else if a[0] == ')' {
        if d > 0 { ScanAppend(d - 1, a[1..], b); }
      } else {
        ScanAppend(d, a[1..], b);
      }
    }
  }

  lemma {:induction false} ScanParenFree(d: nat, s: string)
    requires ParenFree(s)
    ensures Scan(d, s) == Some(d)
    decreases |s|
  {
    if s != [] {
      assert s[0] in s;
      assert forall c :: c in s[1..] ==> c in s;
      ScanParenFree(d, s[1..]);
    }
  }

  /** Reading `a` then `b`: depth `d` to `mid` to `e`. */
  lemma ScanThen(d: nat, a: string, b: string, mid: nat, e: nat)
    requires Scan(d, a) == Some(mid) && Scan(mid, b) == Some(e)
    ensures Scan(d, a + b) == Some(e)
  {
    ScanAppend(d, a, b);
  }

  lemma ScanPlainThen(d: nat, a: string, b: string, e: nat)
    requires ParenFree(a) && Scan(d, b) == Some(e)
    ensures Scan(d, a + b) == Some(e)
  {
    ScanParenFree(d, a);
    ScanAppend(d, a, b);
  }

  lemma ScanThenPlain(d: nat, a: string, b: string, e: nat)
    requires Scan(d, a) == Some(e) && ParenFree(b)
    ensures Scan(d, a + b) == Some(e)
  {
    ScanParenFree(e, b);
    ScanAppend(d, a, b);
  }

  /** A pair of parentheses around text that is itself balanced. */
  lemma ScanParens(d: nat, inner: string)
    requires Scan(d + 1, inner) == Some(d + 1)
    ensures Scan(d, Parens(inner)) == Some(d)
  {
    ScanThen(d, "(", inner, d + 1, d + 1);
    ScanThen(d, "(" + inner, ")", d + 1, d);
  }

  lemma ScanPlainParens(d: nat, inner: string)
    requires ParenFree(inner)
    ensures Scan(d, Parens(inner)) == Some(d)
  {
    ScanParenFree(d + 1, inner);
    ScanParens(d, inner);
  }

  /** A line followed by its newline reads like the line. */
  lemma ScanLine(d: nat, l: string, e: nat)
    requires Scan(d, l) == Some(e)
    ensures Scan(d, l + "\n") == Some(e)
  {
    ScanThenPlain(d, l, "\n", e);
  }

  lemma ScanOneLine(d: nat, l: string, e: nat)
    requires Scan(d, l) == Some(e)
    ensures Scan(d, Unlines([l])) == Some(e)
  {
    UnlinesOne(l);
    ScanLine(d, l, e);
  }

  /** Fact, negated-goal and goal lines of paren-free text leave the depth unchanged. */
  lemma ScanFactLine(d: nat, f: string)
    requires ParenFree(f)
    ensures Scan(d, FactLine(f)) == Some(d)
    ensures Scan(d, FactLine(f) + "\n") == Some(d)
  {
    ScanPlainParens(d, f);
    ScanPlainThen(d, "    ", Parens(f), d);
    ScanLine(d, FactLine(f), d);
  }

  lemma ScanNegatedLine(d: nat, g: string)
    requires ParenFree(g)
    ensures Scan(d, NegatedLine(g) + "\n") == Some(d)
  {
    ScanPlainParens(d + 1, g);
    ScanPlainThen(d + 1, "not ", Parens(g), d + 1);
    ScanParens(d, "not " + Parens(g));
    ScanPlainThen(d, "    ", Parens("not " + Parens(g)), d);
    ScanLine(d, NegatedLine(g), d);
  }

  lemma ScanGoalLine(d: nat, g: string)
    requires ParenFree(g)
    ensures Scan(d, GoalLine(g) + "\n") == Some(d)
  {
    ReplaceChars(g, GoalPatternText, "");
    ScanPlainParens(d, GoalFact(g));
    ScanPlainThen(d, "      ", Parens(GoalFact(g)), d);
    ScanLine(d, GoalLine(g), d);
  }

  /** A block of lines each of which leaves the depth unchanged leaves it unchanged. */
  lemma {:induction false} ScanNeutralLines(d: nat, ls: seq<string>)
    requires forall i :: 0 <= i < |ls| ==> Scan(d, ls[i] + "\n") == Some(d)
    ensures Scan(d, Unlines(ls)) == Some(d)
    decreases |ls|
  {
    if ls != [] {
      ScanNeutralLines(d, ls[1..]);
      ScanAppend(d, ls[0] + "\n", Unlines(ls[1..]));
    }
  }

  lemma ScanUnlinesAppend(d: nat, a: seq<string>, b: seq<string>, e: nat)
    requires Scan(d, Unlines(a)) == Some(e)
    ensures Scan(d, Unlines(a + b)) == Scan(e, Unlines(b))
  {
    UnlinesAppend(a, b);
    ScanAppend(d, Unlines(a), Unlines(b));
  }

  /** The opening lines of the blocks go one level deeper, the closing lines one level up. */
  lemma ScanOpenLine(d: nat, indent: string, word: string)
    requires ParenFree(indent) && ParenFree(word)
    ensures Scan(d, indent + "(" + word) == Some(d + 1)
  {
    ScanPlainThen(d, indent, "(", d + 1);
    ScanThenPlain(d, indent + "(", word, d + 1);
  }

  lemma ScanCloseLine(d: nat, indent: string)
    requires d >= 1 && ParenFree(indent)
    ensures Scan(d, indent + ")") == Some(d - 1)
  {
    ScanPlainThen(d, indent, ")", d - 1);
  }

  lemma ScanPair(d: nat, a: string, b: string, mid: nat, e: nat)
    requires Scan(d, a) == Some(mid) && Scan(mid, b) == Some(e)
    ensures Scan(d, Unlines([a, b])) == Some(e)
  {
    ScanOneLine(d, a, mid);
    ScanUnlinesAppend(d, [a], [b], mid);
    ScanOneLine(mid, b, e);
    assert [a] + [b] == [a, b];
  }

  /** `open + middle + close` read from `d`: the opening lines reach `mid`, the middle keeps it. */
  lemma ScanBlock(d: nat, open: seq<string>, middle: seq<string>, close: seq<string>, mid: nat, e: nat)
    requires Scan(d, Unlines(open)) == Some(mid)
    requires Scan(mid, Unlines(middle)) == Some(mid)
    requires Scan(mid, Unlines(close)) == Some(e)
    ensures Scan(d, Unlines(open + middle + close)) == Some(e)
  {
    AppendAssoc(open, middle, close);
    ScanUnlinesAppend(d, open, middle + close, mid);
    ScanUnlinesAppend(mid, middle, close, mid);
  }

  lemma NamesParenFree()
    ensures ParenFree(ProblemName) && ParenFree(DomainName) && ParenFree(Anchor)
  {
  }

  lemma ScanDefineLine(d: nat)
    ensures Scan(d, DefineLine(ProblemName)) == Some(d + 1)
  {
    NamesParenFree();
    assert ParenFree("problem " + ProblemName);
    ScanPlainParens(d + 1, "problem " + ProblemName);
    ScanOpenLine(d, "", "define ");
    assert "" + "(" + "define " == "(" + "define ";
    ScanThen(d, "(" + "define ", Parens("problem " + ProblemName), d + 1, d + 1);
  }

  lemma ScanDomainLine(d: nat)
    ensures Scan(d, DomainLine(DomainName)) == Some(d)
  {
    NamesParenFree();
    assert ParenFree(":domain " + DomainName);
    ScanPlainParens(d, ":domain " + DomainName);
    ScanPlainThen(d, "  ", Parens(":domain " + DomainName), d);
  }

  lemma ScanHeader(d: nat)
    ensures Scan(d, Unlines(HeaderLines(ProblemName, DomainName))) == Some(d + 1)
  {
    ScanDefineLine(d);
    ScanDomainLine(d + 1);
    ScanPair(d, DefineLine(ProblemName), DomainLine(DomainName), d + 1, d + 1);
  }

  /** The lines between `(:init` and the anchor keep the depth. */
  lemma ScanInitMiddle(d: nat, initial: seq<string>, goals: seq<string>)
    requires forall i :: 0 <= i < |initial| ==> ParenFree(initial[i])
    requires forall i :: 0 <= i < |goals| ==> ParenFree(goals[i])
    ensures Scan(d, Unlines(if |initial| >= 1 then FactLines(initial) else NegatedLines(goals))) == Some(d)
  {
    var middle := if |initial| >= 1 then FactLines(initial) else NegatedLines(goals);
    forall i | 0 <= i < |middle| ensures Scan(d, middle[i] + "\n") == Some(d) {
      if |initial| >= 1 { ScanFactLine(d, initial[i]); } else { ScanNegatedLine(d, goals[i]); }
    }
    ScanNeutralLines(d, middle);
  }

  lemma ScanInitOpen(d: nat)
    ensures Scan(d, Unlines([InitOpen])) == Some(d + 1)
  {
    ScanOpenLine(d, "  ", ":init");
    ScanOneLine(d, InitOpen, d + 1);
  }

  lemma ScanInitClose(d: nat)
    ensures Scan(d + 1, Unlines([AnchorLine, BlockClose])) == Some(d)
  {
    NamesParenFree();
    ScanFactLine(d + 1, Anchor);
    ScanCloseLine(d + 1, "  ");
    ScanPair(d + 1, AnchorLine, BlockClose, d + 1, d);
  }

  /** The initial-state block closes every parenthesis it opens. */
  lemma ScanInit(d: nat, initial: seq<string>, goals: seq<string>)
    requires forall i :: 0 <= i < |initial| ==> ParenFree(initial[i])
    requires forall i :: 0 <= i < |goals| ==> ParenFree(goals[i])
    ensures Scan(d, Unlines(InitLines(initial, goals))) == Some(d)
  {
    var middle := if |initial| >= 1 then FactLines(initial) else NegatedLines(goals);
    ScanInitMiddle(d + 1, initial, goals);
    ScanInitOpen(d);
    ScanInitClose(d);
    ScanBlock(d, [InitOpen], middle, [AnchorLine, BlockClose], d + 1, d);
  }

  lemma ScanGoalMiddle(d: nat, goals: seq<string>)
    requires forall i :: 0 <= i < |goals| ==> ParenFree(goals[i])
    ensures Scan(d, Unlines(GoalLines(goals))) == Some(d)
  {
    forall i | 0 <= i < |GoalLines(goals)| ensures Scan(d, GoalLines(goals)[i] + "\n") == Some(d) {
      ScanGoalLine(d, goals[i]);
    }
    ScanNeutralLines(d, GoalLines(goals));
  }

  lemma ScanGoalOpen(d: nat)
    ensures Scan(d, Unlines([GoalOpen, AndOpen])) == Some(d + 2)
  {
    ScanOpenLine(d, "  ", ":goal");
    ScanOpenLine(d + 1, "    ", "and");
    ScanPair(d, GoalOpen, AndOpen, d + 1, d + 2);
  }

  lemma ScanGoalClose(d: nat)
    ensures Scan(d + 2, Unlines([AndClose, BlockClose])) == Some(d)
  {
    ScanCloseLine(d + 2, "    ");
    ScanCloseLine(d + 1, "  ");
    ScanPair(d + 2, AndClose, BlockClose, d + 1, d);
  }

  /** The goal block closes every parenthesis it opens. */
  lemma ScanGoal(d: nat, goals: seq<string>)
    requires forall i :: 0 <= i < |goals| ==> ParenFree(goals[i])
    ensures Scan(d, Unlines(GoalBlockLines(goals))) == Some(d)
  {
    ScanGoalMiddle(d + 2, goals);
    ScanGoalOpen(d);
    ScanGoalClose(d);
    ScanBlock(d, [GoalOpen, AndOpen], GoalLines(goals), [AndClose, BlockClose], d + 2, d);
  }

  lemma ScanFooter()
    ensures Scan(1, Unlines([FooterLine])) == Some(0)
  {
    ScanCloseLine(1, "");
    assert "" + ")" == FooterLine;
    ScanOneLine(1, FooterLine, 0);
  }

  /** The initial state and the goal, read one after the other, keep the depth. */
  lemma ScanBody(d: nat, beliefs: seq<string>, goals: seq<string>)
    requires forall i :: 0 <= i < |beliefs| ==> ParenFree(beliefs[i])
    requires forall i :: 0 <= i < |goals| ==> ParenFree(goals[i])
    ensures Scan(d, Unlines(InitLines(beliefs, goals) + GoalBlockLines(goals))) == Some(d)
  {
    ScanInit(d, beliefs, goals);
    ScanGoal(d, goals);
    ScanUnlinesAppend(d, InitLines(beliefs, goals), GoalBlockLines(goals), d);
  }

  /** With parenthesis-free beliefs and goals, every parenthesis of the problem is closed, and
      none is closed before it is opened. */
  lemma ProblemLinesBalanced(beliefs: seq<string>, goals: seq<string>)
    requires forall i :: 0 <= i < |beliefs| ==> ParenFree(beliefs[i])
    requires forall i :: 0 <= i < |goals| ==> ParenFree(goals[i])
    ensures Scan(0, Unlines(ProblemLinesFor(beliefs, goals))) == Some(0)
  {
    var h := HeaderLines(ProblemName, DomainName);
    var body := InitLines(beliefs, goals) + GoalBlockLines(goals);
    ScanHeader(0);
    ScanBody(1, beliefs, goals);
    ScanFooter();
    ScanBlock(0, h, body, [FooterLine], 1, 0);
    AppendAssoc(h, InitLines(beliefs, goals), GoalBlockLines(goals));
  }

  /** The text `generate` writes is balanced when no belief and no predicate holds a parenthesis:
      preprocessing only ever drops characters. */
  lemma ProblemTextBalanced(beliefs: seq<string>, predicates: seq<string>)
    requires forall i :: 0 <= i < |beliefs| ==> ParenFree(beliefs[i])
    requires forall i :: 0 <= i < |predicates| ==> ParenFree(predicates[i])
    ensures Scan(0, ProblemText(beliefs, predicates)) == Some(0)
  {
    var goals := Preprocessed(predicates);
    PreprocessedChars(predicates);
    assert forall i :: 0 <= i < |goals| ==> ParenFree(goals[i]);
    ProblemLinesBalanced(beliefs, goals);
  }

  // ---------------------------------------------------------------------------------------
  // The writer and the imperative generator

  /** The `FileWriter`: everything written so far. */
  class Writer {
    var written: string

    constructor ()
      ensures written == []
    {
      written := [];
    }

    method Write(s: string)
      modifies this
      ensures written == old(written) + s
    {
      written := written + s;
    }
  }

  /** The loop of `writePDDLInitialState` over the beliefs. */
  method WriteFacts(writer: Writer, facts: seq<string>)
    modifies writer
    ensures writer.written == old(writer.written) + Unlines(FactLines(facts))
  {
    for i := 0 to |facts|
      invariant writer.written == old(writer.written) + Unlines(FactLines(facts[..i]))
    {
      assert facts[..i + 1][..i] == facts[..i];
      writer.Write(FactLine(facts[i]) + "\n");
      UnlinesSnoc(FactLines(facts[..i]), FactLine(facts[i]));
      AppendAssoc(old(writer.written), Unlines(FactLines(facts[..i])), FactLine(facts[i]) + "\n");
    }
    assert facts[..|facts|] == facts;
  }

  /** The loop of `writePDDLInitialState` over the goals, used when there is no belief. */
  method WriteNegatedGoals(writer: Writer, goals: seq<string>)
    modifies writer
    ensures writer.written == old(writer.written) + Unlines(NegatedLines(goals))
  {
    for i := 0 to |goals|
      invariant writer.written == old(writer.written) + Unlines(NegatedLines(goals[..i]))
    {
      assert goals[..i + 1][..i] == goals[..i];
      writer.Write(NegatedLine(goals[i]) + "\n");
      UnlinesSnoc(NegatedLines(goals[..i]), NegatedLine(goals[i]));
      AppendAssoc(old(writer.written), Unlines(NegatedLines(goals[..i])), NegatedLine(goals[i]) + "\n");
    }
    assert goals[..|goals|] == goals;
  }

  /** The loop of `writePDDLGoalState`. */
  method WriteGoals(writer: Writer, predicates: seq<string>)
    modifies writer
    ensures writer.written == old(writer.written) + Unlines(GoalLines(predicates))
  {
    for i := 0 to |predicates|
      invariant writer.written == old(writer.written) + Unlines(GoalLines(predicates[..i]))
    {
      assert predicates[..i + 1][..i] == predicates[..i];
      var goal := Replace(predicates[i], GoalPatternText, "");
      writer.Write("      " + Parens(goal) + "\n");
      UnlinesSnoc(GoalLines(predicates[..i]), GoalLine(predicates[i]));
      AppendAssoc(old(writer.written), Unlines(GoalLines(predicates[..i])), GoalLine(predicates[i]) + "\n");
    }
    assert predicates[..|predicates|] == predicates;
  }

  /** The text of a block written as its opening lines, its inner lines and its closing lines. */
  lemma BlockText(w: string, open: seq<string>, middle: seq<string>, close: seq<string>)
    ensures w + Unlines(open) + Unlines(middle) + Unlines(close) == w + Unlines(open + middle + close)
  {
    UnlinesAppend(open + middle, close);
    UnlinesAppend(open, middle);
    AppendAssoc(w, Unlines(open), Unlines(middle));
    AppendAssoc(w, Unlines(open) + Unlines(middle), Unlines(close));
  }

  /** Two lines written one after the other. */
  lemma WrittenTwo(w: string, a: string, b: string)
    ensures w + (a + "\n") + (b + "\n") == w + Unlines([a, b])
  {
    UnlinesTwo(a, b);
    AppendAssoc(w, a + "\n", b + "\n");
  }

  lemma UnlinesOne(a: string)
    ensures Unlines([a]) == a + "\n"
  {
    assert [a][1..] == [];
  }

  lemma UnlinesTwo(a: string, b: string)
    ensures Unlines([a, b]) == a + "\n" + (b + "\n")
  {
    assert [a, b][1..] == [b];
    UnlinesOne(b);
  }

  method WritePDDLHeader(writer: Writer, problemName: string, domainName: string)
    modifies writer
    ensures writer.written == old(writer.written) + Unlines(HeaderLines(problemName, domainName))
  {
    writer.Write(DefineLine(problemName) + "\n");
    writer.Write(DomainLine(domainName) + "\n");
    UnlinesTwo(DefineLine(problemName), DomainLine(domainName));
  }

  method WritePDDLInitialState(writer: Writer, initialState: seq<string>, goalState: seq<string>)
    modifies writer
    ensures writer.written == old(writer.written) + Unlines(InitLines(initialState, goalState))
  {
    writer.Write(InitOpen + "\n");
    UnlinesOne(InitOpen);
    ghost var afterOpen := writer.written;
    ghost var middle := if |initialState| >= 1 then FactLines(initialState) else NegatedLines(goalState);
    if |initialState| >= 1 {
      WriteFacts(writer, initialState);
    } else {
      WriteNegatedGoals(writer, goalState);
    }
    ghost var afterMiddle := writer.written;
    writer.Write(AnchorLine + "\n");
    writer.Write(BlockClose + "\n");
    WrittenTwo(afterMiddle, AnchorLine, BlockClose);
    BlockText(old(writer.written), [InitOpen], middle, [AnchorLine, BlockClose]);
  }

  method WritePDDLGoalState(writer: Writer, predicates: seq<string>)
    modifies writer
    ensures writer.written == old(writer.written) + Unlines(GoalBlockLines(predicates))
  {
    writer.Write(GoalOpen + "\n");
    writer.Write(AndOpen + "\n");
    WrittenTwo(old(writer.written), GoalOpen, AndOpen);
    WriteGoals(writer, predicates);
    ghost var afterMiddle := writer.written;
    writer.Write(AndClose + "\n");
    writer.Write(BlockClose + "\n");
    WrittenTwo(afterMiddle, AndClose, BlockClose);
    BlockText(old(writer.written), [GoalOpen, AndOpen], GoalLines(predicates), [AndClose, BlockClose]);
  }

  method WritePDDLFooter(writer: Writer)
    modifies writer
    ensures writer.written == old(writer.written) + Unlines([FooterLine])
  {
    writer.Write(FooterLine + "\n");
    UnlinesOne(FooterLine);
  }

  /** `generate`: writes the problem for `beliefs` and `predicates` to the fixed problem file;
      the agent name plays no part. */
  method Generate(host: Host, agName: string, beliefs: seq<string>, predicates: seq<string>)
    modifies host
    ensures host.files == old(host.files)[ProblemPath := ProblemText(beliefs, predicates)]
    ensures host.log == old(host.log)
  {
    var writer := new Writer();
    WritePDDLHeader(writer, ProblemName, DomainName);
    var goals := PreprocessPredicates(predicates);
    WritePDDLInitialState(writer, beliefs, goals);
    goals := PreprocessPredicates(predicates);
    WritePDDLGoalState(writer, goals);
    WritePDDLFooter(writer);
    ProblemTextBlocks(beliefs, predicates);
    assert [] + Unlines(HeaderLines(ProblemName, DomainName)) == Unlines(HeaderLines(ProblemName, DomainName));
    host.files := host.files[ProblemPath := writer.written];
  }
}
