/** Running a planner on the generated problem and reading its plan: FF as an external
    process whose console output is scanned for plan steps, or the embedded A* search that
    proposes a single next action. */
module RunPlanner {
  import opened JavaStrings
  import opened Options
  import opened Environment
  import opened PDDLGenerator

  // ---------------------------------------------------------------------------------------
  // extractSteps: the pattern `\d+:\s+([A-Z]+)` found repeatedly, left to right

  /** The three character classes of the pattern. */
  datatype CharClass = Digit | Space | Upper

  /** `\d`, `\s` and `[A-Z]` as java.util.regex reads them (ASCII digits; blank, tab,
      newline, vertical tab, form feed and carriage return). */
  predicate InClass(c: char, cls: CharClass) {
    match cls
    case Digit => '0' <= c <= '9'
    case Space => c == ' ' || c == '\t' || c == '\n' || c == '\U{0B}' || c == '\U{0C}' || c == '\r'
    case Upper => IsUpper(c)
  }

  /** The end of the longest run of `cls` characters starting at `p`: a greedy quantifier. */
  function Span(s: string, p: nat, cls: CharClass): (r: nat)
    requires p <= |s|
    ensures p <= r <= |s|
    decreases |s| - p
  {
    if p < |s| && InClass(s[p], cls) then Span(s, p + 1, cls) else p
  }

  /** The span is a run of the class that stops at the end or at a character outside it. */
  lemma {:induction false} SpanRun(s: string, p: nat, cls: CharClass)
    requires p <= |s|
    ensures forall k :: p <= k < Span(s, p, cls) ==> InClass(s[k], cls)
    ensures Span(s, p, cls) == |s| || !InClass(s[Span(s, p, cls)], cls)
    decreases |s| - p
  {
    if p < |s| && InClass(s[p], cls) {
      SpanRun(s, p + 1, cls);
    }
  }

  /** A match of the pattern: where it ends and what group 1 captured. */
  datatype Match = Match(end: nat, step: string)

  predicate IsStep(w: string) {
    |w| > 0 && forall k :: 0 <= k < |w| ==> IsUpper(w[k])
  }

  /** The match of the pattern that starts exactly at `i`, if any. Backtracking cannot help:
      a shorter digit run would leave a digit where `:` is needed, and a shorter blank run a
      blank where a capital is needed. */
  function MatchAt(s: string, i: nat): (r: Option<Match>)
    requires i <= |s|
    ensures r.Some? ==> i < r.value.end <= |s|
    ensures r.Some? ==> IsStep(r.value.step)
    ensures r.Some? ==> |r.value.step| < r.value.end && r.value.step == s[r.value.end - |r.value.step|..r.value.end]
    ensures r.Some? ==> r.value.end == |s| || !IsUpper(s[r.value.end])
    ensures r.Some? ==> InClass(s[i], Digit)
  {
    if i < |s| && InClass(s[i], Digit) then MatchAfterDigits(s, Span(s, i, Digit)) else None
  }

  /** The rest of a match once the digits end at `j`: a colon, blanks, capitals. */
  function MatchAfterDigits(s: string, j: nat): (r: Option<Match>)
    requires j <= |s|
    ensures r.Some? ==> j + 2 < r.value.end <= |s|
    ensures r.Some? ==> IsStep(r.value.step)
    ensures r.Some? ==> |r.value.step| <= r.value.end - j - 2 && r.value.step == s[r.value.end - |r.value.step|..r.value.end]
    ensures r.Some? ==> r.value.end == |s| || !IsUpper(s[r.value.end])
  {
    if j < |s| && s[j] == ':' then
      var k := Span(s, j + 1, Space);
      if k > j + 1 then MatchStep(s, k) else None
    else None
  }

  /** The captured group: the capitals starting at `k`, as many as there are. */
  function MatchStep(s: string, k: nat): (r: Option<Match>)
    requires k <= |s|
    ensures r.Some? ==> k < r.value.end <= |s|
    ensures r.Some? ==> IsStep(r.value.step)
    ensures r.Some? ==> r.value.step == s[k..r.value.end]
    ensures r.Some? ==> r.value.end == |s| || !IsUpper(s[r.value.end])
  {
    var m := Span(s, k, Upper);
    SpanRun(s, k, Upper);
    if m > k then Some(Match(m, s[k..m])) else None
  }

  /** The groups of all matches `find()` reports from position `pos` on. */
  function Steps(s: string, pos: nat): (r: seq<string>)
    requires pos <= |s|
    ensures forall n :: 0 <= n < |r| ==> IsStep(r[n])
    decreases |s| - pos
  {
    if pos == |s| then []
    else match MatchAt(s, pos)
      case Some(m) => [m.step] + Steps(s, m.end)
      case None => Steps(s, pos + 1)
  }

  /** `extractSteps`: the matcher's `find()` loop, each reported group appended in order. */
  method ExtractSteps(output: string) returns (steps: seq<string>)
    ensures steps == Steps(output, 0)
    ensures forall n :: 0 <= n < |steps| ==> IsStep(steps[n])
  {
    steps := [];
    var pos := 0;
    while pos < |output|
      invariant pos <= |output|
      invariant steps + Steps(output, pos) == Steps(output, 0)
      decreases |output| - pos
    {
      match MatchAt(output, pos)
      case Some(m) =>
        steps := steps + [m.step];
        pos := m.end;
      case None =>
        pos := pos + 1;
    }
  }

  /** The pattern cannot start where there is no digit. */
  lemma {:induction false} StepsSkipPlain(s: string, pos: nat, q: nat)
    requires pos <= q <= |s|
    requires forall k :: pos <= k < q ==> !InClass(s[k], Digit)
    ensures Steps(s, pos) == Steps(s, q)
    decreases q - pos
  {
    if pos < q {
      StepsSkipPlain(s, pos + 1, q);
    }
  }

  /** Output without a single digit, such as FF's report that the goal is unreachable,
      yields no step. */
  lemma NoDigitNoSteps(s: string)
    requires forall k :: 0 <= k < |s| ==> !InClass(s[k], Digit)
    ensures Steps(s, 0) == []
  {
    StepsSkipPlain(s, 0, |s|);
  }

  /** `find()` reports nothing from `pos` on exactly when the pattern matches at no
      position from `pos` on: a match the scan skips lies inside one it reported. */
  lemma {:induction false} StepsNoMatch(s: string, pos: nat)
    requires pos <= |s|
    ensures Steps(s, pos) == [] <==> forall i :: pos <= i < |s| ==> MatchAt(s, i).None?
    decreases |s| - pos
  {
    if pos < |s| && MatchAt(s, pos).None? {
      StepsNoMatch(s, pos + 1);
      assert (forall i :: pos + 1 <= i < |s| ==> MatchAt(s, i).None?)
        ==> forall i :: pos <= i < |s| ==> MatchAt(s, i).None?;
    }
  }

  /** A match needs a blank after the colon: `0:BUYPHONE` is not a plan step. */
  lemma ColonWithoutBlank()
    ensures Steps("0:BUYPHONE", 0) == []
  {
    var s := "0:BUYPHONE";
    assert Span(s, 0, Digit) == 1;
    assert Span(s, 2, Space) == 2;
    assert MatchAt(s, 0) == None;
    StepsSkipPlain(s, 1, |s|);
  }

  /** One step of the scan where a match starts: its group, then the scan after it. */
  lemma StepsFound(s: string, pos: nat, m: Match)
    requires pos < |s| && MatchAt(s, pos) == Some(m)
    ensures Steps(s, pos) == [m.step] + Steps(s, m.end)
  {
  }

  /** One step of the scan where no match starts: the scan from the next position. */
  lemma StepsNotFound(s: string, pos: nat, next: nat)
    requires pos < |s| && MatchAt(s, pos).None? && next == pos + 1
    ensures Steps(s, pos) == Steps(s, next)
  {
  }

  // ---------------------------------------------------------------------------------------
  // FF's plan listing, and the steps it yields

  /** One line of FF's plan listing: text without digits (such as `step` and the alignment
      blanks), the step number, a colon and a blank, the action in capitals, a newline. */
  datatype PlanLine = PlanLine(lead: string, number: string, action: string)

  predicate WellFormedLine(l: PlanLine) {
    && (forall k :: 0 <= k < |l.lead| ==> !InClass(l.lead[k], Digit))
    && |l.number| > 0 && (forall k :: 0 <= k < |l.number| ==> InClass(l.number[k], Digit))
    && IsStep(l.action)
  }

  function RenderLine(l: PlanLine): string {
    l.lead + l.number + ": " + l.action + "\n"
  }

  function Listing(ls: seq<PlanLine>): string {
    if ls == [] then "" else RenderLine(ls[0]) + Listing(ls[1..])
  }

  function Actions(ls: seq<PlanLine>): (r: seq<string>)
    ensures |r| == |ls|
    ensures forall n :: 0 <= n < |ls| ==> r[n] == ls[n].action
  {
    if ls == [] then [] else [ls[0].action] + Actions(ls[1..])
  }

  /** A run that is all of one class and stops at a character outside it is the span. */
  lemma {:induction false} SpanFrom(s: string, p: nat, q: nat, cls: CharClass)
    requires p <= q < |s|
    requires forall k :: p <= k < q ==> InClass(s[k], cls)
    requires !InClass(s[q], cls)
    ensures Span(s, p, cls) == q
    decreases q - p
  {
    if p < q {
      SpanFrom(s, p + 1, q, cls);
    }
  }

  /** Digits, a colon, a blank, capitals and a character that is not a capital: the match
      ends after the capitals and captures them. */
  lemma MatchNumbered(s: string, a: nat, c: nat, e: nat, action: string)
    requires a < c && c + 2 < e < |s|
    requires forall k :: a <= k < c ==> InClass(s[k], Digit)
    requires s[c] == ':' && s[c + 1] == ' '
    requires forall k :: c + 2 <= k < e ==> IsUpper(s[k])
    requires !IsUpper(s[e])
    requires s[c + 2..e] == action
    ensures MatchAt(s, a) == Some(Match(e, action))
  {
    SpanFrom(s, a, c, Digit);
    SpanFrom(s, c + 1, c + 2, Space);
    SpanFrom(s, c + 2, e, Upper);
  }

  /** The characters of a listed line written at `pos`: a lead without digits, the number,
      a colon and a blank, the action in capitals, a newline. */
  lemma LineChars(s: string, pos: nat, l: PlanLine)
    requires WellFormedLine(l)
    requires pos + |RenderLine(l)| <= |s| && s[pos..pos + |RenderLine(l)|] == RenderLine(l)
    ensures var a := pos + |l.lead|; var c := a + |l.number|; var e := c + 2 + |l.action|;
      && e + 1 == pos + |RenderLine(l)|
      && (forall k :: pos <= k < a ==> !InClass(s[k], Digit))
      && (forall k :: a <= k < c ==> InClass(s[k], Digit))
      && s[c] == ':' && s[c + 1] == ' '
      && (forall k :: c + 2 <= k < e ==> IsUpper(s[k]))
      && !InClass(s[e], Digit) && !IsUpper(s[e])
      && s[c + 2..e] == l.action
  {
    var line := RenderLine(l);
    var a := pos + |l.lead|;
    var c := a + |l.number|;
    var e := c + 2 + |l.action|;
    assert forall k :: 0 <= k < |line| ==> s[pos + k] == line[k] by {
      forall k | 0 <= k < |line| ensures s[pos + k] == line[k] {
        assert s[pos..pos + |line|][k] == line[k];
      }
    }
    forall k | pos <= k < a ensures !InClass(s[k], Digit) {
      assert s[pos + (k - pos)] == line[k - pos] == l.lead[k - pos];
    }
    forall k | a <= k < c ensures InClass(s[k], Digit) {
      assert s[pos + (k - pos)] == line[k - pos] == l.number[k - a];
    }
    assert s[pos + (c - pos)] == line[c - pos] == ':';
    assert s[pos + (c + 1 - pos)] == line[c + 1 - pos] == ' ';
    forall k | c + 2 <= k < e ensures s[k] == l.action[k - (c + 2)] {
      assert s[pos + (k - pos)] == line[k - pos] == l.action[k - (c + 2)];
    }
    assert s[pos + (e - pos)] == line[e - pos] == '\n';
    assert s[c + 2..e] == l.action;
  }

  /** A line of that shape yields the captured action, and the scan resumes after the
      character that ends it. */
  lemma StepsNumberedAt(s: string, pos: nat, a: nat, c: nat, e: nat, action: string, next: nat)
    requires pos <= a < c && c + 2 < e < |s| && next == e + 1
    requires forall k :: pos <= k < a ==> !InClass(s[k], Digit)
    requires forall k :: a <= k < c ==> InClass(s[k], Digit)
    requires s[c] == ':' && s[c + 1] == ' '
    requires forall k :: c + 2 <= k < e ==> IsUpper(s[k])
    requires !InClass(s[e], Digit) && !IsUpper(s[e])
    requires s[c + 2..e] == action
    ensures Steps(s, pos) == [action] + Steps(s, next)
  {
    MatchNumbered(s, a, c, e, action);
    StepsSkipPlain(s, pos, a);
    StepsFound(s, a, Match(e, action));
    StepsNotFound(s, e, next);
  }

  /** A listed line at `pos` yields its action, and the scan goes on after the line. */
  lemma StepsLineAt(s: string, pos: nat, l: PlanLine)
    requires WellFormedLine(l)
    requires pos + |RenderLine(l)| <= |s| && s[pos..pos + |RenderLine(l)|] == RenderLine(l)
    ensures Steps(s, pos) == [l.action] + Steps(s, pos + |RenderLine(l)|)
  {
    LineChars(s, pos, l);
    var a := pos + |l.lead|;
    var c := a + |l.number|;
    StepsNumberedAt(s, pos, a, c, c + 2 + |l.action|, l.action, pos + |RenderLine(l)|);
  }

  /** A listing that runs to the end of the text from `pos` yields its actions. */
  lemma {:induction false} StepsListingAt(s: string, pos: nat, ls: seq<PlanLine>)
    requires forall n :: 0 <= n < |ls| ==> WellFormedLine(ls[n])
    requires pos <= |s| && s[pos..] == Listing(ls)
    ensures Steps(s, pos) == Actions(ls)
    decreases |ls|
  {
    if ls != [] {
      var line := RenderLine(ls[0]);
      var n := |line|;
      assert s[pos..] == line + Listing(ls[1..]);
      assert s[pos..pos + n] == s[pos..][..n] == line;
      StepsLineAt(s, pos, ls[0]);
      assert s[pos + n..] == s[pos..][n..] == Listing(ls[1..]);
      StepsListingAt(s, pos + n, ls[1..]);
    }
  }

  /** FF's plan listing read back gives exactly the listed actions, in order. */
  lemma StepsListing(ls: seq<PlanLine>)
    requires forall n :: 0 <= n < |ls| ==> WellFormedLine(ls[n])
    ensures Steps(Listing(ls), 0) == Actions(ls)
  {
    StepsListingAt(Listing(ls), 0, ls);
  }

  // ---------------------------------------------------------------------------------------
  // run and runPlannerSafely

  const ProjectDir: string := "src/examples/gwendolen/project/"
  const FFBinary: string := "src/examples/gwendolen/project/./ff"
  const DomainPath: string := "src/examples/gwendolen/project/domain.pddl"

  /** The problem file the planners are told to read. */
  function PlannerProblemPath(agName: string): string {
    ProjectDir + agName + "problem.pddl"
  }

  /** The FF command line, before it is cut at blanks. */
  function FFCommand(agName: string): string {
    FFBinary + " -o " + DomainPath + " -f " + PlannerProblemPath(agName)
  }

  /** The argument array given to the embedded search. */
  function AStarArgs(agName: string): seq<string> {
    ["-o", DomainPath, "-f", PlannerProblemPath(agName), "-u", "7"]
  }

  /** The file the planners read is the one `generate` wrote only for the agent with the empty
      name; any other agent's planner reads a file `generate` never writes. */
  lemma ProblemFileMismatch(agName: string)
    ensures PlannerProblemPath(agName) == ProblemPath <==> agName == ""
  {
    if agName == "" {
      assert PlannerProblemPath(agName) == ProjectDir + "problem.pddl";
      assert ProjectDir + "problem.pddl" == ProblemPath;
    } else {
      assert |PlannerProblemPath(agName)| != |ProblemPath|;
    }
  }

  /** `runPlannerSafely`: the single action the search proposes, or nothing when it throws. */
  function RunPlannerSafely(planners: Planners, args: seq<string>, files: map<string, string>): (plan: seq<string>)
    ensures |plan| <= 1
    ensures plan == [] <==> planners.astar(args, files).None?
  {
    match planners.astar(args, files)
    case None => []
    case Some(action) => [action]
  }

  /** What `run` returns, given the disk after `generate`: None for an unknown planner choice
      or when FF cannot be started or waited for. */
  function PlanFor(planners: Planners, agName: string, files: map<string, string>, choice: int): (plan: Option<seq<string>>)
  {
    if choice == 1 then
      match planners.ff(Split(FFCommand(agName), ' '), files)
      case None => None
      case Some(output) => Some(Steps(output, 0))
    else if choice == 2 then Some(RunPlannerSafely(planners, AStarArgs(agName), files))
    else None
  }

  /** The world after `run`: the problem file rewritten and one planner call recorded. */
  function AfterRun(w: World, beliefs: seq<string>, predicates: seq<string>, choice: int): World {
    w.(files := w.files[ProblemPath := ProblemText(beliefs, predicates)], log := w.log + [Planned(choice)])
  }

  /** A `run` call as a whole: the world after it and the plan it returns. */
  function RunResult(planners: Planners, agName: string, w: World, beliefs: seq<string>, predicates: seq<string>, choice: int): (World, Option<seq<string>>) {
    var w' := AfterRun(w, beliefs, predicates, choice);
    (w', PlanFor(planners, agName, w'.files, choice))
  }

  /** The shape of `run`'s result: null exactly for an unknown choice or a failed FF process;
      FF gives well-formed steps; the embedded search at most one action, never null. */
  lemma PlanForShape(planners: Planners, agName: string, files: map<string, string>, choice: int)
    ensures choice != 1 && choice != 2 ==> PlanFor(planners, agName, files, choice) == None
    ensures choice == 1 ==> (PlanFor(planners, agName, files, choice).None? <==>
      planners.ff(Split(FFCommand(agName), ' '), files).None?)
    ensures choice == 1 && PlanFor(planners, agName, files, choice).Some? ==>
      (forall n :: 0 <= n < |PlanFor(planners, agName, files, choice).value| ==>
        IsStep(PlanFor(planners, agName, files, choice).value[n]))
    ensures choice == 2 ==> (PlanFor(planners, agName, files, choice).Some? &&
      |PlanFor(planners, agName, files, choice).value| <= 1)
  {
  }

  /** `run`: the problem file is always generated first, whatever the choice; then FF or the
      embedded search is consulted. */
  method Run(host: Host, agName: string, beliefs: seq<string>, predicates: seq<string>, choiceOfPlanner: int)
    returns (plan: Option<seq<string>>)
    modifies host
    ensures plan == PlanFor(host.planners, agName, host.files, choiceOfPlanner)
    ensures host.files == old(host.files)[ProblemPath := ProblemText(beliefs, predicates)]
    ensures host.log == old(host.log) + [Planned(choiceOfPlanner)]
  {
    Generate(host, agName, beliefs, predicates);
    host.log := host.log + [Planned(choiceOfPlanner)];
    if choiceOfPlanner == 1 {
      var command := FFCommand(agName);
      var output := host.planners.ff(Split(command, ' '), host.files);
      match output
      case None =>
        return None;
      case Some(text) =>
        var steps := ExtractSteps(text);
        return Some(steps);
    }
    if choiceOfPlanner == 2 {
      var args := AStarArgs(agName);
      return Some(RunPlannerSafely(host.planners, args, host.files));
    }
    return None;
  }
}
