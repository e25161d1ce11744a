/** The recovery the interpreter starts when a goal has no applicable plan: the first plan in
    the library whose trigger names the goal is looked up, its context (guard) is cleaned into
    a list of predicates, and the planner is consulted, offline or online, until every
    predicate of the context is believed. */
module GoalRecovery {
  import opened JavaStrings
  import opened Options
  import opened Environment
  import opened GapAnalysis
  import PDDLGenerator
  import opened Actions

  /** A plan of the agent's library as the recovery reads it: the text of its trigger event,
      and the text of its context, None where the plan has no context. */
  datatype PlanEntry = PlanEntry(trigger: string, context: Option<string>)

  // ---------------------------------------------------------------------------------------
  // The plan filter

  /** The plans whose trigger text starts with the goal's text, in library order. */
  function Relevant(plans: seq<PlanEntry>, goal: string): (r: seq<PlanEntry>)
    ensures |r| <= |plans|
    ensures IsSubsequence(r, plans)
    ensures forall p :: p in r <==> p in plans && StartsWith(p.trigger, goal)
  {
    if plans == [] then []
    else
      var init := plans[..|plans| - 1];
      var last := plans[|plans| - 1];
      assert plans == init + [last];
      SubsequenceExtend(Relevant(init, goal), init, last);
      if StartsWith(last.trigger, goal) then Relevant(init, goal) + [last] else Relevant(init, goal)
  }

  /** No plan matches when no trigger starts with the goal's text. */
  lemma {:induction false} RelevantNone(plans: seq<PlanEntry>, goal: string)
    requires forall p :: p in plans ==> !StartsWith(p.trigger, goal)
    ensures Relevant(plans, goal) == []
    decreases |plans|
  {
    if plans != [] {
      var init := plans[..|plans| - 1];
      forall p | p in init ensures !StartsWith(p.trigger, goal) {
        var j :| 0 <= j < |init| && init[j] == p;
        assert plans[j] == p;
      }
      RelevantNone(init, goal);
    }
  }

  /** The plan the recovery repairs is the first plan of the library whose trigger matches. */
  lemma {:induction false} RelevantFirst(plans: seq<PlanEntry>, goal: string, i: nat)
    requires i < |plans| && StartsWith(plans[i].trigger, goal)
    requires forall j :: 0 <= j < i ==> !StartsWith(plans[j].trigger, goal)
    ensures Relevant(plans, goal) != [] && Relevant(plans, goal)[0] == plans[i]
    decreases |plans|
  {
    var init := plans[..|plans| - 1];
    if i == |plans| - 1 {
      forall p | p in init ensures !StartsWith(p.trigger, goal) {
        var j :| 0 <= j < |init| && init[j] == p;
        assert plans[j] == p;
      }
      RelevantNone(init, goal);
    } else {
      RelevantFirst(init, goal, i);
    }
  }

  /** The loop that collects the plans whose trigger text starts with the goal's text. */
  method FilterPlans(plans: seq<PlanEntry>, goal: string) returns (filteredPlans: seq<PlanEntry>)
    ensures filteredPlans == Relevant(plans, goal)
  {
    filteredPlans := [];
    for i := 0 to |plans|
      invariant filteredPlans == Relevant(plans[..i], goal)
    {
      assert plans[..i + 1][..i] == plans[..i];
      if StartsWith(plans[i].trigger, goal) {
        filteredPlans := filteredPlans + [plans[i]];
      }
    }
    assert plans[..|plans|] == plans;
  }

  // ---------------------------------------------------------------------------------------
  // The context as a list of predicates

  /** The characters `preProcessPredicates` deletes: brackets and parentheses, commas, blanks. */
  const Deleted: string := "[]() ,"

  /** The cleanup of one context string: brackets and parentheses deleted, the text trimmed,
      every `True` deleted, then every comma, then every blank. */
  function Cleaned(p: string): (r: string)
    ensures forall c :: c in r ==> c in p && c !in Deleted
  {
    var w := Trim(Remove(p, {'[', ']', '(', ')'}));
    ReplaceChars(w, "True", "");
    Remove(Remove(Replace(w, "True", ""), {','}), {' '})
  }

  /** What one context string contributes: its `&`-separated parts, trimmed, when it is a
      conjunction, otherwise the cleaned text itself. */
  function FormattedOne(p: string): seq<string> {
    var w := Cleaned(p);
    if '&' in w then PDDLGenerator.TrimAll(Split(w, '&')) else [w]
  }

  /** The list `preProcessPredicates` returns. */
  function Formatted(ps: seq<string>): seq<string> {
    if ps == [] then [] else Formatted(ps[..|ps| - 1]) + FormattedOne(ps[|ps| - 1])
  }

  lemma FormattedSnoc(ps: seq<string>, k: nat)
    requires k < |ps|
    ensures Formatted(ps[..k + 1]) == Formatted(ps[..k]) + FormattedOne(ps[k])
  {
    assert ps[..k + 1][..k] == ps[..k];
  }

  /** `preProcessPredicates`: each context string cleaned, and a conjunction split into its
      trimmed parts. */
  method PreProcessPredicates(predicates: seq<string>) returns (formattedPredicates: seq<string>)
    ensures formattedPredicates == Formatted(predicates)
  {
    formattedPredicates := [];
    for k := 0 to |predicates|
      invariant formattedPredicates == Formatted(predicates[..k])
    {
      var withoutBrackets := Trim(Remove(predicates[k], {'[', ']', '(', ')'}));
      withoutBrackets := Replace(withoutBrackets, "True", "");
      withoutBrackets := Remove(withoutBrackets, {','});
      withoutBrackets := Remove(withoutBrackets, {' '});
      if '&' in withoutBrackets {
        var parts := Split(withoutBrackets, '&');
        formattedPredicates := PDDLGenerator.AddTrimmedParts(formattedPredicates, parts);
      } else {
        formattedPredicates := formattedPredicates + [withoutBrackets];
      }
      FormattedSnoc(predicates, k);
    }
    assert predicates[..|predicates|] == predicates;
  }

  /** The trimmed parts of a conjunction are made of its characters other than `&`. */
  lemma ConjunctionChars(w: string)
    requires '&' in w
    ensures forall i, c :: 0 <= i < |PDDLGenerator.TrimAll(Split(w, '&'))| && c in PDDLGenerator.TrimAll(Split(w, '&'))[i] ==>
      c in w && c != '&'
  {
    var raw := RawSplit(w, '&');
    var parts := Split(w, '&');
    JoinRawSplit(w, '&');
    forall i, c | 0 <= i < |PDDLGenerator.TrimAll(parts)| && c in PDDLGenerator.TrimAll(parts)[i]
      ensures c in w && c != '&'
    {
      assert c in parts[i];
      assert parts[i] == raw[i];
      PDDLGenerator.PartCharsInJoin(raw, '&', i, c);
    }
  }

  /** Every entry of one string's contribution is made of characters of that string, and holds
      none of the deleted characters and no `&`. */
  lemma FormattedOneClean(p: string)
    ensures forall i, c :: 0 <= i < |FormattedOne(p)| && c in FormattedOne(p)[i] ==>
      c in p && c !in Deleted && c != '&'
  {
    var w := Cleaned(p);
    assert forall c :: c in w ==> c in p && c !in Deleted;
    var r := FormattedOne(p);
    if '&' in w {
      ConjunctionChars(w);
      assert r == PDDLGenerator.TrimAll(Split(w, '&'));
    } else {
      assert r == [w];
    }
    forall i, c | 0 <= i < |r| && c in r[i] ensures c in w && c != '&' {
    }
  }

  /** No predicate of the cleaned context holds a bracket, a parenthesis, a comma, a blank or
      an `&`. */
  lemma {:induction false} FormattedClean(ps: seq<string>)
    ensures forall i, c :: 0 <= i < |Formatted(ps)| && c in Formatted(ps)[i] ==> c !in Deleted && c != '&'
    decreases |ps|
  {
    if ps != [] {
      var init := ps[..|ps| - 1];
      FormattedClean(init);
      FormattedOneClean(ps[|ps| - 1]);
      forall i, c | 0 <= i < |Formatted(ps)| && c in Formatted(ps)[i] ensures c !in Deleted && c != '&' {
        if i >= |Formatted(init)| {
          assert Formatted(ps)[i] == FormattedOne(ps[|ps| - 1])[i - |Formatted(init)|];
        }
      }
    }
  }

  /** A context string that is not a conjunction gives exactly one predicate, its cleaned text;
      a conjunction gives its `&`-separated parts, trimmed, in order. */
  lemma FormattedOneShape(p: string)
    ensures '&' !in Cleaned(p) ==> FormattedOne(p) == [Cleaned(p)]
    ensures '&' in Cleaned(p) ==>
      var parts := RawSplit(Cleaned(p), '&');
      && Join(parts, '&') == Cleaned(p)
      && |FormattedOne(p)| <= |parts|
      && (forall i :: 0 <= i < |FormattedOne(p)| ==> FormattedOne(p)[i] == Trim(parts[i]))
      && (forall i :: |FormattedOne(p)| <= i < |parts| ==> parts[i] == [])
  {
    if '&' in Cleaned(p) {
      PDDLGenerator.ConjunctionParts(Cleaned(p));
    }
  }

  /** The cleaned context carries no annotation, so the annotation removal of `findPredicates`
      leaves it as it is. */
  lemma FormattedUnannotated(ps: seq<string>)
    ensures StripAll(Formatted(ps)) == Formatted(ps)
  {
    FormattedClean(ps);
    assert '[' in Deleted;
    forall p | p in Formatted(ps) ensures '[' !in p {
      var i :| 0 <= i < |Formatted(ps)| && Formatted(ps)[i] == p;
    }
    StripAllPlain(Formatted(ps));
  }

  // ---------------------------------------------------------------------------------------
  // The specification of the recovery

  /** The planning blocks in the normalised mode `mode`: offline, one plan whose every step is
      started; otherwise the online loop against `want`. Getting through them is success. */
  function GoalBlocksF(cx: Context, fuel: nat, st: State, mode: int, want: seq<string>,
    beliefs: seq<string>, goals: seq<string>): Step
  {
    var fl := if mode == 1 then OfflineF(cx, fuel, st, beliefs, goals) else OnlineF(cx, fuel, fuel, st, want, beliefs, goals);
    if fl.Stop? then fl.step else Step(Done(true), fl.st)
  }

  /** `recoveryOperation` for the goal `goal` and the plan library `plans`: no matching plan
      makes `get(0)` throw; a plan without context gives false; otherwise the context is
      cleaned, its missing predicates found, and the planning blocks run in the mode of the
      action object, normalised in a local copy. */
  function GoalRecoverF(cx: Context, fuel: nat, st: State, goal: string, plans: seq<PlanEntry>): Step {
    var relevant := Relevant(plans, goal);
    if relevant == [] then Step(Threw, st)
    else if relevant[0].context.None? then Step(Done(false), st)
    else
      var context := Formatted([relevant[0].context.value]);
      var beliefs := Extracted(st.world.beliefs);
      GoalBlocksF(cx, fuel, st, NormalisedMode(st.fields.typeOfPlanning), StripAll(context), beliefs, Missing(beliefs, StripAll(context)))
  }

  // ---------------------------------------------------------------------------------------
  // Properties of the specification

  /** With no plan for the goal in the library, the recovery throws before touching anything. */
  lemma GoalNoPlan(cx: Context, fuel: nat, st: State, goal: string, plans: seq<PlanEntry>)
    requires forall p :: p in plans ==> !StartsWith(p.trigger, goal)
    ensures GoalRecoverF(cx, fuel, st, goal, plans) == Step(Threw, st)
  {
    RelevantNone(plans, goal);
  }

  /** When the first matching plan has no context, the recovery returns false before any
      planning, with nothing changed. */
  lemma GoalNoContext(cx: Context, fuel: nat, st: State, goal: string, plans: seq<PlanEntry>, i: nat)
    requires i < |plans| && StartsWith(plans[i].trigger, goal) && plans[i].context.None?
    requires forall j :: 0 <= j < i ==> !StartsWith(plans[j].trigger, goal)
    ensures GoalRecoverF(cx, fuel, st, goal, plans) == Step(Done(false), st)
  {
    RelevantFirst(plans, goal, i);
  }

  /** The planning blocks succeed exactly when they are got through; offline that is whatever
      the steps returned, online only once nothing of `want` is missing. */
  lemma GoalBlocksOutcome(cx: Context, fuel: nat, st: State, mode: int, want: seq<string>,
    beliefs: seq<string>, goals: seq<string>)
    requires goals == Remaining(st.world.beliefs, want)
    ensures GoalBlocksF(cx, fuel, st, mode, want, beliefs, goals).out == Done(true) && mode != 1 ==>
      Settled(GoalBlocksF(cx, fuel, st, mode, want, beliefs, goals).st, want)
    ensures mode == 1 ==>
      (GoalBlocksF(cx, fuel, st, mode, want, beliefs, goals).out == Done(true) <==> OfflineF(cx, fuel, st, beliefs, goals).Continue?)
  {
    if mode == 1 {
      OfflineOutcome(cx, fuel, st, beliefs, goals);
    } else {
      OnlineStops(cx, fuel, fuel, st, want, beliefs, goals);
      OnlineSettles(cx, fuel, fuel, st, want, beliefs, goals);
    }
  }

  /** A goal recovery succeeds only with a matching plan that has a context; online, only once
      every predicate of the cleaned context is among the extracted beliefs. */
  lemma GoalSucceeds(cx: Context, fuel: nat, st: State, goal: string, plans: seq<PlanEntry>)
    ensures GoalRecoverF(cx, fuel, st, goal, plans).out == Done(true) ==>
      && Relevant(plans, goal) != []
      && Relevant(plans, goal)[0].context.Some?
      && (NormalisedMode(st.fields.typeOfPlanning) == 2 ==>
            Settled(GoalRecoverF(cx, fuel, st, goal, plans).st, Formatted([Relevant(plans, goal)[0].context.value])))
  {
    var relevant := Relevant(plans, goal);
    if relevant != [] && relevant[0].context.Some? {
      var context := Formatted([relevant[0].context.value]);
      FormattedUnannotated([relevant[0].context.value]);
      var beliefs := Extracted(st.world.beliefs);
      GoalBlocksOutcome(cx, fuel, st, NormalisedMode(st.fields.typeOfPlanning), context, beliefs, Missing(beliefs, context));
    }
  }

  /** Offline, a step that returns false does not stop the recovery: it still succeeds. */
  lemma GoalOfflineIgnoresFailures(cx: Context, fuel: nat, st: State, goal: string, plans: seq<PlanEntry>)
    requires NormalisedMode(st.fields.typeOfPlanning) == 1
    requires Relevant(plans, goal) != [] && Relevant(plans, goal)[0].context.Some?
    ensures var beliefs := Extracted(st.world.beliefs);
      var want := StripAll(Formatted([Relevant(plans, goal)[0].context.value]));
      GoalRecoverF(cx, fuel, st, goal, plans).out == Done(true) <==>
        OfflineF(cx, fuel, st, beliefs, Missing(beliefs, want)).Continue?
  {
    var beliefs := Extracted(st.world.beliefs);
    var want := StripAll(Formatted([Relevant(plans, goal)[0].context.value]));
    GoalBlocksOutcome(cx, fuel, st, 1, want, beliefs, Missing(beliefs, want));
  }

  /** An empty plan, offline or online, ends the planning blocks with false right after the
      planner call, with the belief base unchanged. */
  lemma GoalBlocksEmptyPlan(cx: Context, fuel: nat, st: State, mode: int, want: seq<string>,
    beliefs: seq<string>, goals: seq<string>)
    requires Faithful(cx) && fuel >= 1
    requires mode == 1 || goals != []
    requires cx.run(st.world, beliefs, goals, if mode == 1 then 1 else 2).1 == Some([])
    ensures GoalBlocksF(cx, fuel, st, mode, want, beliefs, goals).out == Done(false)
    ensures GoalBlocksF(cx, fuel, st, mode, want, beliefs, goals).st.world.beliefs == st.world.beliefs
    ensures GoalBlocksF(cx, fuel, st, mode, want, beliefs, goals).st.world.log == st.world.log + [Planned(if mode == 1 then 1 else 2)]
  {
    var choice := if mode == 1 then 1 else 2;
    var st2 := Consult(cx, st, beliefs, goals, choice).0;
    ConsultRecords(cx, st, beliefs, goals, choice);
    if mode == 1 {
      assert OfflineF(cx, fuel, st, beliefs, goals) == Stop(Step(Done(false), st2));
    } else {
      assert RoundF(cx, fuel, fuel, st, want, beliefs, goals) == Stop(Step(Done(false), st2));
    }
  }

  /** So a goal recovery whose planner call returns an empty plan returns false without
      starting any action. */
  lemma GoalEmptyPlan(cx: Context, fuel: nat, st: State, goal: string, plans: seq<PlanEntry>, context: string)
    requires Faithful(cx) && fuel >= 1
    requires Relevant(plans, goal) != [] && Relevant(plans, goal)[0].context == Some(context)
    requires NormalisedMode(st.fields.typeOfPlanning) == 2 ==>
      Missing(Extracted(st.world.beliefs), Formatted([context])) != []
    requires cx.run(st.world, Extracted(st.world.beliefs), Missing(Extracted(st.world.beliefs), Formatted([context])),
      NormalisedMode(st.fields.typeOfPlanning)).1 == Some([])
    ensures GoalRecoverF(cx, fuel, st, goal, plans).out == Done(false)
    ensures GoalRecoverF(cx, fuel, st, goal, plans).st.world.beliefs == st.world.beliefs
    ensures GoalRecoverF(cx, fuel, st, goal, plans).st.world.log == st.world.log + [Planned(NormalisedMode(st.fields.typeOfPlanning))]
  {
    FormattedUnannotated([context]);
    var beliefs := Extracted(st.world.beliefs);
    var want := Formatted([context]);
    GoalBlocksEmptyPlan(cx, fuel, st, NormalisedMode(st.fields.typeOfPlanning), want, beliefs, Missing(beliefs, want));
  }

  // ---------------------------------------------------------------------------------------
  // The recovery

  /** `recoveryOperation` from the point where the action object exists: it plans in the mode
      the object carries, normalised in a local copy, and leaves the object's own mode alone.
      The offline and online blocks are the object's own: the goal rule's `recoveryOperation`
      repeats the code of `ActionClass.recoveryOperation`, with the gap recomputed against the
      cleaned context. */
  method RecoverWith(action: ActionClass, ag: Agent, host: Host, goal: string, plans: seq<PlanEntry>,
    fuel: nat, ghost cx: Context) returns (out: Outcome)
    requires Serves(cx, ag, host)
    modifies action, ag, host
    ensures Step(out, action.Now(ag, host)) == GoalRecoverF(cx, fuel, old(action.Now(ag, host)), goal, plans)
  {
    var typeOfPlanning := action.typeOfPlanning;
    var filteredPlans := FilterPlans(plans, goal);
    if filteredPlans == [] {
      return Threw;
    }
    var planToFix := filteredPlans[0];
    if planToFix.context.None? {
      return Done(false);
    }
    var context := PreProcessPredicates([planToFix.context.value]);
    var beliefs := action.ExtractBeliefs(ag);
    var goalStates := ActionClass.FindPredicates(beliefs, context);
    if typeOfPlanning != 1 && typeOfPlanning != 2 {
      typeOfPlanning := 2;
    }
    var stop: Option<Outcome>;
    if typeOfPlanning == 1 {
      stop := action.Offline(ag, host, beliefs, goalStates, fuel, cx);
    } else {
      stop := action.Online(ag, host, context, beliefs, goalStates, fuel, cx);
    }
    if stop.Some? {
      return stop.value;
    }
    return Done(true);
  }

  /** `recoveryOperation`: a new action object is made, and the recovery runs with it; the
      object is dropped afterwards. */
  method RecoveryOperation(ag: Agent, host: Host, goal: string, plans: seq<PlanEntry>, fuel: nat, ghost cx: Context)
    returns (out: Outcome)
    requires Serves(cx, ag, host)
    modifies ag, host
    ensures var r := GoalRecoverF(cx, fuel, State(old(Snapshot(ag, host)), NewFields), goal, plans);
      out == r.out && Snapshot(ag, host) == r.st.world
  {
    var action := new ActionClass();
    out := RecoverWith(action, ag, host, goal, plans, fuel, cx);
  }
}
