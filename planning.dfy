/** The `planning` action an agent program can call directly: the planner is asked to reach
    the predicates given as arguments, offline (the first action of one plan is started and
    its result returned) or online (one action at a time until every predicate is believed).
    Unlike the two recoveries, its gap takes the predicates as they are. */
module Planning {
  import opened JavaStrings
  import opened Options
  import opened Environment
  import opened GapAnalysis
  import opened RunPlanner
  import opened Actions

  /** `findPredicates` of the planning action: the predicates that are not among `beliefs`,
      in their order, with no annotation removed. */
  method FindPredicates(beliefs: seq<string>, predicates: seq<string>) returns (missingPredicates: seq<string>)
    ensures missingPredicates == Missing(beliefs, predicates)
  {
    missingPredicates := [];
    for i := 0 to |predicates|
      invariant missingPredicates == Missing(beliefs, predicates[..i])
    {
      assert predicates[..i + 1] == predicates[..i] + [predicates[i]];
      if predicates[i] !in beliefs {
        missingPredicates := missingPredicates + [predicates[i]];
      }
    }
    assert predicates[..|predicates|] == predicates;
  }

  // ---------------------------------------------------------------------------------------
  // The specification

  /** The offline block: one FF plan; a null plan is dereferenced, an empty one gives false,
      otherwise the first action is started and its result is the call's result. */
  function FirstActionF(cx: Context, fuel: nat, st: State, beliefs: seq<string>, goals: seq<string>): Step {
    var (st1, plan) := Consult(cx, st, beliefs, goals, 1);
    if plan.None? then Step(Threw, st1)
    else if plan.value == [] then Step(Done(false), st1)
    else StartF(cx, fuel, st1, ToLower(plan.value[0]))
  }

  /** `execute`: the gap against the predicates as given, the mode of the action object
      normalised in a local copy, then the offline block, or the online loop after which the
      call succeeds. */
  function ExecuteF(cx: Context, fuel: nat, st: State, predicates: seq<string>): Step {
    var beliefs := Extracted(st.world.beliefs);
    var goals := Missing(beliefs, predicates);
    if NormalisedMode(st.fields.typeOfPlanning) == 1 then FirstActionF(cx, fuel, st, beliefs, goals)
    else
      var fl := OnlineF(cx, fuel, fuel, st, predicates, beliefs, goals);
      if fl.Stop? then fl.step else Step(Done(true), fl.st)
  }

  // ---------------------------------------------------------------------------------------
  // Properties of the specification

  /** Online, with nothing missing, the call succeeds at once: no planner call, nothing
      changed. */
  lemma NothingMissing(cx: Context, fuel: nat, st: State, predicates: seq<string>)
    requires NormalisedMode(st.fields.typeOfPlanning) == 2
    requires forall p :: p in predicates ==> p in Extracted(st.world.beliefs)
    ensures ExecuteF(cx, fuel, st, predicates) == Step(Done(true), st)
  {
    MissingEmpty(Extracted(st.world.beliefs), predicates);
  }

  /** The call succeeds online only once every predicate, as given, is among the extracted
      beliefs; offline exactly when a plan was found and its first action succeeded, whatever
      the rest of the plan. */
  lemma ExecuteSucceeds(cx: Context, fuel: nat, st: State, predicates: seq<string>)
    ensures NormalisedMode(st.fields.typeOfPlanning) == 2 && ExecuteF(cx, fuel, st, predicates).out == Done(true) ==>
      Settled(ExecuteF(cx, fuel, st, predicates).st, predicates)
    ensures NormalisedMode(st.fields.typeOfPlanning) == 1 ==>
      var (st1, plan) := Consult(cx, st, Extracted(st.world.beliefs), Missing(Extracted(st.world.beliefs), predicates), 1);
      (ExecuteF(cx, fuel, st, predicates).out == Done(true) <==>
        plan.Some? && plan.value != [] && StartF(cx, fuel, st1, ToLower(plan.value[0])).out == Done(true))
  {
    var beliefs := Extracted(st.world.beliefs);
    var goals := Missing(beliefs, predicates);
    if NormalisedMode(st.fields.typeOfPlanning) == 2 {
      OnlineStops(cx, fuel, fuel, st, predicates, beliefs, goals);
      OnlineSettles(cx, fuel, fuel, st, predicates, beliefs, goals);
    }
  }

  /** Online, a step that returns false does not end the call: it returns false only when the
      search returned an empty plan, and that planner call is the last thing recorded. */
  lemma ExecuteOnlineFalse(cx: Context, fuel: nat, st: State, predicates: seq<string>)
    requires Faithful(cx)
    requires NormalisedMode(st.fields.typeOfPlanning) == 2
    ensures ExecuteF(cx, fuel, st, predicates).out == Done(false) ==> JustPlanned(ExecuteF(cx, fuel, st, predicates).st, 2)
  {
    var beliefs := Extracted(st.world.beliefs);
    OnlineFalse(cx, fuel, fuel, st, predicates, beliefs, Missing(beliefs, predicates));
  }

  /** An empty plan, offline or online, gives false right after the planner call, with no
      action started. */
  lemma ExecuteEmptyPlan(cx: Context, fuel: nat, st: State, predicates: seq<string>)
    requires Faithful(cx) && fuel >= 1
    requires NormalisedMode(st.fields.typeOfPlanning) == 2 ==> Missing(Extracted(st.world.beliefs), predicates) != []
    requires cx.run(st.world, Extracted(st.world.beliefs), Missing(Extracted(st.world.beliefs), predicates),
      NormalisedMode(st.fields.typeOfPlanning)).1 == Some([])
    ensures ExecuteF(cx, fuel, st, predicates).out == Done(false)
    ensures ExecuteF(cx, fuel, st, predicates).st.world.beliefs == st.world.beliefs
    ensures ExecuteF(cx, fuel, st, predicates).st.world.log == st.world.log + [Planned(NormalisedMode(st.fields.typeOfPlanning))]
  {
    var beliefs := Extracted(st.world.beliefs);
    var goals := Missing(beliefs, predicates);
    var mode := NormalisedMode(st.fields.typeOfPlanning);
    var st2 := Consult(cx, st, beliefs, goals, mode).0;
    ConsultRecords(cx, st, beliefs, goals, mode);
    if mode == 2 {
      assert RoundF(cx, fuel, fuel, st, predicates, beliefs, goals) == Stop(Step(Done(false), st2));
    }
  }

  /** With a belief base of well-formed facts, a predicate that still carries an annotation is
      never among the extracted beliefs: it stays missing, so by `ExecuteSucceeds` the online
      loop cannot succeed with it. */
  lemma AnnotatedStaysMissing(bs: seq<Belief>, predicates: seq<string>, p: string)
    requires forall b :: b in bs ==> IsAtom(b.fact)
    requires p in predicates && '[' in p
    ensures p in Missing(Extracted(bs), predicates)
  {
    ExtractedFacts(bs);
    var k :| 0 <= k < |p| && p[k] == '[';
    forall i | 0 <= i < |bs| ensures Facts(bs)[i] != p {
      assert bs[i] in bs;
      if k < |bs[i].fact| {
        assert IsAtomChar(bs[i].fact[k]);
      }
    }
  }

  // ---------------------------------------------------------------------------------------
  // The planning action

  /** The online loop of `execute`: while predicates are missing, one round; `fuel` also
      bounds the rounds. */
  method Online(action: ActionClass, ag: Agent, host: Host, predicates: seq<string>, beliefs: seq<string>,
    goalStates: seq<string>, fuel: nat, ghost cx: Context) returns (stop: Option<Outcome>)
    requires Serves(cx, ag, host)
    modifies action, ag, host
    ensures AsFlow(stop, action.Now(ag, host)) == OnlineF(cx, fuel, fuel, old(action.Now(ag, host)), predicates, beliefs, goalStates)
  {
    ghost var top := OnlineF(cx, fuel, fuel, action.Now(ag, host), predicates, beliefs, goalStates);
    var known, missing := beliefs, goalStates;
    var budget: nat := fuel;
    while missing != []
      invariant OnlineF(cx, fuel, budget, action.Now(ag, host), predicates, known, missing) == top
      decreases budget
    {
      if budget == 0 {
        return Some(OutOfFuel);
      }
      stop, known, missing := Round(action, ag, host, predicates, known, missing, fuel, budget, top, cx);
      if stop.Some? {
        return;
      }
      budget := budget - 1;
    }
    return None;
  }

  /** One pass of the online loop: a plan from the search, its first action started, the gap
      recomputed against the original predicates. */
  method Round(action: ActionClass, ag: Agent, host: Host, predicates: seq<string>, known: seq<string>,
    missing: seq<string>, fuel: nat, ghost budget: nat, ghost top: Flow, ghost cx: Context)
    returns (stop: Option<Outcome>, known': seq<string>, missing': seq<string>)
    requires budget > 0
    requires RoundF(cx, fuel, budget, action.Now(ag, host), predicates, known, missing) == top
    requires Serves(cx, ag, host)
    modifies action, ag, host
    ensures stop.Some? ==> top == Stop(Step(stop.value, action.Now(ag, host)))
    ensures stop.None? ==> OnlineF(cx, fuel, budget - 1, action.Now(ag, host), predicates, known', missing') == top
  {
    ghost var before := action.Now(ag, host);
    var plan := Run(host, ag.name, known, missing, 2);
    assert RunResult(cx.planners, cx.agName, before.world, known, missing, 2) == (action.Now(ag, host).world, plan);
    if plan.None? {
      return Some(Threw), known, missing;
    }
    if plan.value == [] {
      return Some(Done(false)), known, missing;
    }
    var success := action.StartAction(ag, host, ToLower(plan.value[0]), fuel, cx);
    if !success.Done? {
      return Some(success), known, missing;
    }
    known' := action.ExtractBeliefs(ag);
    missing' := FindPredicates(known', predicates);
    stop := None;
  }

  /** `execute` from the point where the action object exists. The `for` loop of the offline
      block returns in its first pass, so only the first action is started. */
  method ExecuteWith(action: ActionClass, ag: Agent, host: Host, predicates: seq<string>, fuel: nat, ghost cx: Context)
    returns (out: Outcome)
    requires Serves(cx, ag, host)
    modifies action, ag, host
    ensures Step(out, action.Now(ag, host)) == ExecuteF(cx, fuel, old(action.Now(ag, host)), predicates)
  {
    ghost var before := action.Now(ag, host);
    var typeOfPlanning := action.typeOfPlanning;
    var beliefs := action.ExtractBeliefs(ag);
    var goalStates := FindPredicates(beliefs, predicates);
    if typeOfPlanning != 1 && typeOfPlanning != 2 {
      typeOfPlanning := 2;
    }
    if typeOfPlanning == 1 {
      var plan := Run(host, ag.name, beliefs, goalStates, 1);
      assert RunResult(cx.planners, cx.agName, before.world, beliefs, goalStates, 1) == (action.Now(ag, host).world, plan);
      if plan.None? {
        return Threw;
      }
      if plan.value == [] {
        return Done(false);
      }
      out := action.StartAction(ag, host, ToLower(plan.value[0]), fuel, cx);
      return;
    }
    var stop := Online(action, ag, host, predicates, beliefs, goalStates, fuel, cx);
    if stop.Some? {
      return stop.value;
    }
    return Done(true);
  }

  /** `execute`: a new action object is made, and the planning runs with it; the object is
      dropped afterwards. */
  method Execute(ag: Agent, host: Host, predicates: seq<string>, fuel: nat, ghost cx: Context) returns (out: Outcome)
    requires Serves(cx, ag, host)
    modifies ag, host
    ensures var r := ExecuteF(cx, fuel, State(old(Snapshot(ag, host)), NewFields), predicates);
      out == r.out && Snapshot(ag, host) == r.st.world
  {
    var action := new ActionClass();
    out := ExecuteWith(action, ag, host, predicates, fuel, cx);
  }
}
