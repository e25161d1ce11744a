/** An agent's actions and the recovery from a failed precondition, as `ActionClass` runs
    them: dispatch on the action's name, a precondition check against the belief base,
    add-then-delete effects, and, when a precondition fact is missing, a planner consulted
    offline (one plan, every step executed) or online (one step at a time until nothing is
    missing) before the original action is tried once more. */
module Actions {
  import opened JavaStrings
  import opened Options
  import opened Environment
  import opened GapAnalysis
  import opened PDDLGenerator
  import opened RunPlanner

  // ---------------------------------------------------------------------------------------
  // The nine action schemas

  /** What one of the nine private action methods hands to `runAction`: the precondition,
      the facts to add and the facts to delete, each None where the method passes null. */
  datatype Schema = Schema(pre: Option<seq<string>>, add: Option<seq<string>>, del: Option<seq<string>>)

  /** A list the action method filled, or the empty accumulator it left alone. */
  function OrEmpty(l: Option<seq<string>>): seq<string> {
    if l.None? then [] else l.value
  }

  /** The dispatch of `startAction`: the schema of each implemented action name. */
  function SchemaOf(action: string): (r: Option<Schema>)
    ensures r.Some? ==> r.value.add.Some? || r.value.del.Some?
  {
    if action == "buyphone" then Some(Schema(Some(["hasMoney"]), Some(["hasPhone"]), Some(["hasMoney"])))
    else if action == "dochores" then Some(Schema(None, Some(["hasMoney", "parentsHappy"]), None))
    else if action == "earnsalary" then Some(Schema(None, Some(["hasMoney"]), None))
    else if action == "usephone" then Some(Schema(Some(["hasPhone"]), Some(["onPhone"]), None))
    else if action == "textfriend" then Some(Schema(Some(["onPhone", "hasPhone"]), Some(["messageSent"]), None))
    else if action == "gooffphone" then Some(Schema(Some(["hasPhone", "onPhone"]), None, Some(["onPhone"])))
    else if action == "gotogym" then Some(Schema(Some(["motivated", "inCar"]), Some(["atGym", "hungry", "happy"]), None))
    else if action == "getincar" then Some(Schema(Some(["hasCar"]), Some(["inCar"]), Some(["atHome"])))
    else if action == "gotowork" then Some(Schema(Some(["inCar"]), Some(["atWork", "tired", "bossHappy"]), None))
    else None
  }

  // ---------------------------------------------------------------------------------------
  // The state a recovery works on

  /** The fields of an `ActionClass` object. */
  datatype Fields = Fields(
    precondition: seq<string>,
    beliefsToAdd: seq<string>,
    beliefsToDelete: seq<string>,
    recoveryRequired: bool,
    typeOfPlanning: int)

  /** The agent, the host process and the action object, as one value. */
  datatype State = State(world: World, fields: Fields)

  /** How a call ends: with a boolean, with an exception (a null plan dereferenced), or
      because the recursion bound was reached. */
  datatype Outcome = Done(success: bool) | Threw | OutOfFuel

  datatype Step = Step(out: Outcome, st: State)

  /** Where a phase of a recovery leaves things: carry on with this state, or leave the
      recovery with this result. */
  datatype Flow = Continue(st: State) | Stop(step: Step)

  function FlowState(fl: Flow): State {
    if fl.Continue? then fl.st else fl.step.st
  }

  /** A phase's result as a method reports it: None to carry on, or how the recovery ends. */
  function AsFlow(stop: Option<Outcome>, st: State): Flow {
    if stop.None? then Continue(st) else Stop(Step(stop.value, st))
  }

  /** A `RunPlanner.run` call as a recovery sees it: from the world and the beliefs, goals and
      planner choice handed over, the world after the call and the plan returned. */
  type Runner = (World, seq<string>, seq<string>, int) -> (World, Option<seq<string>>)

  /** What a recovery cannot change: the agent's name, the planners, and the planner call. */
  datatype Context = Context(agName: string, planners: Planners, run: Runner)

  /** The planner call of the context is `RunPlanner.run` for this agent and these planners.
      The trigger keeps the planner's definition out of proofs that do not call it. */
  ghost predicate Faithful(cx: Context) {
    forall w, beliefs, goals, choice {:trigger RunResult(cx.planners, cx.agName, w, beliefs, goals, choice)} ::
      cx.run(w, beliefs, goals, choice) == RunResult(cx.planners, cx.agName, w, beliefs, goals, choice)
  }

  /** The context a method runs in: this agent, this host, the real planner call. */
  ghost predicate Serves(cx: Context, ag: Agent, host: Host) {
    cx.agName == ag.name && cx.planners == host.planners && Faithful(cx)
  }

  /** Such a context exists for every agent and host. */
  lemma ContextFor(agName: string, planners: Planners) returns (cx: Context)
    ensures cx.agName == agName && cx.planners == planners && Faithful(cx)
  {
    cx := Context(agName, planners, (w, beliefs, goals, choice) => RunResult(planners, agName, w, beliefs, goals, choice));
  }

  /** Every fact of `facts` is held: `allBeliefsPresent`. */
  predicate AllHeld(bs: seq<Belief>, facts: seq<string>) {
    forall f :: f in facts ==> f in Facts(bs)
  }

  /** The mode a recovery plans in: 1 (offline) and 2 (online) are kept, anything else
      becomes 2. */
  function NormalisedMode(mode: int): (r: int)
    ensures r == 1 || r == 2
    ensures mode == 1 || mode == 2 ==> r == mode
  {
    if mode != 1 && mode != 2 then 2 else mode
  }

  /** One `RunPlanner.run` call from a recovery: the world after it, and its result. */
  function Consult(cx: Context, st: State, beliefs: seq<string>, goals: seq<string>, choice: int): (State, Option<seq<string>>)
  {
    var (w, plan) := cx.run(st.world, beliefs, goals, choice);
    (st.(world := w), plan)
  }

  /** The facts still missing, recomputed from the belief base. */
  function Remaining(bs: seq<Belief>, want: seq<string>): seq<string> {
    Missing(Extracted(bs), want)
  }

  /** The gap against predicates still carrying their annotations. */
  function Gap(bs: seq<Belief>, preds: seq<string>): seq<string> {
    Remaining(bs, StripAll(preds))
  }

  // ---------------------------------------------------------------------------------------
  // The specification: startAction, runAction and recoveryOperation with a recursion bound

  /** `startAction`: the three accumulators emptied, the action announced, then the schema's
      method (which fills the accumulators and calls `runAction`), or false for an unknown name. */
  function StartF(cx: Context, fuel: nat, st: State, action: string): Step
    decreases fuel, 3, 0, 0
  {
    var st1 := State(st.world.(log := st.world.log + [Executing(action)]),
      st.fields.(precondition := [], beliefsToAdd := [], beliefsToDelete := []));
    match SchemaOf(action)
    case None => Step(Done(false), st1)
    case Some(sc) =>
      var st2 := st1.(fields := st1.fields.(precondition := OrEmpty(sc.pre), beliefsToAdd := OrEmpty(sc.add), beliefsToDelete := OrEmpty(sc.del)));
      RunF(cx, fuel, st2, action, sc.pre, sc.add, sc.del)
  }

  /** `runAction`: without a precondition, or with every precondition fact held, the effects
      are applied and the call succeeds; otherwise the recovery decides. */
  function RunF(cx: Context, fuel: nat, st: State, action: string, pre: Option<seq<string>>,
    add: Option<seq<string>>, del: Option<seq<string>>): Step
    decreases fuel, 2, 0, 0
  {
    var st1 := st.(fields := st.fields.(recoveryRequired := false));
    if pre.None? || AllHeld(st.world.beliefs, pre.value) then
      Step(Done(true), st1.(world := st1.world.(beliefs := ApplyEffects(st1.world.beliefs, OrEmpty(add), OrEmpty(del)))))
    else
      RecoverF(cx, fuel, st1.(fields := st1.fields.(recoveryRequired := true)), action, pre.value)
  }

  /** `recoveryOperation`: the planning phases, then the original action once more. */
  function RecoverF(cx: Context, fuel: nat, st: State, action: string, preds: seq<string>): Step
    decreases fuel, 1, 0, 0
  {
    if fuel == 0 then Step(OutOfFuel, st)
    else
      match PhasesF(cx, fuel - 1, st, preds)
      case Stop(s) => s
      case Continue(st1) => RetryF(cx, fuel - 1, st1, action)
  }

  /** The original action started once more, lower-cased. */
  function RetryF(cx: Context, fuel: nat, st: State, action: string): Step
    decreases fuel, 4, 0, 0
  {
    StartF(cx, fuel, st, ToLower(action))
  }

  /** The planning part of a recovery: the beliefs extracted, the gap found, the mode
      normalised, then the planning blocks. */
  function PhasesF(cx: Context, fuel: nat, st: State, preds: seq<string>): Flow
    decreases fuel, 9, 0, 0
  {
    var beliefs := Extracted(st.world.beliefs);
    var goals := Missing(beliefs, StripAll(preds));
    BlocksF(cx, fuel, st.(fields := st.fields.(typeOfPlanning := NormalisedMode(st.fields.typeOfPlanning))), StripAll(preds), beliefs, goals)
  }

  /** The offline block when the mode is 1, then the online block when the mode is 2. */
  function BlocksF(cx: Context, fuel: nat, st: State, want: seq<string>, beliefs: seq<string>, goals: seq<string>): Flow
    decreases fuel, 8, 0, 0
  {
    var offline := if st.fields.typeOfPlanning == 1 then OfflineF(cx, fuel, st, beliefs, goals) else Continue(st);
    match offline
    case Stop(s) => Stop(s)
    case Continue(st1) =>
      if st1.fields.typeOfPlanning == 2 then OnlineF(cx, fuel, fuel, st1, want, beliefs, goals) else Continue(st1)
  }

  /** The offline block: one FF plan; a null plan is dereferenced, an empty one ends the
      recovery with false, otherwise every step is executed. */
  function OfflineF(cx: Context, fuel: nat, st: State, beliefs: seq<string>, goals: seq<string>): Flow
    decreases fuel, 7, 0, 0
  {
    var (st1, plan) := Consult(cx, st, beliefs, goals, 1);
    if plan.None? then Stop(Step(Threw, st1))
    else if plan.value == [] then Stop(Step(Done(false), st1))
    else ExecuteAllF(cx, fuel, st1, plan.value, 0)
  }

  /** The offline loop from step `i` on: each step lower-cased and started; a step that
      fails is only logged, an exception ends everything. */
  function ExecuteAllF(cx: Context, fuel: nat, st: State, plan: seq<string>, i: nat): Flow
    requires i <= |plan|
    decreases fuel, 6, |plan| - i, 0
  {
    if i == |plan| then Continue(st)
    else
      var r := StartF(cx, fuel, st, ToLower(plan[i]));
      if r.out.Done? then ExecuteAllF(cx, fuel, r.st, plan, i + 1) else Stop(r)
  }

  /** The online loop: rounds while facts are missing; `budget` bounds the rounds. */
  function OnlineF(cx: Context, fuel: nat, budget: nat, st: State, want: seq<string>,
    beliefs: seq<string>, goals: seq<string>): Flow
    decreases fuel, 5, budget, 1
  {
    if goals == [] then Continue(st)
    else if budget == 0 then Stop(Step(OutOfFuel, st))
    else RoundF(cx, fuel, budget, st, want, beliefs, goals)
  }

  /** One online round: the search asked for one action, the action started, and the gap
      recomputed against the original precondition. */
  function RoundF(cx: Context, fuel: nat, budget: nat, st: State, want: seq<string>,
    beliefs: seq<string>, goals: seq<string>): Flow
    requires budget > 0
    decreases fuel, 5, budget, 0
  {
    var (st1, plan) := Consult(cx, st, beliefs, goals, 2);
    if plan.None? then Stop(Step(Threw, st1))
    else if plan.value == [] then Stop(Step(Done(false), st1))
    else
      var r := StartF(cx, fuel, st1, ToLower(plan.value[0]));
      if !r.out.Done? then Stop(r)
      else OnlineF(cx, fuel, budget - 1, r.st, want, Extracted(r.st.world.beliefs), Remaining(r.st.world.beliefs, want))
  }

  // ---------------------------------------------------------------------------------------
  // Properties of the specification

  /** The names `startAction` dispatches on. */
  const ActionNames: seq<string> := ["buyphone", "dochores", "earnsalary", "usephone", "textfriend",
    "gooffphone", "gotogym", "getincar", "gotowork"]

  /** Exactly the nine names have a schema. */
  lemma SchemaDefined(action: string)
    ensures SchemaOf(action).Some? <==> action in ActionNames
  {
  }

  /** What the planner call of a faithful context does to the world, and what it returns. */
  lemma ConsultEffects(cx: Context, st: State, beliefs: seq<string>, goals: seq<string>, choice: int)
    requires Faithful(cx)
    ensures var (st1, plan) := Consult(cx, st, beliefs, goals, choice);
      && st1.fields == st.fields
      && st1.world == AfterRun(st.world, beliefs, goals, choice)
      && plan == PlanFor(cx.planners, cx.agName, st1.world.files, choice)
  {
    var r := RunResult(cx.planners, cx.agName, st.world, beliefs, goals, choice);
  }

  /** A planner call leaves the belief base and the action object alone and records itself. */
  lemma ConsultRecords(cx: Context, st: State, beliefs: seq<string>, goals: seq<string>, choice: int)
    requires Faithful(cx)
    ensures Consult(cx, st, beliefs, goals, choice).0.fields == st.fields
    ensures Consult(cx, st, beliefs, goals, choice).0.world.beliefs == st.world.beliefs
    ensures Consult(cx, st, beliefs, goals, choice).0.world.log == st.world.log + [Planned(choice)]
  {
    ConsultEffects(cx, st, beliefs, goals, choice);
  }

  /** A later state of the same recovery: the console only grows, no file other than the
      problem file is touched, and the planning mode is kept unless an invalid one was
      replaced by online planning. */
  ghost predicate Evolves(a: State, b: State) {
    && a.world.log <= b.world.log
    && (forall p :: p != ProblemPath ==> (p in a.world.files <==> p in b.world.files))
    && (forall p :: p != ProblemPath && p in a.world.files ==> a.world.files[p] == b.world.files[p])
    && (b.fields.typeOfPlanning == a.fields.typeOfPlanning
        || (b.fields.typeOfPlanning == 2 && a.fields.typeOfPlanning != 1))
  }

  lemma EvolvesTrans(a: State, b: State, c: State)
    requires Evolves(a, b) && Evolves(b, c)
    ensures Evolves(a, c)
  {
  }

  lemma EvolvesConsult(cx: Context, st: State, beliefs: seq<string>, goals: seq<string>, choice: int)
    requires Faithful(cx)
    ensures Evolves(st, Consult(cx, st, beliefs, goals, choice).0)
  {
    ConsultEffects(cx, st, beliefs, goals, choice);
  }

  /** Every call of the recovery layer moves the state forward in the sense of `Evolves`. */
  lemma {:induction false} EvolvesStart(cx: Context, fuel: nat, st: State, action: string)
    requires Faithful(cx)
    ensures Evolves(st, StartF(cx, fuel, st, action).st)
    decreases fuel, 3, 0, 0
  {
    var st1 := State(st.world.(log := st.world.log + [Executing(action)]),
      st.fields.(precondition := [], beliefsToAdd := [], beliefsToDelete := []));
    match SchemaOf(action)
    case None =>
    case Some(sc) =>
      var st2 := st1.(fields := st1.fields.(precondition := OrEmpty(sc.pre), beliefsToAdd := OrEmpty(sc.add), beliefsToDelete := OrEmpty(sc.del)));
      EvolvesRun(cx, fuel, st2, action, sc.pre, sc.add, sc.del);
      EvolvesTrans(st, st2, StartF(cx, fuel, st, action).st);
  }

  lemma {:induction false} EvolvesRun(cx: Context, fuel: nat, st: State, action: string, pre: Option<seq<string>>,
    add: Option<seq<string>>, del: Option<seq<string>>)
    requires Faithful(cx)
    ensures Evolves(st, RunF(cx, fuel, st, action, pre, add, del).st)
    decreases fuel, 2, 0, 0
  {
    if !(pre.None? || AllHeld(st.world.beliefs, pre.value)) {
      var st1 := st.(fields := st.fields.(recoveryRequired := true));
      EvolvesRecover(cx, fuel, st1, action, pre.value);
      EvolvesTrans(st, st1, RunF(cx, fuel, st, action, pre, add, del).st);
    }
  }

  lemma {:induction false} EvolvesRecover(cx: Context, fuel: nat, st: State, action: string, preds: seq<string>)
    requires Faithful(cx)
    ensures Evolves(st, RecoverF(cx, fuel, st, action, preds).st)
    decreases fuel, 1, 0, 0
  {
    if fuel > 0 {
      EvolvesPhases(cx, fuel - 1, st, preds);
      match PhasesF(cx, fuel - 1, st, preds)
      case Stop(s) =>
      case Continue(st1) =>
        EvolvesStart(cx, fuel - 1, st1, ToLower(action));
        EvolvesTrans(st, st1, StartF(cx, fuel - 1, st1, ToLower(action)).st);
    }
  }

  lemma {:induction false} EvolvesPhases(cx: Context, fuel: nat, st: State, preds: seq<string>)
    requires Faithful(cx)
    ensures Evolves(st, FlowState(PhasesF(cx, fuel, st, preds)))
    decreases fuel, 9, 0, 0
  {
    var beliefs := Extracted(st.world.beliefs);
    var goals := Missing(beliefs, StripAll(preds));
    var st1 := st.(fields := st.fields.(typeOfPlanning := NormalisedMode(st.fields.typeOfPlanning)));
    EvolvesBlocks(cx, fuel, st1, StripAll(preds), beliefs, goals);
    EvolvesTrans(st, st1, FlowState(BlocksF(cx, fuel, st1, StripAll(preds), beliefs, goals)));
  }

  lemma {:induction false} EvolvesBlocks(cx: Context, fuel: nat, st: State, want: seq<string>, beliefs: seq<string>, goals: seq<string>)
    requires Faithful(cx)
    ensures Evolves(st, FlowState(BlocksF(cx, fuel, st, want, beliefs, goals)))
    decreases fuel, 8, 0, 0
  {
    var offline := if st.fields.typeOfPlanning == 1 then OfflineF(cx, fuel, st, beliefs, goals) else Continue(st);
    if st.fields.typeOfPlanning == 1 {
      EvolvesOffline(cx, fuel, st, beliefs, goals);
    }
    match offline
    case Stop(s) =>
    case Continue(st1) =>
      if st1.fields.typeOfPlanning == 2 {
        EvolvesOnline(cx, fuel, fuel, st1, want, beliefs, goals);
        EvolvesTrans(st, st1, FlowState(OnlineF(cx, fuel, fuel, st1, want, beliefs, goals)));
      }
  }

  lemma {:induction false} EvolvesOffline(cx: Context, fuel: nat, st: State, beliefs: seq<string>, goals: seq<string>)
    requires Faithful(cx)
    ensures Evolves(st, FlowState(OfflineF(cx, fuel, st, beliefs, goals)))
    decreases fuel, 7, 0, 0
  {
    var (st1, plan) := Consult(cx, st, beliefs, goals, 1);
    EvolvesConsult(cx, st, beliefs, goals, 1);
    if plan.Some? && plan.value != [] {
      EvolvesExecuteAll(cx, fuel, st1, plan.value, 0);
      EvolvesTrans(st, st1, FlowState(ExecuteAllF(cx, fuel, st1, plan.value, 0)));
    }
  }

  lemma {:induction false} EvolvesExecuteAll(cx: Context, fuel: nat, st: State, plan: seq<string>, i: nat)
    requires Faithful(cx) && i <= |plan|
    ensures Evolves(st, FlowState(ExecuteAllF(cx, fuel, st, plan, i)))
    decreases fuel, 6, |plan| - i, 0
  {
    if i < |plan| {
      var r := StartF(cx, fuel, st, ToLower(plan[i]));
      EvolvesStart(cx, fuel, st, ToLower(plan[i]));
      if r.out.Done? {
        EvolvesExecuteAll(cx, fuel, r.st, plan, i + 1);
        EvolvesTrans(st, r.st, FlowState(ExecuteAllF(cx, fuel, r.st, plan, i + 1)));
      }
    }
  }

  lemma {:induction false} EvolvesOnline(cx: Context, fuel: nat, budget: nat, st: State, want: seq<string>,
    beliefs: seq<string>, goals: seq<string>)
    requires Faithful(cx)
    ensures Evolves(st, FlowState(OnlineF(cx, fuel, budget, st, want, beliefs, goals)))
    decreases fuel, 5, budget, 2
  {
    if goals != [] && budget > 0 {
      EvolvesRound(cx, fuel, budget, st, want, beliefs, goals);
    }
  }

  lemma {:induction false} EvolvesRound(cx: Context, fuel: nat, budget: nat, st: State, want: seq<string>,
    beliefs: seq<string>, goals: seq<string>)
    requires Faithful(cx) && budget > 0
    ensures Evolves(st, FlowState(RoundF(cx, fuel, budget, st, want, beliefs, goals)))
    decreases fuel, 5, budget, 1
  {
    var (st1, plan) := Consult(cx, st, beliefs, goals, 2);
    EvolvesConsult(cx, st, beliefs, goals, 2);
    if plan.Some? && plan.value != [] {
      var r := StartF(cx, fuel, st1, ToLower(plan.value[0]));
      EvolvesStart(cx, fuel, st1, ToLower(plan.value[0]));
      EvolvesTrans(st, st1, r.st);
      EvolvesAfterStep(cx, fuel, budget, want, r, Extracted(r.st.world.beliefs), Remaining(r.st.world.beliefs, want));
      if r.out.Done? {
        EvolvesTrans(st, r.st, FlowState(RoundF(cx, fuel, budget, st, want, beliefs, goals)));
      }
    }
  }

  /** The rounds that follow a step of the online loop that completed. */
  lemma {:induction false} EvolvesAfterStep(cx: Context, fuel: nat, budget: nat, want: seq<string>, r: Step,
    known: seq<string>, missing: seq<string>)
    requires Faithful(cx) && budget > 0
    ensures r.out.Done? ==> Evolves(r.st, FlowState(OnlineF(cx, fuel, budget - 1, r.st, want, known, missing)))
    decreases fuel, 5, budget, 0
  {
    if r.out.Done? {
      EvolvesOnline(cx, fuel, budget - 1, r.st, want, known, missing);
    }
  }

  /** Every fact a schema lists is one of these well-formed fact names. */
  const FactNames: seq<string> := ["hasMoney", "hasPhone", "parentsHappy", "onPhone", "messageSent",
    "motivated", "inCar", "atGym", "hungry", "happy", "hasCar", "atHome", "atWork", "tired", "bossHappy"]

  /** A non-empty word of ASCII letters is a well-formed fact name. */
  lemma LettersAreAtom(f: string)
    requires |f| > 0
    requires forall i :: 0 <= i < |f| ==> 'a' <= f[i] <= 'z' || 'A' <= f[i] <= 'Z'
    ensures IsAtom(f)
  {
    forall i | 0 <= i < |f| ensures IsAtomChar(f[i]) {
      assert f[i] !in "[](),&";
    }
  }

  lemma FactNamesAreAtoms()
    ensures forall f :: f in FactNames ==> IsAtom(f)
  {
    forall f | f in FactNames ensures IsAtom(f) {
      LettersAreAtom(f);
    }
  }

  lemma SchemaFactsNamed(action: string)
    ensures SchemaOf(action).Some? ==> var sc := SchemaOf(action).value;
      forall f :: f in OrEmpty(sc.pre) + OrEmpty(sc.add) + OrEmpty(sc.del) ==> f in FactNames
  {
  }

  /** Every fact the nine schemas mention is a well-formed fact name. */
  lemma SchemaFactsAreAtoms(action: string)
    ensures SchemaOf(action).Some? ==> var sc := SchemaOf(action).value;
      forall f :: f in OrEmpty(sc.pre) + OrEmpty(sc.add) + OrEmpty(sc.del) ==> IsAtom(f)
  {
    FactNamesAreAtoms();
    SchemaFactsNamed(action);
  }

  /** An unknown action name: false, with the accumulators emptied, the action announced and
      nothing else changed. */
  lemma StartUnknown(cx: Context, fuel: nat, st: State, action: string)
    requires action !in ActionNames
    ensures var r := StartF(cx, fuel, st, action);
      && r.out == Done(false)
      && r.st.world == st.world.(log := st.world.log + [Executing(action)])
      && r.st.fields == st.fields.(precondition := [], beliefsToAdd := [], beliefsToDelete := [])
  {
    SchemaDefined(action);
  }

  /** A known action whose precondition is absent or held: true, a fact is held afterwards
      exactly when it was held or added and was not deleted, the accumulators hold this
      action's lists only, and neither a recovery nor a planner call happens. */
  lemma StartApplies(cx: Context, fuel: nat, st: State, action: string, sc: Schema)
    requires SchemaOf(action) == Some(sc)
    requires sc.pre.None? || AllHeld(st.world.beliefs, sc.pre.value)
    ensures var r := StartF(cx, fuel, st, action);
      && r.out == Done(true)
      && (forall x :: x in Facts(r.st.world.beliefs) <==>
            (x in Facts(st.world.beliefs) || x in OrEmpty(sc.add)) && x !in OrEmpty(sc.del))
      && r.st.world.files == st.world.files
      && r.st.world.log == st.world.log + [Executing(action)]
      && r.st.fields == Fields(OrEmpty(sc.pre), OrEmpty(sc.add), OrEmpty(sc.del), false, st.fields.typeOfPlanning)
  {
    ApplyEffectsHolds(st.world.beliefs, OrEmpty(sc.add), OrEmpty(sc.del));
  }

  /** `buyphone` with only `hasMoney` held leaves only `hasPhone` held. */
  lemma BuyPhone(cx: Context, fuel: nat, st: State)
    requires forall x :: x in Facts(st.world.beliefs) <==> x == "hasMoney"
    ensures var r := StartF(cx, fuel, st, "buyphone");
      r.out == Done(true) && forall x :: x in Facts(r.st.world.beliefs) <==> x == "hasPhone"
  {
    var sc := SchemaOf("buyphone").value;
    assert AllHeld(st.world.beliefs, sc.pre.value);
    StartApplies(cx, fuel, st, "buyphone", sc);
  }

  /** The offline loop leaves early only on an exception or at the recursion bound: a step
      that returns false is logged and the next step runs. */
  lemma {:induction false} ExecuteAllStops(cx: Context, fuel: nat, st: State, plan: seq<string>, i: nat)
    requires i <= |plan|
    ensures var fl := ExecuteAllF(cx, fuel, st, plan, i);
      fl.Stop? ==> fl.step.out == Threw || fl.step.out == OutOfFuel
    decreases |plan| - i
  {
    if i < |plan| {
      var r := StartF(cx, fuel, st, ToLower(plan[i]));
      if r.out.Done? {
        ExecuteAllStops(cx, fuel, r.st, plan, i + 1);
      }
    }
  }

  /** The offline block never ends a recovery with success. */
  lemma OfflineOutcome(cx: Context, fuel: nat, st: State, beliefs: seq<string>, goals: seq<string>)
    ensures var fl := OfflineF(cx, fuel, st, beliefs, goals);
      fl.Stop? ==> fl.step.out != Done(true)
  {
    var (st1, plan) := Consult(cx, st, beliefs, goals, 1);
    if plan.Some? && plan.value != [] {
      ExecuteAllStops(cx, fuel, st1, plan.value, 0);
    }
  }

  /** The online loop never ends a recovery with success. */
  lemma {:induction false} OnlineStops(cx: Context, fuel: nat, budget: nat, st: State, want: seq<string>,
    known: seq<string>, missing: seq<string>)
    ensures var fl := OnlineF(cx, fuel, budget, st, want, known, missing);
      fl.Stop? ==> fl.step.out != Done(true)
    decreases budget, 2
  {
    if missing != [] && budget > 0 {
      RoundStops(cx, fuel, budget, st, want, known, missing);
    }
  }

  lemma {:induction false} RoundStops(cx: Context, fuel: nat, budget: nat, st: State, want: seq<string>,
    known: seq<string>, missing: seq<string>)
    requires budget > 0
    ensures var fl := RoundF(cx, fuel, budget, st, want, known, missing);
      fl.Stop? ==> fl.step.out != Done(true)
    decreases budget, 1
  {
    var (st1, plan) := Consult(cx, st, known, missing, 2);
    if plan.Some? && plan.value != [] {
      var r := StartF(cx, fuel, st1, ToLower(plan.value[0]));
      OnlineStopsAfterStep(cx, fuel, budget, want, r, Extracted(r.st.world.beliefs), Remaining(r.st.world.beliefs, want));
    }
  }

  lemma {:induction false} OnlineStopsAfterStep(cx: Context, fuel: nat, budget: nat, want: seq<string>, r: Step,
    known: seq<string>, missing: seq<string>)
    requires budget > 0
    ensures var fl := OnlineF(cx, fuel, budget - 1, r.st, want, known, missing);
      fl.Stop? ==> fl.step.out != Done(true)
    decreases budget, 0
  {
    OnlineStops(cx, fuel, budget - 1, r.st, want, known, missing);
  }

  /** The last thing recorded is a planner call with this choice. */
  ghost predicate JustPlanned(st: State, choice: int) {
    st.world.log != [] && st.world.log[|st.world.log| - 1] == Planned(choice)
  }

  /** A step that returns false does not end the online loop: the loop ends with false only
      when the search returned an empty plan, right after that planner call. */
  lemma {:induction false} OnlineFalse(cx: Context, fuel: nat, budget: nat, st: State, want: seq<string>,
    known: seq<string>, missing: seq<string>)
    requires Faithful(cx)
    ensures (OnlineF(cx, fuel, budget, st, want, known, missing).Stop? &&
       OnlineF(cx, fuel, budget, st, want, known, missing).step.out == Done(false)) ==>
      JustPlanned(OnlineF(cx, fuel, budget, st, want, known, missing).step.st, 2)
    decreases budget, 2
  {
    if missing != [] && budget > 0 {
      RoundFalse(cx, fuel, budget, st, want, known, missing);
    }
  }

  lemma {:induction false} RoundFalse(cx: Context, fuel: nat, budget: nat, st: State, want: seq<string>,
    known: seq<string>, missing: seq<string>)
    requires Faithful(cx) && budget > 0
    ensures (RoundF(cx, fuel, budget, st, want, known, missing).Stop? &&
       RoundF(cx, fuel, budget, st, want, known, missing).step.out == Done(false)) ==>
      JustPlanned(RoundF(cx, fuel, budget, st, want, known, missing).step.st, 2)
    decreases budget, 1
  {
    var (st1, plan) := Consult(cx, st, known, missing, 2);
    ConsultRecords(cx, st, known, missing, 2);
    if plan.Some? && plan.value != [] {
      var r := StartF(cx, fuel, st1, ToLower(plan.value[0]));
      OnlineFalseAfterStep(cx, fuel, budget, want, r.st, Extracted(r.st.world.beliefs), Remaining(r.st.world.beliefs, want));
    }
  }

  lemma {:induction false} OnlineFalseAfterStep(cx: Context, fuel: nat, budget: nat, want: seq<string>, s: State,
    known: seq<string>, missing: seq<string>)
    requires Faithful(cx) && budget > 0
    ensures (OnlineF(cx, fuel, budget - 1, s, want, known, missing).Stop? &&
       OnlineF(cx, fuel, budget - 1, s, want, known, missing).step.out == Done(false)) ==>
      JustPlanned(OnlineF(cx, fuel, budget - 1, s, want, known, missing).step.st, 2)
    decreases budget, 0
  {
    OnlineFalse(cx, fuel, budget - 1, s, want, known, missing);
  }

  /** Nothing of the precondition is missing any more. */
  ghost predicate Settled(st: State, want: seq<string>) {
    Remaining(st.world.beliefs, want) == []
  }

  /** The online loop lets the recovery go on only with nothing missing: either nothing was
      missing to begin with, or the gap recomputed against the original predicates is empty. */
  lemma {:induction false} OnlineSettles(cx: Context, fuel: nat, budget: nat, st: State, want: seq<string>,
    known: seq<string>, missing: seq<string>)
    ensures OnlineF(cx, fuel, budget, st, want, known, missing).Continue? ==>
      missing == [] || Settled(FlowState(OnlineF(cx, fuel, budget, st, want, known, missing)), want)
    decreases budget, 2
  {
    if missing != [] && budget > 0 {
      RoundSettles(cx, fuel, budget, st, want, known, missing);
    }
  }

  lemma {:induction false} RoundSettles(cx: Context, fuel: nat, budget: nat, st: State, want: seq<string>,
    known: seq<string>, missing: seq<string>)
    requires budget > 0
    ensures RoundF(cx, fuel, budget, st, want, known, missing).Continue? ==>
      Settled(FlowState(RoundF(cx, fuel, budget, st, want, known, missing)), want)
    decreases budget, 1
  {
    var (st1, plan) := Consult(cx, st, known, missing, 2);
    if plan.Some? && plan.value != [] {
      var r := StartF(cx, fuel, st1, ToLower(plan.value[0]));
      OnlineSettlesAfterStep(cx, fuel, budget, want, r.st, Extracted(r.st.world.beliefs), Remaining(r.st.world.beliefs, want));
    }
  }

  lemma {:induction false} OnlineSettlesAfterStep(cx: Context, fuel: nat, budget: nat, want: seq<string>, s: State,
    known: seq<string>, missing: seq<string>)
    requires budget > 0
    ensures OnlineF(cx, fuel, budget - 1, s, want, known, missing).Continue? ==>
      missing == [] || Settled(FlowState(OnlineF(cx, fuel, budget - 1, s, want, known, missing)), want)
    decreases budget, 0
  {
    OnlineSettles(cx, fuel, budget - 1, s, want, known, missing);
  }

  /** The planning blocks never end a recovery with success; online, they let it go on only
      with nothing missing. */
  lemma BlocksOutcome(cx: Context, fuel: nat, st: State, want: seq<string>, beliefs: seq<string>, goals: seq<string>)
    ensures var fl := BlocksF(cx, fuel, st, want, beliefs, goals);
      && (fl.Stop? ==> fl.step.out != Done(true))
      && (fl.Continue? && st.fields.typeOfPlanning == 2 ==> (goals == [] && fl.st == st) || Settled(fl.st, want))
  {
    if st.fields.typeOfPlanning == 1 {
      OfflineOutcome(cx, fuel, st, beliefs, goals);
    }
    var offline := if st.fields.typeOfPlanning == 1 then OfflineF(cx, fuel, st, beliefs, goals) else Continue(st);
    if offline.Continue? && offline.st.fields.typeOfPlanning == 2 {
      OnlineStops(cx, fuel, fuel, offline.st, want, beliefs, goals);
      OnlineSettles(cx, fuel, fuel, offline.st, want, beliefs, goals);
    }
  }

  /** The planning part of a recovery never ends it with success; it plans in the normalised
      mode; and online it hands over to the retry only once nothing is missing. */
  lemma PhasesOutcome(cx: Context, fuel: nat, st: State, preds: seq<string>)
    requires Faithful(cx)
    ensures PhasesF(cx, fuel, st, preds).Stop? ==> PhasesF(cx, fuel, st, preds).step.out != Done(true)
    ensures FlowState(PhasesF(cx, fuel, st, preds)).fields.typeOfPlanning == NormalisedMode(st.fields.typeOfPlanning)
    ensures PhasesF(cx, fuel, st, preds).Continue? && NormalisedMode(st.fields.typeOfPlanning) == 2 ==>
      Settled(PhasesF(cx, fuel, st, preds).st, StripAll(preds))
  {
    var beliefs := Extracted(st.world.beliefs);
    var goals := Missing(beliefs, StripAll(preds));
    var st1 := st.(fields := st.fields.(typeOfPlanning := NormalisedMode(st.fields.typeOfPlanning)));
    assert goals == Gap(st1.world.beliefs, preds);
    BlocksOutcome(cx, fuel, st1, StripAll(preds), beliefs, goals);
    EvolvesBlocks(cx, fuel, st1, StripAll(preds), beliefs, goals);
  }

  /** A recovery succeeds only through its retry: the planning part let it go on, the
      original action (lower-cased) was started again and succeeded, and online nothing was
      missing any more when it was. */
  lemma RecoverSucceeds(cx: Context, fuel: nat, st: State, action: string, preds: seq<string>)
    requires Faithful(cx)
    ensures RecoverF(cx, fuel, st, action, preds).out == Done(true) ==>
      && fuel > 0
      && PhasesF(cx, fuel - 1, st, preds).Continue?
      && StartF(cx, fuel - 1, PhasesF(cx, fuel - 1, st, preds).st, ToLower(action)) == RecoverF(cx, fuel, st, action, preds)
      && (NormalisedMode(st.fields.typeOfPlanning) == 2 ==> Settled(PhasesF(cx, fuel - 1, st, preds).st, StripAll(preds)))
  {
    if fuel > 0 {
      PhasesOutcome(cx, fuel - 1, st, preds);
    }
  }

  /** With well-formed facts and predicates free of annotations, an empty gap means every
      predicate is held. */
  lemma GapEmptyHeld(bs: seq<Belief>, preds: seq<string>)
    requires forall b :: b in bs ==> IsAtom(b.fact)
    requires forall p :: p in preds ==> '[' !in p
    requires Gap(bs, preds) == []
    ensures AllHeld(bs, preds)
  {
    ExtractedFacts(bs);
    StripAllPlain(preds);
    MissingEmpty(Facts(bs), preds);
  }

  /** So the retry after a completed online loop finds its precondition held and succeeds. */
  lemma RetryAfterEmptyGap(cx: Context, fuel: nat, st: State, action: string)
    requires SchemaOf(action).Some? && SchemaOf(action).value.pre.Some?
    requires forall b :: b in st.world.beliefs ==> IsAtom(b.fact)
    requires Gap(st.world.beliefs, SchemaOf(action).value.pre.value) == []
    ensures StartF(cx, fuel, st, action).out == Done(true)
  {
    var sc := SchemaOf(action).value;
    SchemaFactsAreAtoms(action);
    forall p | p in sc.pre.value ensures '[' !in p {
      assert p in OrEmpty(sc.pre) + OrEmpty(sc.add) + OrEmpty(sc.del);
      assert IsAtom(p);
      forall i | 0 <= i < |p| ensures p[i] != '[' { assert IsAtomChar(p[i]); }
    }
    GapEmptyHeld(st.world.beliefs, sc.pre.value);
    StartApplies(cx, fuel, st, action, sc);
  }

  /** An empty plan stops the planning blocks with false right after the planner call. */
  lemma BlocksEmptyPlan(cx: Context, fuel: nat, st: State, want: seq<string>, beliefs: seq<string>, goals: seq<string>)
    requires Faithful(cx) && fuel >= 1
    requires st.fields.typeOfPlanning == 1 || (st.fields.typeOfPlanning == 2 && goals != [])
    requires cx.run(st.world, beliefs, goals, st.fields.typeOfPlanning).1 == Some([])
    ensures BlocksF(cx, fuel, st, want, beliefs, goals).Stop?
    ensures BlocksF(cx, fuel, st, want, beliefs, goals).step.out == Done(false)
    ensures BlocksF(cx, fuel, st, want, beliefs, goals).step.st.world.beliefs == st.world.beliefs
    ensures BlocksF(cx, fuel, st, want, beliefs, goals).step.st.world.log == st.world.log + [Planned(st.fields.typeOfPlanning)]
  {
    var st2 := Consult(cx, st, beliefs, goals, st.fields.typeOfPlanning).0;
    ConsultRecords(cx, st, beliefs, goals, st.fields.typeOfPlanning);
    if st.fields.typeOfPlanning == 1 {
      assert OfflineF(cx, fuel, st, beliefs, goals) == Stop(Step(Done(false), st2));
    } else {
      assert RoundF(cx, fuel, fuel, st, want, beliefs, goals) == Stop(Step(Done(false), st2));
    }
  }

  /** The state the planning blocks start from: the mode normalised. */
  function Normalised(st: State): State {
    st.(fields := st.fields.(typeOfPlanning := NormalisedMode(st.fields.typeOfPlanning)))
  }

  /** An empty plan, offline or online, stops the planning part with false after one planner
      call, before any plan step; by `RecoverEmptyPlan` the recovery then returns it. */
  lemma PhasesEmptyPlan(cx: Context, fuel: nat, st: State, preds: seq<string>)
    requires Faithful(cx) && fuel >= 1
    requires NormalisedMode(st.fields.typeOfPlanning) == 2 ==> Gap(st.world.beliefs, preds) != []
    requires cx.run(st.world, Extracted(st.world.beliefs), Gap(st.world.beliefs, preds), NormalisedMode(st.fields.typeOfPlanning)).1 == Some([])
    ensures PhasesF(cx, fuel, st, preds).Stop?
    ensures PhasesF(cx, fuel, st, preds).step.out == Done(false)
    ensures PhasesF(cx, fuel, st, preds).step.st.world.beliefs == st.world.beliefs
    ensures PhasesF(cx, fuel, st, preds).step.st.world.log == st.world.log + [Planned(NormalisedMode(st.fields.typeOfPlanning))]
  {
    assert PhasesF(cx, fuel, st, preds)
      == BlocksF(cx, fuel, Normalised(st), StripAll(preds), Extracted(st.world.beliefs), Gap(st.world.beliefs, preds));
    BlocksEmptyPlan(cx, fuel, Normalised(st), StripAll(preds), Extracted(st.world.beliefs), Gap(st.world.beliefs, preds));
  }

  /** A recovery whose planning part stops ends as it does: the original action is not
      retried. */
  lemma RecoverStopped(cx: Context, fuel: nat, st: State, action: string, preds: seq<string>)
    requires fuel >= 1 && PhasesF(cx, fuel - 1, st, preds).Stop?
    ensures RecoverF(cx, fuel, st, action, preds) == PhasesF(cx, fuel - 1, st, preds).step
  {
  }

  /** An empty plan, offline or online, makes the recovery return false after one planner
      call: no plan step is started and the original action is not retried. */
  lemma RecoverEmptyPlan(cx: Context, fuel: nat, st: State, action: string, preds: seq<string>)
    requires Faithful(cx) && fuel >= 2
    requires NormalisedMode(st.fields.typeOfPlanning) == 2 ==> Gap(st.world.beliefs, preds) != []
    requires cx.run(st.world, Extracted(st.world.beliefs), Gap(st.world.beliefs, preds), NormalisedMode(st.fields.typeOfPlanning)).1 == Some([])
    ensures var r := RecoverF(cx, fuel, st, action, preds);
      && r.out == Done(false)
      && r.st.world.beliefs == st.world.beliefs
      && r.st.world.log == st.world.log + [Planned(NormalisedMode(st.fields.typeOfPlanning))]
  {
    PhasesEmptyPlan(cx, fuel - 1, st, preds);
    RecoverStopped(cx, fuel, st, action, preds);
  }

  // ---------------------------------------------------------------------------------------
  // The action object

  /** The fields of a newly constructed action object: empty accumulators, online planning. */
  const NewFields: Fields := Fields([], [], [], false, 2)

  class ActionClass {
    var precondition: seq<string>
    var beliefsToAdd: seq<string>
    var beliefsToDelete: seq<string>
    var recoveryRequired: bool
    /** 1 plans offline, 2 online; public, so a caller may set any value. */
    var typeOfPlanning: int

    constructor ()
      ensures precondition == [] && beliefsToAdd == [] && beliefsToDelete == []
      ensures !recoveryRequired && typeOfPlanning == 2
    {
      precondition := [];
      beliefsToAdd := [];
      beliefsToDelete := [];
      recoveryRequired := false;
      typeOfPlanning := 2;
    }

    function Now(ag: Agent, host: Host): State
      reads this, ag, host
    {
      State(Snapshot(ag, host), Fields(precondition, beliefsToAdd, beliefsToDelete, recoveryRequired, typeOfPlanning))
    }

    method StartAction(ag: Agent, host: Host, action: string, fuel: nat, ghost cx: Context) returns (out: Outcome)
      requires Serves(cx, ag, host)
      modifies this, ag, host
      ensures Step(out, Now(ag, host)) == StartF(cx, fuel, old(Now(ag, host)), action)
      decreases fuel, 3, 0
    {
      precondition := [];
      beliefsToAdd := [];
      beliefsToDelete := [];
      host.log := host.log + [Executing(action)];
      match SchemaOf(action)
      case None =>
        out := Done(false);
      case Some(sc) =>
        precondition := OrEmpty(sc.pre);
        beliefsToAdd := OrEmpty(sc.add);
        beliefsToDelete := OrEmpty(sc.del);
        out := RunAction(ag, host, action, sc.pre, sc.add, sc.del, fuel, cx);
    }

    method RunAction(ag: Agent, host: Host, action: string, pre: Option<seq<string>>,
      add: Option<seq<string>>, del: Option<seq<string>>, fuel: nat, ghost cx: Context) returns (out: Outcome)
      requires Serves(cx, ag, host)
      modifies this, ag, host
      ensures Step(out, Now(ag, host)) == RunF(cx, fuel, old(Now(ag, host)), action, pre, add, del)
      decreases fuel, 2, 0
    {
      recoveryRequired := false;
      if pre.None? {
        ApplyEffectsTo(ag, add, del);
        return Done(true);
      }
      var allBelsPresent := AllBeliefsPresent(ag.beliefs, pre.value);
      if allBelsPresent {
        ApplyEffectsTo(ag, add, del);
        return Done(true);
      }
      recoveryRequired := true;
      out := RecoveryOperation(ag, host, action, pre.value, fuel, cx);
    }

    /** The add loop and then the delete loop of `runAction`; a null list is skipped. */
    method ApplyEffectsTo(ag: Agent, add: Option<seq<string>>, del: Option<seq<string>>)
      modifies ag
      ensures ag.beliefs == ApplyEffects(old(ag.beliefs), OrEmpty(add), OrEmpty(del))
    {
      var facts := OrEmpty(add);
      for i := 0 to |facts|
        invariant ag.beliefs == AddAll(old(ag.beliefs), facts[..i])
      {
        ag.AddBel(facts[i]);
        assert facts[..i + 1][..i] == facts[..i];
      }
      assert facts[..|facts|] == facts;
      ghost var added := ag.beliefs;
      facts := OrEmpty(del);
      for i := 0 to |facts|
        invariant ag.beliefs == DelAll(added, facts[..i])
      {
        ag.DelBel(facts[i]);
        assert facts[..i + 1][..i] == facts[..i];
      }
      assert facts[..|facts|] == facts;
    }

    /** `recoveryOperation`: the planning phases, then the original action lower-cased and
        started again; its result is the recovery's result. */
    method RecoveryOperation(ag: Agent, host: Host, action: string, predicates: seq<string>, fuel: nat, ghost cx: Context)
      returns (out: Outcome)
      requires Serves(cx, ag, host)
      modifies this, ag, host
      ensures Step(out, Now(ag, host)) == RecoverF(cx, fuel, old(Now(ag, host)), action, predicates)
      decreases fuel, 1, 0
    {
      if fuel == 0 {
        return OutOfFuel;
      }
      var stop := Phases(ag, host, predicates, fuel - 1, cx);
      if stop.Some? {
        return stop.value;
      }
      out := StartAction(ag, host, ToLower(action), fuel - 1, cx);
    }

    /** The first part of `recoveryOperation`: beliefs extracted, the gap found, the mode
        normalised, then the offline block and the online block. None means the original
        action is to be retried. */
    method Phases(ag: Agent, host: Host, predicates: seq<string>, fuel: nat, ghost cx: Context) returns (stop: Option<Outcome>)
      requires Serves(cx, ag, host)
      modifies this, ag, host
      ensures AsFlow(stop, Now(ag, host)) == PhasesF(cx, fuel, old(Now(ag, host)), predicates)
      decreases fuel, 9, 0
    {
      ghost var before := Now(ag, host);
      var beliefs := ExtractBeliefs(ag);
      var goalStates := FindPredicates(beliefs, predicates);
      if typeOfPlanning != 1 && typeOfPlanning != 2 {
        typeOfPlanning := 2;
      }
      ghost var normalised := Now(ag, host);
      assert PhasesF(cx, fuel, before, predicates) == BlocksF(cx, fuel, normalised, StripAll(predicates), beliefs, goalStates);
      stop := None;
      if typeOfPlanning == 1 {
        stop := Offline(ag, host, beliefs, goalStates, fuel, cx);
        if stop.Some? {
          return;
        }
      }
      ghost var offline := Now(ag, host);
      assert BlocksF(cx, fuel, normalised, StripAll(predicates), beliefs, goalStates)
        == if offline.fields.typeOfPlanning == 2 then OnlineF(cx, fuel, fuel, offline, StripAll(predicates), beliefs, goalStates) else Continue(offline);
      if typeOfPlanning == 2 {
        stop := Online(ag, host, predicates, beliefs, goalStates, fuel, cx);
      }
    }

    /** The offline block: one FF plan, every step started in order whatever its result. */
    method Offline(ag: Agent, host: Host, beliefs: seq<string>, goalStates: seq<string>, fuel: nat, ghost cx: Context)
      returns (stop: Option<Outcome>)
      requires Serves(cx, ag, host)
      modifies this, ag, host
      ensures AsFlow(stop, Now(ag, host)) == OfflineF(cx, fuel, old(Now(ag, host)), beliefs, goalStates)
      decreases fuel, 7, 0
    {
      ghost var before := Now(ag, host);
      var plan := Run(host, ag.name, beliefs, goalStates, 1);
      assert RunResult(cx.planners, cx.agName, before.world, beliefs, goalStates, 1) == (Now(ag, host).world, plan);
      if plan.None? {
        return Some(Threw);
      }
      if plan.value == [] {
        return Some(Done(false));
      }
      stop := ExecuteAll(ag, host, plan.value, fuel, cx);
    }

    /** The `for` loop of the offline block. */
    method ExecuteAll(ag: Agent, host: Host, plan: seq<string>, fuel: nat, ghost cx: Context) returns (stop: Option<Outcome>)
      requires Serves(cx, ag, host)
      modifies this, ag, host
      ensures AsFlow(stop, Now(ag, host)) == ExecuteAllF(cx, fuel, old(Now(ag, host)), plan, 0)
      decreases fuel, 6, 0
    {
      ghost var top := ExecuteAllF(cx, fuel, Now(ag, host), plan, 0);
      for i := 0 to |plan|
        invariant ExecuteAllF(cx, fuel, Now(ag, host), plan, i) == top
      {
        var success := StartAction(ag, host, ToLower(plan[i]), fuel, cx);
        if !success.Done? {
          return Some(success);
        }
      }
      return None;
    }

    /** The online block: while facts are missing, one round; `fuel` also bounds the rounds. */
    method Online(ag: Agent, host: Host, predicates: seq<string>, beliefs: seq<string>, goalStates: seq<string>, fuel: nat, ghost cx: Context)
      returns (stop: Option<Outcome>)
      requires Serves(cx, ag, host)
      modifies this, ag, host
      ensures AsFlow(stop, Now(ag, host)) == OnlineF(cx, fuel, fuel, old(Now(ag, host)), StripAll(predicates), beliefs, goalStates)
      decreases fuel, 5, 1
    {
      ghost var top := OnlineF(cx, fuel, fuel, Now(ag, host), StripAll(predicates), beliefs, goalStates);
      var known, missing := beliefs, goalStates;
      var budget: nat := fuel;
      while missing != []
        invariant OnlineF(cx, fuel, budget, Now(ag, host), StripAll(predicates), known, missing) == top
        decreases budget
      {
        if budget == 0 {
          return Some(OutOfFuel);
        }
        budget := budget - 1;
        stop, known, missing := OnlineRound(ag, host, predicates, known, missing, fuel, budget, top, cx);
        if stop.Some? {
          return;
        }
      }
      return None;
    }

    /** One pass of the online loop: a plan from the search, its first action started, the
        gap recomputed. `left` rounds remain after this one; `top` is where the whole online
        block ends. */
    method OnlineRound(ag: Agent, host: Host, predicates: seq<string>, known: seq<string>, missing: seq<string>,
      fuel: nat, ghost left: nat, ghost top: Flow, ghost cx: Context)
      returns (stop: Option<Outcome>, known': seq<string>, missing': seq<string>)
      requires RoundF(cx, fuel, left + 1, Now(ag, host), StripAll(predicates), known, missing) == top
      requires Serves(cx, ag, host)
      modifies this, ag, host
      ensures stop.Some? ==> top == Stop(Step(stop.value, Now(ag, host)))
      ensures stop.None? ==> OnlineF(cx, fuel, left, Now(ag, host), StripAll(predicates), known', missing') == top
      decreases fuel, 5, 0
    {
      ghost var before := Now(ag, host);
      var plan := Run(host, ag.name, known, missing, 2);
      assert RunResult(cx.planners, cx.agName, before.world, known, missing, 2) == (Now(ag, host).world, plan);
      if plan.None? {
        return Some(Threw), known, missing;
      }
      if plan.value == [] {
        return Some(Done(false)), known, missing;
      }
      var success := StartAction(ag, host, ToLower(plan.value[0]), fuel, cx);
      if !success.Done? {
        return Some(success), known, missing;
      }
      known' := ExtractBeliefs(ag);
      missing' := FindPredicates(known', predicates);
      stop := None;
    }

    /** `findPredicates`: the annotation-stripped predicates that are not among `beliefs`,
        in their original order. */
    static method FindPredicates(beliefs: seq<string>, predicates: seq<string>) returns (missing: seq<string>)
      ensures missing == Missing(beliefs, StripAll(predicates))
    {
      missing := [];
      for i := 0 to |predicates|
        invariant missing == Missing(beliefs, StripAll(predicates[..i]))
      {
        var tempPred := StripSource(predicates[i]);
        if tempPred !in beliefs {
          missing := missing + [tempPred];
        }
        assert StripAll(predicates[..i + 1]) == StripAll(predicates[..i]) + [tempPred];
      }
      assert predicates[..|predicates|] == predicates;
    }

    /** `allBeliefsPresent`: true exactly when every fact is held, false at the first one
        that is not. */
    static method AllBeliefsPresent(bs: seq<Belief>, facts: seq<string>) returns (present: bool)
      ensures present <==> AllHeld(bs, facts)
    {
      for i := 0 to |facts|
        invariant forall k :: 0 <= k < i ==> facts[k] in Facts(bs)
      {
        if facts[i] !in Facts(bs) {
          return false;
        }
      }
      return true;
    }

    /** `extractBeliefs`: each held belief's text with its annotation removed, trimmed. */
    method ExtractBeliefs(ag: Agent) returns (filtered: seq<string>)
      ensures filtered == Extracted(ag.beliefs)
    {
      filtered := [];
      for i := 0 to |ag.beliefs|
        invariant |filtered| == i
        invariant forall k :: 0 <= k < i ==> filtered[k] == Normalize(Render(ag.beliefs[k]))
      {
        var beliefString := Render(ag.beliefs[i]);
        beliefString := Replace(Replace(beliefString, SelfAnnotation, ""), PerceptsAnnotation, "");
        filtered := filtered + [Trim(beliefString)];
      }
    }
  }
}
