# Plan-based failure recovery for Gwendolen agents

This project is a Dafny model of the failure-recovery layer of MCAPL-Automated-Planning. In that layer, a Gwendolen/AIL agent calls a PDDL planner when something it needs is not believed. It covers five parts of the repository:

- **`ActionClass`** holds the nine actions. It dispatches on the action's name (`startAction`), checks the precondition against the belief base, and applies add-then-delete effects (`runAction`). When a precondition fact is missing, it runs `recoveryOperation`:
  - it extracts the beliefs and computes the gap (`extractBeliefs`, `findPredicates`);
  - it normalises the planning mode;
  - it consults the planner offline (one FF plan, every step executed) or online (one step of the search at a time, replanning until nothing is missing);
  - then it starts the original action once more.
- **`GenerateApplicablePlansEmptyProblemGoal.recoveryOperation`** recovers a goal with no applicable plan. It takes the first plan whose trigger starts with the goal, cleans the plan's context into facts (`preProcessPredicates`), and runs the same offline and online blocks against the facts of the context.
- **`Planning.execute`** is the `planning` action. It plans for the predicates given to it, which are used as they are. Offline, it starts only the first action of the plan. Online, it loops until every predicate is believed.
- **`PDDLGenerator`** writes the PDDL problem text:
  - the header;
  - `:init` with one line per belief, or negated goals when there are no beliefs, closed by a `dummyPredicate` anchor;
  - `:goal (and …)`;
  - the footer.
- **`RunPlanner`** writes the problem, then runs FF and parses its output with `\d+:\s+([A-Z]+)` (`extractSteps`), or asks the embedded A* search for one action.

Here is how the model represents them:

- **Strings.** Strings are `seq<char>`. The Java `String` and regex operations used are written out in `JavaStrings`.
- **Agent and host.** The agent is a class holding its name and a belief base of `(fact, source)` entries. The host is a class holding the files on disk and a log of the actions announced and the planner calls made.
- **Planners.** The two planners are function values: FF maps its command line and the files to its output text, and A* maps its arguments and the files to zero or one action.
- **Spec functions.** Each of the three recoveries and the action methods is a pure specification function over a `State`. A `State` holds the world (beliefs, files, log) and the fields of the action object. Each imperative method is proved equal to its specification function. The properties are lemmas about the functions.
- **Outcomes.** A call ends with `Done(b)` (Java returned `b`) or `Threw` (a null plan dereferenced, or `get(0)` of an empty list). It can also end with `OutOfFuel`, because a `fuel` bound stands in for termination, which the source does not guarantee.

## Model

| member | source | states |
|---|---|---|
| Actions.SchemaDefined | src/examples/gwendolen/project/ActionClass.java:61-108 | an action name has a schema exactly when it is one of the nine names `startAction` dispatches on |
| Actions.SchemaFactsNamed | src/examples/gwendolen/project/ActionClass.java:258-342 | every precondition, add and delete fact of every schema is one of the fact literals the class declares |
| Actions.FactNamesAreAtoms | src/examples/gwendolen/project/ActionClass.java:32-46 | every declared fact literal is a well-formed atom (letters only), so its rendering round-trips through `extractBeliefs` |
| Actions.NormalisedMode | src/examples/gwendolen/project/ActionClass.java:166-169 | the mode used is always 1 or 2; a mode of 1 or 2 is kept and any other value becomes 2 |
| Actions.StartUnknown | src/examples/gwendolen/project/ActionClass.java:54-108 | an unknown action name returns false. Beliefs and files are unchanged, only the announcement is logged, and the three accumulators are emptied |
| Actions.StartApplies | src/examples/gwendolen/project/ActionClass.java:120-139 | with no precondition, or with every precondition fact believed, the action succeeds. The new facts are exactly the old ones plus the adds minus the deletes. No file changes and no planner call happens. The accumulators hold the schema's lists and `recoveryRequired` is false |
| Actions.BuyPhone | src/examples/gwendolen/project/ActionClass.java:265-272 | `buyphone` on a belief base holding only `hasMoney` succeeds and leaves only `hasPhone` |
| Actions.ConsultEffects | src/examples/gwendolen/project/ActionClass.java:173 | a planner call from a recovery changes only the world. The files become those `RunPlanner.run` leaves, and the plan is what it returns for them |
| Actions.ConsultRecords | src/examples/gwendolen/project/ActionClass.java:189 | a planner call leaves the beliefs and the action object's fields unchanged and appends exactly one planner-call entry to the log |
| Actions.EvolvesStart | src/examples/gwendolen/project/ActionClass.java:54-109 | an action, with any recovery it triggers, only appends to the log and changes no file other than the problem file. The mode stays the same or goes from an invalid value to 2 |
| Actions.EvolvesRecover | src/examples/gwendolen/project/ActionClass.java:159-209 | the same frame for a whole `recoveryOperation` |
| Actions.ExecuteAllStops | src/examples/gwendolen/project/ActionClass.java:181-184 | the offline loop does not stop on a failing step. It stops early only on an exception or the recursion bound |
| Actions.OfflineOutcome | src/examples/gwendolen/project/ActionClass.java:172-185 | the offline block never ends the recovery with true |
| Actions.OnlineStops | src/examples/gwendolen/project/ActionClass.java:188-204 | the online loop never leaves the recovery early with true |
| Actions.OnlineFalse | src/examples/gwendolen/project/ActionClass.java:188-204 | a plan step that returns false does not end the online loop: the loop ends with false only when the search returned an empty plan, and that planner call is the last thing logged |
| Actions.OnlineSettles | src/examples/gwendolen/project/ActionClass.java:188-204 | the online loop finishes only when the gap was empty to begin with, or when the gap recomputed against the original predicates is empty |
| Actions.BlocksOutcome | src/examples/gwendolen/project/ActionClass.java:171-205 | the planning blocks stop only without success. Online, they continue only when the gap was already empty, leaving the state unchanged, or when every wanted fact is now believed |
| Actions.PhasesOutcome | src/examples/gwendolen/project/ActionClass.java:160-205 | the planning part normalises the mode and stops only without success. Online, it continues only when every annotation-stripped precondition fact is believed |
| Actions.RecoverSucceeds | src/examples/gwendolen/project/ActionClass.java:207-208 | a recovery succeeds only through the retry of the original action, lower-cased, after the planning part has finished. Online, the precondition is then believed |
| Actions.RecoverEmptyPlan | src/examples/gwendolen/project/ActionClass.java:159-209 | after mode normalisation, an empty plan in either mode makes `recoveryOperation` return false right after one logged planner call: beliefs unchanged, no plan step started and the original action not retried |
| Actions.GapEmptyHeld | src/examples/gwendolen/project/ActionClass.java:217-241 | with well-formed beliefs and unannotated facts, an empty gap means `allBeliefsPresent` holds |
| Actions.RetryAfterEmptyGap | src/examples/gwendolen/project/ActionClass.java:133-139 | an action whose precondition gap is empty succeeds without recovery |
| Actions.BlocksEmptyPlan | src/examples/gwendolen/project/ActionClass.java:175-195 | an empty plan, offline or online, ends the planning with false. The beliefs are unchanged and exactly one planner call is logged |
| Actions.PhasesEmptyPlan | src/examples/gwendolen/project/ActionClass.java:166-195 | after mode normalisation, an empty plan in either mode makes the recovery's planning part return false. No action is started and the beliefs are unchanged |
| Actions.ActionClass.constructor | src/examples/gwendolen/project/ActionClass.java:15-26 | a new action object has `recoveryRequired` false and online planning (mode 2); the three lists, null in the source until `startAction` assigns new lists, are modelled as `[]`, which no path can tell apart because every use comes after `startAction` |
| Actions.ActionClass.StartAction | src/examples/gwendolen/project/ActionClass.java:54-109 | its result and the new agent, host and fields are those of the specification of `startAction` |
| Actions.ActionClass.RunAction | src/examples/gwendolen/project/ActionClass.java:120-149 | its result and new state are those of the specification of `runAction` |
| Actions.ActionClass.ApplyEffectsTo | src/examples/gwendolen/project/ActionClass.java:137-138 | the belief base after the add loop and then the delete loop; a missing list adds or deletes nothing |
| Actions.ActionClass.RecoveryOperation | src/examples/gwendolen/project/ActionClass.java:159-209 | its result and new state are those of the specification of `recoveryOperation` |
| Actions.ActionClass.Phases | src/examples/gwendolen/project/ActionClass.java:160-205 | extraction, gap, mode normalisation and the two planning blocks, as specified |
| Actions.ActionClass.Offline | src/examples/gwendolen/project/ActionClass.java:172-185 | the offline block: a null plan throws, an empty one returns false, otherwise every step is started |
| Actions.ActionClass.ExecuteAll | src/examples/gwendolen/project/ActionClass.java:181-184 | the loop over the plan's steps, each lower-cased and started |
| Actions.ActionClass.Online | src/examples/gwendolen/project/ActionClass.java:187-205 | the online `while` loop: rounds while the gap is not empty |
| Actions.ActionClass.OnlineRound | src/examples/gwendolen/project/ActionClass.java:189-203 | one round: the search is called, its first action is started, and the beliefs and the gap against the original predicates are recomputed |
| Actions.ActionClass.FindPredicates | src/examples/gwendolen/project/ActionClass.java:217-227 | the annotation-stripped predicates not among the beliefs, in order (a subsequence, empty iff all are present); the goal recovery's copy of `findPredicates` (GenerateApplicablePlansEmptyProblemGoal.java, lines 171-180) is the same code, so this method models both |
| Actions.ActionClass.AllBeliefsPresent | src/examples/gwendolen/project/ActionClass.java:234-241 | true exactly when every precondition fact is believed (vacuously for an empty list) |
| Actions.ActionClass.ExtractBeliefs | src/examples/gwendolen/project/ActionClass.java:248-256 | each belief rendered, its annotations removed and trimmed, in belief-base order |
| Environment.Extracted | src/examples/gwendolen/project/ActionClass.java:248-256 | one string per belief, in order, each the normalised rendering of that belief |
| Environment.NormalizeRender | src/examples/gwendolen/project/ActionClass.java:251-253 | for a well-formed fact, removing the source annotation from its rendering and trimming gives the fact back |
| Environment.ExtractedFacts | src/examples/gwendolen/project/ActionClass.java:248-256 | over well-formed facts, the extracted beliefs are exactly the facts |
| Environment.AddAllHolds | src/examples/gwendolen/project/ActionClass.java:137 | after the add loop, a fact is believed iff it was before or is added; a belief base without duplicate facts keeps none |
| Environment.DelAllHolds | src/examples/gwendolen/project/ActionClass.java:138 | after the delete loop, a fact is believed iff it was before and is not deleted; a belief base without duplicate facts keeps none |
| Environment.ApplyEffectsHolds | src/examples/gwendolen/project/ActionClass.java:137-138 | add then delete: a fact that is both added and deleted ends up absent |
| Environment.Agent.AddBel | src/examples/gwendolen/project/ActionClass.java:137 | the belief base after one `addBel` |
| Environment.Agent.DelBel | src/examples/gwendolen/project/ActionClass.java:138 | the belief base after one `delBel` |
| GapAnalysis.Missing | src/examples/gwendolen/project/Planning.java:87-93 | the wanted strings not among those held: a subsequence of the input, holding x iff x is wanted and not held; how often each appears is `GapAnalysis.MissingCounts` |
| GapAnalysis.MissingCounts | src/examples/gwendolen/project/Planning.java:87-93 | the loop adds every wanted string that is not held, each time it occurs: a string not held appears in the gap as many times as it is wanted, a held one never |
| GapAnalysis.MissingEmpty | src/examples/gwendolen/project/Planning.java:87-93 | the gap is empty iff every wanted string is held |
| GapAnalysis.StripAll | src/classes/ail/semantics/operationalrules/GenerateApplicablePlansEmptyProblemGoal.java:174 | each predicate with its source annotations removed, in order |
| JavaStrings.Trim | src/examples/gwendolen/project/ActionClass.java:253 | `trim()` gives text without trimmable ends and adds no character |
| JavaStrings.Remove | src/classes/ail/semantics/operationalrules/GenerateApplicablePlansEmptyProblemGoal.java:186 | a character-class `replaceAll` with an empty replacement keeps exactly the characters outside the class |
| JavaStrings.ReplaceChars | src/classes/ail/semantics/operationalrules/GenerateApplicablePlansEmptyProblemGoal.java:188 | a literal replace introduces no character from outside the text and the replacement |
| JavaStrings.StripSourcePlain | src/examples/gwendolen/project/ActionClass.java:221 | text without `[` is left unchanged by the annotation regex |
| JavaStrings.Split | src/classes/ail/semantics/operationalrules/GenerateApplicablePlansEmptyProblemGoal.java:193 | `split("&")` returns the text itself when there is no separator, and otherwise the parts without trailing empty strings. No part contains the separator |
| JavaStrings.JoinRawSplit | src/classes/ail/semantics/operationalrules/GenerateApplicablePlansEmptyProblemGoal.java:193 | the parts of a split, joined with the separator, give the text back |
| JavaStrings.ToLower | src/examples/gwendolen/project/ActionClass.java:182 | `toLowerCase` maps each upper-case ASCII letter to its lower-case letter and keeps the rest |
| PDDLGenerator.Unwrap | src/examples/gwendolen/project/PDDLGenerator.java:125 | the anchored regex replace never lengthens the text and adds no character |
| PDDLGenerator.UnwrapOneLine | src/examples/gwendolen/project/PDDLGenerator.java:125 | on one line, one outer pair of parentheses is removed exactly when the text starts with `(` and ends with `)` |
| PDDLGenerator.TrimAll | src/examples/gwendolen/project/PDDLGenerator.java:130-132 | each part trimmed, in order |
| PDDLGenerator.ConjunctionParts | src/examples/gwendolen/project/PDDLGenerator.java:128-132 | a conjunction gives its `&`-separated parts trimmed, in order, minus trailing empty parts |
| PDDLGenerator.PreprocessedSingles | src/examples/gwendolen/project/PDDLGenerator.java:120-139 | predicates without `&` give one output each, in order, each the predicate unwrapped and trimmed |
| PDDLGenerator.PreprocessedAtoms | src/examples/gwendolen/project/PDDLGenerator.java:120-139 | well-formed atoms pass through preprocessing unchanged |
| PDDLGenerator.PreprocessedChars | src/examples/gwendolen/project/PDDLGenerator.java:120-139 | every character of every output comes from some input predicate |
| PDDLGenerator.AddTrimmedParts | src/examples/gwendolen/project/PDDLGenerator.java:130-132 | the inner loop appends the trimmed parts in order |
| PDDLGenerator.PreprocessPredicates | src/examples/gwendolen/project/PDDLGenerator.java:120-139 | the loop's result is the specified preprocessing of the predicates |
| PDDLGenerator.ProblemTextBlocks | src/examples/gwendolen/project/PDDLGenerator.java:33-37 | the text is the header, then `:init`, then `:goal`, then the footer, with the goals preprocessed |
| PDDLGenerator.ProblemLinesFrame | src/examples/gwendolen/project/PDDLGenerator.java:55-58 | it starts with `(define (problem textingproblem)`, `  (:domain shoppingdomain)` and `  (:init`, ends with `)`, and has ten lines besides one `:init` line per belief (or per goal without beliefs) and one `:goal` line per goal |
| PDDLGenerator.InitLinesContent | src/examples/gwendolen/project/PDDLGenerator.java:69-82 | with beliefs, one `(b)` line per belief in order; without beliefs, one `(not (g))` line per goal in order; then the anchor and the close |
| PDDLGenerator.AnchorOnce | src/examples/gwendolen/project/PDDLGenerator.java:80-81 | when no belief is `dummyPredicate`, the anchor line occurs exactly once, as the last line before the `:init` block closes |
| PDDLGenerator.GoalBlockContent | src/examples/gwendolen/project/PDDLGenerator.java:91-102 | `(:goal`, `(and`, one `(p)` line per goal in order, and the two closing lines |
| PDDLGenerator.GoalFactPlain | src/examples/gwendolen/project/PDDLGenerator.java:96 | the literal replace at the goal line removes nothing from a predicate without a backslash |
| PDDLGenerator.GoalAnnotationKept | src/examples/gwendolen/project/PDDLGenerator.java:96 | a `[source(self)]` annotation survives into the goal line |
| PDDLGenerator.ProblemLinesBalanced | src/examples/gwendolen/project/PDDLGenerator.java:55-112 | with parenthesis-free facts and goals, the lines' parentheses are balanced and never close more than were opened |
| PDDLGenerator.SplitUnlines | src/examples/gwendolen/project/PDDLGenerator.java:55-112 | every `write` ends its line with a newline, so text made of newline-free lines splits at its newlines back into exactly those lines, followed by the empty text after the last newline |
| PDDLGenerator.ProblemTextBalanced | src/examples/gwendolen/project/PDDLGenerator.java:19-45 | the same for the whole generated problem text |
| PDDLGenerator.Writer.Write | src/examples/gwendolen/project/PDDLGenerator.java:26 | a write appends its text to what was written |
| PDDLGenerator.WriteFacts | src/examples/gwendolen/project/PDDLGenerator.java:72-74 | the belief loop writes one fact line per belief |
| PDDLGenerator.WriteNegatedGoals | src/examples/gwendolen/project/PDDLGenerator.java:76-78 | the fallback loop writes one negated line per goal |
| PDDLGenerator.WriteGoals | src/examples/gwendolen/project/PDDLGenerator.java:95-98 | the goal loop writes one goal line per predicate |
| PDDLGenerator.WritePDDLHeader | src/examples/gwendolen/project/PDDLGenerator.java:55-58 | appends the two header lines |
| PDDLGenerator.WritePDDLInitialState | src/examples/gwendolen/project/PDDLGenerator.java:69-82 | appends the `:init` block |
| PDDLGenerator.WritePDDLGoalState | src/examples/gwendolen/project/PDDLGenerator.java:91-102 | appends the `:goal` block |
| PDDLGenerator.WritePDDLFooter | src/examples/gwendolen/project/PDDLGenerator.java:110-112 | appends the footer |
| PDDLGenerator.Generate | src/examples/gwendolen/project/PDDLGenerator.java:19-45 | the problem file becomes the problem text; no other file and nothing in the log changes |
| RunPlanner.MatchAt | src/examples/gwendolen/project/RunPlanner.java:83 | a match starts at a digit and captures a maximal, non-empty upper-case token lying inside the text |
| RunPlanner.Steps | src/examples/gwendolen/project/RunPlanner.java:89-92 | every step found is a non-empty upper-case token |
| RunPlanner.ExtractSteps | src/examples/gwendolen/project/RunPlanner.java:79-94 | the `find` loop returns the specified left-to-right matches |
| RunPlanner.StepsNoMatch | src/examples/gwendolen/project/RunPlanner.java:83-93 | the `find()` loop reports no step exactly when `\d+:\s+([A-Z]+)` matches nowhere in the output, so a non-empty step list means the pattern matched somewhere |
| RunPlanner.NoDigitNoSteps | src/examples/gwendolen/project/RunPlanner.java:79-94 | output without a digit, such as FF's report that the goal cannot be reached, gives no steps |
| RunPlanner.ColonWithoutBlank | src/examples/gwendolen/project/RunPlanner.java:83 | `0:BUYPHONE` gives no step, because whitespace is required after the colon |
| RunPlanner.StepsListing | src/examples/gwendolen/project/RunPlanner.java:79-94 | a listing of well-formed numbered plan lines gives exactly its actions, in order |
| RunPlanner.ProblemFileMismatch | src/examples/gwendolen/project/RunPlanner.java:35 | the planners read `<agName>problem.pddl`, which is the file the generator writes only when the agent's name is empty |
| RunPlanner.RunPlannerSafely | src/examples/gwendolen/project/RunPlanner.java:102-124 | zero or one action; empty exactly when the search fails |
| RunPlanner.PlanForShape | src/examples/gwendolen/project/RunPlanner.java:29-71 | choices other than 1 and 2 give null. Choice 1 gives null exactly when FF fails, and otherwise upper-case steps. Choice 2 always gives a list of at most one action |
| RunPlanner.Run | src/examples/gwendolen/project/RunPlanner.java:29-71 | the problem file is written first, whatever the choice; one planner call is logged; the plan is the one specified for the choice |
| GoalRecovery.Relevant | src/classes/ail/semantics/operationalrules/GenerateApplicablePlansEmptyProblemGoal.java:97-101 | the plans whose trigger starts with the goal, in order (a subsequence of the plans) |
| GoalRecovery.RelevantNone | src/classes/ail/semantics/operationalrules/GenerateApplicablePlansEmptyProblemGoal.java:97-101 | with no matching trigger, nothing is selected |
| GoalRecovery.RelevantFirst | src/classes/ail/semantics/operationalrules/GenerateApplicablePlansEmptyProblemGoal.java:103 | the plan fixed is the first plan whose trigger matches |
| GoalRecovery.FilterPlans | src/classes/ail/semantics/operationalrules/GenerateApplicablePlansEmptyProblemGoal.java:95-101 | the filtering loop returns the relevant plans |
| GoalRecovery.Cleaned | src/classes/ail/semantics/operationalrules/GenerateApplicablePlansEmptyProblemGoal.java:186-190 | the cleaned context has only characters of the context, and none of `[ ] ( ) ,` or space |
| GoalRecovery.PreProcessPredicates | src/classes/ail/semantics/operationalrules/GenerateApplicablePlansEmptyProblemGoal.java:182-200 | the loop's result is the specified cleaning and splitting of every predicate |
| GoalRecovery.FormattedOneClean | src/classes/ail/semantics/operationalrules/GenerateApplicablePlansEmptyProblemGoal.java:186-197 | every output of one predicate has only its characters, none of `[ ] ( ) ,`, space or `&` |
| GoalRecovery.FormattedClean | src/classes/ail/semantics/operationalrules/GenerateApplicablePlansEmptyProblemGoal.java:182-200 | no output of the preprocessing contains `[ ] ( ) ,`, space or `&` |
| GoalRecovery.FormattedOneShape | src/classes/ail/semantics/operationalrules/GenerateApplicablePlansEmptyProblemGoal.java:192-197 | without `&`, exactly one output, the cleaned text; with `&`, the trimmed `&`-separated parts in order, minus trailing empty parts |
| GoalRecovery.FormattedUnannotated | src/classes/ail/semantics/operationalrules/GenerateApplicablePlansEmptyProblemGoal.java:174 | the annotation removal of `findPredicates` changes nothing in cleaned predicates |
| GoalRecovery.GoalNoPlan | src/classes/ail/semantics/operationalrules/GenerateApplicablePlansEmptyProblemGoal.java:103 | with no relevant plan, `get(0)` throws before anything changes |
| GoalRecovery.GoalNoContext | src/classes/ail/semantics/operationalrules/GenerateApplicablePlansEmptyProblemGoal.java:105-108 | a first relevant plan without a context gives false, with nothing changed |
| GoalRecovery.GoalBlocksOutcome | src/classes/ail/semantics/operationalrules/GenerateApplicablePlansEmptyProblemGoal.java:123-164 | online, success means every wanted fact is believed; offline, success iff the offline block ran to its end |
| GoalRecovery.GoalSucceeds | src/classes/ail/semantics/operationalrules/GenerateApplicablePlansEmptyProblemGoal.java:90-168 | success needs a relevant plan with a context; online, it means every cleaned context fact is believed |
| GoalRecovery.GoalOfflineIgnoresFailures | src/classes/ail/semantics/operationalrules/GenerateApplicablePlansEmptyProblemGoal.java:132-136 | offline, the recovery succeeds iff the plan's steps all ran without an exception, whether or not they succeeded |
| GoalRecovery.GoalBlocksEmptyPlan | src/classes/ail/semantics/operationalrules/GenerateApplicablePlansEmptyProblemGoal.java:124-151 | an empty plan gives false, with beliefs unchanged and one planner call logged |
| GoalRecovery.GoalEmptyPlan | src/classes/ail/semantics/operationalrules/GenerateApplicablePlansEmptyProblemGoal.java:118-151 | after mode normalisation, an empty plan in either mode gives false, with beliefs unchanged and one planner call logged |
| GoalRecovery.RecoverWith | src/classes/ail/semantics/operationalrules/GenerateApplicablePlansEmptyProblemGoal.java:93-168 | the goal recovery with a given action object: result and new state as specified |
| GoalRecovery.RecoveryOperation | src/classes/ail/semantics/operationalrules/GenerateApplicablePlansEmptyProblemGoal.java:90-169 | the goal recovery with a new action object: result and new world as specified from the initial fields |
| Planning.FindPredicates | src/examples/gwendolen/project/Planning.java:87-93 | the predicates not among the beliefs, in order, with no normalisation |
| Planning.NothingMissing | src/examples/gwendolen/project/Planning.java:54-78 | online, with every predicate believed, the call returns true at once with nothing changed and no planner call |
| Planning.ExecuteSucceeds | src/examples/gwendolen/project/Planning.java:37-78 | online, success means every predicate, as given, is believed. Offline, success iff the plan is non-empty and its first action succeeded |
| Planning.ExecuteOnlineFalse | src/examples/gwendolen/project/Planning.java:54-76 | online, a plan step that returns false does not end `execute`'s while loop: `execute` returns false only when the search returned an empty plan, right after that planner call |
| Planning.ExecuteEmptyPlan | src/examples/gwendolen/project/Planning.java:38-65 | an empty plan gives false in either mode, with beliefs unchanged and one planner call logged |
| Planning.AnnotatedStaysMissing | src/examples/gwendolen/project/Planning.java:28-29 | over well-formed beliefs, a predicate that still carries an annotation is always missing |
| Planning.Online | src/examples/gwendolen/project/Planning.java:54-77 | the online loop, as specified |
| Planning.Round | src/examples/gwendolen/project/Planning.java:58-75 | one round: planner call, first action started, gap recomputed against the original predicates |
| Planning.ExecuteWith | src/examples/gwendolen/project/Planning.java:23-78 | `execute` with a given action object: result and new state as specified |
| Planning.Execute | src/examples/gwendolen/project/Planning.java:21-79 | `execute` with a new action object: result and new world as specified from the initial fields |

## Left out

- Termination. The online loops need not end, and a recovery's actions can trigger recoveries of their own. A `fuel` bound stands in for both. The methods and specifications return `OutOfFuel` where the source would keep looping or overflow its stack.
- Actions.ActionClass.Online: runs at most `fuel` rounds, where the source loops until the gap is empty.
- Planning.Online: runs at most `fuel` rounds, where the source loops until the gap is empty.
- Actions.ActionClass.RecoveryOperation: gives `OutOfFuel` when its recursion bound is reached, where the source recurses without a bound.
- The FF subprocess (`ProcessBuilder`, reading its output, `waitFor`) and the PDDL4J A* search (`AStarPlanner`, `CodedProblem`, `BitOp`). They are function values of the host. FF returns its output text or nothing (an I/O or interrupt error), and A* returns one action or nothing (an exception).
- The lock and `synchronized` of `RunPlanner`: they serve only concurrency.
- `FileWriter` errors. The swallowed `IOException` of `generate` is not modelled; the file is always written.
- Console and logger output, except the action announcement at the start of `startAction` and the planner calls, which are kept in the host's log so that "no action started" and "no planner call" can be stated.
- AIL internals are not part of this model. This covers `apply` and `super.apply` of the goal rule, and `Event`, `Plan`, `Intention` and `Guard`. It also covers how `Literal`, `PredicateTerm`, a trigger and a context are printed. A plan is a trigger string with an optional context string. A belief is a fact with a `self` or `percepts` source, rendered as the fact followed by its annotation. `BeliefBase.contains` is membership of the fact.
- `MyEnv.java` is not part of this model. It only dispatches an agent's action to `planning` or `startAction`.
- The `assert plan != null` of `ActionClass` is disabled by default, so a null plan is dereferenced by `isEmpty()`. The model gives `Threw` there, as it does for the two other recoveries, which have no assert.
- The mode of the goal recovery and of `execute` comes from a new action object, so it is always 2 in the source. `GoalRecovery.RecoverWith` and `Planning.ExecuteWith` take any action object, so the offline branches are modelled too. `RecoveryOperation` and `Execute` are those methods applied to a new object.
- Unicode: `trim` and `toLowerCase` are modelled for code points up to U+0020 and for ASCII letters.
