# Symbolic plan validation for cooperative warehouse robots

This project is a Dafny model of the checking core of a warehouse
LLM-planning pipeline. A language model writes a JSON plan of robot steps:
`base.goto`, `arm.pick`, `arm.place` and `wait_until_free`. A symbolic
validator runs the plan against a world description before anything moves.
The model covers three parts of that core:

- **The plan validator** (`validate` and its helpers, in the S4 and S2 copies).
  - It walks the steps in order over a symbolic state. The state holds slot
    occupancy, what each agent holds and which dock each agent is at. In S4 it
    also holds a busy flag for the shared `Inspection.slot`.
  - For each step it checks the action's field schema and the names it
    mentions. It then evaluates the preconditions in declared order, applies
    the effects, runs the allow-list constraint for `arm.place`, and re-checks
    object uniqueness.
  - At the end it checks the goal and returns `{ok, logic_ok, goal_ok, errors}`.
  - One engine covers both variants. It is parameterised by a `Config` (the
    agent roster and an optional shared slot): S2 is robotA/robotB with no
    shared slot; S4 is robotA–robotD sharing `Inspection.slot`.
  - The pure checks are functions. `apply_effect` and the counting loops of
    `check_invariants` are methods of the `SymbolicState` class, which holds
    the state's dictionaries as fields. The step loop of `validate` is the
    method `Validator.Validate`. It is proved equal to the functional
    specification `Validator.Assess`, which is defined through `Validator.Run`.
- **The action registries** (`ACTIONS` and `ACTION_SCHEMA` of the
  single-agent S1 table and the cooperative S3 table). They become a closed
  `Action` datatype with fixed precondition and effect templates. The pick,
  place and goto templates are the same in both tables, so they are defined
  once. The tables differ only in whether they list `wait_until_free` and
  whether they allow `agent`.
- **`extract_json`**, which the S1 and S2 LLM drivers use to cut a Markdown
  code fence out of a model response.

Proved properties include:

- fail-fast rejection, with later steps never looked at;
- how the verdict booleans relate;
- per-action frame conditions;
- conservation of objects, so `invariant_broken` can never be reported on a
  duplicate-free world;
- the order in which failures are reported;
- when `validate` raises `KeyError`. It raises only at a goto, pick or place missing a required field, or at a pick or place by an agent outside the roster. A checked step raises for such an agent when it has no pose yet, or when it stands at the slot's dock and, for a pick, the slot holds the object, so that the hand is read; a plan that has every required field and names only roster agents never raises;
- a step without an `agent` field acts exactly as the same step tagged `robotA`;
- the S2 gold plan is accepted;
- for `extract_json`: the result is a substring, holds no fence and is
  stripped; the function is idempotent; its two edge cases are pinned down.

Files:

- `common.dfy`: `Option` and `Distinct`.
- `world.dfy`: worlds, configurations and the S2 and S4 world data.
- `action_spec.dfy`: the registries.
- `symbolic_state.dfy`: the state, predicates, effects, the invariant check
  and object counting.
- `glob.dfy`: the allow-list matcher.
- `validator.dfy`: the step engine and `validate`.
- `validator_properties.dfy`: properties of steps and whole plans.
- `scenarios.dfy`: the S2 gold plan.
- `json_fence.dfy`: `extract_json`.

## Model

| member | source | states |
|---|---|---|
| ActionSpec.Parse | S3/env/actions_spec.py:1-25 | a name denotes an action exactly when it is one of the four action names, and then the action that carries that name |
| ActionSpec.ParseNameOf | S3/env/actions_spec.py:1-25 | round trip: every action's name parses back to that action |
| ActionSpec.Catalog | S1/env/actions_spec.py:1-20 | goto, pick and place are in both tables; `wait_until_free` is listed exactly when the table is the cooperative one |
| ActionSpec.SchemaTable | S3/env/actions_spec.py:27-44 | the schema's keys are exactly the table's actions; each action's required fields are as declared, all of them allowed, `action` among them; the cooperative table allows `agent` for every action, while the single-agent table (S1/env/actions_spec.py, lines 22-35) never does |
| ActionSpec.TemplatesReadRequiredFields | S3/env/actions_spec.py:1-25 | every step field a precondition or effect template reads is a required field of its action |
| Symbolic.Init | S4/validation/validator.py:12-23 | the initial state copies the world's occupancy; every roster agent has an empty hand and no pose; the busy flag is clear |
| Symbolic.SymbolicState.constructor | S2/validation/validator.py:13-19 | the freshly built state object holds exactly `Init`'s contents |
| Symbolic.Evaluate | S4/validation/validator.py:56-87 | each predicate passes exactly when it should. `is_pose`: a known pose. `holding_is`: the agent has a hand entry holding the wanted value. `at_reach`: the agent has a pose entry at the slot's dock. `slot_has`: exactly `occ[slot] == obj` on a world slot. `slot_free`: the content is absent, `None` or `""` and the slot is not the busy shared slot. Unknown slots fail with `unknown slot`. The failure is a missing entry for the agent (Python's `KeyError` at lines 64 and 85) exactly when `holding_is` finds no hand entry or `at_reach` no pose entry |
| Symbolic.FreeIsFalsy | S4/validation/validator.py:74-80 | a slot is free exactly when its content is falsy, so it counts nothing |
| Symbolic.Apply | S4/validation/validator.py:90-105 | writing the shared slot sets the busy flag exactly when the value written is not `None`; every other update leaves the flag alone; so no effect makes the flag inconsistent |
| Symbolic.ApplyAll | S4/validation/validator.py:196-199 | applying a step's effects in order never makes the busy flag inconsistent with the shared slot |
| Symbolic.SymbolicState.ApplyEffect | S4/validation/validator.py:90-105 | the in-place update leaves the object holding `Apply` of its old contents |
| Symbolic.ApplyAllKeepsFits | S4/validation/validator.py:196-199 | effects of a roster agent on world slots keep the state's shape: occupancy only names world slots, and exactly the roster has a hand and a pose |
| Symbolic.TallyToCounts | S4/validation/validator.py:138-145 | the `counts` dictionary holds each object's number of truthy occurrences, and has a key exactly for the objects that occur |
| Symbolic.TallyMembers | S4/validation/validator.py:138-145 | an object is counted exactly when it occurs as a truthy value; the empty name never is |
| Symbolic.CountsAtMostOnce | S4/validation/validator.py:146-148 | no count exceeds one exactly when no object occurs twice |
| Symbolic.OnceMeansNoRepeats | S4/validation/validator.py:146-148 | no object occurring twice is the same as no truthy value repeating |
| Symbolic.JudgeMeaning | S4/validation/validator.py:146-151 | the verdict on the counts passes exactly when no count exceeds one and the flag is consistent |
| Symbolic.InvariantVerdict | S4/validation/validator.py:136-151 | `check_invariants` passes exactly when no truthy value repeats among the slots and hands and the busy flag implies an occupied shared slot; a duplicate failure names at least one object; the flag is blamed only when nothing repeats |
| Symbolic.SymbolicState.CountSlots | S4/validation/validator.py:138-141 | the first counting loop yields the counts over the slot contents |
| Symbolic.SymbolicState.CountHands | S4/validation/validator.py:142-145 | the second loop adds the hands, yielding the counts over every place |
| Symbolic.SymbolicState.CheckInvariants | S4/validation/validator.py:136-151 | the method's result is the invariant verdict on the current state: duplicates first, then the flag |
| Symbolic.TallyMove | S4/validation/validator.py:138-145 | moving a value onto a place that counted nothing, and emptying its origin, leaves every count unchanged |
| Symbolic.PickConserves | S3/env/actions_spec.py:6-12 | a pick whose `slot_has` and `holding_is(None)` checks passed keeps the state's shape and every object's count |
| Symbolic.PlaceConserves | S3/env/actions_spec.py:13-19 | a place whose `holding_is(object)` and `slot_free` checks passed keeps the state's shape and every object's count |
| Symbolic.InitPassesInvariants | S4/validation/validator.py:12-23 | a world with no object in two slots starts in a state that passes `check_invariants` |
| Glob.AnyMatch | S4/validation/validator.py:8-9 | `_pattern_any` holds exactly when some pattern of the list matches the name |
| Glob.Match | S4/validation/validator.py:8-9 | a name a pattern matches is at least as long as the pattern without its `*`s, and exactly as long as a pattern with no `*` |
| Glob.PlainMatchesItself | S4/validation/validator.py:8-9 | a pattern without wildcards matches exactly the name it spells |
| Glob.StarMatchesAll | S4/validation/validator.py:8-9 | the pattern `*` matches every name |
| Glob.PrefixStarMatches | S4/validation/validator.py:8-9 | `prefix*` matches exactly the names that start with the prefix |
| Validator.ActionOf | S4/validation/validator.py:177-181 | a step names a table entry exactly when its `action` field is the name of an action the table lists |
| ValidatorProperties.NoAgentActsAsRobotA | S2/validation/validator.py:162 | a step without an `agent` field has exactly the outcome of the same step tagged `"agent": "robotA"` |
| ValidatorProperties.ScreenIgnoresAgentField | S4/validation/validator.py:183-213 | once the acting agent is fixed, the checks, preconditions, effects and constraint never read the `agent` field: setting it leaves the step's outcome unchanged |
| Validator.Missing | S4/validation/validator.py:28 | the missing fields are exactly the required fields absent from the step |
| Validator.CheckSchema | S2/validation/validator.py:22-32 | `missing` is empty exactly when every required field is present, and holds exactly the absent required fields; `extra` holds exactly the step's fields that are neither allowed nor `agent` |
| Validator.CheckNames | S4/validation/validator.py:38-53 | a goto passes exactly when its target is a pose; a pick or place passes exactly when its object is an object and its slot a slot; a wait is never checked |
| Validator.MaterializePre | S4/validation/validator.py:108-133 | an `at_reach` template becomes an `at_reach` check on the slot the step names, and only it does |
| Validator.MaterializeEff | S4/validation/validator.py:108-133 | `set_at`, `holding_set` and `slot_set` templates become updates of the same kind; `set_at` takes the step's `target`, `slot_set` the slot the step names in the template's field |
| Validator.Effects | S4/validation/validator.py:196-199 | a step gets one update per effect template of its action; only a goto moves an agent, only a pick or place touches hands and slots, and a wait changes nothing |
| Validator.FirstFailure | S4/validation/validator.py:189-194 | no failure is reported exactly when every precondition holds; a reported failure is one of the action's preconditions, with the reason it fails |
| Validator.FirstFailureIsFirst | S4/validation/validator.py:189-194 | the reported failure is the first failing precondition in declared order: all earlier ones hold |
| Validator.CheckPreconditions | S4/validation/validator.py:189-194 | the preconditions loop returns the first failure, exactly as `FirstFailure` specifies |
| Validator.ApplyEffects | S4/validation/validator.py:196-199 | the effects loop leaves the state object holding the effects applied in order to its old contents |
| Validator.ReadyAfterChecks | S4/validation/validator.py:183-199 | once the schema and names checks pass, every template of the action can be read from the step |
| Validator.EffectsOnSlots | S4/validation/validator.py:196-199 | after the names check, the effects only write world slots |
| Validator.Forbidden | S4/validation/validator.py:202-205 | the allow-list forbids a placement exactly when the slot is listed and none of its patterns matches the object |
| Validator.NoEntryOnlyInArmActions | S4/validation/validator.py:56-87 | a precondition reads a missing hand or pose entry only in a pick or place, and only for an agent outside the roster |
| Validator.ArmPassMeansKnown | S4/validation/validator.py:62-85 | a pick or place whose preconditions all pass is by an agent of the roster, with a hand and a pose entry |
| Validator.EffectsKeepFits | S4/validation/validator.py:189-199 | the effects of a step whose preconditions passed keep the state's shape: occupancy names only world slots, the roster keeps its hands and poses |
| Validator.StepOn | S4/validation/validator.py:176-213 | a step stops the walk exactly when its action is unknown, with `unknown_action` at its index; it raises `KeyError` at its index only when it is a goto, pick or place missing a required field, or a pick or place by an agent outside the roster; every other failure rejects the plan with a fail-fast error tagged with the step's index; an advancing step keeps the state's shape and flag consistency |
| Validator.Screen | S4/validation/validator.py:183-186 | once the action is known, a step never stops the walk; a `KeyError` is raised only for a required field a goto, pick or place lacks, or for a pick or place by an agent outside the roster; any other failure is a fail-fast rejection at the step's index |
| Validator.Proceed | S4/validation/validator.py:189-213 | past the checks, a step never stops the walk; it raises `KeyError` only when it is a pick or place by an agent outside the roster (the hand or pose read of lines 64 and 85), and otherwise advances or is rejected with an error at its index |
| Validator.Settle | S4/validation/validator.py:201-213 | after the effects, the step advances to exactly the state the effects produced, or is rejected at its index |
| Validator.RunStep | S4/validation/validator.py:176-213 | one iteration on the mutable state has `StepOn`'s outcome and leaves its new state in the object; an unknown action or a raised `KeyError` leaves the state untouched |
| Validator.ProceedStep | S4/validation/validator.py:188-213 | the rest of the iteration on the mutable state has `Proceed`'s outcome; a raised `KeyError` leaves the state untouched |
| Validator.SettleStep | S4/validation/validator.py:201-213 | the constraint and invariant checks on the mutable state give `Settle`'s outcome |
| Validator.Run | S4/validation/validator.py:176-213 | walking from step i, the walk stops only on an unknown action, fails only with a fail-fast error and raises only `KeyError`, each at an index between i and the plan's end, and otherwise ends in a well-shaped state |
| Validator.RunRaisedBy | S4/validation/validator.py:176-199 | a walk that raises does so at a step that lacks the field it names, or that is a pick or place by the agent it names, outside the roster |
| Validator.CheckGoal | S4/validation/validator.py:154-161 | the goal holds exactly when every `(object, slot)` pair has the object in the slot, and the empty goal always holds; otherwise the first mismatching pair is reported with what the slot holds |
| Validator.Assess | S4/validation/validator.py:164-228 | when `validate` returns: `ok` is `logic_ok` and `goal_ok`; `logic_ok` means no errors and implies `goal_ok`; there are one or two errors unless everything passed; a plan without a `steps` list gets all three false and the single error `MissingSteps`. When it raises `KeyError`, a step of the plan lacks the field named or is a pick or place by the agent named, outside the roster |
| Validator.Validate | S4/validation/validator.py:164-228 | the step loop with its early returns computes exactly the outcome `Assess` specifies: the same verdict, or the same `KeyError` |
| ValidatorProperties.StepOnChecked | S4/validation/validator.py:183-186 | a goto, pick or place missing a required field raises `KeyError` on the first such field in declared order; any other step failing the schema or names check is rejected with a schema error; one that passes goes on to its preconditions |
| ValidatorProperties.ScreenChecked | S4/validation/validator.py:183-186 | `StepOnChecked` once the action is known, for any agent |
| ValidatorProperties.ProceedPassed | S4/validation/validator.py:189-213 | a step whose preconditions hold goes on to the constraint and invariant checks on the state its effects produce, which keeps its shape; otherwise it raises `KeyError` for the agent if the first failure is a missing hand or pose entry, and is rejected with that first failing precondition if not |
| ValidatorProperties.AdvanceMeans | S4/validation/validator.py:176-213 | a step advances only if it passed both checks, all its preconditions, the allow-list (for a place) and the invariants, and then the new state is its effects applied |
| ValidatorProperties.SettleAdvances | S4/validation/validator.py:201-213 | after the effects, a step advances exactly when the allow-list does not forbid it (for a place) and the invariants pass, and then to the state the effects produced |
| ValidatorProperties.PickEffectsOf | S3/env/actions_spec.py:10-11 | `arm.pick` empties its `from` slot and puts its object in the hand |
| ValidatorProperties.PlaceEffectsOf | S3/env/actions_spec.py:17-18 | `arm.place` fills its `to` slot with its object and empties the hand |
| ValidatorProperties.GotoAndWaitEffectsOf | S3/env/actions_spec.py:2-24 | `base.goto` only records its target as the pose; `wait_until_free` has no effect |
| ValidatorProperties.PickChecksHeld | S3/env/actions_spec.py:6-9 | a pick's passed preconditions mean: the agent is in the roster and at the slot's dock, the slot holds the object, the hand is empty |
| ValidatorProperties.PlaceChecksHeld | S3/env/actions_spec.py:13-16 | a place's passed preconditions mean: the agent is in the roster, at the slot's dock and holds the object, and the slot is free and not the busy shared slot |
| ValidatorProperties.WaitChecksHeld | S3/env/actions_spec.py:21-24 | a wait's passed precondition means its target is a free world slot, not the busy shared slot |
| ValidatorProperties.PickFrame | S2/validation/validator.py:79-92 | an advancing pick is by a roster agent, found the object in `from`, an empty hand and the agent at the dock; afterwards `from` is empty and the agent holds the object, the shared slot's busy flag clears when `from` is that slot, and every other slot, every other hand and every pose is unchanged |
| ValidatorProperties.PlaceFrame | S4/validation/validator.py:90-105 | an advancing place is by a roster agent, found the object in the hand, a free `to` and the agent at the dock, and the allow-list admits it; afterwards `to` holds the object and the hand is empty, the busy flag is set when `to` is the shared slot, and everything else is unchanged |
| ValidatorProperties.GotoFrame | S3/env/actions_spec.py:2-5 | an advancing goto names a known pose and only moves its agent there, giving an agent outside the roster a pose entry |
| ValidatorProperties.WaitKeepsState | S3/env/actions_spec.py:21-24 | an advancing wait found a free world slot and changes nothing |
| ValidatorProperties.PickThenPlace | S1/env/actions_spec.py:6-19 | a pick followed by a place of the same object by the same agent moves it from the pick's slot to the place's slot and leaves hands and poses as before; placing it back where it came from restores the occupancy |
| ValidatorProperties.MoveThenReturn | S2/validation/validator.py:79-92 | emptying a slot into an empty hand, then the hand into a slot, moves one object, and back to the same slot restores the occupancy |
| ValidatorProperties.AdvancesWhen | S4/validation/validator.py:176-213 | a checked step whose preconditions hold, admitted by the allow-list, from a state that passes the invariants, advances to the state its effects produce, which passes them too |
| ValidatorProperties.PickChecksPass | S3/env/actions_spec.py:6-9 | at the dock, with the object in the slot and an empty hand, a pick's preconditions all hold |
| ValidatorProperties.PlaceChecksPass | S3/env/actions_spec.py:13-16 | at the dock, holding the object, with the slot free and not the busy shared slot, a place's preconditions all hold |
| ValidatorProperties.GotoAdvances | S3/env/actions_spec.py:2-5 | a well-formed goto to a known pose always advances, moving only its agent |
| ValidatorProperties.PickAdvances | S4/validation/validator.py:176-213 | a well-formed pick at the dock, of the object the slot holds, into an empty hand, advances to the state with the slot emptied and the object in the hand |
| ValidatorProperties.PlaceAdvances | S4/validation/validator.py:176-213 | a well-formed place at the dock, of the object held, into a free slot the allow-list admits, advances to the state with the object in the slot and the hand empty |
| ValidatorProperties.EffectsConserve | S4/validation/validator.py:189-199 | the effects of a step whose preconditions passed keep every object's count |
| ValidatorProperties.InvariantsSurviveEffects | S4/validation/validator.py:189-213 | from a state that passes the invariants, a step whose preconditions passed leads to one that passes them too |
| ValidatorProperties.StepKeepsInvariants | S4/validation/validator.py:209-213 | from a state that passes the invariants, no step is rejected by the invariant check, and an advancing step leads to a state that passes it |
| ValidatorProperties.RunKeepsInvariants | S4/validation/validator.py:176-213 | walking from a state that passes the invariants, for any agents the steps name, no step is ever rejected by them, and a walk that finishes or stops ends in a state that passes them |
| ValidatorProperties.NoInvariantBroken | S4/validation/validator.py:136-151 | in a world with no object in two slots, whatever agents the plan names, `validate` never returns `invariant_broken` |
| ValidatorProperties.RunIgnoresLaterSteps | S4/validation/validator.py:179-213 | a walk rejected, stopped or raised at step k gives the same result on any plan with the same steps up to k |
| ValidatorProperties.VerdictIgnoresLaterSteps | S4/validation/validator.py:183-213 | fail-fast: once step k rejects the plan, names an unknown action or raises `KeyError`, step k is in the plan and the outcome is the same whatever follows step k |
| ValidatorProperties.SameRunSameVerdict | S4/validation/validator.py:215-228 | two plans whose walks end alike get the same verdict |
| ValidatorProperties.VerdictOfRun | S4/validation/validator.py:179-228 | a rejected plan gets all three booleans false and that error alone; a raise in the walk is a `KeyError` raised by `validate`; an unknown action gives `ok` and `logic_ok` false, is the first error, and the goal is still checked on the state reached; a finished walk is decided by the goal alone |
| ValidatorProperties.KnownAgentsNeverRaise | S4/validation/validator.py:176-199 | a plan whose steps all have their required fields and name agents of the roster never makes `validate` raise |
| ValidatorProperties.PoselessArmRaises | S4/validation/validator.py:82-85 | a checked pick or place by an agent with no pose entry raises `KeyError` for that agent, which is outside the roster |
| ValidatorProperties.HandlessArmRaises | S4/validation/validator.py:62-64 | an agent outside the roster that a goto has brought to the dock still raises `KeyError` on a checked pick or place, at the hand read |
| ValidatorProperties.HandIsMissing | S4/validation/validator.py:189-194 | past the checks, a pick or place by an agent outside the roster that is at the dock raises `KeyError` at `holding_is`, since `at_reach` and for a pick `slot_has` pass before it |
| ValidatorProperties.ReachCheckedFirst | S3/env/actions_spec.py:6-16 | a pick or place whose agent is not at the slot's dock is rejected by `at_reach`, whatever else is wrong |
| ValidatorProperties.ReachFailsFirst | S3/env/actions_spec.py:6-16 | `at_reach` heads the preconditions of pick and place, so its failure is the one reported |
| ValidatorProperties.NoReachBeforeGoto | S2/validation/validator.py:13-19 | agents start without a pose, so a plan whose first step is a well-formed pick or place is rejected at step 0 by `at_reach`, with that as its only error, when its agent is in the roster; for an agent outside the roster `validate` raises `KeyError` at step 0 |
| ValidatorProperties.ConstraintRejects | S2/validation/validator.py:187-192 | a place that passed its preconditions into a listed slot that no pattern admits the object to is rejected with `constraint_violation` |
| ValidatorProperties.ConstraintOnlyForListedSlots | S2/validation/validator.py:187-192 | only a place is rejected by the allow-list, only for its own object and slot, and only when the slot is listed and no pattern admits the object |
| ValidatorProperties.SettleConstraint | S4/validation/validator.py:201-207 | the constraint check rejects exactly a place that the allow-list forbids |
| ValidatorProperties.WaitOnUnknownSlot | S2/validation/validator.py:35-51 | a wait on a slot the world does not have passes the names check and is rejected as `precondition_failed` (unknown slot), not as a schema error |
| ValidatorProperties.WaitOnUnknownTarget | S4/validation/validator.py:74-77 | `slot_free` on a target outside the world fails with `unknown slot` |
| ValidatorProperties.WaitPassesSchema | S3/env/actions_spec.py:40-43 | a wait with a target and no field besides `action`, `target` and `agent` passes both checks |
| ValidatorProperties.WaitFieldsPresent | S3/env/actions_spec.py:40-43 | a wait with `action` and `target` misses no required field |
| ValidatorProperties.WaitFieldsAllowed | S3/env/actions_spec.py:40-43 | the cooperative table allows `action`, `target` and `agent` for a wait |
| ValidatorProperties.MissingIgnores | S2/validation/validator.py:25 | a field that is not required does not change which fields are missing |
| ValidatorProperties.AgentFieldExempt | S2/validation/validator.py:22-32 | `check_step_schema` never complains about `agent`: setting or changing a step's agent leaves its schema issues unchanged, in either table |
| ValidatorProperties.AgentNotRequired | S3/env/actions_spec.py:27-44 | no action requires `agent` |
| ValidatorProperties.ExtraIgnoresAgent | S2/validation/validator.py:26 | the extra fields of a step do not depend on its `agent` field |
| Scenarios.NamedAction | S2/validation/validator.py:163-166 | a step whose `action` field is the name of a listed action is that action |
| Scenarios.SchemaPasses | S2/validation/validator.py:22-32 | a step with every required field and otherwise only `agent` passes `check_step_schema` |
| Scenarios.GotoStepChecked | S2/validation/validator.py:161-171 | a tagged goto to a known pose acts as its agent and passes both checks |
| Scenarios.PickStepChecked | S2/validation/validator.py:161-171 | a tagged pick of a known object from a known slot acts as its agent and passes both checks |
| Scenarios.PlaceStepChecked | S2/validation/validator.py:161-171 | a tagged place of a known object into a known slot acts as its agent and passes both checks |
| Scenarios.RunAdvance | S2/validation/validator.py:161-198 | a step that advances hands the rest of the walk to the state it produced |
| Scenarios.GotoRuns | S2/validation/validator.py:161-198 | a tagged goto to a known pose moves its agent and the walk goes on from there |
| Scenarios.PickRuns | S2/validation/validator.py:161-198 | a tagged pick by a roster agent at the dock, of the object the slot holds, into an empty hand, moves the object to the hand and the walk goes on |
| Scenarios.PlaceRuns | S2/validation/validator.py:161-198 | a tagged place by a roster agent at the dock of the object held into a free slot that the allow-list admits moves the object into the slot, and the walk goes on |
| Scenarios.AfterMove | S2/validation/validator.py:79-92 | the state after a delivery: the box has moved between the two slots, hands are as before, and the agent is at the target's dock |
| Scenarios.MoveBox | S2/dataset/generate_dataset.py:40-43 | goto, pick, goto, place of one box by one agent is accepted step by step and leaves the state of `AfterMove`, which passes the invariants |
| Scenarios.LastMove | S2/dataset/generate_dataset.py:46-49 | a plan whose last four steps deliver a box ends once they are accepted, in the state of `AfterMove` |
| Scenarios.StillCanMove | S2/dataset/generate_dataset.py:40-49 | a delivery between two other slots leaves a second delivery possible |
| Scenarios.TwoDeliveries | S2/dataset/generate_dataset.py:40-49 | two deliveries in a row on four different slots run the plan to the end, in the state both deliveries produce |
| Scenarios.BothDelivered | S2/dataset/generate_dataset.py:16-19 | after the two moves, each box is in its target and both origins are empty |
| Scenarios.S2WorldSound | S2/env/make_world.py:69-99 | the S2 world is well formed and no object starts in two slots |
| Scenarios.S2GoldAgentsKnown | S2/dataset/generate_dataset.py:35-51 | every step of the S2 gold plan names robotA or robotB |
| Scenarios.S2ContextAdmits | S1/eval/eval_combined_batch.py:73 | with the empty constraints the evaluation script passes to `validate`, the allow-list admits both deliveries |
| Scenarios.S2GoldSteps | S2/dataset/generate_dataset.py:35-51 | the gold plan is robotA's delivery of the red box followed by robotB's delivery of the blue box |
| Scenarios.S2Start | S2/env/make_world.py:69-99 | the S2 start state has both boxes on the shelf, both bins empty, and no invariant broken |
| Scenarios.S2GoldReady | S2/dataset/generate_dataset.py:35-51 | the S2 start state and gold plan meet everything `TwoDeliveries` asks for |
| Scenarios.S2GoldRuns | S2/validation/validator.py:149-198 | the S2 gold plan runs to the end with the red box in `RedBin.slot`, the blue box in `BlueBin.slot`, both shelf slots empty and every hand empty |
| Scenarios.S2GoldPlanAccepted | S2/validation/validator.py:149-213 | `validate` accepts the S2 gold plan (`ok`, `logic_ok` and `goal_ok` true, no errors), with no goal and with the goal the S2 dataset describes (each box in the bin of its colour) |
| Scenarios.Accepted | S4/validation/validator.py:215-228 | a plan that runs to the end in a state meeting the goal is accepted: `ok`, `logic_ok` and `goal_ok` true and no errors |
| Scenarios.S4WorldSound | S4/env/make_world.py:49-98 | the S4 world is well formed, no object starts in two slots, the shared `Inspection.slot` is a slot and starts empty, and the start state passes `check_invariants` |
| JsonFence.Find | S1/llm/generate_llm_outputs_batch.py:28-31 | the first occurrence of a pattern, or none at all |
| JsonFence.PieceBefore | S1/llm/generate_llm_outputs_batch.py:30-31 | `split(sep)[0]`: everything before the first separator, or all of the text; it never holds the separator |
| JsonFence.PieceAfter | S1/llm/generate_llm_outputs_batch.py:28-29 | `split(sep)[1]`: the text between the first separator and the next one (or the end); it never holds the separator |
| JsonFence.Strip | S1/llm/generate_llm_outputs_batch.py:32 | `strip()`: a contiguous piece of the text with no whitespace at either end |
| JsonFence.StripDropsOnlySpace | S1/llm/generate_llm_outputs_batch.py:32 | `strip()` removes whitespace only |
| JsonFence.CutAtFence | S1/llm/generate_llm_outputs_batch.py:30-31 | after the cut at the first fence, no fence remains |
| JsonFence.CutAtTag | S1/llm/generate_llm_outputs_batch.py:28-29 | after the cut at the first "```json" tag, no tag remains; text without the tag is left as it is |
| JsonFence.TagContainsFence | S1/llm/generate_llm_outputs_batch.py:28-31 | wherever the tag "```json" occurs, a fence occurs too |
| JsonFence.CutsArePiece | S1/llm/generate_llm_outputs_batch.py:28-31 | the two cuts leave a contiguous piece of the input |
| JsonFence.ExtractJson | S1/llm/generate_llm_outputs_batch.py:26-32 | the result never contains a fence and has no leading or trailing whitespace |
| JsonFence.ExtractJsonIsSubstring | S2/llm/generate_llm_outputs_batch.py:25-31 | the result is a substring of the input |
| JsonFence.NoFenceOnlyStrips | S1/llm/generate_llm_outputs_batch.py:26-32 | text without any fence is only stripped |
| JsonFence.StripFixesTrimmed | S1/llm/generate_llm_outputs_batch.py:32 | a string without surrounding whitespace is its own strip |
| JsonFence.ExtractJsonIdempotent | S2/llm/generate_llm_outputs_batch.py:25-31 | applying `extract_json` twice gives the same as applying it once |
| JsonFence.UntaggedLeadingFenceYieldsEmpty | S1/llm/generate_llm_outputs_batch.py:30-31 | a response that opens with a fence without the `json` tag (and holds no tag) yields the empty string |
| JsonFence.TaggedFenceYieldsPayload | S2/llm/generate_llm_outputs_batch.py:25-31 | "```json\nX\n```" yields `strip(X)` when X holds no fence |
| JsonFence.StripIgnoresTrailingSpace | S1/llm/generate_llm_outputs_batch.py:32 | `strip()` ignores a whitespace character appended at the end |
| JsonFence.StripIgnoresLeadingSpace | S1/llm/generate_llm_outputs_batch.py:32 | `strip()` ignores a whitespace character put in front |

## Left out

- The PyBullet scenes, demos, dataset writers, LLM calls and evaluation/plotting scripts are not modelled; they are I/O, physics and floating point. Only their symbolic data is modelled: the S2 and S4 worlds as constants (the S1 world is not part of this model, as no S1 validator is), and the S2 gold plan as a fixture. The evaluation runs with empty constraints (S1/eval/eval_combined_batch.py:73), which is `S2ContextAdmits`.
- Glob.Match: models `fnmatch` for literal characters, `*` and `?` only. Bracket classes and platform case-folding are not modelled.
- `KeyError` raised by `validate` is modelled as the outcome `Raises`, not as an exception; its traceback and message are not modelled. Two cases are modelled. (1) A goto, pick or place missing a required field raises when the names check reads that field (validator.py lines 38-53); the model names the first missing field in declared order. (2) A pick or place by an agent outside the roster raises when `holding_is` or `at_reach` reads a hand or pose entry the agent lacks (lines 64 and 85). A goto gives any agent a pose entry (line 93), and a wait never reads the agent, so both run normally for such an agent.
- A world slot missing from `reachability_map` makes Python raise `KeyError`. The model excludes it by `WellFormed`, which also asks that slot names be distinct and that the initial occupancy names only slots.
- Error messages are modelled as reason datatypes with the step index, not as formatted strings. Several schema and name errors of one step are a single `SchemaError`.
- Validator.CheckSchema: `extra` is a set, not Python's list in key order, so its order and repetitions are not modelled. Likewise `Duplicates` carries the duplicated objects as a set.
- Steps are maps from strings to strings. Non-string JSON values, non-dict steps, and a `steps` value that is present but not a list are not distinguished. The last of these is the `None` plan, which gets the `MissingSteps` verdict.
- A `None` goal is modelled as the empty goal; both are always satisfied. The goal dictionary is a sequence of pairs in its iteration order.
- Symbolic.InvariantVerdict: counts over the world's slot list rather than over `occ.values()`. Under `Fits`, occupancy only names world slots, so the counts are the same.
- The actions_spec tables of S2 and S4 are not part of this model. S4 is modelled with the cooperative S3 table that its prompts name. The S2 scenario also uses the cooperative table; pick, place and goto are the same in both tables.
- The S1 and S3 copies of the validator are not part of this model, so the S3 gold plan is not run.
