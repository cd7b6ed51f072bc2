/**
 * What `validate` guarantees about single steps and whole plans: the frame of
 * each action, the order in which failures are reported, that the invariant
 * check can never fire on a plan that starts from a duplicate-free world, and
 * that nothing after a rejected step is ever looked at.
 */
module ValidatorProperties {
  import opened Common
  import opened WorldModel
  import opened ActionSpec
  import opened Symbolic
  import opened Glob
  import opened Validator

  /** The step passes `check_step_schema` and `check_step_names_and_types`. */
  predicate Checked(ctx: Context, act: Action, step: Step)
    requires act in Catalog(ctx.reg)
  {
    var issues := CheckSchema(ctx.reg, act, step);
    issues.missing == [] && issues.extra == {} && CheckNames(ctx.w, act, step) == []
  }

  /** A runnable context and a step acting as an agent of the roster. */
  predicate Admissible(ctx: Context, st: State, step: Step)
  {
    Runnable(ctx, st) && AgentOf(step) in ctx.cfg.roster
  }

  // ----- how a step advances -----

  /**
   * A step that passed the schema and names checks goes on to its preconditions;
   * one that did not is a schema error, unless the names check of a goto, pick or
   * place reads a required field the step lacks, which raises `KeyError`.
   */
  lemma StepOnChecked(ctx: Context, st: State, i: nat, step: Step, act: Action)
    requires Runnable(ctx, st) && ActionOf(ctx.reg, step) == Some(act)
    ensures Checked(ctx, act, step) ==>
      Ready(ctx.w, act, step) && StepOn(ctx, st, i, step) == Proceed(ctx, st, i, AgentOf(step), act, step)
    ensures CheckSchema(ctx.reg, act, step).missing != [] && act != WaitUntilFree ==>
      StepOn(ctx, st, i, step) == Raise(FieldKeyError(i, CheckSchema(ctx.reg, act, step).missing[0]))
    ensures !Checked(ctx, act, step) && (CheckSchema(ctx.reg, act, step).missing == [] || act == WaitUntilFree) ==>
      StepOn(ctx, st, i, step).Reject? && StepOn(ctx, st, i, step).err.SchemaError?
  {
    assert StepOn(ctx, st, i, step) == Screen(ctx, st, i, AgentOf(step), act, step);
    ScreenChecked(ctx, st, i, AgentOf(step), act, step);
  }

  /** `StepOnChecked` for the checks themselves, once the action is known. */
  lemma ScreenChecked(ctx: Context, st: State, i: nat, agent: Name, act: Action, step: Step)
    requires Runnable(ctx, st) && act in Catalog(ctx.reg)
    ensures Checked(ctx, act, step) ==>
      Ready(ctx.w, act, step) && Screen(ctx, st, i, agent, act, step) == Proceed(ctx, st, i, agent, act, step)
    ensures CheckSchema(ctx.reg, act, step).missing != [] && act != WaitUntilFree ==>
      Screen(ctx, st, i, agent, act, step) == Raise(FieldKeyError(i, CheckSchema(ctx.reg, act, step).missing[0]))
    ensures !Checked(ctx, act, step) && (CheckSchema(ctx.reg, act, step).missing == [] || act == WaitUntilFree) ==>
      Screen(ctx, st, i, agent, act, step).Reject? && Screen(ctx, st, i, agent, act, step).err.SchemaError?
  {
    var issues := CheckSchema(ctx.reg, act, step);
    if issues.missing != [] && act != WaitUntilFree {
      ScreenRaises(ctx, st, i, agent, act, step);
    } else if Checked(ctx, act, step) {
      ScreenProceeds(ctx, st, i, agent, act, step);
    } else {
      ScreenRejects(ctx, st, i, agent, act, step);
    }
  }

  /** A required field absent from a goto, pick or place is read and raises `KeyError`. */
  lemma ScreenRaises(ctx: Context, st: State, i: nat, agent: Name, act: Action, step: Step)
    requires Runnable(ctx, st) && act in Catalog(ctx.reg)
    requires CheckSchema(ctx.reg, act, step).missing != [] && act != WaitUntilFree
    ensures Screen(ctx, st, i, agent, act, step) == Raise(FieldKeyError(i, CheckSchema(ctx.reg, act, step).missing[0]))
  {
  }

  /** A step passing both checks goes on to its preconditions. */
  lemma ScreenProceeds(ctx: Context, st: State, i: nat, agent: Name, act: Action, step: Step)
    requires Runnable(ctx, st) && act in Catalog(ctx.reg)
    requires Checked(ctx, act, step)
    ensures Ready(ctx.w, act, step) && Screen(ctx, st, i, agent, act, step) == Proceed(ctx, st, i, agent, act, step)
  {
    ReadyAfterChecks(ctx.w, act, step);
  }

  /** Any other step failing a check is rejected with a schema error. */
  lemma ScreenRejects(ctx: Context, st: State, i: nat, agent: Name, act: Action, step: Step)
    requires Runnable(ctx, st) && act in Catalog(ctx.reg)
    requires !Checked(ctx, act, step)
    requires CheckSchema(ctx.reg, act, step).missing == [] || act == WaitUntilFree
    ensures Screen(ctx, st, i, agent, act, step).Reject? && Screen(ctx, st, i, agent, act, step).err.SchemaError?
    ensures var issues := CheckSchema(ctx.reg, act, step);
      Screen(ctx, st, i, agent, act, step) ==
        Reject(SchemaError(i, issues.missing, issues.extra, if issues.missing == [] then CheckNames(ctx.w, act, step) else []))
  {
  }

  /**
   * A step whose preconditions all hold applies its effects and goes on to
   * `Settle`; a failed precondition rejects the step, unless it could not find
   * the agent's hand or pose, which raises `KeyError`.
   */
  lemma {:induction false} ProceedPassed(ctx: Context, st: State, i: nat, agent: Name, act: Action, step: Step)
    requires Runnable(ctx, st)
    requires (forall k :: k in Required(act) ==> k in step) && Ready(ctx.w, act, step)
    ensures FirstFailure(ctx.w, ctx.cfg, st, agent, step, Pre(act)) == None ==>
      && Fits(ctx.w, ctx.cfg, ApplyAll(ctx.cfg, st, agent, Effects(act, step)))
      && Proceed(ctx, st, i, agent, act, step) == Settle(ctx, ApplyAll(ctx.cfg, st, agent, Effects(act, step)), i, agent, act, step)
    ensures FirstFailure(ctx.w, ctx.cfg, st, agent, step, Pre(act)) != None ==>
      if FirstFailure(ctx.w, ctx.cfg, st, agent, step, Pre(act)).value.1.NoEntryFor?
      then Proceed(ctx, st, i, agent, act, step) == Raise(AgentKeyError(i, agent))
      else Proceed(ctx, st, i, agent, act, step).Reject? && Proceed(ctx, st, i, agent, act, step).err.PreconditionFailed?
  {
    if FirstFailure(ctx.w, ctx.cfg, st, agent, step, Pre(act)) == None {
      EffectsKeepFits(ctx, st, agent, act, step);
    }
  }

  /**
   * A step advances only when it passed the schema and names checks and all its
   * preconditions, and then the new state is the one its effects produce.
   */
  lemma {:induction false} AdvanceMeans(ctx: Context, st: State, i: nat, step: Step, act: Action)
    requires Runnable(ctx, st) && ActionOf(ctx.reg, step) == Some(act)
    requires StepOn(ctx, st, i, step).Advance?
    ensures Checked(ctx, act, step) && Ready(ctx.w, act, step)
    ensures FirstFailure(ctx.w, ctx.cfg, st, AgentOf(step), step, Pre(act)) == None
    ensures StepOn(ctx, st, i, step).next == ApplyAll(ctx.cfg, st, AgentOf(step), Effects(act, step))
    ensures InvariantVerdict(ctx.w, ctx.cfg, StepOn(ctx, st, i, step).next) == None
    ensures act == Place ==> !Forbidden(ctx.allowed, step["object"], step["to"])
  {
    var agent := AgentOf(step);
    StepOnChecked(ctx, st, i, step, act);
    assert Checked(ctx, act, step);
    ProceedPassed(ctx, st, i, agent, act, step);
    assert FirstFailure(ctx.w, ctx.cfg, st, agent, step, Pre(act)) == None;
    var next := ApplyAll(ctx.cfg, st, agent, Effects(act, step));
    SettleAdvances(ctx, next, i, agent, act, step);
  }

  /** `Settle` lets a step advance only to the state it was given, once the allow-list and the invariants pass. */
  lemma SettleAdvances(ctx: Context, next: State, i: nat, agent: Name, act: Action, step: Step)
    requires Fits(ctx.w, ctx.cfg, next) && forall k :: k in Required(act) ==> k in step
    ensures Settle(ctx, next, i, agent, act, step).Advance? <==>
      && !(act == Place && Forbidden(ctx.allowed, step["object"], step["to"]))
      && InvariantVerdict(ctx.w, ctx.cfg, next) == None
    ensures Settle(ctx, next, i, agent, act, step).Advance? ==> Settle(ctx, next, i, agent, act, step).next == next
  {
  }

  // ----- what each action does when it advances -----

  /** `arm.pick` empties the `from` slot and puts the object in the hand. */
  lemma PickEffectsOf(step: Step)
    requires "from" in step && "object" in step
    ensures Effects(Pick, step) == PickEffects(step["from"], step["object"])
  {
  }

  /** `arm.place` fills the `to` slot with the object and empties the hand. */
  lemma PlaceEffectsOf(step: Step)
    requires "to" in step && "object" in step
    ensures Effects(Place, step) == PlaceEffects(step["to"], step["object"])
  {
  }

  /** `base.goto` records the target as the agent's pose; `wait_until_free` has no effect. */
  lemma GotoAndWaitEffectsOf(step: Step)
    requires "target" in step
    ensures Effects(Goto, step) == [SetAt(step["target"])]
    ensures Effects(WaitUntilFree, step) == []
  {
  }

  /**
   * The preconditions of `arm.pick` that passed: the agent is one of the roster,
   * at the slot's dock, the slot holds the object, the hand is empty.
   */
  lemma {:induction false} PickChecksHeld(ctx: Context, st: State, agent: Name, step: Step)
    requires Runnable(ctx, st) && Ready(ctx.w, Pick, step)
    requires FirstFailure(ctx.w, ctx.cfg, st, agent, step, Pre(Pick)) == None
    ensures agent in ctx.cfg.roster && agent in st.agentAt && agent in st.holding
    ensures "from" in step && "object" in step && step["from"] in ctx.w.slots
    ensures st.agentAt[agent] == Some(ctx.w.reach[step["from"]])
    ensures Get(st.occ, step["from"]) == Some(step["object"])
    ensures st.holding[agent] == None
  {
    var pres := Pre(Pick);
    ArmPassMeansKnown(ctx, st, agent, Pick, step);
    assert PreReadable(ctx.w, step, pres[0]) && Evaluate(ctx.w, ctx.cfg, st, agent, MaterializePre(pres[0], step)) == None;
    assert PreReadable(ctx.w, step, pres[1]) && Evaluate(ctx.w, ctx.cfg, st, agent, MaterializePre(pres[1], step)) == None;
    assert PreReadable(ctx.w, step, pres[2]) && Evaluate(ctx.w, ctx.cfg, st, agent, MaterializePre(pres[2], step)) == None;
  }

  /**
   * The preconditions of `arm.place` that passed: the agent is one of the
   * roster, at the slot's dock, holding the object, the slot empty and, if it is
   * the shared slot, not busy.
   */
  lemma {:induction false} PlaceChecksHeld(ctx: Context, st: State, agent: Name, step: Step)
    requires Runnable(ctx, st) && Ready(ctx.w, Place, step)
    requires FirstFailure(ctx.w, ctx.cfg, st, agent, step, Pre(Place)) == None
    ensures agent in ctx.cfg.roster && agent in st.agentAt && agent in st.holding
    ensures "to" in step && "object" in step && step["to"] in ctx.w.slots
    ensures st.agentAt[agent] == Some(ctx.w.reach[step["to"]])
    ensures st.holding[agent] == Some(step["object"])
    ensures Free(Get(st.occ, step["to"])) && !(IsShared(ctx.cfg, step["to"]) && st.busy)
  {
    var pres := Pre(Place);
    ArmPassMeansKnown(ctx, st, agent, Place, step);
    assert PreReadable(ctx.w, step, pres[0]) && Evaluate(ctx.w, ctx.cfg, st, agent, MaterializePre(pres[0], step)) == None;
    assert PreReadable(ctx.w, step, pres[1]) && Evaluate(ctx.w, ctx.cfg, st, agent, MaterializePre(pres[1], step)) == None;
    assert PreReadable(ctx.w, step, pres[2]) && Evaluate(ctx.w, ctx.cfg, st, agent, MaterializePre(pres[2], step)) == None;
  }

  /** The precondition of `wait_until_free` that passed: its target is a free world slot. */
  lemma {:induction false} WaitChecksHeld(ctx: Context, st: State, agent: Name, step: Step)
    requires Runnable(ctx, st) && Ready(ctx.w, WaitUntilFree, step)
    requires FirstFailure(ctx.w, ctx.cfg, st, agent, step, Pre(WaitUntilFree)) == None
    ensures "target" in step && step["target"] in ctx.w.slots
    ensures Free(Get(st.occ, step["target"])) && !(IsShared(ctx.cfg, step["target"]) && st.busy)
  {
    var pres := Pre(WaitUntilFree);
    assert PreReadable(ctx.w, step, pres[0]) && Evaluate(ctx.w, ctx.cfg, st, agent, MaterializePre(pres[0], step)) == None;
  }

  /**
   * An `arm.pick` that advances found the object in the `from` slot, an empty
   * hand and the agent at the slot's dock (so the agent is one of the roster);
   * afterwards the slot is empty, the
   * agent holds the object, and every other slot, every other hand and every
   * pose is as before (the shared slot's flag is cleared when it is emptied).
   */
  lemma PickFrame(ctx: Context, st: State, i: nat, step: Step)
    requires Runnable(ctx, st) && ActionOf(ctx.reg, step) == Some(Pick)
    requires StepOn(ctx, st, i, step).Advance?
    ensures AgentOf(step) in ctx.cfg.roster && AgentOf(step) in st.holding && AgentOf(step) in st.agentAt
    ensures "from" in step && "object" in step && step["from"] in ctx.w.slots
    ensures Get(st.occ, step["from"]) == Some(step["object"]) && st.holding[AgentOf(step)] == None
    ensures st.agentAt[AgentOf(step)] == Some(ctx.w.reach[step["from"]])
    ensures StepOn(ctx, st, i, step).next == st.(
      occ := st.occ[step["from"] := None],
      holding := st.holding[AgentOf(step) := Some(step["object"])],
      busy := !IsShared(ctx.cfg, step["from"]) && st.busy)
  {
    AdvanceMeans(ctx, st, i, step, Pick);
    PickChecksHeld(ctx, st, AgentOf(step), step);
    PickEffectsOf(step);
    ApplyTwo(ctx.cfg, st, AgentOf(step), SlotSet(step["from"], None), HoldingSet(Some(step["object"])));
  }

  /**
   * An `arm.place` that advances found the object in the hand, the `to` slot
   * free and the agent at its dock (so the agent is one of the roster);
   * afterwards the slot holds the object, the
   * hand is empty, and everything else is as before (writing the shared slot
   * sets its flag).
   */
  lemma PlaceFrame(ctx: Context, st: State, i: nat, step: Step)
    requires Runnable(ctx, st) && ActionOf(ctx.reg, step) == Some(Place)
    requires StepOn(ctx, st, i, step).Advance?
    ensures AgentOf(step) in ctx.cfg.roster && AgentOf(step) in st.holding && AgentOf(step) in st.agentAt
    ensures "to" in step && "object" in step && step["to"] in ctx.w.slots
    ensures st.holding[AgentOf(step)] == Some(step["object"]) && Free(Get(st.occ, step["to"]))
    ensures st.agentAt[AgentOf(step)] == Some(ctx.w.reach[step["to"]])
    ensures !Forbidden(ctx.allowed, step["object"], step["to"])
    ensures StepOn(ctx, st, i, step).next == st.(
      occ := st.occ[step["to"] := Some(step["object"])],
      holding := st.holding[AgentOf(step) := None],
      busy := IsShared(ctx.cfg, step["to"]) || st.busy)
  {
    AdvanceMeans(ctx, st, i, step, Place);
    PlaceChecksHeld(ctx, st, AgentOf(step), step);
    PlaceEffectsOf(step);
    ApplyTwo(ctx.cfg, st, AgentOf(step), SlotSet(step["to"], Some(step["object"])), HoldingSet(None));
  }

  /**
   * A `base.goto` that advances names a known pose and only moves its agent
   * there; an agent outside the roster gets a pose entry this way.
   */
  lemma GotoFrame(ctx: Context, st: State, i: nat, step: Step)
    requires Runnable(ctx, st) && ActionOf(ctx.reg, step) == Some(Goto)
    requires StepOn(ctx, st, i, step).Advance?
    ensures "target" in step && step["target"] in ctx.w.poses
    ensures StepOn(ctx, st, i, step).next == st.(agentAt := st.agentAt[AgentOf(step) := Some(step["target"])])
  {
    AdvanceMeans(ctx, st, i, step, Goto);
    GotoAndWaitEffectsOf(step);
    assert ApplyAll(ctx.cfg, st, AgentOf(step), [SetAt(step["target"])])
        == ApplyAll(ctx.cfg, Apply(ctx.cfg, st, AgentOf(step), SetAt(step["target"])), AgentOf(step), []);
  }

  /**
   * A `wait_until_free` that advances found its target to be a world slot that is
   * free (and, for the shared slot, not busy), and changes nothing, whichever
   * agent it names.
   */
  lemma WaitKeepsState(ctx: Context, st: State, i: nat, step: Step)
    requires Runnable(ctx, st) && ActionOf(ctx.reg, step) == Some(WaitUntilFree)
    requires StepOn(ctx, st, i, step).Advance?
    ensures "target" in step && step["target"] in ctx.w.slots
    ensures Free(Get(st.occ, step["target"])) && !(IsShared(ctx.cfg, step["target"]) && st.busy)
    ensures StepOn(ctx, st, i, step).next == st
  {
    AdvanceMeans(ctx, st, i, step, WaitUntilFree);
    GotoAndWaitEffectsOf(step);
    WaitChecksHeld(ctx, st, AgentOf(step), step);
  }

  /**
   * A pick followed by a place by the same agent moves the picked object from
   * the pick's slot to the place's slot and leaves the hand as it was; placing
   * it back where it came from restores the occupancy.
   */
  lemma PickThenPlace(ctx: Context, st: State, i: nat, p: Step, mid: State, q: Step, last: State)
    requires Runnable(ctx, st) && ActionOf(ctx.reg, p) == Some(Pick)
    requires StepOn(ctx, st, i, p) == Advance(mid)
    requires ActionOf(ctx.reg, q) == Some(Place) && AgentOf(q) == AgentOf(p)
    requires StepOn(ctx, mid, i + 1, q) == Advance(last)
    ensures "from" in p && "object" in p && "to" in q && "object" in q && q["object"] == p["object"]
    ensures last.occ == st.occ[p["from"] := None][q["to"] := Some(p["object"])]
    ensures last.holding == st.holding && last.agentAt == st.agentAt
    ensures q["to"] == p["from"] ==> last.occ == st.occ
  {
    PickFrame(ctx, st, i, p);
    PlaceFrame(ctx, mid, i + 1, q);
    var a := AgentOf(p);
    MoveThenReturn(st, mid, last, a, p["from"], q["to"], p["object"]);
  }

  /** Emptying a slot into an empty hand, then emptying the hand into a slot, moves one object. */
  lemma MoveThenReturn(st: State, mid: State, last: State, a: Name, f: Name, t: Name, o: Name)
    requires a in st.holding && st.holding[a] == None && Get(st.occ, f) == Some(o)
    requires mid.occ == st.occ[f := None] && mid.holding == st.holding[a := Some(o)] && mid.agentAt == st.agentAt
    requires last.occ == mid.occ[t := Some(o)] && last.holding == mid.holding[a := None] && last.agentAt == mid.agentAt
    ensures last.occ == st.occ[f := None][t := Some(o)]
    ensures last.holding == st.holding && last.agentAt == st.agentAt
    ensures t == f ==> last.occ == st.occ
  {
    assert st.holding[a := Some(o)][a := None] == st.holding;
    if t == f {
      assert st.occ[f := None][f := Some(o)] == st.occ;
    }
  }

  // ----- when each action advances -----

  /**
   * A step that passed both checks and all its preconditions, that the
   * allow-list admits, from a state that passes the invariants, advances to the
   * state its effects produce.
   */
  lemma {:induction false} AdvancesWhen(ctx: Context, st: State, i: nat, step: Step, act: Action)
    requires Runnable(ctx, st) && ActionOf(ctx.reg, step) == Some(act)
    requires Checked(ctx, act, step) && Ready(ctx.w, act, step)
    requires FirstFailure(ctx.w, ctx.cfg, st, AgentOf(step), step, Pre(act)) == None
    requires act == Place ==> "object" in step && "to" in step && !Forbidden(ctx.allowed, step["object"], step["to"])
    requires InvariantVerdict(ctx.w, ctx.cfg, st) == None
    ensures StepOn(ctx, st, i, step) == Advance(ApplyAll(ctx.cfg, st, AgentOf(step), Effects(act, step)))
    ensures InvariantVerdict(ctx.w, ctx.cfg, StepOn(ctx, st, i, step).next) == None
  {
    StepOnChecked(ctx, st, i, step, act);
    ProceedPassed(ctx, st, i, AgentOf(step), act, step);
    InvariantsSurviveEffects(ctx, st, AgentOf(step), act, step);
  }

  /** `arm.pick`'s preconditions hold when the agent is at the dock, the slot holds the object and the hand is empty. */
  lemma {:induction false} PickChecksPass(ctx: Context, st: State, agent: Name, step: Step)
    requires Runnable(ctx, st) && agent in ctx.cfg.roster && Ready(ctx.w, Pick, step)
    requires "from" in step && "object" in step && step["from"] in ctx.w.slots
    requires st.agentAt[agent] == Some(ctx.w.reach[step["from"]])
    requires Get(st.occ, step["from"]) == Some(step["object"]) && st.holding[agent] == None
    ensures FirstFailure(ctx.w, ctx.cfg, st, agent, step, Pre(Pick)) == None
  {
    var pres := Pre(Pick);
    assert MaterializePre(pres[0], step) == AtReach(step["from"]);
    assert MaterializePre(pres[1], step) == SlotHas(step["from"], step["object"]);
    assert MaterializePre(pres[2], step) == HoldingIs(None);
  }

  /**
   * `arm.place`'s preconditions hold when the agent is at the dock, holds the
   * object, and the slot is free (and not the busy shared slot).
   */
  lemma {:induction false} PlaceChecksPass(ctx: Context, st: State, agent: Name, step: Step)
    requires Runnable(ctx, st) && agent in ctx.cfg.roster && Ready(ctx.w, Place, step)
    requires "to" in step && "object" in step && step["to"] in ctx.w.slots
    requires st.agentAt[agent] == Some(ctx.w.reach[step["to"]]) && st.holding[agent] == Some(step["object"])
    requires Free(Get(st.occ, step["to"])) && !(IsShared(ctx.cfg, step["to"]) && st.busy)
    ensures FirstFailure(ctx.w, ctx.cfg, st, agent, step, Pre(Place)) == None
  {
    var pres := Pre(Place);
    assert MaterializePre(pres[0], step) == AtReach(step["to"]);
    assert MaterializePre(pres[1], step) == HoldingIs(Some(step["object"]));
    assert MaterializePre(pres[2], step) == SlotFree(step["to"]);
  }

  /** A well-formed `base.goto` to a known pose always advances, moving only its agent, whichever agent it names. */
  lemma GotoAdvances(ctx: Context, st: State, i: nat, step: Step)
    requires Runnable(ctx, st) && ActionOf(ctx.reg, step) == Some(Goto) && Checked(ctx, Goto, step)
    requires InvariantVerdict(ctx.w, ctx.cfg, st) == None
    ensures "target" in step
    ensures StepOn(ctx, st, i, step) == Advance(st.(agentAt := st.agentAt[AgentOf(step) := Some(step["target"])]))
    ensures InvariantVerdict(ctx.w, ctx.cfg, StepOn(ctx, st, i, step).next) == None
  {
    ReadyAfterChecks(ctx.w, Goto, step);
    assert MaterializePre(Pre(Goto)[0], step) == IsPose(step["target"]);
    AdvancesWhen(ctx, st, i, step, Goto);
    GotoFrame(ctx, st, i, step);
  }

  /**
   * A well-formed `arm.pick` advances when its agent is at the slot's dock with
   * an empty hand and the slot holds the object.
   */
  lemma PickAdvances(ctx: Context, st: State, i: nat, step: Step)
    requires Admissible(ctx, st, step) && ActionOf(ctx.reg, step) == Some(Pick) && Checked(ctx, Pick, step)
    requires "from" in step && "object" in step && step["from"] in ctx.w.reach
    requires st.agentAt[AgentOf(step)] == Some(ctx.w.reach[step["from"]])
    requires Get(st.occ, step["from"]) == Some(step["object"]) && st.holding[AgentOf(step)] == None
    requires InvariantVerdict(ctx.w, ctx.cfg, st) == None
    ensures StepOn(ctx, st, i, step) == Advance(st.(
      occ := st.occ[step["from"] := None],
      holding := st.holding[AgentOf(step) := Some(step["object"])],
      busy := !IsShared(ctx.cfg, step["from"]) && st.busy))
    ensures InvariantVerdict(ctx.w, ctx.cfg, StepOn(ctx, st, i, step).next) == None
  {
    ReadyAfterChecks(ctx.w, Pick, step);
    PickChecksPass(ctx, st, AgentOf(step), step);
    AdvancesWhen(ctx, st, i, step, Pick);
    PickFrame(ctx, st, i, step);
  }

  /**
   * A well-formed `arm.place` advances when its agent is at the slot's dock
   * holding the object, the slot is free and not the busy shared slot, and the
   * allow-list admits the object there.
   */
  lemma PlaceAdvances(ctx: Context, st: State, i: nat, step: Step)
    requires Admissible(ctx, st, step) && ActionOf(ctx.reg, step) == Some(Place) && Checked(ctx, Place, step)
    requires "to" in step && "object" in step && step["to"] in ctx.w.reach
    requires st.agentAt[AgentOf(step)] == Some(ctx.w.reach[step["to"]]) && st.holding[AgentOf(step)] == Some(step["object"])
    requires Free(Get(st.occ, step["to"])) && !(IsShared(ctx.cfg, step["to"]) && st.busy)
    requires !Forbidden(ctx.allowed, step["object"], step["to"])
    requires InvariantVerdict(ctx.w, ctx.cfg, st) == None
    ensures StepOn(ctx, st, i, step) == Advance(st.(
      occ := st.occ[step["to"] := Some(step["object"])],
      holding := st.holding[AgentOf(step) := None],
      busy := IsShared(ctx.cfg, step["to"]) || st.busy))
    ensures InvariantVerdict(ctx.w, ctx.cfg, StepOn(ctx, st, i, step).next) == None
  {
    ReadyAfterChecks(ctx.w, Place, step);
    PlaceChecksPass(ctx, st, AgentOf(step), step);
    AdvancesWhen(ctx, st, i, step, Place);
    PlaceFrame(ctx, st, i, step);
  }

  // ----- the invariant check never fires -----

  /**
   * Effects applied after all preconditions passed keep every object counted as
   * often as before: a pick and a place move one object between a slot and a
   * hand, a goto and a wait do not touch slots or hands.
   */
  lemma {:induction false} EffectsConserve(ctx: Context, st: State, agent: Name, act: Action, step: Step)
    requires Runnable(ctx, st)
    requires (forall k :: k in Required(act) ==> k in step) && Ready(ctx.w, act, step)
    requires FirstFailure(ctx.w, ctx.cfg, st, agent, step, Pre(act)) == None
    ensures Fits(ctx.w, ctx.cfg, ApplyAll(ctx.cfg, st, agent, Effects(act, step)))
    ensures Tally(Places(ctx.w, ctx.cfg, ApplyAll(ctx.cfg, st, agent, Effects(act, step))))
         == Tally(Places(ctx.w, ctx.cfg, st))
  {
    var w, cfg := ctx.w, ctx.cfg;
    EffectsKeepFits(ctx, st, agent, act, step);
    match act
    case Pick =>
      PickChecksHeld(ctx, st, agent, step);
      PickEffectsOf(step);
      PickConserves(w, cfg, st, agent, step["from"], step["object"]);
    case Place =>
      PlaceChecksHeld(ctx, st, agent, step);
      PlaceEffectsOf(step);
      FreeIsFalsy(Get(st.occ, step["to"]));
      PlaceConserves(w, cfg, st, agent, step["to"], step["object"]);
    case Goto =>
      GotoAndWaitEffectsOf(step);
      var next := ApplyAll(cfg, st, agent, [SetAt(step["target"])]);
      ApplyAllUnfold(cfg, st, agent, [SetAt(step["target"])]);
      assert [SetAt(step["target"])][1..] == [];
      assert next.occ == st.occ && next.holding == st.holding;
      assert Places(w, cfg, next) == Places(w, cfg, st);
    case WaitUntilFree =>
      GotoAndWaitEffectsOf(step);
  }

  /** From a state that passes the invariants, a step that passed its preconditions leads to one that passes them too. */
  lemma {:induction false} InvariantsSurviveEffects(ctx: Context, st: State, agent: Name, act: Action, step: Step)
    requires Runnable(ctx, st)
    requires (forall k :: k in Required(act) ==> k in step) && Ready(ctx.w, act, step)
    requires FirstFailure(ctx.w, ctx.cfg, st, agent, step, Pre(act)) == None
    requires InvariantVerdict(ctx.w, ctx.cfg, st) == None
    ensures Fits(ctx.w, ctx.cfg, ApplyAll(ctx.cfg, st, agent, Effects(act, step)))
    ensures InvariantVerdict(ctx.w, ctx.cfg, ApplyAll(ctx.cfg, st, agent, Effects(act, step))) == None
  {
    var next := ApplyAll(ctx.cfg, st, agent, Effects(act, step));
    EffectsConserve(ctx, st, agent, act, step);
    var counts := Tally(Places(ctx.w, ctx.cfg, st));
    JudgeMeaning(counts, FlagConsistent(ctx.cfg, st));
    JudgeMeaning(counts, FlagConsistent(ctx.cfg, next));
  }

  /**
   * From a state that passes the invariants, no step is rejected by the
   * invariant check, and a step that advances leads to a state that passes them.
   */
  lemma StepKeepsInvariants(ctx: Context, st: State, i: nat, step: Step)
    requires Runnable(ctx, st) && InvariantVerdict(ctx.w, ctx.cfg, st) == None
    ensures !(StepOn(ctx, st, i, step).Reject? && StepOn(ctx, st, i, step).err.InvariantBroken?)
    ensures StepOn(ctx, st, i, step).Advance? ==> InvariantVerdict(ctx.w, ctx.cfg, StepOn(ctx, st, i, step).next) == None
  {
    var agent := AgentOf(step);
    match ActionOf(ctx.reg, step)
    case None =>
    case Some(act) =>
      StepOnChecked(ctx, st, i, step, act);
      if Checked(ctx, act, step) {
        ProceedPassed(ctx, st, i, agent, act, step);
        if FirstFailure(ctx.w, ctx.cfg, st, agent, step, Pre(act)) == None {
          InvariantsSurviveEffects(ctx, st, agent, act, step);
          var next := ApplyAll(ctx.cfg, st, agent, Effects(act, step));
          SettleAdvances(ctx, next, i, agent, act, step);
          assert StepOn(ctx, st, i, step) == Settle(ctx, next, i, agent, act, step);
        }
      }
  }

  /**
   * Walking the steps from a state that passes the invariants, no step is ever
   * rejected by the invariant check, and the state the walk ends in passes them.
   */
  lemma {:induction false} RunKeepsInvariants(ctx: Context, st: State, steps: seq<Step>, i: nat)
    requires Runnable(ctx, st) && i <= |steps|
    requires InvariantVerdict(ctx.w, ctx.cfg, st) == None
    ensures !(Run(ctx, st, steps, i).Failed? && Run(ctx, st, steps, i).err.InvariantBroken?)
    ensures Run(ctx, st, steps, i).Finished? || Run(ctx, st, steps, i).Stopped? ==> InvariantVerdict(ctx.w, ctx.cfg, Run(ctx, st, steps, i).last) == None
    decreases |steps| - i
  {
    if i < |steps| {
      StepKeepsInvariants(ctx, st, i, steps[i]);
      var o := StepOn(ctx, st, i, steps[i]);
      if o.Advance? {
        RunKeepsInvariants(ctx, o.next, steps, i + 1);
      }
    }
  }

  /**
   * In a world where no object starts out in two slots, `validate` never reports
   * `invariant_broken`, whatever agents the steps name: every step that passes
   * its preconditions conserves objects and keeps the shared slot's flag
   * consistent.
   */
  lemma NoInvariantBroken(ctx: Context, plan: seq<Step>, goal: Goal)
    requires Sound(ctx.w, ctx.cfg) && NoDuplicateObjects(ctx.w)
    ensures Assess(ctx, Some(plan), goal).Returns? ==>
      forall e :: e in Assess(ctx, Some(plan), goal).verdict.errors ==> !e.InvariantBroken?
  {
    var st := Init(ctx.w, ctx.cfg);
    InitPassesInvariants(ctx.w, ctx.cfg);
    RunKeepsInvariants(ctx, st, plan, 0);
    var o := Assess(ctx, Some(plan), goal);
    match Run(ctx, st, plan, 0)
    case Failed(e) =>
      assert o.verdict.errors == [e];
    case Raised(e) =>
    case Finished(last) =>
      assert o.verdict.errors == GoalErrors(CheckGoal(last, goal));
    case Stopped(last, e) =>
      assert o.verdict.errors == [e] + GoalErrors(CheckGoal(last, goal));
  }

  // ----- fail-fast: nothing after a rejection is looked at -----

  /**
   * A walk that is rejected, stopped or raises at step `k` gives the same result
   * on any other plan with the same steps up to and including `k`.
   */
  lemma {:induction false} RunIgnoresLaterSteps(ctx: Context, st: State, a: seq<Step>, b: seq<Step>, i: nat)
    requires Runnable(ctx, st)
    requires i <= |a| && i <= |b|
    requires !Run(ctx, st, a, i).Finished?
    requires Run(ctx, st, a, i).err.index < |b|
    requires forall j :: i <= j <= Run(ctx, st, a, i).err.index ==> a[j] == b[j]
    ensures Run(ctx, st, b, i) == Run(ctx, st, a, i)
    decreases |a| - i
  {
    assert a[i] == b[i];
    var o := StepOn(ctx, st, i, a[i]);
    RunUnfold(ctx, st, a, i);
    RunUnfold(ctx, st, b, i);
    if o.Advance? {
      RunIgnoresLaterSteps(ctx, o.next, a, b, i + 1);
    }
  }

  /**
   * Fail-fast: once step `k` rejects the plan, names an unknown action or
   * raises, the outcome is the same whatever follows step `k`.
   */
  lemma {:induction false} VerdictIgnoresLaterSteps(ctx: Context, plan: seq<Step>, k: nat, more: seq<Step>, goal: Goal)
    requires Sound(ctx.w, ctx.cfg)
    requires !Run(ctx, Init(ctx.w, ctx.cfg), plan, 0).Finished?
    requires Run(ctx, Init(ctx.w, ctx.cfg), plan, 0).err.index == k
    ensures k < |plan|
    ensures Assess(ctx, Some(plan[..k + 1] + more), goal) == Assess(ctx, Some(plan), goal)
  {
    var st := Init(ctx.w, ctx.cfg);
    var cut := plan[..k + 1] + more;
    KeepPrefix(plan, k, more);
    RunIgnoresLaterSteps(ctx, st, plan, cut, 0);
    SameRunSameVerdict(ctx, cut, plan, goal);
  }

  /** Two plans whose walks end alike get the same outcome. */
  lemma {:induction false} SameRunSameVerdict(ctx: Context, a: seq<Step>, b: seq<Step>, goal: Goal)
    requires Sound(ctx.w, ctx.cfg)
    requires Run(ctx, Init(ctx.w, ctx.cfg), a, 0) == Run(ctx, Init(ctx.w, ctx.cfg), b, 0)
    ensures Assess(ctx, Some(a), goal) == Assess(ctx, Some(b), goal)
  {
  }

  /** Keeping the first `k + 1` steps and appending others keeps those steps. */
  lemma KeepPrefix(plan: seq<Step>, k: nat, more: seq<Step>)
    requires k < |plan|
    ensures |plan[..k + 1] + more| > k
    ensures forall j :: 0 <= j <= k ==> (plan[..k + 1] + more)[j] == plan[j]
  {
  }

  /**
   * What the outcome says about each way the walk ends: a rejection is the only
   * error and fails the goal too; an unknown action is recorded and the goal is
   * still checked on the state reached; a `KeyError` escapes with no verdict;
   * otherwise only the goal decides.
   */
  lemma {:induction false} VerdictOfRun(ctx: Context, plan: seq<Step>, goal: Goal)
    requires Sound(ctx.w, ctx.cfg)
    ensures var r, o := Run(ctx, Init(ctx.w, ctx.cfg), plan, 0), Assess(ctx, Some(plan), goal);
      && (r.Failed? ==> o == Returns(Verdict(false, false, false, [r.err])) && FailFastError(r.err))
      && (r.Raised? ==> o == Raises(r.err) && KeyErrorRaised(r.err))
      && (r.Stopped? ==>
            && o.Returns? && !o.verdict.ok && !o.verdict.logicOk && o.verdict.errors[0] == r.err
            && r.err.UnknownAction? && (o.verdict.goalOk <==> CheckGoal(r.last, goal) == None))
      && (r.Finished? ==>
            && o.Returns? && o.verdict.logicOk == o.verdict.goalOk
            && (o.verdict.ok <==> CheckGoal(r.last, goal) == None))
  {
  }

  // ----- `KeyError` -----

  /**
   * Every step of the plan names an action the table lists with all its
   * required fields, or an action the table does not list.
   */
  predicate FieldsPresent(reg: Registry, steps: seq<Step>)
  {
    forall j :: 0 <= j < |steps| && ActionOf(reg, steps[j]).Some? ==>
      forall k :: k in Required(ActionOf(reg, steps[j]).value) ==> k in steps[j]
  }

  /**
   * `validate` returns its dictionary, never raising `KeyError`, for a plan whose
   * steps act as agents of the roster and carry their required fields.
   */
  lemma KnownAgentsNeverRaise(ctx: Context, plan: seq<Step>, goal: Goal)
    requires Sound(ctx.w, ctx.cfg) && AgentsKnown(ctx.cfg, plan) && FieldsPresent(ctx.reg, plan)
    ensures Assess(ctx, Some(plan), goal).Returns?
  {
  }

  /**
   * A pick or place by an agent without a pose entry (one outside the roster
   * that has not moved yet) raises `KeyError` at `at_reach`, its first
   * precondition.
   */
  lemma PoselessArmRaises(ctx: Context, st: State, i: nat, step: Step, act: Action)
    requires Runnable(ctx, st) && ActionOf(ctx.reg, step) == Some(act) && (act == Pick || act == Place)
    requires Checked(ctx, act, step) && AgentOf(step) !in st.agentAt
    ensures AgentOf(step) !in ctx.cfg.roster
    ensures StepOn(ctx, st, i, step) == Raise(AgentKeyError(i, AgentOf(step)))
  {
    StepOnChecked(ctx, st, i, step, act);
    var pres := Pre(act);
    assert pres[0] == AtReachT(SlotField(act));
    assert PreReadable(ctx.w, step, pres[0]);
    ProceedPassed(ctx, st, i, AgentOf(step), act, step);
  }

  /**
   * A pick or place by an agent outside the roster that is at the slot's dock
   * passes `at_reach` and raises `KeyError` when it reads the agent's hand.
   */
  lemma HandlessArmRaises(ctx: Context, st: State, i: nat, step: Step, act: Action)
    requires Runnable(ctx, st) && ActionOf(ctx.reg, step) == Some(act) && (act == Pick || act == Place)
    requires Checked(ctx, act, step) && AgentOf(step) !in ctx.cfg.roster
    requires "object" in step && SlotField(act) in step && step[SlotField(act)] in ctx.w.reach
    requires AgentOf(step) in st.agentAt && st.agentAt[AgentOf(step)] == Some(ctx.w.reach[step[SlotField(act)]])
    requires act == Pick ==> Get(st.occ, step["from"]) == Some(step["object"])
    ensures StepOn(ctx, st, i, step) == Raise(AgentKeyError(i, AgentOf(step)))
  {
    StepOnChecked(ctx, st, i, step, act);
    HandIsMissing(ctx, st, i, AgentOf(step), step, act);
  }

  /** The precondition scan of such a step stops at `holding_is`, which finds no hand entry. */
  lemma {:induction false} HandIsMissing(ctx: Context, st: State, i: nat, agent: Name, step: Step, act: Action)
    requires Runnable(ctx, st) && Ready(ctx.w, act, step) && (act == Pick || act == Place)
    requires forall k :: k in Required(act) ==> k in step
    requires agent !in ctx.cfg.roster && SlotField(act) in step && step[SlotField(act)] in ctx.w.reach
    requires agent in st.agentAt && st.agentAt[agent] == Some(ctx.w.reach[step[SlotField(act)]])
    requires act == Pick ==> "from" in step && "object" in step && Get(st.occ, step["from"]) == Some(step["object"])
    ensures Proceed(ctx, st, i, agent, act, step) == Raise(AgentKeyError(i, agent))
  {
    var pres := Pre(act);
    var h := if act == Pick then 2 else 1;
    assert pres[0] == AtReachT(SlotField(act)) && pres[h].HoldingIsT?;
    assert pres[0] in pres && pres[1] in pres && pres[h] in pres;
    assert Evaluate(ctx.w, ctx.cfg, st, agent, MaterializePre(pres[0], step)) == None;
    assert act == Pick ==> Evaluate(ctx.w, ctx.cfg, st, agent, MaterializePre(pres[1], step)) == None;
    assert Evaluate(ctx.w, ctx.cfg, st, agent, MaterializePre(pres[h], step)) == Some(NoEntryFor(agent));
    var j := FirstFailureIsFirst(ctx.w, ctx.cfg, st, agent, step, pres);
    assert j == h;
    assert FirstFailure(ctx.w, ctx.cfg, st, agent, step, pres).value.1.NoEntryFor?;
  }

  // ----- which failure is reported -----

  /**
   * A pick or place whose agent is not at the slot's dock is rejected by
   * `at_reach`, the first precondition, whatever else is wrong with the state.
   */
  lemma ReachCheckedFirst(ctx: Context, st: State, i: nat, step: Step, act: Action)
    requires Runnable(ctx, st) && ActionOf(ctx.reg, step) == Some(act) && (act == Pick || act == Place)
    requires Checked(ctx, act, step) && SlotField(act) in step && step[SlotField(act)] in ctx.w.reach
    requires AgentOf(step) in st.agentAt
    requires st.agentAt[AgentOf(step)] != Some(ctx.w.reach[step[SlotField(act)]])
    ensures StepOn(ctx, st, i, step) == Reject(PreconditionFailed(i, AgentOf(step),
      AtReach(step[SlotField(act)]), NotAtDock(ctx.w.reach[step[SlotField(act)]], st.agentAt[AgentOf(step)])))
  {
    StepOnChecked(ctx, st, i, step, act);
    ReachFailsFirst(ctx, st, AgentOf(step), step, act);
    ProceedPassed(ctx, st, i, AgentOf(step), act, step);
  }

  /** `at_reach` heads the preconditions of a pick and of a place. */
  lemma {:induction false} ReachFailsFirst(ctx: Context, st: State, agent: Name, step: Step, act: Action)
    requires Runnable(ctx, st) && agent in st.agentAt && Ready(ctx.w, act, step) && (act == Pick || act == Place)
    requires SlotField(act) in step && step[SlotField(act)] in ctx.w.reach
    requires st.agentAt[agent] != Some(ctx.w.reach[step[SlotField(act)]])
    ensures FirstFailure(ctx.w, ctx.cfg, st, agent, step, Pre(act)) ==
      Some((AtReach(step[SlotField(act)]), NotAtDock(ctx.w.reach[step[SlotField(act)]], st.agentAt[agent])))
  {
    assert Pre(act)[0] == AtReachT(SlotField(act));
  }

  /**
   * Agents start without a pose, so a plan whose first step is a well-formed
   * pick or place is rejected at that step by `at_reach`, and that is its only
   * error; an agent outside the roster has no pose entry at all and raises
   * `KeyError` there instead.
   */
  lemma NoReachBeforeGoto(ctx: Context, plan: seq<Step>, goal: Goal, act: Action)
    requires Sound(ctx.w, ctx.cfg) && plan != []
    requires ActionOf(ctx.reg, plan[0]) == Some(act) && (act == Pick || act == Place)
    requires Checked(ctx, act, plan[0]) && SlotField(act) in plan[0] && plan[0][SlotField(act)] in ctx.w.reach
    ensures AgentOf(plan[0]) in ctx.cfg.roster ==>
      Assess(ctx, Some(plan), goal) == Returns(Verdict(false, false, false,
        [PreconditionFailed(0, AgentOf(plan[0]), AtReach(plan[0][SlotField(act)]),
          NotAtDock(ctx.w.reach[plan[0][SlotField(act)]], None))]))
    ensures AgentOf(plan[0]) !in ctx.cfg.roster ==>
      Assess(ctx, Some(plan), goal) == Raises(AgentKeyError(0, AgentOf(plan[0])))
  {
    var st, agent, slot := Init(ctx.w, ctx.cfg), AgentOf(plan[0]), plan[0][SlotField(act)];
    RunUnfold(ctx, st, plan, 0);
    if agent in ctx.cfg.roster {
      ReachCheckedFirst(ctx, st, 0, plan[0], act);
      assert Run(ctx, st, plan, 0) == Failed(PreconditionFailed(0, agent, AtReach(slot), NotAtDock(ctx.w.reach[slot], None)));
    } else {
      PoselessArmRaises(ctx, st, 0, plan[0], act);
      assert Run(ctx, st, plan, 0) == Raised(AgentKeyError(0, agent));
    }
  }

  /**
   * The allow-list rejects a place that passed its preconditions exactly when
   * the slot is listed and no pattern admits the object.
   */
  lemma {:induction false} ConstraintRejects(ctx: Context, st: State, i: nat, step: Step)
    requires Runnable(ctx, st) && ActionOf(ctx.reg, step) == Some(Place)
    requires Checked(ctx, Place, step) && Ready(ctx.w, Place, step) && "object" in step && "to" in step
    requires FirstFailure(ctx.w, ctx.cfg, st, AgentOf(step), step, Pre(Place)) == None
    requires Forbidden(ctx.allowed, step["object"], step["to"])
    ensures StepOn(ctx, st, i, step) == Reject(ConstraintViolation(i, AgentOf(step), step["object"], step["to"]))
  {
    StepOnChecked(ctx, st, i, step, Place);
    ProceedPassed(ctx, st, i, AgentOf(step), Place, step);
  }

  /**
   * Only a place is ever rejected by the allow-list, only for its own object and
   * slot, and only when the slot is listed and no pattern admits the object: a
   * slot missing from `allowed_targets` is unconstrained.
   */
  lemma ConstraintOnlyForListedSlots(ctx: Context, st: State, i: nat, step: Step)
    requires Runnable(ctx, st)
    requires StepOn(ctx, st, i, step).Reject? && StepOn(ctx, st, i, step).err.ConstraintViolation?
    ensures ActionOf(ctx.reg, step) == Some(Place) && "to" in step && "object" in step
    ensures var e := StepOn(ctx, st, i, step).err;
      && e.slot == step["to"] && e.obj == step["object"] && e.agent == AgentOf(step)
      && e.slot in ctx.allowed && !AnyMatch(e.obj, ctx.allowed[e.slot])
  {
    var act, agent := ActionOf(ctx.reg, step).value, AgentOf(step);
    StepOnChecked(ctx, st, i, step, act);
    assert Checked(ctx, act, step);
    ProceedPassed(ctx, st, i, agent, act, step);
    assert FirstFailure(ctx.w, ctx.cfg, st, agent, step, Pre(act)) == None;
    var next := ApplyAll(ctx.cfg, st, agent, Effects(act, step));
    SettleConstraint(ctx, next, i, agent, act, step);
  }

  /** `Settle` reports a constraint violation only for a forbidden place. */
  lemma SettleConstraint(ctx: Context, next: State, i: nat, agent: Name, act: Action, step: Step)
    requires Fits(ctx.w, ctx.cfg, next) && forall k :: k in Required(act) ==> k in step
    ensures Settle(ctx, next, i, agent, act, step).Reject? && Settle(ctx, next, i, agent, act, step).err.ConstraintViolation?
      <==> act == Place && Forbidden(ctx.allowed, step["object"], step["to"])
    ensures act == Place && Forbidden(ctx.allowed, step["object"], step["to"]) ==>
      Settle(ctx, next, i, agent, act, step) == Reject(ConstraintViolation(i, agent, step["object"], step["to"]))
  {
  }

  /**
   * The names check has no branch for `wait_until_free`, so a wait on a slot the
   * world does not have passes it and is rejected by `slot_free` instead.
   */
  lemma WaitOnUnknownSlot(ctx: Context, st: State, i: nat, step: Step)
    requires Runnable(ctx, st) && ActionOf(ctx.reg, step) == Some(WaitUntilFree)
    requires ctx.reg == MultiAgentTable && "target" in step && step["target"] !in ctx.w.slots
    requires forall k :: k in step ==> k == "action" || k == "target" || k == "agent"
    ensures StepOn(ctx, st, i, step) ==
      Reject(PreconditionFailed(i, AgentOf(step), SlotFree(step["target"]), UnknownSlot(step["target"])))
  {
    var agent, t := AgentOf(step), step["target"];
    WaitPassesSchema(ctx, step);
    StepOnChecked(ctx, st, i, step, WaitUntilFree);
    WaitOnUnknownTarget(ctx, st, agent, step);
    ProceedPassed(ctx, st, i, agent, WaitUntilFree, step);
  }

  /** `slot_free` on a target the world does not have fails with `unknown slot`. */
  lemma {:induction false} WaitOnUnknownTarget(ctx: Context, st: State, agent: Name, step: Step)
    requires "target" in step && step["target"] !in ctx.w.slots
    ensures forall t :: t in Pre(WaitUntilFree) ==> PreReadable(ctx.w, step, t)
    ensures FirstFailure(ctx.w, ctx.cfg, st, agent, step, Pre(WaitUntilFree))
         == Some((SlotFree(step["target"]), UnknownSlot(step["target"])))
  {
    assert Pre(WaitUntilFree) == [SlotFreeT("target")];
    assert MaterializePre(SlotFreeT("target"), step) == SlotFree(step["target"]);
  }

  /** A wait with a target and no field but `action`, `target` and `agent` passes both checks. */
  lemma WaitPassesSchema(ctx: Context, step: Step)
    requires ctx.reg == MultiAgentTable && "action" in step && "target" in step
    requires forall k :: k in step ==> k == "action" || k == "target" || k == "agent"
    ensures Checked(ctx, WaitUntilFree, step)
  {
    WaitFieldsAllowed(step);
    WaitFieldsPresent(step);
  }

  /** A wait with `action` and `target` misses no required field. */
  lemma WaitFieldsPresent(step: Step)
    requires "action" in step && "target" in step
    ensures CheckSchema(MultiAgentTable, WaitUntilFree, step).missing == []
  {
    assert forall k :: k in Required(WaitUntilFree) ==> k in step;
  }

  /** The cooperative table allows `action`, `target` and `agent` for a wait. */
  lemma WaitFieldsAllowed(step: Step)
    requires forall k :: k in step ==> k == "action" || k == "target" || k == "agent"
    ensures CheckSchema(MultiAgentTable, WaitUntilFree, step).extra == {}
  {
    var allowed := SchemaTable(MultiAgentTable)[WaitUntilFree].allowed;
    assert allowed == ["agent", "action", "target"];
    forall k | k in step ensures k in allowed {
    }
  }

  // ----- the `agent` field -----

  /** A field that is not required does not change which required fields are missing. */
  lemma {:induction false} MissingIgnores(required: seq<string>, step: Step, key: string, x: string)
    requires key !in required
    ensures Missing(required, step[key := x]) == Missing(required, step)
  {
    if required != [] {
      MissingIgnores(required[1..], step, key, x);
    }
  }

  /**
   * `check_step_schema` never complains about `agent`: tagging a step with an
   * agent (or retagging it) leaves its schema issues unchanged, in either table.
   */
  lemma {:induction false} AgentFieldExempt(reg: Registry, act: Action, step: Step, x: string)
    requires act in Catalog(reg)
    ensures CheckSchema(reg, act, step["agent" := x]) == CheckSchema(reg, act, step)
  {
    AgentNotRequired(act);
    MissingIgnores(Required(act), step, "agent", x);
    ExtraIgnoresAgent(reg, act, step, x);
  }

  /** No action requires `agent`. */
  lemma AgentNotRequired(act: Action)
    ensures "agent" !in Required(act)
  {
  }

  /** The extra fields of a step do not depend on its `agent` field. */
  lemma {:induction false} ExtraIgnoresAgent(reg: Registry, act: Action, step: Step, x: string)
    requires act in Catalog(reg)
    ensures CheckSchema(reg, act, step["agent" := x]).extra == CheckSchema(reg, act, step).extra
  {
    ExtraSetIgnoresAgent(SchemaTable(reg)[act].allowed, step, x);
  }

  /** The fields that are neither allowed nor `agent` are the same once `agent` is set. */
  lemma {:induction false} ExtraSetIgnoresAgent(allowed: seq<string>, step: Step, x: string)
    ensures (set k | k in step["agent" := x] && k !in allowed && k != "agent")
         == (set k | k in step && k !in allowed && k != "agent")
  {
  }

  /** The preconditions read the same values from a step whatever its `agent` field. */
  lemma {:induction false} FirstFailureIgnoresAgentField(w: World, cfg: Config, st: State, agent: Name, step: Step, x: string, pres: seq<PreTemplate>)
    requires forall t :: t in pres ==> PreReadable(w, step, t) && "agent" !in PreKeys(t)
    ensures forall t :: t in pres ==> PreReadable(w, step["agent" := x], t)
    ensures FirstFailure(w, cfg, st, agent, step["agent" := x], pres) == FirstFailure(w, cfg, st, agent, step, pres)
    decreases |pres|
  {
    if pres != [] {
      assert pres[0] in pres;
      assert MaterializePre(pres[0], step["agent" := x]) == MaterializePre(pres[0], step);
      assert forall t :: t in pres[1..] ==> t in pres;
      FirstFailureIgnoresAgentField(w, cfg, st, agent, step, x, pres[1..]);
    }
  }

  /** The effects read the same values from a step whatever its `agent` field. */
  lemma EffectsIgnoreAgentField(act: Action, step: Step, x: string)
    requires forall t :: t in Eff(act) ==> EffKeys(t) <= step.Keys && "agent" !in EffKeys(t)
    ensures forall t :: t in Eff(act) ==> EffKeys(t) <= step["agent" := x].Keys
    ensures Effects(act, step["agent" := x]) == Effects(act, step)
  {
    forall j | 0 <= j < |Eff(act)|
      ensures MaterializeEff(Eff(act)[j], step["agent" := x]) == MaterializeEff(Eff(act)[j], step)
    {
      assert Eff(act)[j] in Eff(act);
    }
  }

  /** Setting the `agent` field keeps every template readable. */
  lemma ReadyIgnoresAgentField(w: World, act: Action, step: Step, x: string)
    requires (forall k :: k in Required(act) ==> k in step) && Ready(w, act, step)
    ensures forall t :: t in Pre(act) ==> "agent" !in PreKeys(t)
    ensures forall t :: t in Eff(act) ==> "agent" !in EffKeys(t)
    ensures (forall k :: k in Required(act) ==> k in step["agent" := x]) && Ready(w, act, step["agent" := x])
  {
    AgentNotRequired(act);
    TemplatesReadRequiredFields(act);
    forall t | t in Pre(act) ensures PreReadable(w, step["agent" := x], t) {
      assert PreReadable(w, step, t);
    }
    forall t | t in Eff(act) ensures EffReadable(w, step["agent" := x], t) {
      assert EffReadable(w, step, t);
    }
  }

  /** Past the checks, a step's outcome does not depend on its `agent` field. */
  lemma ProceedIgnoresAgentField(ctx: Context, st: State, i: nat, agent: Name, act: Action, step: Step, x: string)
    requires Runnable(ctx, st)
    requires (forall k :: k in Required(act) ==> k in step) && Ready(ctx.w, act, step)
    ensures (forall k :: k in Required(act) ==> k in step["agent" := x]) && Ready(ctx.w, act, step["agent" := x])
    ensures Proceed(ctx, st, i, agent, act, step["agent" := x]) == Proceed(ctx, st, i, agent, act, step)
  {
    var s := step["agent" := x];
    ReadyIgnoresAgentField(ctx.w, act, step, x);
    FirstFailureIgnoresAgentField(ctx.w, ctx.cfg, st, agent, step, x, Pre(act));
    if FirstFailure(ctx.w, ctx.cfg, st, agent, step, Pre(act)) == None {
      EffectsIgnoreAgentField(act, step, x);
      ProceedPassed(ctx, st, i, agent, act, step);
      ProceedPassed(ctx, st, i, agent, act, s);
      SettleIgnoresAgentField(ctx, ApplyAll(ctx.cfg, st, agent, Effects(act, step)), i, agent, act, step, x);
    }
  }

  /** The allow-list and invariant checks read only `object` and `to`, never `agent`. */
  lemma SettleIgnoresAgentField(ctx: Context, next: State, i: nat, agent: Name, act: Action, step: Step, x: string)
    requires Fits(ctx.w, ctx.cfg, next) && forall k :: k in Required(act) ==> k in step
    ensures forall k :: k in Required(act) ==> k in step["agent" := x]
    ensures Settle(ctx, next, i, agent, act, step["agent" := x]) == Settle(ctx, next, i, agent, act, step)
  {
  }

  /**
   * For a given acting agent, the checks, preconditions, effects and
   * constraint of a step never read its `agent` field: setting it changes
   * nothing else.
   */
  lemma ScreenIgnoresAgentField(ctx: Context, st: State, i: nat, agent: Name, act: Action, step: Step, x: string)
    requires Runnable(ctx, st) && act in Catalog(ctx.reg)
    ensures Screen(ctx, st, i, agent, act, step["agent" := x]) == Screen(ctx, st, i, agent, act, step)
  {
    AgentFieldExempt(ctx.reg, act, step, x);
    var issues := CheckSchema(ctx.reg, act, step);
    if issues.missing != [] && act != WaitUntilFree {
      ScreenRaises(ctx, st, i, agent, act, step);
      ScreenRaises(ctx, st, i, agent, act, step["agent" := x]);
    } else if Checked(ctx, act, step) {
      CheckedIgnoresAgentField(ctx, st, i, agent, act, step, x);
    } else {
      RejectIgnoresAgentField(ctx, st, i, agent, act, step, x);
    }
  }

  /** `ScreenIgnoresAgentField` for a step that passes both checks. */
  lemma CheckedIgnoresAgentField(ctx: Context, st: State, i: nat, agent: Name, act: Action, step: Step, x: string)
    requires Runnable(ctx, st) && act in Catalog(ctx.reg) && Checked(ctx, act, step)
    ensures Screen(ctx, st, i, agent, act, step["agent" := x]) == Screen(ctx, st, i, agent, act, step)
  {
    var s := step["agent" := x];
    AgentFieldExempt(ctx.reg, act, step, x);
    CheckNamesIgnoresAgentField(ctx.w, act, step, x);
    ScreenProceeds(ctx, st, i, agent, act, step);
    ScreenProceeds(ctx, st, i, agent, act, s);
    ProceedIgnoresAgentField(ctx, st, i, agent, act, step, x);
  }

  /** `ScreenIgnoresAgentField` for a step rejected with a schema error. */
  lemma RejectIgnoresAgentField(ctx: Context, st: State, i: nat, agent: Name, act: Action, step: Step, x: string)
    requires Runnable(ctx, st) && act in Catalog(ctx.reg) && !Checked(ctx, act, step)
    requires CheckSchema(ctx.reg, act, step).missing == [] || act == WaitUntilFree
    ensures Screen(ctx, st, i, agent, act, step["agent" := x]) == Screen(ctx, st, i, agent, act, step)
  {
    var s := step["agent" := x];
    AgentFieldExempt(ctx.reg, act, step, x);
    if CheckSchema(ctx.reg, act, step).missing == [] {
      CheckNamesIgnoresAgentField(ctx.w, act, step, x);
    }
    assert !Checked(ctx, act, s);
    ScreenRejects(ctx, st, i, agent, act, step);
    ScreenRejects(ctx, st, i, agent, act, s);
  }

  /** `check_step_names_and_types` does not read the `agent` field. */
  lemma CheckNamesIgnoresAgentField(w: World, act: Action, step: Step, x: string)
    requires forall k :: k in Required(act) ==> k in step
    ensures forall k :: k in Required(act) ==> k in step["agent" := x]
    ensures CheckNames(w, act, step["agent" := x]) == CheckNames(w, act, step)
  {
    AgentNotRequired(act);
  }

  /**
   * A step without an `agent` field acts as robotA: it has exactly the
   * outcome of the same step tagged `"agent": "robotA"`.
   */
  lemma NoAgentActsAsRobotA(ctx: Context, st: State, i: nat, step: Step)
    requires Runnable(ctx, st) && "agent" !in step
    ensures StepOn(ctx, st, i, step) == StepOn(ctx, st, i, step["agent" := DefaultAgent])
  {
    var s := step["agent" := DefaultAgent];
    assert ActionOf(ctx.reg, s) == ActionOf(ctx.reg, step);
    assert AgentOf(s) == AgentOf(step);
    if ActionOf(ctx.reg, step).Some? {
      ScreenIgnoresAgentField(ctx, st, i, DefaultAgent, ActionOf(ctx.reg, step).value, step, DefaultAgent);
    }
  }
}
