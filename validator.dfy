/**
 * `validate`: walks a plan's steps in order against the symbolic state and
 * returns `{ok, logic_ok, goal_ok, errors}`. `Run` and `Assess` state what the
 * validator computes; `Validate` is the step loop that computes it, threading a
 * mutable `SymbolicState`.
 */
module Validator {
  import opened Common
  import opened WorldModel
  import opened ActionSpec
  import opened Symbolic
  import opened Glob

  /** A plan step: a JSON object whose values are strings. */
  type Step = map<string, string>

  /** The goal: `(object, slot)` pairs in the goal dictionary's order; `None` is the empty goal. */
  type Goal = seq<(Name, Name)>

  /**
   * What `validate` is given besides the plan and the goal: the world, the
   * validator variant, the action table, and `constraints["allowed_targets"]`
   * (empty when absent).
   */
  datatype Context = Context(w: World, cfg: Config, reg: Registry, allowed: map<Name, seq<string>>)

  /** The agent a step acts as: its `agent` field, or robotA when it has none. */
  function AgentOf(step: Step): (a: Name)
    ensures "agent" in step ==> a == step["agent"]
    ensures "agent" !in step ==> a == DefaultAgent
  {
    if "agent" in step then step["agent"] else DefaultAgent
  }

  /** The `action` field, if the step has one. */
  function ActionName(step: Step): Option<string>
  {
    if "action" in step then Some(step["action"]) else None
  }

  /** The table entry a step names, if the table lists it. */
  function ActionOf(reg: Registry, step: Step): (r: Option<Action>)
    ensures r.Some? ==> r.value in Catalog(reg) && ActionName(step) == Some(NameOf(r.value))
    ensures r.None? ==> forall a :: a in Catalog(reg) ==> ActionName(step) != Some(NameOf(a))
  {
    if "action" !in step then None
    else match Parse(step["action"])
      case Some(a) => if a in Catalog(reg) then Some(a) else None
      case None => None
  }

  // ----- `check_step_schema` and `check_step_names_and_types` -----

  /** The required fields the step lacks, in the table's order. */
  function Missing(required: seq<string>, step: Step): (m: seq<string>)
    ensures forall k :: k in m <==> k in required && k !in step
    ensures |m| <= |required|
  {
    if required == [] then []
    else (if required[0] in step then [] else [required[0]]) + Missing(required[1..], step)
  }

  /** The fields `check_step_schema` complains about. */
  datatype SchemaIssues = SchemaIssues(missing: seq<string>, extra: set<string>)

  /**
   * `check_step_schema`: the required fields that are absent, and the fields
   * that are neither allowed nor `agent`.
   */
  function CheckSchema(reg: Registry, act: Action, step: Step): (r: SchemaIssues)
    requires act in Catalog(reg)
    ensures r.missing == [] <==> forall k :: k in Required(act) ==> k in step
    ensures forall k :: k in r.missing <==> k in Required(act) && k !in step
    ensures forall k :: k in r.extra <==> k in step && k !in SchemaTable(reg)[act].allowed && k != "agent"
  {
    var allowed := SchemaTable(reg)[act].allowed;
    var missing := Missing(Required(act), step);
    assert missing != [] ==> missing[0] in missing;
    SchemaIssues(missing, set k | k in step && k !in allowed && k != "agent")
  }

  /** A reference to something the world does not have. */
  datatype NameIssue = UnknownPoseName(pose: Name) | UnknownObject(obj: Name) | UnknownSlotName(slot: Name)

  /** The slot field an arm action names. */
  function SlotField(act: Action): string
  {
    if act == Pick then "from" else "to"
  }

  /**
   * `check_step_names_and_types`: a goto's target must be a pose; a pick's or
   * place's object must be an object and its slot a slot. There is no branch for
   * `wait_until_free`, so its target is not checked here.
   */
  function CheckNames(w: World, act: Action, step: Step): (r: seq<NameIssue>)
    requires forall k :: k in Required(act) ==> k in step
    ensures act == WaitUntilFree ==> r == []
    ensures act == Goto ==> (r == [] <==> step["target"] in w.poses)
    ensures act == Pick || act == Place ==>
      (r == [] <==> step["object"] in w.objects && step[SlotField(act)] in w.slots)
  {
    match act
    case Goto =>
      if step["target"] in w.poses then [] else [UnknownPoseName(step["target"])]
    case WaitUntilFree => []
    case _ =>
      var slot := step[SlotField(act)];
      (if step["object"] in w.objects then [] else [UnknownObject(step["object"])])
      + (if slot in w.slots then [] else [UnknownSlotName(slot)])
  }

  // ----- `_materialize` -----

  /** A precondition template can be read from the step, and an `at_reach` slot has a dock. */
  predicate PreReadable(w: World, step: Step, t: PreTemplate)
  {
    PreKeys(t) <= step.Keys && (t.AtReachT? ==> t.slotKey in step && step[t.slotKey] in w.reach)
  }

  /** An effect template can be read from the step, and a `slot_set` names a world slot. */
  predicate EffReadable(w: World, step: Step, t: EffTemplate)
  {
    EffKeys(t) <= step.Keys && (t.SlotSetT? ==> t.slotKey in step && step[t.slotKey] in w.slots)
  }

  /** Every template of the action can be materialized from the step. */
  predicate Ready(w: World, act: Action, step: Step)
  {
    && (forall t :: t in Pre(act) ==> PreReadable(w, step, t))
    && (forall t :: t in Eff(act) ==> EffReadable(w, step, t))
  }

  /** `_materialize` of a precondition: `is_pose` always reads `target`. */
  function MaterializePre(t: PreTemplate, step: Step): (c: Check)
    requires PreKeys(t) <= step.Keys
    ensures c.AtReach? <==> t.AtReachT?
    ensures c.HoldingIs? <==> t.HoldingIsT?
    ensures t.AtReachT? ==> c.slot == step[t.slotKey]
  {
    match t
    case IsPoseT(_) => IsPose(step["target"])
    case AtReachT(s) => AtReach(step[s])
    case SlotHasT(s, o) => SlotHas(step[s], step[o])
    case SlotFreeT(s) => SlotFree(step[s])
    case HoldingIsT(v) => HoldingIs(if v.Some? then Some(step[v.value]) else None)
  }

  /**
   * `_materialize` of an effect: each template gives the update of its own kind;
   * `set_at` always reads `target`, and `slot_set` writes the slot its field names.
   */
  function MaterializeEff(t: EffTemplate, step: Step): (u: Update)
    requires EffKeys(t) <= step.Keys
    ensures u.SetAt? <==> t.SetAtT?
    ensures u.HoldingSet? <==> t.HoldingSetT?
    ensures u.SetAt? ==> u.target == step["target"]
    ensures u.SlotSet? ==> t.SlotSetT? && u.slot == step[t.slotKey]
  {
    match t
    case SetAtT(_) => SetAt(step["target"])
    case HoldingSetT(v) => HoldingSet(if v.Some? then Some(step[v.value]) else None)
    case SlotSetT(s, v) => SlotSet(step[s], if v.Some? then Some(step[v.value]) else None)
  }

  /**
   * The materialized effect list of an action, one update per template in
   * declared order: only `base.goto` moves an agent, only the arm actions write
   * a slot or a hand, and `wait_until_free` has no effect.
   */
  function Effects(act: Action, step: Step): (us: seq<Update>)
    requires forall t :: t in Eff(act) ==> EffKeys(t) <= step.Keys
    ensures |us| == |Eff(act)|
    ensures forall u :: u in us ==> (u.SetAt? <==> act == Goto)
    ensures forall u :: u in us && !u.SetAt? ==> act == Pick || act == Place
    ensures act == WaitUntilFree ==> us == []
  {
    seq(|Eff(act)|, j requires 0 <= j < |Eff(act)| => MaterializeEff(Eff(act)[j], step))
  }

  /**
   * The preconditions in declared order: the first one that fails, with its
   * reason, or `None` when all hold.
   */
  function FirstFailure(w: World, cfg: Config, st: State, agent: Name, step: Step, pres: seq<PreTemplate>)
    : (r: Option<(Check, Why)>)
    requires forall t :: t in pres ==> PreReadable(w, step, t)
    ensures r == None <==>
      forall j :: 0 <= j < |pres| ==>
        PreReadable(w, step, pres[j]) && Evaluate(w, cfg, st, agent, MaterializePre(pres[j], step)) == None
    ensures r.Some? ==>
      (exists j :: 0 <= j < |pres| && PreReadable(w, step, pres[j]) && r.value.0 == MaterializePre(pres[j], step))
      && Evaluate(w, cfg, st, agent, r.value.0) == Some(r.value.1)
    decreases |pres|
  {
    if pres == [] then None
    else
      assert PreReadable(w, step, pres[0]) by { assert pres[0] in pres; }
      var c := MaterializePre(pres[0], step);
      match Evaluate(w, cfg, st, agent, c)
      case Some(why) => Some((c, why))
      case None =>
        assert forall t :: t in pres[1..] ==> t in pres;
        var r := FirstFailure(w, cfg, st, agent, step, pres[1..]);
        assert forall j :: 1 <= j < |pres| ==> pres[j] == pres[1..][j - 1];
        r
  }

  /** The failure reported is that of the first precondition, in declared order, that does not hold. */
  lemma {:induction false} FirstFailureIsFirst(w: World, cfg: Config, st: State, agent: Name, step: Step, pres: seq<PreTemplate>)
    returns (j: nat)
    requires forall t :: t in pres ==> PreReadable(w, step, t)
    requires FirstFailure(w, cfg, st, agent, step, pres).Some?
    ensures j < |pres| && PreReadable(w, step, pres[j])
    ensures FirstFailure(w, cfg, st, agent, step, pres).value.0 == MaterializePre(pres[j], step)
    ensures forall l :: 0 <= l < j ==> PreReadable(w, step, pres[l]) && Evaluate(w, cfg, st, agent, MaterializePre(pres[l], step)) == None
    decreases |pres|
  {
    assert PreReadable(w, step, pres[0]) by { assert pres[0] in pres; }
    if Evaluate(w, cfg, st, agent, MaterializePre(pres[0], step)).Some? {
      j := 0;
    } else {
      var tail := pres[1..];
      assert forall t :: t in tail ==> t in pres;
      FirstFailureSuffix(w, cfg, st, agent, step, pres, 0);
      assert pres[0..] == pres;
      var k := FirstFailureIsFirst(w, cfg, st, agent, step, tail);
      j := k + 1;
      forall l | 0 <= l < j
        ensures PreReadable(w, step, pres[l]) && Evaluate(w, cfg, st, agent, MaterializePre(pres[l], step)) == None
      {
        if l > 0 {
          assert pres[l] == tail[l - 1];
        }
      }
      assert pres[j] == tail[k];
    }
  }

  // ----- one step -----

  /** `constraints["allowed_targets"]` lists the slot and none of its patterns matches the object. */
  predicate Forbidden(allowed: map<Name, seq<string>>, obj: Name, slot: Name)
    ensures Forbidden(allowed, obj, slot) <==> slot in allowed && forall p :: p in allowed[slot] ==> !Match(obj, p)
  {
    slot in allowed && !AnyMatch(obj, allowed[slot])
  }

  /** The reason `validate` records, with the index of the step it concerns. */
  datatype Error =
    | MissingSteps
    | UnknownAction(index: nat, name: Option<string>)
    | SchemaError(index: nat, missing: seq<string>, extra: set<string>, names: seq<NameIssue>)
    | PreconditionFailed(index: nat, agent: Name, check: Check, why: Why)
    | ConstraintViolation(index: nat, agent: Name, obj: Name, slot: Name)
    | InvariantBroken(index: nat, failure: InvariantFailure)
    | GoalUnsatisfied(obj: Name, slot: Name, found: Cell)
    | AgentKeyError(index: nat, agent: Name)  // a pick or place reads the hand or pose of an agent without one
    | FieldKeyError(index: nat, key: string)  // the names check reads a field the step lacks

  /** An error that rejects the plan on the spot (a reported failure other than an unknown action). */
  predicate FailFastError(e: Error)
  {
    e.SchemaError? || e.PreconditionFailed? || e.ConstraintViolation? || e.InvariantBroken?
  }

  /** A `KeyError` that escapes `validate` instead of being reported. */
  predicate KeyErrorRaised(e: Error)
  {
    e.AgentKeyError? || e.FieldKeyError?
  }

  /**
   * What one step does: go on with a new state, stop the walk (unknown action:
   * `break`), reject the plan (every other reported failure: `return`), or
   * raise `KeyError`.
   */
  datatype StepOutcome = Advance(next: State) | Halt(err: Error) | Reject(err: Error) | Raise(err: Error)

  /** Once a step has passed the schema and names checks, all its templates can be read. */
  lemma ReadyAfterChecks(w: World, act: Action, step: Step)
    requires WellFormed(w)
    requires forall k :: k in Required(act) ==> k in step
    requires CheckNames(w, act, step) == []
    ensures Ready(w, act, step)
  {
    TemplatesReadRequiredFields(act);
  }

  /** What a context demands before the engine can run: a sound world and roster. */
  predicate Runnable(ctx: Context, st: State)
  {
    Sound(ctx.w, ctx.cfg) && Fits(ctx.w, ctx.cfg, st)
  }

  /**
   * Where a `KeyError` a step raises comes from: a pick or place by an agent
   * outside the roster, or a goto, pick or place that lacks a required field.
   */
  predicate RaisedBy(ctx: Context, step: Step, e: Error)
  {
    match ActionOf(ctx.reg, step)
    case None => false
    case Some(act) =>
      && (e.AgentKeyError? ==> e.agent == AgentOf(step) && e.agent !in ctx.cfg.roster && (act == Pick || act == Place))
      && (e.FieldKeyError? ==> act != WaitUntilFree && e.key in Required(act) && e.key !in step)
  }

  /** The body of `validate`'s loop for step `i`. */
  function StepOn(ctx: Context, st: State, i: nat, step: Step): (o: StepOutcome)
    requires Runnable(ctx, st)
    ensures o.Advance? ==> Fits(ctx.w, ctx.cfg, o.next)
    ensures o.Advance? && FlagConsistent(ctx.cfg, st) ==> FlagConsistent(ctx.cfg, o.next)
    ensures o.Halt? <==> ActionOf(ctx.reg, step).None?
    ensures o.Halt? ==> o.err == UnknownAction(i, ActionName(step))
    ensures o.Reject? ==> FailFastError(o.err) && o.err.index == i
    ensures o.Raise? ==> KeyErrorRaised(o.err) && o.err.index == i && RaisedBy(ctx, step, o.err)
  {
    match ActionOf(ctx.reg, step)
    case None => Halt(UnknownAction(i, ActionName(step)))
    case Some(act) => Screen(ctx, st, i, AgentOf(step), act, step)
  }

  /**
   * `check_step_schema` and `check_step_names_and_types` on a step whose action
   * the table lists, then `Proceed`. A required field that is absent is a
   * schema error, but the names check of a goto, pick or place then reads it
   * and raises `KeyError`; `wait_until_free` has no names check.
   */
  function Screen(ctx: Context, st: State, i: nat, agent: Name, act: Action, step: Step): (o: StepOutcome)
    requires Runnable(ctx, st) && act in Catalog(ctx.reg)
    ensures o.Advance? ==> Fits(ctx.w, ctx.cfg, o.next)
    ensures o.Advance? && FlagConsistent(ctx.cfg, st) ==> FlagConsistent(ctx.cfg, o.next)
    ensures o.Reject? ==> FailFastError(o.err) && o.err.index == i
    ensures !o.Halt?
    ensures o.Raise? ==> KeyErrorRaised(o.err) && o.err.index == i
    ensures o.Raise? && o.err.AgentKeyError? ==> o.err.agent == agent && agent !in ctx.cfg.roster && (act == Pick || act == Place)
    ensures o.Raise? && o.err.FieldKeyError? ==> act != WaitUntilFree && o.err.key in Required(act) && o.err.key !in step
  {
    var issues := CheckSchema(ctx.reg, act, step);
    if issues.missing != [] && act != WaitUntilFree then
      assert issues.missing[0] in issues.missing;
      Raise(FieldKeyError(i, issues.missing[0]))
    else
      var names := if issues.missing == [] then CheckNames(ctx.w, act, step) else [];
      if issues.missing != [] || issues.extra != {} || names != [] then
        Reject(SchemaError(i, issues.missing, issues.extra, names))
      else
        ReadyAfterChecks(ctx.w, act, step);
        Proceed(ctx, st, i, agent, act, step)
  }

  /**
   * A step past the schema and names checks: preconditions, effects, then
   * `Settle`. A precondition that reads the hand or pose of an agent without
   * one raises `KeyError`.
   */
  function Proceed(ctx: Context, st: State, i: nat, agent: Name, act: Action, step: Step): (o: StepOutcome)
    requires Runnable(ctx, st)
    requires (forall k :: k in Required(act) ==> k in step) && Ready(ctx.w, act, step)
    ensures o.Advance? ==> Fits(ctx.w, ctx.cfg, o.next)
    ensures o.Advance? && FlagConsistent(ctx.cfg, st) ==> FlagConsistent(ctx.cfg, o.next)
    ensures o.Reject? ==> FailFastError(o.err) && o.err.index == i
    ensures o.Raise? ==> o.err == AgentKeyError(i, agent) && agent !in ctx.cfg.roster && (act == Pick || act == Place)
    ensures !o.Halt?
  {
    match FirstFailure(ctx.w, ctx.cfg, st, agent, step, Pre(act))
    case Some(f) =>
      if f.1.NoEntryFor? then
        NoEntryOnlyInArmActions(ctx, st, agent, act, step);
        Raise(AgentKeyError(i, agent))
      else Reject(PreconditionFailed(i, agent, f.0, f.1))
    case None =>
      EffectsKeepFits(ctx, st, agent, act, step);
      Settle(ctx, ApplyAll(ctx.cfg, st, agent, Effects(act, step)), i, agent, act, step)
  }

  /**
   * Only an arm action reads a hand or a pose, and only for an agent outside
   * the roster is either entry missing.
   */
  lemma NoEntryOnlyInArmActions(ctx: Context, st: State, agent: Name, act: Action, step: Step)
    requires Runnable(ctx, st) && Ready(ctx.w, act, step)
    requires FirstFailure(ctx.w, ctx.cfg, st, agent, step, Pre(act)).Some?
    requires FirstFailure(ctx.w, ctx.cfg, st, agent, step, Pre(act)).value.1.NoEntryFor?
    ensures agent !in ctx.cfg.roster && (act == Pick || act == Place)
  {
    var pres := Pre(act);
    var f := FirstFailure(ctx.w, ctx.cfg, st, agent, step, pres).value;
    var j :| 0 <= j < |pres| && PreReadable(ctx.w, step, pres[j]) && f.0 == MaterializePre(pres[j], step);
    assert f.0.HoldingIs? || f.0.AtReach?;
    assert pres[j].HoldingIsT? || pres[j].AtReachT?;
  }

  /**
   * Once the preconditions pass, the effects keep the state fitting the world
   * and roster: an arm action has found the agent's hand, and the other
   * actions write no hand.
   */
  lemma EffectsKeepFits(ctx: Context, st: State, agent: Name, act: Action, step: Step)
    requires Runnable(ctx, st) && Ready(ctx.w, act, step)
    requires FirstFailure(ctx.w, ctx.cfg, st, agent, step, Pre(act)) == None
    ensures Fits(ctx.w, ctx.cfg, ApplyAll(ctx.cfg, st, agent, Effects(act, step)))
  {
    EffectsOnSlots(ctx.w, act, step);
    if act == Pick || act == Place {
      ArmPassMeansKnown(ctx, st, agent, act, step);
    }
    ApplyAllKeepsFits(ctx.w, ctx.cfg, st, agent, Effects(act, step));
  }

  /** A pick or place whose preconditions all pass has found the agent's pose and hand: its agent is in the roster. */
  lemma ArmPassMeansKnown(ctx: Context, st: State, agent: Name, act: Action, step: Step)
    requires Runnable(ctx, st) && Ready(ctx.w, act, step) && (act == Pick || act == Place)
    requires FirstFailure(ctx.w, ctx.cfg, st, agent, step, Pre(act)) == None
    ensures agent in st.agentAt && agent in st.holding && agent in ctx.cfg.roster
  {
    var pres := Pre(act);
    var j := if act == Pick then 2 else 1;
    assert pres[0].AtReachT? && pres[j].HoldingIsT?;
    assert Evaluate(ctx.w, ctx.cfg, st, agent, MaterializePre(pres[0], step)) == None;
    assert Evaluate(ctx.w, ctx.cfg, st, agent, MaterializePre(pres[j], step)) == None;
  }

  /** The state after the effects: the allow-list constraint for places, then the invariants. */
  function Settle(ctx: Context, next: State, i: nat, agent: Name, act: Action, step: Step): (o: StepOutcome)
    requires Fits(ctx.w, ctx.cfg, next) && forall k :: k in Required(act) ==> k in step
    ensures o.Advance? ==> o.next == next
    ensures o.Reject? ==> FailFastError(o.err) && o.err.index == i
    ensures !o.Halt?
  {
    if act == Place && Forbidden(ctx.allowed, step["object"], step["to"]) then
      Reject(ConstraintViolation(i, agent, step["object"], step["to"]))
    else
      match InvariantVerdict(ctx.w, ctx.cfg, next)
      case Some(f) => Reject(InvariantBroken(i, f))
      case None => Advance(next)
  }

  /** The materialized effects write only world slots. */
  lemma EffectsOnSlots(w: World, act: Action, step: Step)
    requires Ready(w, act, step)
    ensures forall u :: u in Effects(act, step) && u.SlotSet? ==> u.slot in w.slots
  {
    var us := Effects(act, step);
    forall u | u in us && u.SlotSet? ensures u.slot in w.slots {
      var j :| 0 <= j < |us| && us[j] == u;
      assert Eff(act)[j] in Eff(act);
    }
  }

  // ----- the walk and the verdict -----

  /** Every step acts as an agent of the roster (the plans the planner is asked for). */
  predicate AgentsKnown(cfg: Config, steps: seq<Step>)
  {
    forall j :: 0 <= j < |steps| ==> AgentOf(steps[j]) in cfg.roster
  }

  /** Where the walk over the steps ends. */
  datatype RunResult =
    | Finished(last: State)                // every step advanced
    | Stopped(last: State, err: Error)     // an unknown action broke the loop
    | Failed(err: Error)                   // a step rejected the plan
    | Raised(err: Error)                   // a step raised `KeyError`

  /** The loop of `validate` from step `i` on, starting in `st`. */
  function Run(ctx: Context, st: State, steps: seq<Step>, i: nat): (r: RunResult)
    requires Runnable(ctx, st) && i <= |steps|
    ensures (r.Finished? || r.Stopped?) ==> Fits(ctx.w, ctx.cfg, r.last)
    ensures r.Stopped? ==> r.err.UnknownAction? && i <= r.err.index < |steps|
    ensures r.Failed? ==> FailFastError(r.err) && i <= r.err.index < |steps|
    ensures r.Raised? ==> KeyErrorRaised(r.err) && i <= r.err.index < |steps|
    decreases |steps| - i
  {
    if i == |steps| then Finished(st)
    else
      match StepOn(ctx, st, i, steps[i])
      case Advance(next) => Run(ctx, next, steps, i + 1)
      case Halt(e) => Stopped(st, e)
      case Reject(e) => Failed(e)
      case Raise(e) => Raised(e)
  }

  /** The walk from a step that is not the last: that step, then the rest. */
  lemma RunUnfold(ctx: Context, st: State, steps: seq<Step>, i: nat)
    requires Runnable(ctx, st) && i < |steps|
    ensures Run(ctx, st, steps, i) == match StepOn(ctx, st, i, steps[i])
      case Advance(next) => Run(ctx, next, steps, i + 1)
      case Halt(e) => Stopped(st, e)
      case Reject(e) => Failed(e)
      case Raise(e) => Raised(e)
  {
  }

  /** A walk that raises `KeyError` raises it at a step that explains it. */
  lemma {:induction false} RunRaisedBy(ctx: Context, st: State, steps: seq<Step>, i: nat)
    requires Runnable(ctx, st) && i <= |steps| && Run(ctx, st, steps, i).Raised?
    ensures RaisedBy(ctx, steps[Run(ctx, st, steps, i).err.index], Run(ctx, st, steps, i).err)
    decreases |steps| - i
  {
    var o := StepOn(ctx, st, i, steps[i]);
    if o.Advance? {
      RunRaisedBy(ctx, o.next, steps, i + 1);
    }
  }

  /** `check_goal`: the first goal pair whose slot does not hold its object. */
  function CheckGoal(st: State, goal: Goal): (r: Option<Error>)
    ensures r == None <==> forall k :: 0 <= k < |goal| ==> Get(st.occ, goal[k].1) == Some(goal[k].0)
    ensures r.Some? ==>
      (exists k :: 0 <= k < |goal|
        && (forall l :: 0 <= l < k ==> Get(st.occ, goal[l].1) == Some(goal[l].0))
        && Get(st.occ, goal[k].1) != Some(goal[k].0)
        && r.value == GoalUnsatisfied(goal[k].0, goal[k].1, Get(st.occ, goal[k].1)))
  {
    if goal == [] then None
    else
      var (obj, slot) := goal[0];
      if Get(st.occ, slot) != Some(obj) then
        Some(GoalUnsatisfied(obj, slot, Get(st.occ, slot)))
      else
        var r := CheckGoal(st, goal[1..]);
        assert forall k :: 1 <= k < |goal| ==> goal[k] == goal[1..][k - 1];
        if r.Some? then
          var k :| 0 <= k < |goal[1..]|
            && (forall l :: 0 <= l < k ==> Get(st.occ, goal[1..][l].1) == Some(goal[1..][l].0))
            && Get(st.occ, goal[1..][k].1) != Some(goal[1..][k].0)
            && r.value == GoalUnsatisfied(goal[1..][k].0, goal[1..][k].1, Get(st.occ, goal[1..][k].1));
          assert goal[k + 1] == goal[1..][k];
          r
        else r
  }

  /** The dictionary `validate` returns. */
  datatype Verdict = Verdict(ok: bool, logicOk: bool, goalOk: bool, errors: seq<Error>)

  /** The goal failure, if any, as a list of errors. */
  function GoalErrors(g: Option<Error>): seq<Error>
  {
    if g.Some? then [g.value] else []
  }

  /** What a call of `validate` does: return its dictionary, or raise `KeyError`. */
  datatype Outcome = Returns(verdict: Verdict) | Raises(err: Error)

  /**
   * `validate`. A plan without a `steps` list (`None`) is rejected outright; a
   * rejected step is the only error; an unknown action and a goal failure are
   * both recorded, in that order; a `KeyError` escapes.
   */
  function Assess(ctx: Context, plan: Option<seq<Step>>, goal: Goal): (o: Outcome)
    requires Sound(ctx.w, ctx.cfg)
    ensures o.Returns? ==> (o.verdict.ok <==> o.verdict.logicOk && o.verdict.goalOk)
    ensures o.Returns? ==> (o.verdict.logicOk <==> o.verdict.errors == [])
    ensures o.Returns? ==> (o.verdict.logicOk ==> o.verdict.goalOk)
    ensures o.Returns? ==> 1 <= |o.verdict.errors| + (if o.verdict.logicOk then 1 else 0) <= 3 && |o.verdict.errors| <= 2
    ensures o.Raises? ==>
      plan.Some? && KeyErrorRaised(o.err) && o.err.index < |plan.value| && RaisedBy(ctx, plan.value[o.err.index], o.err)
    ensures plan.None? ==> o == Returns(Verdict(false, false, false, [MissingSteps]))
  {
    if plan.None? then Returns(Verdict(false, false, false, [MissingSteps]))
    else
      match Run(ctx, Init(ctx.w, ctx.cfg), plan.value, 0)
      case Failed(e) => Returns(Verdict(false, false, false, [e]))
      case Raised(e) =>
        RunRaisedBy(ctx, Init(ctx.w, ctx.cfg), plan.value, 0);
        Raises(e)
      case Finished(st) =>
        var g := CheckGoal(st, goal);
        Returns(Verdict(g.None?, g.None?, g.None?, GoalErrors(g)))
      case Stopped(st, e) =>
        var g := CheckGoal(st, goal);
        Returns(Verdict(false, false, g.None?, [e] + GoalErrors(g)))
  }

  // ----- the imperative validator -----

  /** Applying a non-empty effect list is applying its head, then the rest. */
  lemma {:induction false} ApplyAllUnfold(cfg: Config, st: State, agent: Name, us: seq<Update>)
    requires us != []
    ensures ApplyAll(cfg, st, agent, us) == ApplyAll(cfg, Apply(cfg, st, agent, us[0]), agent, us[1..])
  {
  }

  /** Preconditions evaluated from position `k` on agree with the whole list once the prefix passed. */
  lemma {:induction false} FirstFailureSuffix(w: World, cfg: Config, st: State, agent: Name, step: Step, pres: seq<PreTemplate>, k: nat)
    requires forall t :: t in pres ==> PreReadable(w, step, t)
    requires k < |pres| && PreReadable(w, step, pres[k])
    requires Evaluate(w, cfg, st, agent, MaterializePre(pres[k], step)) == None
    ensures FirstFailure(w, cfg, st, agent, step, pres[k..]) == FirstFailure(w, cfg, st, agent, step, pres[k + 1..])
  {
    assert forall t :: t in pres[k..] ==> t in pres;
    assert forall t :: t in pres[k + 1..] ==> t in pres;
    assert pres[k..][0] == pres[k];
    assert pres[k..][1..] == pres[k + 1..];
  }

  /** The preconditions loop of `validate`: checked in declared order, stopping at the first failure. */
  method CheckPreconditions(w: World, cfg: Config, st: SymbolicState, agent: Name, step: Step, pres: seq<PreTemplate>)
    returns (r: Option<(Check, Why)>)
    requires forall t :: t in pres ==> PreReadable(w, step, t)
    ensures r == FirstFailure(w, cfg, st.Value(), agent, step, pres)
  {
    var k := 0;
    while k < |pres|
      invariant 0 <= k <= |pres|
      invariant FirstFailure(w, cfg, st.Value(), agent, step, pres)
             == FirstFailure(w, cfg, st.Value(), agent, step, pres[k..])
    {
      assert PreReadable(w, step, pres[k]) by { assert pres[k] in pres; }
      var c := MaterializePre(pres[k], step);
      var why := Evaluate(w, cfg, st.Value(), agent, c);
      if why.Some? {
        assert pres[k..][0] == pres[k];
        return Some((c, why.value));
      }
      FirstFailureSuffix(w, cfg, st.Value(), agent, step, pres, k);
      k := k + 1;
    }
    assert pres[k..] == [];
    return None;
  }

  /** The effects loop of `validate`: each effect applied in turn to the state. */
  method ApplyEffects(cfg: Config, st: SymbolicState, agent: Name, effs: seq<Update>)
    modifies st
    ensures st.Value() == ApplyAll(cfg, old(st.Value()), agent, effs)
  {
    var m := 0;
    while m < |effs|
      invariant 0 <= m <= |effs|
      invariant ApplyAll(cfg, old(st.Value()), agent, effs) == ApplyAll(cfg, st.Value(), agent, effs[m..])
    {
      ApplyAllUnfold(cfg, st.Value(), agent, effs[m..]);
      assert effs[m..][1..] == effs[m + 1..];
      st.ApplyEffect(cfg, agent, effs[m]);
      m := m + 1;
    }
    assert effs[m..] == [];
  }

  /**
   * One iteration of `validate`'s loop on the mutable state: the outcome is
   * `StepOn`'s, and an advancing step leaves its new state in `st`.
   */
  method RunStep(ctx: Context, st: SymbolicState, i: nat, step: Step) returns (o: StepOutcome)
    requires Runnable(ctx, st.Value())
    modifies st
    ensures o == StepOn(ctx, old(st.Value()), i, step)
    ensures o.Advance? ==> st.Value() == o.next
    ensures o.Halt? || o.Raise? ==> st.Value() == old(st.Value())
  {
    var agent := AgentOf(step);
    var found := ActionOf(ctx.reg, step);
    if found.None? {
      return Halt(UnknownAction(i, ActionName(step)));
    }
    var act := found.value;
    var issues := CheckSchema(ctx.reg, act, step);
    if issues.missing != [] && act != WaitUntilFree {
      // the names check reads the first absent field
      return Raise(FieldKeyError(i, issues.missing[0]));
    }
    var names := if issues.missing == [] then CheckNames(ctx.w, act, step) else [];
    if issues.missing != [] || issues.extra != {} || names != [] {
      return Reject(SchemaError(i, issues.missing, issues.extra, names));
    }
    ReadyAfterChecks(ctx.w, act, step);
    o := ProceedStep(ctx, st, i, agent, act, step);
  }

  /** The rest of the loop body once the schema and names checks passed; mirrors `Proceed`. */
  method ProceedStep(ctx: Context, st: SymbolicState, i: nat, agent: Name, act: Action, step: Step)
    returns (o: StepOutcome)
    requires Runnable(ctx, st.Value())
    requires (forall k :: k in Required(act) ==> k in step) && Ready(ctx.w, act, step)
    modifies st
    ensures o == Proceed(ctx, old(st.Value()), i, agent, act, step)
    ensures o.Advance? ==> st.Value() == o.next
    ensures o.Raise? ==> st.Value() == old(st.Value())
  {
    ghost var s0 := st.Value();
    var failed := CheckPreconditions(ctx.w, ctx.cfg, st, agent, step, Pre(act));
    if failed.Some? {
      if failed.value.1.NoEntryFor? {
        NoEntryOnlyInArmActions(ctx, s0, agent, act, step);
        return Raise(AgentKeyError(i, agent));
      }
      return Reject(PreconditionFailed(i, agent, failed.value.0, failed.value.1));
    }
    var effs := Effects(act, step);
    EffectsKeepFits(ctx, s0, agent, act, step);
    ApplyEffects(ctx.cfg, st, agent, effs);
    o := SettleStep(ctx, st, i, agent, act, step);
  }

  /** The allow-list constraint, then the invariants, on the state after the effects; mirrors `Settle`. */
  method SettleStep(ctx: Context, st: SymbolicState, i: nat, agent: Name, act: Action, step: Step)
    returns (o: StepOutcome)
    requires Fits(ctx.w, ctx.cfg, st.Value()) && forall k :: k in Required(act) ==> k in step
    ensures o == Settle(ctx, st.Value(), i, agent, act, step)
  {
    // the allow-list constraint, for places only
    if act == Place && Forbidden(ctx.allowed, step["object"], step["to"]) {
      return Reject(ConstraintViolation(i, agent, step["object"], step["to"]));
    }
    // object uniqueness and the busy flag
    var broken := st.CheckInvariants(ctx.w, ctx.cfg);
    if broken.Some? {
      return Reject(InvariantBroken(i, broken.value));
    }
    return Advance(st.Value());
  }

  /** `validate`: the outcome is the one `Assess` specifies. */
  method Validate(ctx: Context, plan: Option<seq<Step>>, goal: Goal) returns (o: Outcome)
    requires Sound(ctx.w, ctx.cfg)
    ensures o == Assess(ctx, plan, goal)
  {
    if plan.None? {
      return Returns(Verdict(false, false, false, [MissingSteps]));
    }
    var steps := plan.value;
    var st := new SymbolicState(ctx.w, ctx.cfg);
    var errors: seq<Error> := [];
    var i := 0;
    while i < |steps|
      invariant 0 <= i <= |steps|
      invariant Runnable(ctx, st.Value())
      invariant errors == []
      invariant Run(ctx, Init(ctx.w, ctx.cfg), steps, 0) == Run(ctx, st.Value(), steps, i)
    {
      RunUnfold(ctx, st.Value(), steps, i);
      var o := RunStep(ctx, st, i, steps[i]);
      match o
      case Reject(e) =>
        return Returns(Verdict(false, false, false, [e]));
      case Raise(e) =>
        return Raises(e);
      case Halt(e) =>
        errors := [e];
        break;
      case Advance(_) =>
        i := i + 1;
    }
    assert errors == [] ==> Run(ctx, Init(ctx.w, ctx.cfg), steps, 0) == Finished(st.Value());
    assert errors != [] ==> Run(ctx, Init(ctx.w, ctx.cfg), steps, 0) == Stopped(st.Value(), errors[0]);

    var g := CheckGoal(st.Value(), goal);
    if g.Some? {
      errors := errors + [g.value];
    }
    var logicOk := |errors| == 0;
    var goalOk := g.None?;
    return Returns(Verdict(logicOk && goalOk, logicOk, goalOk, errors));
  }
}
