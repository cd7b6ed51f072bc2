/**
 * Concrete plans from the repository's datasets, run through the model of
 * `validate`: the S2 gold plan (robotA moves the red box to its bin, then
 * robotB moves the blue box to its bin) is accepted and leaves both boxes in
 * their bins.
 */
module Scenarios {
  import opened Common
  import opened WorldModel
  import opened ActionSpec
  import opened Symbolic
  import opened Validator
  import opened ValidatorProperties

  /** A `base.goto` step tagged with its agent. */
  function GotoStep(agent: Name, target: Name): Step
  {
    map["agent" := agent, "action" := NameOf(Goto), "target" := target]
  }

  /** An `arm.pick` step tagged with its agent. */
  function PickStep(agent: Name, obj: Name, from: Name): Step
  {
    map["agent" := agent, "action" := NameOf(Pick), "object" := obj, "from" := from]
  }

  /** An `arm.place` step tagged with its agent. */
  function PlaceStep(agent: Name, obj: Name, to: Name): Step
  {
    map["agent" := agent, "action" := NameOf(Place), "object" := obj, "to" := to]
  }

  /** A step whose `action` field is an action's name, from the table, is that action. */
  lemma {:induction false} NamedAction(reg: Registry, step: Step, a: Action)
    requires a in Catalog(reg) && "action" in step && step["action"] == NameOf(a)
    ensures ActionOf(reg, step) == Some(a)
  {
    ParseNameOf(a);
  }

  /** A step with every required field and otherwise only `agent` passes `check_step_schema`. */
  lemma {:induction false} SchemaPasses(reg: Registry, a: Action, step: Step)
    requires a in Catalog(reg)
    requires forall k :: k in Required(a) ==> k in step
    requires forall k :: k in step ==> k == "agent" || k in Required(a)
    ensures CheckSchema(reg, a, step).missing == [] && CheckSchema(reg, a, step).extra == {}
  {
    forall k | k in step ensures k in SchemaTable(reg)[a].allowed || k == "agent" {
      assert k == "agent" || k in SchemaTable(reg)[a].required;
    }
  }

  /** A tagged goto to a known pose passes both checks, in either table. */
  lemma {:induction false} GotoStepChecked(ctx: Context, agent: Name, target: Name)
    requires target in ctx.w.poses
    ensures ActionOf(ctx.reg, GotoStep(agent, target)) == Some(Goto)
    ensures AgentOf(GotoStep(agent, target)) == agent
    ensures Checked(ctx, Goto, GotoStep(agent, target))
  {
    var step := GotoStep(agent, target);
    NamedAction(ctx.reg, step, Goto);
    SchemaPasses(ctx.reg, Goto, step);
  }

  /** A tagged pick of a known object from a known slot passes both checks, in either table. */
  lemma {:induction false} PickStepChecked(ctx: Context, agent: Name, obj: Name, from: Name)
    requires obj in ctx.w.objects && from in ctx.w.slots
    ensures ActionOf(ctx.reg, PickStep(agent, obj, from)) == Some(Pick)
    ensures AgentOf(PickStep(agent, obj, from)) == agent
    ensures Checked(ctx, Pick, PickStep(agent, obj, from))
  {
    var step := PickStep(agent, obj, from);
    NamedAction(ctx.reg, step, Pick);
    SchemaPasses(ctx.reg, Pick, step);
  }

  /** A tagged place of a known object into a known slot passes both checks, in either table. */
  lemma {:induction false} PlaceStepChecked(ctx: Context, agent: Name, obj: Name, to: Name)
    requires obj in ctx.w.objects && to in ctx.w.slots
    ensures ActionOf(ctx.reg, PlaceStep(agent, obj, to)) == Some(Place)
    ensures AgentOf(PlaceStep(agent, obj, to)) == agent
    ensures Checked(ctx, Place, PlaceStep(agent, obj, to))
  {
    var step := PlaceStep(agent, obj, to);
    NamedAction(ctx.reg, step, Place);
    SchemaPasses(ctx.reg, Place, step);
  }

  // ----- running a plan one step at a time -----

  /** A step that advances hands the rest of the walk to the state it produced. */
  lemma RunAdvance(ctx: Context, st: State, steps: seq<Step>, i: nat, next: State)
    requires Runnable(ctx, st) && i < |steps|
    requires StepOn(ctx, st, i, steps[i]) == Advance(next)
    ensures Runnable(ctx, next)
    ensures Run(ctx, st, steps, i) == Run(ctx, next, steps, i + 1)
  {
  }

  /** A goto to a known pose moves its agent there and the walk goes on. */
  lemma GotoRuns(ctx: Context, st: State, steps: seq<Step>, i: nat, agent: Name, target: Name)
    requires Runnable(ctx, st) && i < |steps|
    requires steps[i] == GotoStep(agent, target) && target in ctx.w.poses
    requires InvariantVerdict(ctx.w, ctx.cfg, st) == None
    ensures Runnable(ctx, st.(agentAt := st.agentAt[agent := Some(target)]))
    ensures InvariantVerdict(ctx.w, ctx.cfg, st.(agentAt := st.agentAt[agent := Some(target)])) == None
    ensures Run(ctx, st, steps, i) == Run(ctx, st.(agentAt := st.agentAt[agent := Some(target)]), steps, i + 1)
  {
    GotoStepChecked(ctx, agent, target);
    GotoAdvances(ctx, st, i, steps[i]);
    RunAdvance(ctx, st, steps, i, st.(agentAt := st.agentAt[agent := Some(target)]));
  }

  /** A pick from the agent's dock, of the object the slot holds, into an empty hand. */
  lemma PickRuns(ctx: Context, st: State, steps: seq<Step>, i: nat, agent: Name, obj: Name, from: Name)
    requires Runnable(ctx, st) && i < |steps|
    requires agent in ctx.cfg.roster
    requires steps[i] == PickStep(agent, obj, from) && obj in ctx.w.objects && from in ctx.w.slots
    requires agent in st.agentAt && st.agentAt[agent] == Some(ctx.w.reach[from])
    requires Get(st.occ, from) == Some(obj) && st.holding[agent] == None
    requires !IsShared(ctx.cfg, from) && !st.busy
    requires InvariantVerdict(ctx.w, ctx.cfg, st) == None
    ensures Runnable(ctx, st.(occ := st.occ[from := None], holding := st.holding[agent := Some(obj)]))
    ensures InvariantVerdict(ctx.w, ctx.cfg, st.(occ := st.occ[from := None], holding := st.holding[agent := Some(obj)])) == None
    ensures Run(ctx, st, steps, i)
      == Run(ctx, st.(occ := st.occ[from := None], holding := st.holding[agent := Some(obj)]), steps, i + 1)
  {
    PickStepChecked(ctx, agent, obj, from);
    assert AgentOf(steps[i]) == agent;
    PickAdvances(ctx, st, i, steps[i]);
    RunAdvance(ctx, st, steps, i, st.(occ := st.occ[from := None], holding := st.holding[agent := Some(obj)]));
  }

  /** A place from the agent's dock, of the object in its hand, into a free slot the allow-list admits. */
  lemma PlaceRuns(ctx: Context, st: State, steps: seq<Step>, i: nat, agent: Name, obj: Name, to: Name)
    requires Runnable(ctx, st) && i < |steps|
    requires agent in ctx.cfg.roster
    requires steps[i] == PlaceStep(agent, obj, to) && obj in ctx.w.objects && to in ctx.w.slots
    requires agent in st.agentAt && st.agentAt[agent] == Some(ctx.w.reach[to])
    requires st.holding[agent] == Some(obj) && Free(Get(st.occ, to))
    requires !IsShared(ctx.cfg, to) && !st.busy && !Forbidden(ctx.allowed, obj, to)
    requires InvariantVerdict(ctx.w, ctx.cfg, st) == None
    ensures Runnable(ctx, st.(occ := st.occ[to := Some(obj)], holding := st.holding[agent := None]))
    ensures InvariantVerdict(ctx.w, ctx.cfg, st.(occ := st.occ[to := Some(obj)], holding := st.holding[agent := None])) == None
    ensures Run(ctx, st, steps, i)
      == Run(ctx, st.(occ := st.occ[to := Some(obj)], holding := st.holding[agent := None]), steps, i + 1)
  {
    PlaceStepChecked(ctx, agent, obj, to);
    assert AgentOf(steps[i]) == agent;
    PlaceAdvances(ctx, st, i, steps[i]);
    RunAdvance(ctx, st, steps, i, st.(occ := st.occ[to := Some(obj)], holding := st.holding[agent := None]));
  }

  // ----- moving one box -----

  /**
   * The four steps of the gold plans' per-robot fragment: go to the slot's
   * dock, pick the box, go to the target's dock, place the box.
   */
  predicate MovesBox(ctx: Context, steps: seq<Step>, i: nat, agent: Name, obj: Name, from: Name, to: Name)
    requires from in ctx.w.reach && to in ctx.w.reach
  {
    && i + 4 <= |steps|
    && steps[i] == GotoStep(agent, ctx.w.reach[from])
    && steps[i + 1] == PickStep(agent, obj, from)
    && steps[i + 2] == GotoStep(agent, ctx.w.reach[to])
    && steps[i + 3] == PlaceStep(agent, obj, to)
  }

  /**
   * What one delivery needs: a known box in a known slot, a free known target
   * slot (both with docks that are poses, neither the shared slot), an agent
   * with an empty hand, an allow-list that admits the box there, and a free
   * shared slot.
   */
  predicate CanMove(ctx: Context, st: State, agent: Name, obj: Name, from: Name, to: Name)
    requires Runnable(ctx, st)
  {
    && agent in ctx.cfg.roster && obj in ctx.w.objects
    && from in ctx.w.slots && to in ctx.w.slots && from != to
    && ctx.w.reach[from] in ctx.w.poses && ctx.w.reach[to] in ctx.w.poses
    && st.holding[agent] == None && Get(st.occ, from) == Some(obj) && Free(Get(st.occ, to))
    && !IsShared(ctx.cfg, from) && !IsShared(ctx.cfg, to) && !st.busy && !Forbidden(ctx.allowed, obj, to)
  }

  /** The state after a delivery: the box moved, the hand as before, the agent at the target's dock. */
  function AfterMove(st: State, agent: Name, obj: Name, from: Name, to: Name, dock: Name): (r: State)
    ensures r.occ == st.occ[from := None][to := Some(obj)] && r.holding == st.holding
    ensures r.agentAt == st.agentAt[agent := Some(dock)] && r.busy == st.busy
  {
    State(st.occ[from := None][to := Some(obj)], st.holding, st.agentAt[agent := Some(dock)], st.busy)
  }

  /**
   * An agent with an empty hand that goes to a box, picks it, goes to a free
   * slot and places it there gets all four steps accepted: the box has moved,
   * the hand is empty again and the agent waits at the target's dock.
   */
  lemma {:induction false} MoveBox(ctx: Context, st: State, steps: seq<Step>, i: nat, agent: Name, obj: Name, from: Name, to: Name)
    requires Runnable(ctx, st) && CanMove(ctx, st, agent, obj, from, to)
    requires MovesBox(ctx, steps, i, agent, obj, from, to)
    requires InvariantVerdict(ctx.w, ctx.cfg, st) == None
    ensures Runnable(ctx, AfterMove(st, agent, obj, from, to, ctx.w.reach[to]))
    ensures InvariantVerdict(ctx.w, ctx.cfg, AfterMove(st, agent, obj, from, to, ctx.w.reach[to])) == None
    ensures Run(ctx, st, steps, i) == Run(ctx, AfterMove(st, agent, obj, from, to, ctx.w.reach[to]), steps, i + 4)
  {
    var s1 := st.(agentAt := st.agentAt[agent := Some(ctx.w.reach[from])]);
    GotoRuns(ctx, st, steps, i, agent, ctx.w.reach[from]);
    var s2 := s1.(occ := s1.occ[from := None], holding := s1.holding[agent := Some(obj)]);
    PickRuns(ctx, s1, steps, i + 1, agent, obj, from);
    var s3 := s2.(agentAt := s2.agentAt[agent := Some(ctx.w.reach[to])]);
    assert Get(s3.occ, to) == Get(st.occ, to);
    GotoRuns(ctx, s2, steps, i + 2, agent, ctx.w.reach[to]);
    var s4 := s3.(occ := s3.occ[to := Some(obj)], holding := s3.holding[agent := None]);
    PlaceRuns(ctx, s3, steps, i + 3, agent, obj, to);
    BoxMoved(st, s4, agent, obj, from, to, ctx.w.reach[from], ctx.w.reach[to]);
  }

  /** The state after the four steps, written out. */
  lemma {:induction false} BoxMoved(st: State, last: State, agent: Name, obj: Name, from: Name, to: Name, d1: Name, d2: Name)
    requires agent in st.holding && st.holding[agent] == None
    requires last == st.(agentAt := st.agentAt[agent := Some(d1)])
                       .(occ := st.occ[from := None], holding := st.holding[agent := Some(obj)])
                       .(agentAt := st.agentAt[agent := Some(d1)][agent := Some(d2)])
                       .(occ := st.occ[from := None][to := Some(obj)], holding := st.holding[agent := Some(obj)][agent := None])
    ensures last == AfterMove(st, agent, obj, from, to, d2)
  {
    assert st.holding[agent := Some(obj)][agent := None] == st.holding;
    assert st.agentAt[agent := Some(d1)][agent := Some(d2)] == st.agentAt[agent := Some(d2)];
  }

  /** A plan whose last four steps deliver a box ends once they are accepted. */
  lemma {:induction false} LastMove(ctx: Context, st: State, plan: seq<Step>, i: nat, agent: Name, obj: Name, from: Name, to: Name)
    requires Runnable(ctx, st) && i + 4 == |plan| && CanMove(ctx, st, agent, obj, from, to)
    requires MovesBox(ctx, plan, i, agent, obj, from, to)
    requires InvariantVerdict(ctx.w, ctx.cfg, st) == None
    ensures Run(ctx, st, plan, i) == Finished(AfterMove(st, agent, obj, from, to, ctx.w.reach[to]))
  {
    MoveBox(ctx, st, plan, i, agent, obj, from, to);
  }

  /** A delivery between two other slots leaves a second delivery possible. */
  lemma {:induction false} StillCanMove(ctx: Context, st: State, a: Name, o1: Name, f1: Name, t1: Name,
                                        b: Name, o2: Name, f2: Name, t2: Name)
    requires Runnable(ctx, st) && CanMove(ctx, st, a, o1, f1, t1) && CanMove(ctx, st, b, o2, f2, t2)
    requires Runnable(ctx, AfterMove(st, a, o1, f1, t1, ctx.w.reach[t1]))
    requires f2 != f1 && f2 != t1 && t2 != f1 && t2 != t1
    ensures CanMove(ctx, AfterMove(st, a, o1, f1, t1, ctx.w.reach[t1]), b, o2, f2, t2)
  {
    GetAfterTwo(st.occ, f1, None, t1, Some(o1), f2);
    GetAfterTwo(st.occ, f1, None, t1, Some(o1), t2);
  }

  /** Reading a key that two updates did not write. */
  lemma {:induction false} GetAfterTwo(m: map<Name, Cell>, k1: Name, v1: Cell, k2: Name, v2: Cell, k: Name)
    requires k != k1 && k != k2
    ensures Get(m[k1 := v1][k2 := v2], k) == Get(m, k)
  {
  }

  // ----- the S2 gold plan -----

  /** The S2 validator's context: the S2 world, robotA and robotB, the cooperative table, no constraints. */
  const S2Context: Context := Context(S2World, TwoRobots, MultiAgentTable, map[])

  /** The S2 gold plan: robotA brings the red box to its bin, then robotB the blue box to its bin. */
  const S2Gold: seq<Step> := [
    GotoStep("robotA", "Shelf.front.dock"),
    PickStep("robotA", "redbox", "Shelf.red.slot"),
    GotoStep("robotA", "RedBin.dock"),
    PlaceStep("robotA", "redbox", "RedBin.slot"),
    GotoStep("robotB", "Shelf.front.dock"),
    PickStep("robotB", "bluebox", "Shelf.blue.slot"),
    GotoStep("robotB", "BlueBin.dock"),
    PlaceStep("robotB", "bluebox", "BlueBin.slot")]

  /** The goal the S2 task describes: each box in the bin of its colour. */
  const S2Goal: Goal := [("redbox", "RedBin.slot"), ("bluebox", "BlueBin.slot")]

  /** The S2 world is well formed and starts with no object in two slots. */
  lemma S2WorldSound()
    ensures Sound(S2World, TwoRobots) && NoDuplicateObjects(S2World)
  {
    var occ := S2World.occupancy;
    forall s1, s2 | s1 in occ && s2 in occ && s1 != s2 && Truthy(occ[s1])
      ensures occ[s1] != occ[s2]
    {
    }
  }

  /**
   * The S4 world is well formed and starts with no object in two slots; its
   * shared slot is one of its slots and starts empty, so the start state passes
   * the invariants.
   */
  lemma S4WorldSound()
    ensures Sound(S4World, FourRobots) && NoDuplicateObjects(S4World)
    ensures FourRobots.shared.value in S4World.slots && Get(S4World.occupancy, FourRobots.shared.value) == None
    ensures InvariantVerdict(S4World, FourRobots, Init(S4World, FourRobots)) == None
  {
    var occ := S4World.occupancy;
    forall s1, s2 | s1 in occ && s2 in occ && s1 != s2 && Truthy(occ[s1])
      ensures occ[s1] != occ[s2]
    {
    }
    InitPassesInvariants(S4World, FourRobots);
  }

  /** Every step of the S2 gold plan names robotA or robotB. */
  lemma S2GoldAgentsKnown()
    ensures AgentsKnown(TwoRobots, S2Gold)
  {
    forall j | 0 <= j < |S2Gold| ensures AgentOf(S2Gold[j]) in TwoRobots.roster {
      assert S2Gold[j]["agent"] in {"robotA", "robotB"};
    }
  }

  /**
   * Two deliveries in a row, on four different slots, as the last eight steps
   * of a plan run it to the end; the walk stops in the state the two deliveries produce.
   */
  lemma {:induction false} TwoDeliveries(ctx: Context, st: State, plan: seq<Step>, i: nat,
                                         a: Name, o1: Name, f1: Name, t1: Name, b: Name, o2: Name, f2: Name, t2: Name)
    requires Runnable(ctx, st) && i + 8 == |plan|
    requires CanMove(ctx, st, a, o1, f1, t1) && CanMove(ctx, st, b, o2, f2, t2)
    requires MovesBox(ctx, plan, i, a, o1, f1, t1) && MovesBox(ctx, plan, i + 4, b, o2, f2, t2)
    requires f2 != f1 && f2 != t1 && t2 != f1 && t2 != t1
    requires InvariantVerdict(ctx.w, ctx.cfg, st) == None
    ensures Run(ctx, st, plan, i)
         == Finished(AfterMove(AfterMove(st, a, o1, f1, t1, ctx.w.reach[t1]), b, o2, f2, t2, ctx.w.reach[t2]))
  {
    MoveBox(ctx, st, plan, i, a, o1, f1, t1);
    StillCanMove(ctx, st, a, o1, f1, t1, b, o2, f2, t2);
    LastMove(ctx, AfterMove(st, a, o1, f1, t1, ctx.w.reach[t1]), plan, i + 4, b, o2, f2, t2);
  }

  /** The occupancy after two moves between four distinct slots. */
  lemma {:induction false} BothDelivered(occ0: map<Name, Cell>, occ: map<Name, Cell>, o1: Name, f1: Name, t1: Name,
                                         o2: Name, f2: Name, t2: Name)
    requires f1 != t1 && f2 != t2 && f2 != f1 && f2 != t1 && t2 != t1 && t2 != f1
    requires occ == occ0[f1 := None][t1 := Some(o1)][f2 := None][t2 := Some(o2)]
    ensures Get(occ, t1) == Some(o1) && Get(occ, t2) == Some(o2) && Get(occ, f1) == None && Get(occ, f2) == None
  {
  }

  /** A context of the S2 validator whose allow-list admits each box in the bin of its colour. */
  predicate S2Admits(ctx: Context)
  {
    && ctx.w == S2World && ctx.cfg == TwoRobots && ctx.reg == MultiAgentTable
    && !Forbidden(ctx.allowed, "redbox", "RedBin.slot") && !Forbidden(ctx.allowed, "bluebox", "BlueBin.slot")
  }

  /** With empty constraints, as the evaluation script passes them, the allow-list admits both deliveries. */
  lemma S2ContextAdmits()
    ensures S2Admits(S2Context)
  {
  }

  /**
   * The S2 gold plan runs to the end, and in the state it reaches each box
   * sits in the bin of its colour, the shelf is empty and both hands are empty.
   */
  lemma {:induction false} S2GoldRuns(ctx: Context)
    requires S2Admits(ctx)
    ensures Sound(ctx.w, ctx.cfg) && AgentsKnown(ctx.cfg, S2Gold)
    ensures Run(ctx, Init(ctx.w, ctx.cfg), S2Gold, 0).Finished?
    ensures var last := Run(ctx, Init(ctx.w, ctx.cfg), S2Gold, 0).last;
      && Get(last.occ, "RedBin.slot") == Some("redbox") && Get(last.occ, "BlueBin.slot") == Some("bluebox")
      && Get(last.occ, "Shelf.red.slot") == None && Get(last.occ, "Shelf.blue.slot") == None
      && forall r :: r in last.holding ==> last.holding[r] == None
  {
    S2GoldReady(ctx);
    var s0 := Init(ctx.w, ctx.cfg);
    TwoDeliveries(ctx, s0, S2Gold, 0, "robotA", "redbox", "Shelf.red.slot", "RedBin.slot",
                  "robotB", "bluebox", "Shelf.blue.slot", "BlueBin.slot");
    var s4 := AfterMove(s0, "robotA", "redbox", "Shelf.red.slot", "RedBin.slot", "RedBin.dock");
    BothDelivered(s0.occ, AfterMove(s4, "robotB", "bluebox", "Shelf.blue.slot", "BlueBin.slot", "BlueBin.dock").occ,
                  "redbox", "Shelf.red.slot", "RedBin.slot", "bluebox", "Shelf.blue.slot", "BlueBin.slot");
  }

  /** The S2 start state and gold plan meet everything `TwoDeliveries` asks for. */
  lemma {:induction false} S2GoldReady(ctx: Context)
    requires S2Admits(ctx)
    ensures Sound(ctx.w, ctx.cfg) && AgentsKnown(ctx.cfg, S2Gold) && |S2Gold| == 8
    ensures MovesBox(ctx, S2Gold, 0, "robotA", "redbox", "Shelf.red.slot", "RedBin.slot")
    ensures MovesBox(ctx, S2Gold, 4, "robotB", "bluebox", "Shelf.blue.slot", "BlueBin.slot")
    ensures InvariantVerdict(ctx.w, ctx.cfg, Init(ctx.w, ctx.cfg)) == None
    ensures Get(Init(ctx.w, ctx.cfg).occ, "Shelf.red.slot") == Some("redbox")
    ensures Get(Init(ctx.w, ctx.cfg).occ, "Shelf.blue.slot") == Some("bluebox")
    ensures Get(Init(ctx.w, ctx.cfg).occ, "RedBin.slot") == None
    ensures Get(Init(ctx.w, ctx.cfg).occ, "BlueBin.slot") == None
  {
    S2GoldAgentsKnown();
    S2GoldSteps(ctx);
    S2Start(ctx.w, ctx.cfg);
  }

  /** The gold plan is robotA's delivery of the red box followed by robotB's of the blue box. */
  lemma {:induction false} S2GoldSteps(ctx: Context)
    requires ctx.w == S2World
    ensures |S2Gold| == 8
    ensures MovesBox(ctx, S2Gold, 0, "robotA", "redbox", "Shelf.red.slot", "RedBin.slot")
    ensures MovesBox(ctx, S2Gold, 4, "robotB", "bluebox", "Shelf.blue.slot", "BlueBin.slot")
  {
  }

  /** The S2 start state: both boxes on the shelf, both bins empty, no invariant broken. */
  lemma {:induction false} S2Start(w: World, cfg: Config)
    requires w == S2World && cfg == TwoRobots
    ensures Sound(w, cfg)
    ensures InvariantVerdict(w, cfg, Init(w, cfg)) == None
    ensures Get(Init(w, cfg).occ, "Shelf.red.slot") == Some("redbox")
    ensures Get(Init(w, cfg).occ, "Shelf.blue.slot") == Some("bluebox")
    ensures Get(Init(w, cfg).occ, "RedBin.slot") == None
    ensures Get(Init(w, cfg).occ, "BlueBin.slot") == None
  {
    S2WorldSound();
    InitPassesInvariants(w, cfg);
  }

  /**
   * `validate` accepts the S2 gold plan, with no goal and with the
   * colour-sorting goal, under any allow-list that admits the two deliveries.
   */
  lemma {:induction false} S2GoldPlanAccepted(ctx: Context)
    requires S2Admits(ctx)
    ensures Sound(ctx.w, ctx.cfg) && AgentsKnown(ctx.cfg, S2Gold)
    ensures Assess(ctx, Some(S2Gold), []) == Returns(Verdict(true, true, true, []))
    ensures Assess(ctx, Some(S2Gold), S2Goal) == Returns(Verdict(true, true, true, []))
  {
    S2GoldRuns(ctx);
    var last := Run(ctx, Init(ctx.w, ctx.cfg), S2Gold, 0).last;
    assert CheckGoal(last, []) == None;
    assert CheckGoal(last, S2Goal) == None by {
      assert S2Goal[0] == ("redbox", "RedBin.slot") && S2Goal[1] == ("bluebox", "BlueBin.slot");
    }
    Accepted(ctx, S2Gold, []);
    Accepted(ctx, S2Gold, S2Goal);
  }

  /** A plan whose walk finishes in a state that meets the goal is accepted. */
  lemma Accepted(ctx: Context, plan: seq<Step>, goal: Goal)
    requires Sound(ctx.w, ctx.cfg) && Run(ctx, Init(ctx.w, ctx.cfg), plan, 0).Finished?
    requires CheckGoal(Run(ctx, Init(ctx.w, ctx.cfg), plan, 0).last, goal) == None
    ensures Assess(ctx, Some(plan), goal) == Returns(Verdict(true, true, true, []))
  {
  }
}
