/**
 * The validator's symbolic state (`occ`, `holding`, `agent_at` and, where the
 * configuration has a shared slot, `inspection_busy`), the predicates evaluated
 * against it, the effects that update it, and the object-uniqueness invariant.
 */
module Symbolic {
  import opened Common
  import opened WorldModel

  /** The content of a slot or a hand, or an agent's pose; `None` is Python's `None`. */
  type Cell = Option<Name>

  datatype State = State(
    occ: map<Name, Cell>,
    holding: map<Name, Cell>,
    agentAt: map<Name, Cell>,
    busy: bool)

  /** `d.get(k)`: an absent key reads as `None`. */
  function Get(m: map<Name, Cell>, k: Name): Cell
  {
    if k in m then m[k] else None
  }

  /** What the engine assumes of a configuration: the roster names distinct agents. */
  predicate Sound(w: World, cfg: Config)
  {
    WellFormed(w) && Distinct(cfg.roster)
  }

  /**
   * The shape every reachable state keeps: occupancy only names world slots,
   * exactly the roster has a hand, and every roster agent has a pose entry
   * (`set_at` adds an entry for any other agent that moves).
   */
  predicate Fits(w: World, cfg: Config, st: State)
  {
    && (forall s :: s in st.occ ==> s in w.slots)
    && st.holding.Keys == (set a | a in cfg.roster)
    && (set a | a in cfg.roster) <= st.agentAt.Keys
  }

  /** `init_symbolic_state`: the world's occupancy, empty hands, no poses, flag clear. */
  function Init(w: World, cfg: Config): (st: State)
    requires WellFormed(w)
    ensures Fits(w, cfg, st)
    ensures forall a :: a in cfg.roster ==> st.holding[a] == None && st.agentAt[a] == None
    ensures st.agentAt.Keys == (set a | a in cfg.roster)
    ensures forall s :: Get(st.occ, s) == Get(w.occupancy, s)
    ensures !st.busy
  {
    State(w.occupancy, map a | a in cfg.roster :: None, map a | a in cfg.roster :: None, false)
  }

  predicate IsShared(cfg: Config, slot: Name)
  {
    cfg.shared == Some(slot)
  }

  /** `slot_free`'s test on the content: `None` and `""` mean empty. */
  predicate Free(v: Cell)
  {
    v == None || v == Some("")
  }

  /** An empty slot is exactly a slot whose content counts nothing. */
  lemma FreeIsFalsy(v: Cell)
    ensures Free(v) <==> !Truthy(v)
  {
  }

  /** A materialized precondition. */
  datatype Check =
    | IsPose(target: Name)
    | AtReach(slot: Name)
    | SlotHas(slot: Name, obj: Name)
    | SlotFree(slot: Name)
    | HoldingIs(want: Cell)

  /** Why a precondition failed: the reason behind each message of `check_predicate`. */
  datatype Why =
    | UnknownPose(pose: Name)
    | HandMismatch(held: Cell, want: Cell)
    | UnknownSlot(slot: Name)
    | SharedBusyWith(content: Cell, obj: Name)
    | SlotHolds(slot: Name, content: Cell, obj: Name)
    | SharedOccupied
    | SlotOccupied(slot: Name, content: Cell)
    | NotAtDock(dock: Name, at: Cell)
    | NoEntryFor(agent: Name)  // the `KeyError` raised when the agent has no hand or pose entry

  /**
   * `check_predicate`: `None` when the predicate holds, otherwise the reason.
   * The shared-slot branches exist only when the configuration has a shared
   * slot; for `slot_has` such a branch changes the reason but never the outcome.
   * `holding_is` and `at_reach` index the agent's hand or pose; for an agent
   * without that entry Python raises `KeyError`, reported here as `NoEntryFor`.
   */
  function Evaluate(w: World, cfg: Config, st: State, agent: Name, c: Check): (r: Option<Why>)
    requires c.AtReach? ==> c.slot in w.reach
    ensures c.IsPose? ==> (r == None <==> c.target in w.poses)
    ensures c.HoldingIs? ==> (r == None <==> agent in st.holding && st.holding[agent] == c.want)
    ensures c.AtReach? ==> (r == None <==> agent in st.agentAt && st.agentAt[agent] == Some(w.reach[c.slot]))
    ensures r == Some(NoEntryFor(agent)) <==>
      (c.HoldingIs? && agent !in st.holding) || (c.AtReach? && agent !in st.agentAt)
    ensures r.Some? && r.value.NoEntryFor? ==> r.value.agent == agent
    ensures c.SlotHas? ==> (r == None <==> c.slot in w.slots && Get(st.occ, c.slot) == Some(c.obj))
    ensures c.SlotFree? ==>
      (r == None <==> c.slot in w.slots && Free(Get(st.occ, c.slot)) && !(IsShared(cfg, c.slot) && st.busy))
    ensures (c.SlotHas? || c.SlotFree?) && c.slot !in w.slots ==> r == Some(UnknownSlot(c.slot))
  {
    match c
    case IsPose(t) =>
      if t in w.poses then None else Some(UnknownPose(t))
    case HoldingIs(want) =>
      if agent !in st.holding then Some(NoEntryFor(agent))
      else if st.holding[agent] == want then None else Some(HandMismatch(st.holding[agent], want))
    case SlotHas(s, o) =>
      if s !in w.slots then Some(UnknownSlot(s))
      else if IsShared(cfg, s) && st.busy && Get(st.occ, s) != Some(o) then Some(SharedBusyWith(Get(st.occ, s), o))
      else if Get(st.occ, s) == Some(o) then None
      else Some(SlotHolds(s, Get(st.occ, s), o))
    case SlotFree(s) =>
      if s !in w.slots then Some(UnknownSlot(s))
      else if IsShared(cfg, s) && st.busy then Some(SharedOccupied)
      else if Free(Get(st.occ, s)) then None
      else Some(SlotOccupied(s, Get(st.occ, s)))
    case AtReach(s) =>
      var dock := w.reach[s];
      if agent !in st.agentAt then Some(NoEntryFor(agent))
      else if st.agentAt[agent] == Some(dock) then None else Some(NotAtDock(dock, st.agentAt[agent]))
  }

  /** A materialized effect. */
  datatype Update =
    | SetAt(target: Name)
    | HoldingSet(value: Cell)
    | SlotSet(slot: Name, value: Cell)

  /** The shared slot's busy flag is never set while that slot holds `None`. */
  predicate FlagConsistent(cfg: Config, st: State)
  {
    cfg.shared.Some? && st.busy ==> Get(st.occ, cfg.shared.value) != None
  }

  /**
   * `apply_effect` on a state value. Writing the shared slot sets the busy flag
   * exactly when the written value is not `None`, so no update can make the
   * flag inconsistent.
   */
  function Apply(cfg: Config, st: State, agent: Name, u: Update): (r: State)
    ensures u.SlotSet? && IsShared(cfg, u.slot) ==> (r.busy <==> Get(r.occ, u.slot) != None)
    ensures !(u.SlotSet? && IsShared(cfg, u.slot)) ==> r.busy == st.busy
    ensures FlagConsistent(cfg, st) ==> FlagConsistent(cfg, r)
  {
    match u
    case SetAt(t) => st.(agentAt := st.agentAt[agent := Some(t)])
    case HoldingSet(v) => st.(holding := st.holding[agent := v])
    case SlotSet(s, v) =>
      st.(occ := st.occ[s := v], busy := if IsShared(cfg, s) then v.Some? else st.busy)
  }

  /** The effect list of one step, applied in order. */
  function ApplyAll(cfg: Config, st: State, agent: Name, us: seq<Update>): (r: State)
    ensures FlagConsistent(cfg, st) ==> FlagConsistent(cfg, r)
    decreases |us|
  {
    if us == [] then st else ApplyAll(cfg, Apply(cfg, st, agent, us[0]), agent, us[1..])
  }

  /** A two-effect list applies its first effect, then its second. */
  lemma {:induction false} ApplyTwo(cfg: Config, st: State, agent: Name, u1: Update, u2: Update)
    ensures ApplyAll(cfg, st, agent, [u1, u2]) == Apply(cfg, Apply(cfg, st, agent, u1), agent, u2)
  {
    var st1 := Apply(cfg, st, agent, u1);
    assert [u1, u2][1..] == [u2];
    assert ApplyAll(cfg, st, agent, [u1, u2]) == ApplyAll(cfg, st1, agent, [u2]);
    assert [u2][1..] == [];
    assert ApplyAll(cfg, st1, agent, [u2]) == ApplyAll(cfg, Apply(cfg, st1, agent, u2), agent, []);
  }

  /**
   * Updates on world slots keep a state's shape, when they come from a roster
   * agent or do not write a hand.
   */
  lemma {:induction false} ApplyAllKeepsFits(w: World, cfg: Config, st: State, agent: Name, us: seq<Update>)
    requires Fits(w, cfg, st)
    requires agent in cfg.roster || forall u :: u in us ==> !u.HoldingSet?
    requires forall u :: u in us && u.SlotSet? ==> u.slot in w.slots
    ensures Fits(w, cfg, ApplyAll(cfg, st, agent, us))
    decreases |us|
  {
    if us != [] {
      var st' := Apply(cfg, st, agent, us[0]);
      assert Fits(w, cfg, st');
      assert forall u :: u in us[1..] ==> u in us;
      ApplyAllKeepsFits(w, cfg, st', agent, us[1..]);
    }
  }

  // ----- object counting (`check_invariants`) -----

  /** The `counts` dictionary of `check_invariants`. */
  type Counts = map<Name, nat>

  /** `counts.get(o, 0)`. */
  function CountOf(c: Counts, o: Name): nat
  {
    if o in c then c[o] else 0
  }

  /** One value seen: a truthy value bumps its object's count, a falsy one counts nothing. */
  function Bump(c: Counts, v: Cell): Counts
  {
    if Truthy(v) then c[v.value := CountOf(c, v.value) + 1] else c
  }

  /** The counts `check_invariants` accumulates over the first `n` values. */
  function TallyTo(vals: seq<Cell>, n: nat): Counts
    requires n <= |vals|
  {
    if n == 0 then map[] else Bump(TallyTo(vals, n - 1), vals[n - 1])
  }

  /** The counts over all the values. */
  function Tally(vals: seq<Cell>): Counts
  {
    TallyTo(vals, |vals|)
  }

  /** Whether `v` holds object `o` (falsy values hold nothing), as 1 or 0. */
  function Hit(v: Cell, o: Name): nat
  {
    if Truthy(v) && v.value == o then 1 else 0
  }

  /** How many of the first `n` values hold `o`: the count each object should have. */
  function Occurrences(vals: seq<Cell>, n: nat, o: Name): nat
    requires n <= |vals|
  {
    if n == 0 then 0 else Occurrences(vals, n - 1, o) + Hit(vals[n - 1], o)
  }

  /** The value of each world slot, in slot order (absent keys read as `None`). */
  function SlotValues(occ: map<Name, Cell>, slots: seq<Name>): seq<Cell>
  {
    seq(|slots|, i requires 0 <= i < |slots| => Get(occ, slots[i]))
  }

  /** What each roster agent holds, in roster order. */
  function HandValues(holding: map<Name, Cell>, roster: seq<Name>): seq<Cell>
    requires forall a :: a in roster ==> a in holding
  {
    seq(|roster|, i requires 0 <= i < |roster| => holding[roster[i]])
  }

  /** Every place an object can be: the slots, then the hands. */
  function Places(w: World, cfg: Config, st: State): (p: seq<Cell>)
    requires Fits(w, cfg, st)
    ensures |p| == |w.slots| + |cfg.roster|
  {
    SlotValues(st.occ, w.slots) + HandValues(st.holding, cfg.roster)
  }

  /** No truthy value occurs twice among the first `n`. */
  predicate NoRepeatsTo(vals: seq<Cell>, n: nat)
    requires n <= |vals|
  {
    forall i, j :: 0 <= i < j < n && Truthy(vals[i]) ==> vals[i] != vals[j]
  }

  /** No truthy value occurs twice. */
  predicate NoRepeats(vals: seq<Cell>)
  {
    NoRepeatsTo(vals, |vals|)
  }

  datatype InvariantFailure = Duplicates(objects: set<Name>) | FlagInconsistent

  /** The objects counted more than once. */
  function Duplicated(c: Counts): set<Name>
  {
    set o | o in c && c[o] > 1
  }

  /**
   * `check_invariants`: duplicates first, then the shared-slot flag. It passes
   * exactly when no truthy value repeats among the slots and hands and the flag
   * is consistent.
   */
  function InvariantVerdict(w: World, cfg: Config, st: State): (r: Option<InvariantFailure>)
    requires Fits(w, cfg, st)
    ensures r == None <==> NoRepeats(Places(w, cfg, st)) && FlagConsistent(cfg, st)
    ensures r.Some? && r.value.Duplicates? ==> r.value.objects != {}
    ensures r == Some(FlagInconsistent) ==> NoRepeats(Places(w, cfg, st))
  {
    var p := Places(w, cfg, st);
    CountsAtMostOnce(p, |p|);
    OnceMeansNoRepeats(p, |p|);
    JudgeMeaning(Tally(p), FlagConsistent(cfg, st));
    Judge(Tally(p), FlagConsistent(cfg, st))
  }

  /** The verdict on given counts: duplicates are reported before the flag. */
  function Judge(counts: Counts, flagOk: bool): Option<InvariantFailure>
  {
    var dup := Duplicated(counts);
    if dup != {} then Some(Duplicates(dup))
    else if !flagOk then Some(FlagInconsistent)
    else None
  }

  /**
   * The dictionary holds each object's number of occurrences, and holds a key
   * exactly for the objects that occur.
   */
  lemma {:induction false} TallyToCounts(vals: seq<Cell>, n: nat, o: Name)
    requires n <= |vals|
    ensures CountOf(TallyTo(vals, n), o) == Occurrences(vals, n, o)
    ensures o in TallyTo(vals, n) <==> Occurrences(vals, n, o) > 0
  {
    if n > 0 {
      TallyToCounts(vals, n - 1, o);
    }
  }

  /** An object has no occurrence exactly when no value holds it. */
  lemma {:induction false} OccurrencesZero(vals: seq<Cell>, n: nat, o: Name)
    requires n <= |vals| && o != ""
    ensures Occurrences(vals, n, o) == 0 <==> forall i :: 0 <= i < n ==> vals[i] != Some(o)
  {
    if n > 0 {
      OccurrencesZero(vals, n - 1, o);
    }
  }

  /** An object is counted exactly when it occurs, truthy, among the values. */
  lemma TallyMembers(vals: seq<Cell>, o: Name)
    ensures o in Tally(vals) <==> o != "" && Some(o) in vals
  {
    TallyToCounts(vals, |vals|, o);
    if o != "" {
      OccurrencesZero(vals, |vals|, o);
    } else {
      NoEmptyName(vals, |vals|);
    }
  }

  /** The empty name is never counted. */
  lemma {:induction false} NoEmptyName(vals: seq<Cell>, n: nat)
    requires n <= |vals|
    ensures Occurrences(vals, n, "") == 0
  {
    if n > 0 {
      NoEmptyName(vals, n - 1);
    }
  }

  /** No object is counted more than once. */
  predicate AtMostOnce(c: Counts)
  {
    forall o :: o in c ==> c[o] <= 1
  }

  /** No object occurs more than once among the first `n` values. */
  ghost predicate EachOnce(vals: seq<Cell>, n: nat)
    requires n <= |vals|
  {
    forall o :: Occurrences(vals, n, o) <= 1
  }

  /** The dictionary counts nothing twice exactly when nothing occurs twice. */
  lemma {:induction false} CountsAtMostOnce(vals: seq<Cell>, n: nat)
    requires n <= |vals|
    ensures AtMostOnce(TallyTo(vals, n)) <==> EachOnce(vals, n)
  {
    var c := TallyTo(vals, n);
    if AtMostOnce(c) {
      forall o ensures Occurrences(vals, n, o) <= 1 {
        TallyToCounts(vals, n, o);
      }
    }
    if EachOnce(vals, n) {
      forall o | o in c ensures c[o] <= 1 {
        TallyToCounts(vals, n, o);
      }
    }
  }

  /** One more value keeps every object at most once exactly when it is falsy or new. */
  lemma EachOnceStep(vals: seq<Cell>, n: nat)
    requires 0 < n <= |vals|
    ensures EachOnce(vals, n) <==>
      EachOnce(vals, n - 1) && (Truthy(vals[n - 1]) ==> Occurrences(vals, n - 1, vals[n - 1].value) == 0)
  {
    var x, m := vals[n - 1], n - 1;
    if EachOnce(vals, n) {
      forall o ensures Occurrences(vals, m, o) <= 1 {
        assert Occurrences(vals, n, o) <= 1;
      }
      if Truthy(x) {
        assert Occurrences(vals, n, x.value) <= 1;
      }
    } else if EachOnce(vals, n - 1) && (Truthy(x) ==> Occurrences(vals, n - 1, x.value) == 0) {
      forall o ensures Occurrences(vals, n, o) <= 1 {
        if Hit(x, o) == 1 {
          assert o == x.value;
        }
      }
    }
  }

  /** One more value repeats nothing exactly when it is falsy or new. */
  lemma NoRepeatsStep(vals: seq<Cell>, n: nat)
    requires 0 < n <= |vals|
    ensures NoRepeatsTo(vals, n) <==>
      NoRepeatsTo(vals, n - 1) && (Truthy(vals[n - 1]) ==> forall i :: 0 <= i < n - 1 ==> vals[i] != vals[n - 1])
  {
  }

  /** No object occurring twice is the same as no truthy value repeating. */
  lemma {:induction false} OnceMeansNoRepeats(vals: seq<Cell>, n: nat)
    requires n <= |vals|
    ensures EachOnce(vals, n) <==> NoRepeatsTo(vals, n)
  {
    if n > 0 {
      var x := vals[n - 1];
      OnceMeansNoRepeats(vals, n - 1);
      EachOnceStep(vals, n);
      NoRepeatsStep(vals, n);
      if Truthy(x) {
        OccurrencesZero(vals, n - 1, x.value);
      }
    }
  }

  /**
   * `Judge` passes exactly when no count exceeds one and the flag holds, and it
   * reports duplicates exactly when some count exceeds one.
   */
  lemma JudgeMeaning(c: Counts, flagOk: bool)
    ensures Judge(c, flagOk) == None <==> AtMostOnce(c) && flagOk
    ensures (Judge(c, flagOk).Some? && Judge(c, flagOk).value.Duplicates?) <==> !AtMostOnce(c)
  {
    if Duplicated(c) == {} {
      forall o | o in c ensures c[o] <= 1 {
        assert o !in Duplicated(c);
      }
    } else {
      var o :| o in Duplicated(c);
      assert c[o] > 1;
    }
  }

  // ----- conservation of objects -----

  /** Counting reads only the values it counts. */
  lemma {:induction false} OccurrencesFrame(a: seq<Cell>, b: seq<Cell>, n: nat, o: Name)
    requires n <= |a| && n <= |b|
    requires forall i :: 0 <= i < n ==> a[i] == b[i]
    ensures Occurrences(a, n, o) == Occurrences(b, n, o)
  {
    if n > 0 {
      OccurrencesFrame(a, b, n - 1, o);
    }
  }

  /** Overwriting one of the first `n` values trades its occurrence for the new value's. */
  lemma {:induction false} OccurrencesUpdate(vals: seq<Cell>, i: nat, v: Cell, n: nat, o: Name)
    requires i < n <= |vals|
    ensures Occurrences(vals[i := v], n, o) + Hit(vals[i], o) == Occurrences(vals, n, o) + Hit(v, o)
  {
    if i == n - 1 {
      OccurrencesFrame(vals[i := v], vals, n - 1, o);
    } else {
      OccurrencesUpdate(vals, i, v, n - 1, o);
      assert vals[i := v][n - 1] == vals[n - 1];
    }
  }

  /** Values in which every object occurs equally often have the same counts. */
  lemma {:induction false} SameOccurrencesSameTally(a: seq<Cell>, b: seq<Cell>)
    requires forall o :: Occurrences(a, |a|, o) == Occurrences(b, |b|, o)
    ensures Tally(a) == Tally(b)
  {
    var ta, tb := Tally(a), Tally(b);
    forall o ensures (o in ta <==> o in tb) && CountOf(ta, o) == CountOf(tb, o) {
      TallyToCounts(a, |a|, o);
      TallyToCounts(b, |b|, o);
    }
    assert ta.Keys == tb.Keys;
  }

  /** Writing the k-th world slot writes the k-th place. */
  lemma SlotWritePlaces(w: World, cfg: Config, st: State, k: nat, v: Cell)
    requires Fits(w, cfg, st) && Distinct(w.slots) && k < |w.slots|
    ensures Fits(w, cfg, st.(occ := st.occ[w.slots[k] := v]))
    ensures Places(w, cfg, st.(occ := st.occ[w.slots[k] := v])) == Places(w, cfg, st)[k := v]
  {
    var st' := st.(occ := st.occ[w.slots[k] := v]);
    var a, b := Places(w, cfg, st'), Places(w, cfg, st)[k := v];
    forall i | 0 <= i < |a| ensures a[i] == b[i] {
      if i < |w.slots| && i != k {
        assert w.slots[i] != w.slots[k];
      }
    }
  }

  /** Writing the q-th roster agent's hand writes the place after all the slots. */
  lemma HandWritePlaces(w: World, cfg: Config, st: State, q: nat, v: Cell)
    requires Fits(w, cfg, st) && Distinct(cfg.roster) && q < |cfg.roster|
    ensures Fits(w, cfg, st.(holding := st.holding[cfg.roster[q] := v]))
    ensures Places(w, cfg, st.(holding := st.holding[cfg.roster[q] := v]))
         == Places(w, cfg, st)[|w.slots| + q := v]
  {
    var st' := st.(holding := st.holding[cfg.roster[q] := v]);
    var a, b := Places(w, cfg, st'), Places(w, cfg, st)[|w.slots| + q := v];
    forall i | 0 <= i < |a| ensures a[i] == b[i] {
      if i >= |w.slots| && i != |w.slots| + q {
        assert cfg.roster[i - |w.slots|] != cfg.roster[q];
      }
    }
  }

  /** The effects of `arm.pick` on a state where its preconditions hold. */
  function PickEffects(slot: Name, obj: Name): seq<Update>
  {
    [SlotSet(slot, None), HoldingSet(Some(obj))]
  }

  /** The effects of `arm.place` on a state where its preconditions hold. */
  function PlaceEffects(slot: Name, obj: Name): seq<Update>
  {
    [SlotSet(slot, Some(obj)), HoldingSet(None)]
  }

  /**
   * Moving the value at `i` onto a place `j` that counted nothing, and emptying
   * `i`, leaves every count as it was.
   */
  lemma TallyMove(vals: seq<Cell>, i: nat, j: nat)
    requires i < |vals| && j < |vals| && i != j && !Truthy(vals[j])
    ensures Tally(vals[i := None][j := vals[i]]) == Tally(vals)
  {
    var mid := vals[i := None];
    var moved := mid[j := vals[i]];
    forall o ensures Occurrences(moved, |moved|, o) == Occurrences(vals, |vals|, o) {
      OccurrencesUpdate(vals, i, None, |vals|, o);
      OccurrencesUpdate(mid, j, vals[i], |vals|, o);
      assert Hit(mid[j], o) == 0;
    }
    SameOccurrencesSameTally(moved, vals);
  }

  /** The places after a pick: the slot is emptied and its object is in the hand. */
  lemma {:induction false} PickPlaces(w: World, cfg: Config, st: State, agent: Name, slot: Name, obj: Name, k: nat, q: nat)
    requires Sound(w, cfg) && Fits(w, cfg, st)
    requires k < |w.slots| && w.slots[k] == slot && q < |cfg.roster| && cfg.roster[q] == agent
    ensures Fits(w, cfg, ApplyAll(cfg, st, agent, PickEffects(slot, obj)))
    ensures Places(w, cfg, ApplyAll(cfg, st, agent, PickEffects(slot, obj)))
         == Places(w, cfg, st)[k := None][|w.slots| + q := Some(obj)]
  {
    ApplyTwo(cfg, st, agent, SlotSet(slot, None), HoldingSet(Some(obj)));
    var st1 := st.(occ := st.occ[slot := None]);
    SlotWritePlaces(w, cfg, st, k, None);
    HandWritePlaces(w, cfg, st1, q, Some(obj));
  }

  /** The places after a place: the hand is emptied and its object is in the slot. */
  lemma {:induction false} PlacePlaces(w: World, cfg: Config, st: State, agent: Name, slot: Name, obj: Name, k: nat, q: nat)
    requires Sound(w, cfg) && Fits(w, cfg, st)
    requires k < |w.slots| && w.slots[k] == slot && q < |cfg.roster| && cfg.roster[q] == agent
    ensures Fits(w, cfg, ApplyAll(cfg, st, agent, PlaceEffects(slot, obj)))
    ensures Places(w, cfg, ApplyAll(cfg, st, agent, PlaceEffects(slot, obj)))
         == Places(w, cfg, st)[|w.slots| + q := None][k := Some(obj)]
  {
    ApplyTwo(cfg, st, agent, SlotSet(slot, Some(obj)), HoldingSet(None));
    var st1 := st.(occ := st.occ[slot := Some(obj)]);
    SlotWritePlaces(w, cfg, st, k, Some(obj));
    HandWritePlaces(w, cfg, st1, q, None);
    var s := Places(w, cfg, st);
    assert s[k := Some(obj)][|w.slots| + q := None] == s[|w.slots| + q := None][k := Some(obj)];
  }

  /** The k-th place is the k-th world slot's content. */
  lemma SlotPlace(w: World, cfg: Config, st: State, k: nat)
    requires Fits(w, cfg, st) && k < |w.slots|
    ensures Places(w, cfg, st)[k] == Get(st.occ, w.slots[k])
  {
  }

  /** The place after all the slots and q hands is the q-th roster agent's hand. */
  lemma HandPlace(w: World, cfg: Config, st: State, q: nat)
    requires Fits(w, cfg, st) && q < |cfg.roster|
    ensures Places(w, cfg, st)[|w.slots| + q] == st.holding[cfg.roster[q]]
  {
  }

  /**
   * A pick whose `slot_has` and `holding_is(None)` checks passed moves the
   * object from the slot to the hand: every object is counted as often as before.
   */
  lemma {:induction false} PickConserves(w: World, cfg: Config, st: State, agent: Name, slot: Name, obj: Name)
    requires Sound(w, cfg) && Fits(w, cfg, st)
    requires agent in cfg.roster && slot in w.slots
    requires Get(st.occ, slot) == Some(obj) && st.holding[agent] == None
    ensures Fits(w, cfg, ApplyAll(cfg, st, agent, PickEffects(slot, obj)))
    ensures Tally(Places(w, cfg, ApplyAll(cfg, st, agent, PickEffects(slot, obj)))) == Tally(Places(w, cfg, st))
  {
    var k :| 0 <= k < |w.slots| && w.slots[k] == slot;
    var q :| 0 <= q < |cfg.roster| && cfg.roster[q] == agent;
    SlotPlace(w, cfg, st, k);
    HandPlace(w, cfg, st, q);
    var s := Places(w, cfg, st);
    assert s[k] == Some(obj);
    TallyMove(s, k, |w.slots| + q);
    assert Tally(s[k := None][|w.slots| + q := Some(obj)]) == Tally(s);
    PickPlaces(w, cfg, st, agent, slot, obj, k, q);
  }

  /**
   * A place whose `holding_is(object)` and `slot_free` checks passed moves the
   * object from the hand to the slot: every object is counted as often as before.
   */
  lemma {:induction false} PlaceConserves(w: World, cfg: Config, st: State, agent: Name, slot: Name, obj: Name)
    requires Sound(w, cfg) && Fits(w, cfg, st)
    requires agent in cfg.roster && slot in w.slots
    requires !Truthy(Get(st.occ, slot)) && st.holding[agent] == Some(obj)
    ensures Fits(w, cfg, ApplyAll(cfg, st, agent, PlaceEffects(slot, obj)))
    ensures Tally(Places(w, cfg, ApplyAll(cfg, st, agent, PlaceEffects(slot, obj)))) == Tally(Places(w, cfg, st))
  {
    var k :| 0 <= k < |w.slots| && w.slots[k] == slot;
    var q :| 0 <= q < |cfg.roster| && cfg.roster[q] == agent;
    SlotPlace(w, cfg, st, k);
    HandPlace(w, cfg, st, q);
    var s := Places(w, cfg, st);
    assert s[|w.slots| + q] == Some(obj);
    TallyMove(s, |w.slots| + q, k);
    assert Tally(s[|w.slots| + q := None][k := Some(obj)]) == Tally(s);
    PlacePlaces(w, cfg, st, agent, slot, obj, k, q);
  }

  /** A duplicate-free world starts in a state that passes the invariant check. */
  lemma InitPassesInvariants(w: World, cfg: Config)
    requires Sound(w, cfg) && NoDuplicateObjects(w)
    ensures InvariantVerdict(w, cfg, Init(w, cfg)) == None
  {
    var st := Init(w, cfg);
    var vals := Places(w, cfg, st);
    var n := |w.slots|;
    forall i | n <= i < |vals| ensures vals[i] == None {
      assert vals[i] == st.holding[cfg.roster[i - n]];
    }
    forall i, j | 0 <= i < j < n && Truthy(vals[i]) ensures vals[i] != vals[j] {
      assert vals[i] == Get(w.occupancy, w.slots[i]);
      assert vals[j] == Get(w.occupancy, w.slots[j]);
      assert w.slots[i] != w.slots[j];
    }
  }

  /**
   * The mutable symbolic state the validator threads through a plan. `Value`
   * is its current contents as a `State`.
   */
  class SymbolicState {
    var occ: map<Name, Cell>
    var holding: map<Name, Cell>
    var agentAt: map<Name, Cell>
    var inspectionBusy: bool

    function Value(): State
      reads this
    {
      State(occ, holding, agentAt, inspectionBusy)
    }

    /** `init_symbolic_state`. */
    constructor (w: World, cfg: Config)
      requires WellFormed(w)
      ensures Value() == Init(w, cfg)
    {
      occ := w.occupancy;
      holding := map a | a in cfg.roster :: None;
      agentAt := map a | a in cfg.roster :: None;
      inspectionBusy := false;
    }

    /** `apply_effect`: updates one entry in place. */
    method ApplyEffect(cfg: Config, agent: Name, u: Update)
      modifies this
      ensures Value() == Apply(cfg, old(Value()), agent, u)
    {
      match u
      case SetAt(t) =>
        agentAt := agentAt[agent := Some(t)];
      case HoldingSet(v) =>
        holding := holding[agent := v];
      case SlotSet(s, v) =>
        occ := occ[s := v];
        if IsShared(cfg, s) {
          inspectionBusy := v.Some?;
        }
    }

    /** The first loop of `check_invariants`: counts the truthy slot contents. */
    method CountSlots(w: World, cfg: Config) returns (counts: Counts)
      requires Fits(w, cfg, Value())
      ensures counts == TallyTo(Places(w, cfg, Value()), |w.slots|)
    {
      ghost var vals := Places(w, cfg, Value());
      counts := map[];
      var i := 0;
      while i < |w.slots|
        invariant 0 <= i <= |w.slots|
        invariant counts == TallyTo(vals, i)
      {
        var v := Get(occ, w.slots[i]);
        SlotPlace(w, cfg, Value(), i);
        if Truthy(v) {
          counts := counts[v.value := CountOf(counts, v.value) + 1];
        }
        i := i + 1;
      }
    }

    /** The second loop of `check_invariants`: adds the truthy hand contents. */
    method CountHands(w: World, cfg: Config, start: Counts) returns (counts: Counts)
      requires Fits(w, cfg, Value())
      requires start == TallyTo(Places(w, cfg, Value()), |w.slots|)
      ensures counts == Tally(Places(w, cfg, Value()))
    {
      ghost var vals := Places(w, cfg, Value());
      counts := start;
      var j := 0;
      while j < |cfg.roster|
        invariant 0 <= j <= |cfg.roster|
        invariant counts == TallyTo(vals, |w.slots| + j)
      {
        var held := holding[cfg.roster[j]];
        HandPlace(w, cfg, Value(), j);
        if Truthy(held) {
          counts := counts[held.value := CountOf(counts, held.value) + 1];
        }
        j := j + 1;
      }
    }

    /**
     * `check_invariants`: counts the truthy values of the slots and then of the
     * hands, reports the objects counted twice, then checks the busy flag.
     */
    method CheckInvariants(w: World, cfg: Config) returns (r: Option<InvariantFailure>)
      requires Fits(w, cfg, Value())
      ensures r == InvariantVerdict(w, cfg, Value())
    {
      var counts := CountSlots(w, cfg);
      counts := CountHands(w, cfg, counts);
      var dup := Duplicated(counts);
      if dup != {} {
        return Some(Duplicates(dup));
      }
      if cfg.shared.Some? && inspectionBusy && Get(occ, cfg.shared.value) == None {
        return Some(FlagInconsistent);
      }
      return None;
    }
  }
}
