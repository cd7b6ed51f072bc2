/**
 * The static world a plan is validated against: named slots, docking poses,
 * movable objects, the dock from which each slot is reachable, and the initial
 * occupancy. The PyBullet scene that the `make_world` scripts also build is not
 * modelled; only its symbolic data is transcribed below.
 */
module WorldModel {
  import opened Common

  type Name = string

  /**
   * `slots` lists the keys of the world's `slots` dictionary (their order is
   * only the order in which the invariant check visits them).
   */
  datatype World = World(
    slots: seq<Name>,
    poses: set<Name>,
    objects: set<Name>,
    reach: map<Name, Name>,
    occupancy: map<Name, Option<Name>>)

  /**
   * What the validator relies on without checking: slot names are dictionary
   * keys (distinct), the initial occupancy only names slots, and every slot has
   * a dock in `reachability_map` (a missing one raises `KeyError`).
   */
  predicate WellFormed(w: World)
  {
    && Distinct(w.slots)
    && (forall s :: s in w.occupancy ==> s in w.slots)
    && (forall s :: s in w.slots ==> s in w.reach)
  }

  /** Python truthiness of a slot or hand value: `None` and `""` are falsy. */
  predicate Truthy(v: Option<Name>)
  {
    v.Some? && v.value != ""
  }

  /** No object starts out in two slots. */
  ghost predicate NoDuplicateObjects(w: World)
  {
    forall s1, s2 :: s1 in w.occupancy && s2 in w.occupancy && s1 != s2 && Truthy(w.occupancy[s1])
      ==> w.occupancy[s1] != w.occupancy[s2]
  }

  /**
   * The validator variant: the agents that have a hand and a pose, and the slot
   * (if any) that is tracked as a shared resource with a busy flag.
   */
  datatype Config = Config(roster: seq<Name>, shared: Option<Name>)

  /** The agent a step acts as when it carries no `agent` field. */
  const DefaultAgent: Name := "robotA"

  /** S2: robotA and robotB, no shared resource. */
  const TwoRobots: Config := Config(["robotA", "robotB"], None)

  /** S4: four robots and the shared `Inspection.slot`. */
  const FourRobots: Config := Config(["robotA", "robotB", "robotC", "robotD"], Some("Inspection.slot"))

  /** The S2 world: red and blue boxes on the shelf, two empty bins. */
  const S2World: World := World(
    ["Shelf.red.slot", "Shelf.blue.slot", "RedBin.slot", "BlueBin.slot"],
    {"Shelf.front.dock", "RedBin.dock", "BlueBin.dock"},
    {"redbox", "bluebox"},
    map["Shelf.red.slot" := "Shelf.front.dock", "Shelf.blue.slot" := "Shelf.front.dock",
        "RedBin.slot" := "RedBin.dock", "BlueBin.slot" := "BlueBin.dock"],
    map["Shelf.red.slot" := Some("redbox"), "Shelf.blue.slot" := Some("bluebox"),
        "RedBin.slot" := None, "BlueBin.slot" := None])

  /** The S4 world: the S2 layout plus the shared inspection slot. */
  const S4World: World := World(
    ["Shelf.red.slot", "Shelf.blue.slot", "Inspection.slot", "RedBin.slot", "BlueBin.slot"],
    {"Shelf.front.dock", "Inspection.dock", "RedBin.dock", "BlueBin.dock"},
    {"redbox", "bluebox"},
    map["Shelf.red.slot" := "Shelf.front.dock", "Shelf.blue.slot" := "Shelf.front.dock",
        "RedBin.slot" := "RedBin.dock", "BlueBin.slot" := "BlueBin.dock",
        "Inspection.slot" := "Inspection.dock"],
    map["Shelf.red.slot" := Some("redbox"), "Shelf.blue.slot" := Some("bluebox"),
        "Inspection.slot" := None, "RedBin.slot" := None, "BlueBin.slot" := None])
}
