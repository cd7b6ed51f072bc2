/**
 * The STRIPS-style action tables (`ACTIONS`, `ACTION_SCHEMA`) that the plan
 * validator interprets. The precondition and effect lists of the three shared
 * actions are the same in the single-agent table (S1/env/actions_spec.py) and
 * the cooperative table (S3/env/actions_spec.py), so they are defined once here;
 * the two tables differ in which actions they list and in the `allowed` fields.
 */
module ActionSpec {
  import opened Common

  /** The action kinds a plan step may name. */
  datatype Action = Goto | Pick | Place | WaitUntilFree

  /** The name an action carries in a plan's `"action"` field. */
  function NameOf(a: Action): string
  {
    match a
    case Goto => "base.goto"
    case Pick => "arm.pick"
    case Place => "arm.place"
    case WaitUntilFree => "wait_until_free"
  }

  /** The action a name denotes, if any. */
  function Parse(name: string): (r: Option<Action>)
    ensures r.Some? ==> NameOf(r.value) == name
    ensures r.None? ==> forall a: Action :: NameOf(a) != name
  {
    if name == "base.goto" then Some(Goto)
    else if name == "arm.pick" then Some(Pick)
    else if name == "arm.place" then Some(Place)
    else if name == "wait_until_free" then Some(WaitUntilFree)
    else None
  }

  /** Every action's name parses back to that action. */
  lemma ParseNameOf(a: Action)
    ensures Parse(NameOf(a)) == Some(a)
  {
    match a
    case Goto =>
    case Pick =>
    case Place =>
    case WaitUntilFree =>
  }

  /** Which table the validator is given. */
  datatype Registry =
    | SingleAgentTable  // S1/env/actions_spec.py: no wait action, no `agent` field
    | MultiAgentTable   // S3/env/actions_spec.py: adds `wait_until_free` and `agent`

  /** The keys of `ACTIONS`. */
  function Catalog(reg: Registry): (r: set<Action>)
    ensures Pick in r && Place in r && Goto in r
    ensures WaitUntilFree in r <==> reg == MultiAgentTable
  {
    match reg
    case SingleAgentTable => {Goto, Pick, Place}
    case MultiAgentTable => {Goto, Pick, Place, WaitUntilFree}
  }

  /** An entry of `ACTION_SCHEMA`: the fields a step must have and may have. */
  datatype FieldSchema = FieldSchema(required: seq<string>, allowed: seq<string>)

  /** The `required` fields of an action; the same in both tables. */
  function Required(a: Action): seq<string>
  {
    match a
    case Goto => ["action", "target"]
    case Pick => ["action", "object", "from"]
    case Place => ["action", "object", "to"]
    case WaitUntilFree => ["action", "target"]
  }

  /**
   * `ACTION_SCHEMA`, keyed by action: the cooperative table also allows
   * `agent`, the single-agent table allows exactly the required fields.
   */
  function SchemaTable(reg: Registry): (t: map<Action, FieldSchema>)
    ensures t.Keys == Catalog(reg)
    ensures forall a :: a in t ==> t[a].required == Required(a)
    ensures forall a :: a in t ==> forall k :: k in t[a].required ==> k in t[a].allowed
    ensures forall a :: a in t ==> "action" in t[a].required
    ensures reg == MultiAgentTable ==> forall a :: a in t ==> "agent" in t[a].allowed
    ensures reg == SingleAgentTable ==> forall a :: a in t ==> "agent" !in t[a].allowed
  {
    var tagged := reg == MultiAgentTable;
    map a | a in Catalog(reg) :: FieldSchema(Required(a), (if tagged then ["agent"] else []) + Required(a))
  }

  /**
   * A precondition template: the predicate's name and the step fields it reads.
   * `IsPoseT` keeps the field named in the table, but the validator always reads
   * `target` for it.
   */
  datatype PreTemplate =
    | IsPoseT(key: string)
    | AtReachT(slotKey: string)
    | SlotHasT(slotKey: string, objectKey: string)
    | SlotFreeT(slotKey: string)
    | HoldingIsT(valueKey: Option<string>)  // None: "the hand is empty"

  /** An effect template; `SetAtT`, like `IsPoseT`, always reads `target`. */
  datatype EffTemplate =
    | SetAtT(key: string)
    | HoldingSetT(valueKey: Option<string>)
    | SlotSetT(slotKey: string, valueKey: Option<string>)

  /** The `"pre"` list of an action, in declared order. */
  function Pre(a: Action): seq<PreTemplate>
  {
    match a
    case Goto => [IsPoseT("target")]
    case Pick => [AtReachT("from"), SlotHasT("from", "object"), HoldingIsT(None)]
    case Place => [AtReachT("to"), HoldingIsT(Some("object")), SlotFreeT("to")]
    case WaitUntilFree => [SlotFreeT("target")]
  }

  /** The `"eff"` list of an action, in declared order. */
  function Eff(a: Action): seq<EffTemplate>
  {
    match a
    case Goto => [SetAtT("target")]
    case Pick => [SlotSetT("from", None), HoldingSetT(Some("object"))]
    case Place => [SlotSetT("to", Some("object")), HoldingSetT(None)]
    case WaitUntilFree => []
  }

  /** The step fields a precondition template makes the validator read. */
  function PreKeys(t: PreTemplate): set<string>
  {
    match t
    case IsPoseT(_) => {"target"}
    case AtReachT(s) => {s}
    case SlotHasT(s, o) => {s, o}
    case SlotFreeT(s) => {s}
    case HoldingIsT(v) => if v.Some? then {v.value} else {}
  }

  /** The step fields an effect template makes the validator read. */
  function EffKeys(t: EffTemplate): set<string>
  {
    match t
    case SetAtT(_) => {"target"}
    case HoldingSetT(v) => if v.Some? then {v.value} else {}
    case SlotSetT(s, v) => {s} + (if v.Some? then {v.value} else {})
  }

  /**
   * Every field a template reads is a required field of its action, so a step
   * that passes the schema check can be materialized.
   */
  lemma TemplatesReadRequiredFields(a: Action)
    ensures forall t, k :: t in Pre(a) && k in PreKeys(t) ==> k in Required(a)
    ensures forall t, k :: t in Eff(a) && k in EffKeys(t) ==> k in Required(a)
  {
  }
}
