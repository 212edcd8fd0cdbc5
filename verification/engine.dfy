/** The traversal engine of src/lib.rs: an `Interpreter` holding a cursor over
    an immutable graph of models, which computes the gated outgoing targets of
    the current model and advances, or follows a choice, node kind by node kind.

    lib.rs works on its own, older data shape (`ModelType` plus `properties`
    with optional pins and expression); that shape is declared here. The
    expression engine (evalexpr) is outside the model: the interpreter is
    given it as the function `eval`, and reads the variable store only through it. */
module Engine {
  import opened Wrappers
  import opened Seqs
  import Types
  import Chains

  type Id = Types.Id

  // ------------------------------------------------------------ data

  datatype ModelType =
    | Dialogue | DialogueFragment | Hub | Condition
    | FlowFragment | Instruction | Other(name: string)

  datatype Connection = Connection(target: Id, targetPin: Id)

  datatype Pin = Pin(id: Id, text: string, connections: Option<seq<Connection>>)

  datatype Properties = Properties(
    id: Id,
    inputPins: Option<seq<Pin>>,
    outputPins: Option<seq<Pin>>,
    expression: Option<string>)

  datatype Model = Model(modelType: ModelType, properties: Properties)

  datatype Package = Package(models: seq<Model>)

  datatype ArticyFile = ArticyFile(packages: seq<Package>)

  datatype InterpreterError =
    | IdNotFound | NoModelFound | NoExpressionFound
    | NoCursor | NoPackages | NoOutputConnected | NoOutputPins

  datatype Outcome = Advanced | WaitingForChoice(choices: seq<Model>) | Stopped | EndOfDialogue

  /** evalexpr's variable store (`HashMapContext`). */
  datatype Value = Boolean(b: bool) | Int(i: int) | Text(s: string) | Empty
  type Store = map<string, Value>

  datatype EvalError = EvalError(message: string)

  /** `eval_boolean_with_context`: evaluates a boolean expression against the store. */
  type Evaluator = (string, Store) -> Result<bool, EvalError>

  /** An evaluation counts as true only when it succeeds with true; an error counts as false. */
  function Holds(outcome: Result<bool, EvalError>): (b: bool)
    ensures b <==> outcome == Ok(true)
  {
    match outcome
    case Ok(v) => v
    case Err(_) => false
  }

  // ------------------------------------------------------------ lookups

  /** `models.iter().find(|model| model.properties.id == id)`. */
  function FindModel(models: seq<Model>, id: Id): (r: Option<Model>)
    ensures r.None? <==> forall j :: 0 <= j < |models| ==> models[j].properties.id != id
    ensures r.Some? ==> r.value.properties.id == id && r.value in models
    ensures r.Some? ==> exists i :: 0 <= i < |models| && models[i] == r.value &&
                                    forall j :: 0 <= j < i ==> models[j].properties.id != id
  {
    match FindFirst(models, (m: Model) => m.properties.id == id)
    case None => None
    case Some(i) => Some(models[i])
  }

  /** `pins.iter().find(|pin| pin.id == id)`. */
  function FindPin(pins: seq<Pin>, id: Id): (r: Option<Pin>)
    ensures r.None? <==> forall j :: 0 <= j < |pins| ==> pins[j].id != id
    ensures r.Some? ==> r.value.id == id && r.value in pins
  {
    match FindFirst(pins, (p: Pin) => p.id == id)
    case None => None
    case Some(i) => Some(pins[i])
  }

  /** The models of the first package: the only package the interpreter looks in. */
  function Models(file: ArticyFile): seq<Model>
    requires |file.packages| > 0
  {
    file.packages[0].models
  }

  /** `get_current_model` (whose `packages.first().unwrap()` is its requires). */
  function CurrentModel(file: ArticyFile, cursor: Option<Id>): (r: Result<Model, InterpreterError>)
    requires cursor.Some? ==> |file.packages| > 0
    ensures r == Err(NoCursor) <==> cursor.None?
    ensures r == Err(NoModelFound) <==>
              cursor.Some? && forall j :: 0 <= j < |Models(file)| ==> Models(file)[j].properties.id != cursor.value
    ensures r.Ok? ==> r.value.properties.id == cursor.value && r.value in Models(file)
    ensures r.Ok? ==> exists i :: 0 <= i < |Models(file)| && Models(file)[i] == r.value &&
                                  forall j :: 0 <= j < i ==> Models(file)[j].properties.id != cursor.value
  {
    match cursor
    case None => Err(NoCursor)
    case Some(id) =>
      match FindModel(Models(file), id)
      case None => Err(NoModelFound)
      case Some(m) => Ok(m)
  }

  // ------------------------------------------------------------ get_available_connections

  /** The connection's target model exists and has the addressed input pin
      (the three `unwrap`s on a connection in the source). */
  predicate Resolves(models: seq<Model>, c: Connection)
  {
    FindModel(models, c.target).Some? &&
    FindModel(models, c.target).value.properties.inputPins.Some? &&
    FindPin(FindModel(models, c.target).value.properties.inputPins.value, c.targetPin).Some?
  }

  function TargetModel(models: seq<Model>, c: Connection): (m: Model)
    requires Resolves(models, c)
    ensures m.properties.id == c.target && m in models
  {
    FindModel(models, c.target).value
  }

  function TargetPin(models: seq<Model>, c: Connection): (p: Pin)
    requires Resolves(models, c)
    ensures p.id == c.targetPin
  {
    FindPin(TargetModel(models, c).properties.inputPins.value, c.targetPin).value
  }

  /** Every pin has its connection list and every connection resolves
      (the `unwrap`s the source applies while collecting the targets). */
  predicate PinsResolve(models: seq<Model>, pins: seq<Pin>)
  {
    forall i :: 0 <= i < |pins| ==>
      pins[i].connections.Some? &&
      forall j :: 0 <= j < |pins[i].connections.value| ==> Resolves(models, pins[i].connections.value[j])
  }

  /** The gate of a connection: the addressed input pin's text is empty, or
      it evaluates to true against the store. */
  predicate IsOpen(eval: Evaluator, state: Store, models: seq<Model>, c: Connection)
  {
    Resolves(models, c) &&
    (TargetPin(models, c).text == "" || Holds(eval(TargetPin(models, c).text, state)))
  }

  function Gate(eval: Evaluator, state: Store, models: seq<Model>): Connection -> bool
  {
    c => IsOpen(eval, state, models, c)
  }

  /** All connections of the pins, in pin order, then connection order. */
  function AllConnections(pins: seq<Pin>): (cs: seq<Connection>)
    requires forall i :: 0 <= i < |pins| ==> pins[i].connections.Some?
  {
    if |pins| == 0 then [] else pins[0].connections.value + AllConnections(pins[1..])
  }

  /** The target model of each connection, in order. */
  function Targets(models: seq<Model>, cs: seq<Connection>): (r: seq<Model>)
    requires forall i :: 0 <= i < |cs| ==> Resolves(models, cs[i])
    ensures |r| == |cs|
    ensures forall i :: 0 <= i < |cs| ==> r[i] == TargetModel(models, cs[i])
  {
    if |cs| == 0 then [] else [TargetModel(models, cs[0])] + Targets(models, cs[1..])
  }

  /** The inner `filter_map` of the source: the targets of one pin's open connections. */
  function OpenTargets(eval: Evaluator, state: Store, models: seq<Model>, cs: seq<Connection>): (r: seq<Model>)
    requires forall j :: 0 <= j < |cs| ==> Resolves(models, cs[j])
  {
    if |cs| == 0 then []
    else
      var rest := OpenTargets(eval, state, models, cs[1..]);
      var text := TargetPin(models, cs[0]).text;
      if text == "" || Holds(eval(text, state)) then [TargetModel(models, cs[0])] + rest else rest
  }

  /** The outer pipeline of the source: the open targets of each pin, flattened. */
  function PinTargets(eval: Evaluator, state: Store, models: seq<Model>, pins: seq<Pin>): (r: seq<Model>)
    requires PinsResolve(models, pins)
  {
    if |pins| == 0 then []
    else OpenTargets(eval, state, models, pins[0].connections.value) + PinTargets(eval, state, models, pins[1..])
  }

  lemma {:induction false} OpenTargetsFilter(eval: Evaluator, state: Store, models: seq<Model>, cs: seq<Connection>)
    requires forall j :: 0 <= j < |cs| ==> Resolves(models, cs[j])
    ensures OpenTargets(eval, state, models, cs) == Targets(models, Filter(cs, Gate(eval, state, models)))
  {
    if |cs| > 0 {
      var g := Gate(eval, state, models);
      OpenTargetsFilter(eval, state, models, cs[1..]);
      var rest := Filter(cs[1..], g);
      if g(cs[0]) {
        assert Filter(cs, g) == [cs[0]] + rest;
        TargetsCons(models, cs[0], rest);
      } else {
        assert Filter(cs, g) == rest;
      }
    }
  }

  lemma TargetsCons(models: seq<Model>, c: Connection, cs: seq<Connection>)
    requires Resolves(models, c)
    requires forall i :: 0 <= i < |cs| ==> Resolves(models, cs[i])
    ensures forall i :: 0 <= i < |[c] + cs| ==> Resolves(models, ([c] + cs)[i])
    ensures Targets(models, [c] + cs) == [TargetModel(models, c)] + Targets(models, cs)
  {
    var s := [c] + cs;
    forall i | 0 <= i < |s| ensures Resolves(models, s[i]) {
      if i > 0 { assert s[i] == cs[i - 1]; }
    }
    assert s[0] == c && s[1..] == cs;
  }

  lemma {:induction false} TargetsAppend(models: seq<Model>, a: seq<Connection>, b: seq<Connection>)
    requires forall i :: 0 <= i < |a| ==> Resolves(models, a[i])
    requires forall i :: 0 <= i < |b| ==> Resolves(models, b[i])
    ensures forall i :: 0 <= i < |a + b| ==> Resolves(models, (a + b)[i])
    ensures Targets(models, a + b) == Targets(models, a) + Targets(models, b)
  {
  }

  /** The source's per-pin pipeline is the one filter over all connections of
      all pins: flattened in pin order, then connection order, repeats kept. */
  lemma {:induction false} PinTargetsFilter(eval: Evaluator, state: Store, models: seq<Model>, pins: seq<Pin>)
    requires PinsResolve(models, pins)
    ensures PinTargets(eval, state, models, pins) ==
            Targets(models, Filter(AllConnections(pins), Gate(eval, state, models)))
  {
    if |pins| > 0 {
      var g := Gate(eval, state, models);
      var first := pins[0].connections.value;
      PinsResolveTail(models, pins);
      PinTargetsFilter(eval, state, models, pins[1..]);
      OpenTargetsFilter(eval, state, models, first);
      FilterAppend(first, AllConnections(pins[1..]), g);
      TargetsAppend(models, Filter(first, g), Filter(AllConnections(pins[1..]), g));
    }
  }

  lemma PinsResolveTail(models: seq<Model>, pins: seq<Pin>)
    requires |pins| > 0 && PinsResolve(models, pins)
    ensures PinsResolve(models, pins[1..])
    ensures forall j :: 0 <= j < |pins[0].connections.value| ==> Resolves(models, pins[0].connections.value[j])
  {
    forall i | 0 <= i < |pins[1..]| ensures pins[1..][i] == pins[i + 1] { }
  }

  /** What `get_available_connections` needs from the graph so that none of
      its `unwrap`s fails. */
  predicate AvailableDefined(file: ArticyFile, cursor: Option<Id>)
  {
    cursor.Some? ==>
      |file.packages| > 0 &&
      match CurrentModel(file, cursor)
      case Ok(m) => m.properties.outputPins.Some? ==> PinsResolve(Models(file), m.properties.outputPins.value)
      case Err(_) => true
  }

  /** `get_available_connections`: the targets of the current model's open
      connections, or why there are none to compute. */
  function AvailableConnections(file: ArticyFile, eval: Evaluator, state: Store, cursor: Option<Id>)
    : (r: Result<seq<Model>, InterpreterError>)
    requires AvailableDefined(file, cursor)
    ensures cursor.None? ==> r == Err(NoCursor)
    ensures CurrentModel(file, cursor).Err? ==> r == Err(CurrentModel(file, cursor).error)
    ensures CurrentModel(file, cursor).Ok? && CurrentModel(file, cursor).value.properties.outputPins.None? ==>
              r == Err(NoOutputPins)
    ensures CurrentModel(file, cursor).Ok? && CurrentModel(file, cursor).value.properties.outputPins.Some? ==>
              var pins := CurrentModel(file, cursor).value.properties.outputPins.value;
              r == Ok(Targets(Models(file), Filter(AllConnections(pins), Gate(eval, state, Models(file)))))
  {
    match CurrentModel(file, cursor)
    case Err(e) => Err(e)
    case Ok(m) =>
      match m.properties.outputPins
      case None => Err(NoOutputPins)
      case Some(pins) =>
        PinTargetsFilter(eval, state, Models(file), pins);
        Ok(PinTargets(eval, state, Models(file), pins))
  }

  /** Gating, first half: in any list of connections (such as
      `AllConnections` of a model's output pins), a connection whose
      addressed input pin has an empty text is kept as often as it occurs,
      whatever the store holds. */
  lemma EmptyGateOpen(eval: Evaluator, state: Store, models: seq<Model>, cs: seq<Connection>, c: Connection)
    requires Resolves(models, c) && TargetPin(models, c).text == ""
    ensures multiset(Filter(cs, Gate(eval, state, models)))[c] == multiset(cs)[c]
  {
    assert Gate(eval, state, models)(c);
  }

  /** Gating, second half: a connection whose expression evaluates to false,
      or fails to evaluate, is never kept. */
  lemma ClosedGateShut(eval: Evaluator, state: Store, models: seq<Model>, cs: seq<Connection>, c: Connection)
    requires Resolves(models, c) && TargetPin(models, c).text != ""
    requires eval(TargetPin(models, c).text, state) != Ok(true)
    ensures c !in Filter(cs, Gate(eval, state, models))
  {
    var open := Filter(cs, Gate(eval, state, models));
    assert !Gate(eval, state, models)(c);
    assert multiset(open)[c] == 0;
  }

  // ------------------------------------------------------------ advance, as a specification

  /** `advance` on a DialogueFragment: the target of the first connection of
      the first output pin, without gating. */
  function FirstTarget(m: Model): (t: Option<Id>)
    ensures t.Some? <==> m.properties.outputPins.Some? && |m.properties.outputPins.value| > 0 &&
                         m.properties.outputPins.value[0].connections.Some? &&
                         |m.properties.outputPins.value[0].connections.value| > 0
    ensures t.Some? ==> t.value == m.properties.outputPins.value[0].connections.value[0].target
  {
    match m.properties.outputPins
    case None => None
    case Some(pins) =>
      if |pins| == 0 then None
      else match pins[0].connections
        case None => None
        case Some(cs) => if |cs| == 0 then None else Some(cs[0].target)
  }

  /** `advance` on a Condition: the first connection of the first output pin
      when the expression holds, the last connection of that same pin otherwise. */
  function ConditionTarget(m: Model, holds: bool): (t: Option<Id>)
    ensures t.Some? <==> FirstTarget(m).Some?
    ensures t.Some? && holds ==> t == FirstTarget(m)
    ensures t.Some? && !holds ==>
              var cs := m.properties.outputPins.value[0].connections.value;
              t.value == cs[|cs| - 1].target
  {
    match m.properties.outputPins
    case None => None
    case Some(pins) =>
      if |pins| == 0 then None
      else match pins[0].connections
        case None => None
        case Some(cs) => if |cs| == 0 then None else Some(if holds then cs[0].target else cs[|cs| - 1].target)
  }

  /** How a call ends: it returns a result with the cursor where it left it,
      it panics (an `unwrap` or `unimplemented!`), or it is still recursing
      through Conditions when the fuel runs out. */
  datatype Run = Returns(result: Result<Outcome, InterpreterError>, cursor: Option<Id>) | Panics | Diverges

  /** A Hub offers its available connections and keeps the cursor; a failed
      query is reported as NoOutputConnected. */
  ghost function AtHub(file: ArticyFile, eval: Evaluator, state: Store, cursor: Option<Id>): Run
  {
    if !AvailableDefined(file, cursor) then Panics
    else match AvailableConnections(file, eval, state, cursor)
      case Ok(choices) => Returns(Ok(WaitingForChoice(choices)), cursor)
      case Err(_) => Returns(Err(NoOutputConnected), cursor)
  }

  /** What `advance` does after moving the cursor to `target`. */
  ghost function LandRun(file: ArticyFile, eval: Evaluator, state: Store, target: Id, fuel: nat): Run
    requires |file.packages| > 0
    decreases fuel, 0
  {
    match FindModel(Models(file), target)
    case None => Returns(Err(NoModelFound), Some(target))
    case Some(m) =>
      match m.modelType
      case Dialogue => Returns(Ok(EndOfDialogue), Some(target))
      case Hub => AtHub(file, eval, state, Some(target))
      case Condition => if fuel == 0 then Diverges else AdvanceRun(file, eval, state, Some(target), fuel - 1)
      case _ => Returns(Ok(Advanced), Some(target))
  }

  /** `advance` from `cursor`, allowed `fuel` re-entries on Conditions. */
  ghost function AdvanceRun(file: ArticyFile, eval: Evaluator, state: Store, cursor: Option<Id>, fuel: nat): Run
    decreases fuel, 1
  {
    if cursor.None? then Returns(Err(NoCursor), cursor)
    else if |file.packages| == 0 then Returns(Err(NoPackages), cursor)
    else match FindModel(Models(file), cursor.value)
      case None => Returns(Err(NoModelFound), cursor)
      case Some(m) =>
        match m.modelType
        case Dialogue => Returns(Ok(EndOfDialogue), cursor)
        case DialogueFragment =>
          (match FirstTarget(m)
           case None => Returns(Err(NoOutputConnected), cursor)
           case Some(t) => LandRun(file, eval, state, t, fuel))
        case Hub => AtHub(file, eval, state, cursor)
        case Condition =>
          (match m.properties.expression
           case None => Returns(Err(NoExpressionFound), cursor)
           case Some(e) =>
             match ConditionTarget(m, Holds(eval(e, state)))
             case None => Returns(Err(NoOutputConnected), cursor)
             case Some(t) => LandRun(file, eval, state, t, fuel))
        case _ => Panics
  }

  /** One re-entry per model of the first package, plus one: a longer chain of
      Conditions would revisit one with the same store, and then the source
      would recurse forever. */
  function Bound(file: ArticyFile): nat
  {
    if |file.packages| > 0 then |Models(file)| + 1 else 1
  }

  // ------------------------------------------------------------ properties of advance

  /** The model under `cursor`, when there is one. */
  function At(file: ArticyFile, cursor: Option<Id>): Option<Model>
  {
    if cursor.Some? && |file.packages| > 0 then FindModel(Models(file), cursor.value) else None
  }

  /** What a returned result says about the node the cursor was left on.
      EndOfDialogue: a Dialogue. WaitingForChoice: a Hub, with exactly its
      available connections. Advanced: a model that is none of Dialogue, Hub
      or Condition, so a Condition is never where a step stops. Each error
      names the node that caused it: no cursor, no packages, a dangling id, a
      Condition without an expression, or a node without a first output
      connection, or a Hub whose query failed. Stopped, IdNotFound and
      NoOutputPins are never returned. */
  ghost predicate Explains(file: ArticyFile, eval: Evaluator, state: Store, run: Run)
    requires run.Returns?
  {
    var m := At(file, run.cursor);
    match run.result
    case Ok(EndOfDialogue) => m.Some? && m.value.modelType == Dialogue
    case Ok(WaitingForChoice(choices)) =>
      m.Some? && m.value.modelType == Hub && AvailableDefined(file, run.cursor) &&
      AvailableConnections(file, eval, state, run.cursor) == Ok(choices)
    case Ok(Advanced) => m.Some? && m.value.modelType !in {Dialogue, Hub, Condition}
    case Ok(Stopped) => false
    case Err(NoCursor) => run.cursor.None?
    case Err(NoPackages) => run.cursor.Some? && |file.packages| == 0
    case Err(NoModelFound) => run.cursor.Some? && |file.packages| > 0 && m.None?
    case Err(NoExpressionFound) =>
      m.Some? && m.value.modelType == Condition && m.value.properties.expression.None?
    case Err(NoOutputConnected) =>
      m.Some? &&
      ((m.value.modelType in {DialogueFragment, Condition} && FirstTarget(m.value).None?) ||
       (m.value.modelType == Hub && AvailableDefined(file, run.cursor) &&
        AvailableConnections(file, eval, state, run.cursor).Err?))
    case Err(_) => false
  }

  /** Every result of `advance` is explained by the node the cursor is left on. */
  lemma {:induction false} AdvanceExplained(file: ArticyFile, eval: Evaluator, state: Store, cursor: Option<Id>, fuel: nat)
    requires AdvanceRun(file, eval, state, cursor, fuel).Returns?
    ensures Explains(file, eval, state, AdvanceRun(file, eval, state, cursor, fuel))
    decreases fuel, 1
  {
    var m := At(file, cursor);
    if m.Some? {
      var model := m.value;
      if model.modelType == DialogueFragment && FirstTarget(model).Some? {
        LandExplained(file, eval, state, FirstTarget(model).value, fuel);
      } else if model.modelType == Condition && model.properties.expression.Some? {
        var t := ConditionTarget(model, Holds(eval(model.properties.expression.value, state)));
        if t.Some? {
          LandExplained(file, eval, state, t.value, fuel);
        }
      }
    }
  }

  lemma {:induction false} LandExplained(file: ArticyFile, eval: Evaluator, state: Store, target: Id, fuel: nat)
    requires |file.packages| > 0
    requires LandRun(file, eval, state, target, fuel).Returns?
    ensures Explains(file, eval, state, LandRun(file, eval, state, target, fuel))
    decreases fuel, 0
  {
    var m := FindModel(Models(file), target);
    if m.Some? && m.value.modelType == Condition {
      AdvanceExplained(file, eval, state, Some(target), fuel - 1);
    }
  }

  /** On a Dialogue or a Hub `advance` does not move the cursor. */
  lemma StaysOnDialogueAndHub(file: ArticyFile, eval: Evaluator, state: Store, cursor: Option<Id>, fuel: nat)
    requires At(file, cursor).Some? && At(file, cursor).value.modelType in {Dialogue, Hub}
    requires AdvanceRun(file, eval, state, cursor, fuel).Returns?
    ensures AdvanceRun(file, eval, state, cursor, fuel).cursor == cursor
    ensures At(file, cursor).value.modelType == Dialogue ==>
              AdvanceRun(file, eval, state, cursor, fuel).result == Ok(EndOfDialogue)
  {
  }

  /** More fuel changes nothing once a run has ended, by returning or by
      panicking: the answer does not depend on the bound chosen. */
  lemma {:induction false} FuelMonotone(file: ArticyFile, eval: Evaluator, state: Store, cursor: Option<Id>, fuel: nat, more: nat)
    requires fuel <= more
    requires !AdvanceRun(file, eval, state, cursor, fuel).Diverges?
    ensures AdvanceRun(file, eval, state, cursor, more) == AdvanceRun(file, eval, state, cursor, fuel)
    decreases fuel, 1
  {
    var m := At(file, cursor);
    if m.Some? {
      var model := m.value;
      if model.modelType == DialogueFragment && FirstTarget(model).Some? {
        LandFuelMonotone(file, eval, state, FirstTarget(model).value, fuel, more);
      } else if model.modelType == Condition && model.properties.expression.Some? {
        var t := ConditionTarget(model, Holds(eval(model.properties.expression.value, state)));
        if t.Some? {
          LandFuelMonotone(file, eval, state, t.value, fuel, more);
        }
      }
    }
  }

  lemma {:induction false} LandFuelMonotone(file: ArticyFile, eval: Evaluator, state: Store, target: Id, fuel: nat, more: nat)
    requires |file.packages| > 0 && fuel <= more
    requires !LandRun(file, eval, state, target, fuel).Diverges?
    ensures LandRun(file, eval, state, target, more) == LandRun(file, eval, state, target, fuel)
    decreases fuel, 0
  {
    var m := FindModel(Models(file), target);
    if m.Some? && m.value.modelType == Condition {
      FuelMonotone(file, eval, state, Some(target), fuel - 1, more - 1);
    }
  }

  // ------------------------------------------------------------ chains of Conditions

  /** Where `advance` on a DialogueFragment or a Condition moves the cursor
      before it looks at the target. */
  function Route(file: ArticyFile, eval: Evaluator, state: Store, c: Id): Option<Id>
  {
    match At(file, Some(c))
    case None => None
    case Some(m) =>
      if m.modelType == DialogueFragment then FirstTarget(m)
      else if m.modelType == Condition && m.properties.expression.Some? then
        ConditionTarget(m, Holds(eval(m.properties.expression.value, state)))
      else None
  }

  /** `advance` from a DialogueFragment or a Condition that has a route lands on it. */
  lemma Routes(file: ArticyFile, eval: Evaluator, state: Store, c: Id, fuel: nat)
    requires Route(file, eval, state, c).Some?
    ensures |file.packages| > 0
    ensures AdvanceRun(file, eval, state, Some(c), fuel) == LandRun(file, eval, state, Route(file, eval, state, c).value, fuel)
  {
  }

  /** Where one call of `advance` from `c` moves the cursor when it lands on
      a Condition, and so calls `advance` again; None when the call ends. */
  function Hop(file: ArticyFile, eval: Evaluator, state: Store, c: Id): (r: Option<Id>)
    ensures r.Some? ==> |file.packages| > 0 &&
                        Route(file, eval, state, c).Some? &&
                        FindModel(Models(file), r.value).Some? &&
                        FindModel(Models(file), r.value).value.modelType == Condition
  {
    var t := Route(file, eval, state, c);
    if t.Some? && |file.packages| > 0 && FindModel(Models(file), t.value).Some? &&
       FindModel(Models(file), t.value).value.modelType == Condition
    then t else None
  }

  /** Hop as a step to repeat: the store never changes during `advance`. */
  function Hops(file: ArticyFile, eval: Evaluator, state: Store): Id -> Option<Id>
  {
    c => Hop(file, eval, state, c)
  }

  /** `advance` from `c` runs out of `fuel` exactly when `c` starts a chain
      of more than `fuel` re-entries. */
  lemma DivergesIffHops(file: ArticyFile, eval: Evaluator, state: Store, c: Id, fuel: nat)
    ensures AdvanceRun(file, eval, state, Some(c), fuel).Diverges? <==>
            Chains.Iterate(Hops(file, eval, state), c, fuel + 1).Some?
  {
    var step := Hops(file, eval, state);
    var runsOut := (x: Id, f: nat) => AdvanceRun(file, eval, state, Some(x), f).Diverges?;
    EndsWithoutHop(file, eval, state);
    HopCostsFuel(file, eval, state);
    assert forall x :: step(x) == Hop(file, eval, state, x);
    Chains.RunsOutIffIterates(step, runsOut, c, fuel);
  }

  lemma EndsWithoutHop(file: ArticyFile, eval: Evaluator, state: Store)
    ensures forall x, f: nat :: Hop(file, eval, state, x).None? ==> !AdvanceRun(file, eval, state, Some(x), f).Diverges?
  {
    forall x, f: nat | Hop(file, eval, state, x).None? ensures !AdvanceRun(file, eval, state, Some(x), f).Diverges? {
      NoHopEnds(file, eval, state, x, f);
    }
  }

  lemma HopCostsFuel(file: ArticyFile, eval: Evaluator, state: Store)
    ensures forall x :: Hop(file, eval, state, x).Some? ==> AdvanceRun(file, eval, state, Some(x), 0).Diverges?
    ensures forall x, f: nat :: Hop(file, eval, state, x).Some? && f > 0 ==>
              AdvanceRun(file, eval, state, Some(x), f) == AdvanceRun(file, eval, state, Hop(file, eval, state, x), f - 1)
  {
    forall x | Hop(file, eval, state, x).Some? ensures AdvanceRun(file, eval, state, Some(x), 0).Diverges? {
      HopReenters(file, eval, state, x, 0);
    }
    forall x, f: nat | Hop(file, eval, state, x).Some? && f > 0
      ensures AdvanceRun(file, eval, state, Some(x), f) == AdvanceRun(file, eval, state, Hop(file, eval, state, x), f - 1)
    {
      HopReenters(file, eval, state, x, f);
    }
  }

  /** A re-entry costs one unit of fuel, and with none left the run diverges. */
  lemma HopReenters(file: ArticyFile, eval: Evaluator, state: Store, c: Id, fuel: nat)
    requires Hop(file, eval, state, c).Some?
    ensures AdvanceRun(file, eval, state, Some(c), fuel) ==
            if fuel == 0 then Diverges else AdvanceRun(file, eval, state, Hop(file, eval, state, c), fuel - 1)
  {
    var t := Hop(file, eval, state, c).value;
    Routes(file, eval, state, c, fuel);
    assert LandRun(file, eval, state, t, fuel) ==
           if fuel == 0 then Diverges else AdvanceRun(file, eval, state, Some(t), fuel - 1);
  }

  /** Without a re-entry, `advance` ends, whatever the fuel. */
  lemma NoHopEnds(file: ArticyFile, eval: Evaluator, state: Store, c: Id, fuel: nat)
    requires Hop(file, eval, state, c).None?
    ensures !AdvanceRun(file, eval, state, Some(c), fuel).Diverges?
  {
    var t := Route(file, eval, state, c);
    if t.Some? {
      Routes(file, eval, state, c, fuel);
      assert !LandRun(file, eval, state, t.value, fuel).Diverges?;
    }
  }

  /** The ids of the models. */
  function IdsOf(models: seq<Model>): (ids: set<Id>)
    ensures |ids| <= |models|
  {
    if |models| == 0 then {} else {models[0].properties.id} + IdsOf(models[1..])
  }

  lemma {:induction false} FoundIdListed(models: seq<Model>, id: Id)
    requires FindModel(models, id).Some?
    ensures id in IdsOf(models)
  {
    if models[0].properties.id != id {
      assert FindModel(models[1..], id).Some? by {
        var m := FindModel(models, id).value;
        var i :| 0 <= i < |models| && models[i] == m;
        assert models[1..][i - 1] == m;
      }
      FoundIdListed(models[1..], id);
    }
  }

  /** Every re-entry lands on one of the first package's models. */
  lemma HopsStayInFile(file: ArticyFile, eval: Evaluator, state: Store)
    requires |file.packages| > 0
    ensures forall c :: Hops(file, eval, state)(c).Some? ==> Hops(file, eval, state)(c).value in IdsOf(Models(file))
  {
    forall c | Hop(file, eval, state, c).Some? ensures Hop(file, eval, state, c).value in IdsOf(Models(file)) {
      FoundIdListed(Models(file), Hop(file, eval, state, c).value);
    }
  }

  /** The bound is enough: if `advance` is still re-entering Conditions after
      `Bound(file)` re-entries, a Condition has come round again with the same
      store, and the source recurses for ever, whatever fuel is given. */
  lemma BoundSuffices(file: ArticyFile, eval: Evaluator, state: Store, cursor: Option<Id>, fuel: nat)
    requires AdvanceRun(file, eval, state, cursor, Bound(file)).Diverges?
    ensures AdvanceRun(file, eval, state, cursor, fuel).Diverges?
  {
    var c := cursor.value;
    var step := Hops(file, eval, state);
    var pool := IdsOf(Models(file));
    DivergesIffHops(file, eval, state, c, Bound(file));
    Chains.IteratePrefix(step, c, Bound(file) + 1, |pool| + 1);
    HopsStayInFile(file, eval, state);
    Chains.IterateForever(step, c, pool, fuel + 1);
    DivergesIffHops(file, eval, state, c, fuel);
  }

  /** So `Bound(file)` loses nothing: whenever `advance` ends with some fuel,
      it ends the same way with `Bound(file)`. */
  lemma BoundIsExact(file: ArticyFile, eval: Evaluator, state: Store, cursor: Option<Id>, fuel: nat)
    requires !AdvanceRun(file, eval, state, cursor, fuel).Diverges?
    ensures AdvanceRun(file, eval, state, cursor, Bound(file)) == AdvanceRun(file, eval, state, cursor, fuel)
  {
    if AdvanceRun(file, eval, state, cursor, Bound(file)).Diverges? {
      BoundSuffices(file, eval, state, cursor, fuel);
    } else if Bound(file) <= fuel {
      FuelMonotone(file, eval, state, cursor, Bound(file), fuel);
    } else {
      FuelMonotone(file, eval, state, cursor, fuel, Bound(file));
    }
  }

  // ------------------------------------------------------------ a worked flow

  function Link(target: string, pin: string): Connection
  {
    Connection(Types.Id(target), Types.Id(pin))
  }

  function Node(kind: ModelType, id: string, input: string, output: string,
                outputs: seq<Connection>, expression: Option<string>): Model
  {
    Model(kind, Properties(Types.Id(id), Some([Pin(Types.Id(input), "", Some([]))]),
                           Some([Pin(Types.Id(output), "", Some(outputs))]), expression))
  }

  /** A Dialogue D, a fragment F1 leading to a Condition C on "flag", whose
      output pin leads to F2 first and F3 last. */
  function Flow(): ArticyFile
  {
    ArticyFile([Package([
      Node(Dialogue, "D", "D-in", "D-out", [Link("F1", "F1-in")], None),
      Node(DialogueFragment, "F1", "F1-in", "F1-out", [Link("C", "C-in")], None),
      Node(Condition, "C", "C-in", "C-out", [Link("F2", "F2-in"), Link("F3", "F3-in")], Some("flag")),
      Node(DialogueFragment, "F2", "F2-in", "F2-out", [], None),
      Node(DialogueFragment, "F3", "F3-in", "F3-out", [], None)
    ])])
  }

  /** One `advance` from F1 passes through C without stopping and lands on
      F2 when "flag" holds, on F3 when it is false or fails to evaluate. */
  lemma ConditionIsTransparent(eval: Evaluator, state: Store)
    ensures AdvanceRun(Flow(), eval, state, Some(Types.Id("F1")), Bound(Flow())) ==
            Returns(Ok(Advanced), Some(if eval("flag", state) == Ok(true) then Types.Id("F2") else Types.Id("F3")))
  {
    FlowLookups();
    assert Bound(Flow()) == 6;
    FragmentStep(eval, state, 6);
    ConditionStep(eval, state, 5);
  }

  lemma FragmentStep(eval: Evaluator, state: Store, fuel: nat)
    requires fuel > 0
    ensures AdvanceRun(Flow(), eval, state, Some(Types.Id("F1")), fuel) ==
            AdvanceRun(Flow(), eval, state, Some(Types.Id("C")), fuel - 1)
  {
    FragmentHop(eval, state);
    HopReenters(Flow(), eval, state, Types.Id("F1"), fuel);
  }

  /** F1's only connection leads to the Condition C. */
  lemma FragmentHop(eval: Evaluator, state: Store)
    ensures Hop(Flow(), eval, state, Types.Id("F1")) == Some(Types.Id("C"))
  {
    FlowLookup(1, Types.Id("F1"));
    FlowLookup(2, Types.Id("C"));
    assert FirstTarget(Models(Flow())[1]) == Some(Types.Id("C"));
    assert Route(Flow(), eval, state, Types.Id("F1")) == Some(Types.Id("C"));
  }

  lemma ConditionStep(eval: Evaluator, state: Store, fuel: nat)
    ensures AdvanceRun(Flow(), eval, state, Some(Types.Id("C")), fuel) ==
            Returns(Ok(Advanced), Some(if eval("flag", state) == Ok(true) then Types.Id("F2") else Types.Id("F3")))
  {
    var target := if eval("flag", state) == Ok(true) then Types.Id("F2") else Types.Id("F3");
    ConditionMoves(eval, state, target, fuel);
    FlowLookup(if target == Types.Id("F2") then 3 else 4, target);
  }

  /** C routes to F2 on true and F3 otherwise. */
  lemma ConditionMoves(eval: Evaluator, state: Store, target: Id, fuel: nat)
    requires target == if eval("flag", state) == Ok(true) then Types.Id("F2") else Types.Id("F3")
    ensures AdvanceRun(Flow(), eval, state, Some(Types.Id("C")), fuel) == LandRun(Flow(), eval, state, target, fuel)
  {
    FlowLookup(2, Types.Id("C"));
    var c := Models(Flow())[2];
    assert c.properties.expression == Some("flag");
    assert c.properties.outputPins.value[0].connections.value == [Link("F2", "F2-in"), Link("F3", "F3-in")];
    assert ConditionTarget(c, Holds(eval("flag", state))) == Some(target);
    assert At(Flow(), Some(Types.Id("C"))) == Some(c);
    assert Route(Flow(), eval, state, Types.Id("C")) == Some(target);
    Routes(Flow(), eval, state, Types.Id("C"), fuel);
  }

  /** Where each id of the worked flow is found, and what kind of node it is. */
  lemma FlowLookups()
    ensures FindModel(Models(Flow()), Types.Id("F1")) == Some(Models(Flow())[1])
    ensures FindModel(Models(Flow()), Types.Id("C")) == Some(Models(Flow())[2])
    ensures FindModel(Models(Flow()), Types.Id("F2")) == Some(Models(Flow())[3])
    ensures FindModel(Models(Flow()), Types.Id("F3")) == Some(Models(Flow())[4])
    ensures Models(Flow())[1].modelType == DialogueFragment && Models(Flow())[2].modelType == Condition
    ensures Models(Flow())[3].modelType == DialogueFragment && Models(Flow())[4].modelType == DialogueFragment
  {
    FlowLookup(1, Types.Id("F1"));
    FlowLookup(2, Types.Id("C"));
    FlowLookup(3, Types.Id("F2"));
    FlowLookup(4, Types.Id("F3"));
  }

  lemma FlowLookup(k: nat, id: Id)
    requires k < 5 && id == [Types.Id("D"), Types.Id("F1"), Types.Id("C"), Types.Id("F2"), Types.Id("F3")][k]
    ensures FindModel(Models(Flow()), id) == Some(Models(Flow())[k])
    ensures k > 0 ==> Models(Flow())[k].modelType == (if k == 2 then Condition else DialogueFragment)
  {
    var m := Models(Flow());
    assert m[0].properties.id == Types.Id("D") && m[1].properties.id == Types.Id("F1");
    assert m[2].properties.id == Types.Id("C") && m[3].properties.id == Types.Id("F2");
    assert m[4].properties.id == Types.Id("F3");
    FindModelAt(m, k, id);
  }

  /** A model is found at the first index that carries its id. */
  lemma FindModelAt(models: seq<Model>, k: nat, id: Id)
    requires k < |models| && models[k].properties.id == id
    requires forall j :: 0 <= j < k ==> models[j].properties.id != id
    ensures FindModel(models, id) == Some(models[k])
  {
    assert FindModel(models, id).Some?;
  }

  // ------------------------------------------------------------ the interpreter

  class Interpreter {
    const file: ArticyFile
    const eval: Evaluator
    var state: Store
    var cursor: Option<Id>

    /** `Interpreter::new`: an empty store and no cursor. */
    constructor(file: ArticyFile, eval: Evaluator)
      ensures this.file == file && this.eval == eval
      ensures state == map[] && cursor == None
    {
      this.file := file;
      this.eval := eval;
      state := map[];
      cursor := None;
    }

    /** `start`: the cursor is `id` when the first package has a model with
        that id, and unset otherwise; it always succeeds. */
    method Start(id: Id) returns (r: Result<(), InterpreterError>)
      modifies this`cursor
      ensures r == Ok(())
      ensures cursor == Some(id) <==> |file.packages| > 0 && exists j :: 0 <= j < |Models(file)| && Models(file)[j].properties.id == id
      ensures cursor.Some? ==> cursor == Some(id)
      ensures cursor.Some? ==> CurrentModel(file, cursor).Ok?
    {
      if |file.packages| > 0 {
        var found := FindModel(file.packages[0].models, id);
        if found.Some? {
          ghost var j :| 0 <= j < |Models(file)| && Models(file)[j] == found.value;
        }
        cursor := if found.Some? then Some(found.value.properties.id) else None;
      } else {
        cursor := None;
      }
      r := Ok(());
    }

    /** `advance`. */
    method Advance() returns (r: Result<Outcome, InterpreterError>)
      requires AdvanceRun(file, eval, state, cursor, Bound(file)).Returns?
      modifies this`cursor
      ensures AdvanceRun(file, eval, state, old(cursor), Bound(file)) == Returns(r, cursor)
    {
      r := AdvanceWithin(Bound(file));
    }

    method AdvanceWithin(ghost fuel: nat) returns (r: Result<Outcome, InterpreterError>)
      requires AdvanceRun(file, eval, state, cursor, fuel).Returns?
      modifies this`cursor
      ensures AdvanceRun(file, eval, state, old(cursor), fuel) == Returns(r, cursor)
      decreases fuel, 1
    {
      if cursor.None? {
        return Err(NoCursor);
      }
      if |file.packages| == 0 {
        return Err(NoPackages);
      }
      var found := FindModel(file.packages[0].models, cursor.value);
      if found.None? {
        return Err(NoModelFound);
      }
      var model := found.value;
      var kind := model.modelType;
      assert kind in {Dialogue, DialogueFragment, Hub, Condition};
      if kind == Dialogue {
        r := Ok(EndOfDialogue);
      } else if kind == DialogueFragment {
        var target := FirstTarget(model);
        if target.None? {
          return Err(NoOutputConnected);
        }
        cursor := target;
        r := LandWithin(fuel);
      } else if kind == Hub {
        var choices := AvailableConnections(file, eval, state, cursor);
        r := if choices.Ok? then Ok(WaitingForChoice(choices.value)) else Err(NoOutputConnected);
      } else {
        if model.properties.expression.None? {
          return Err(NoExpressionFound);
        }
        var holds := Holds(eval(model.properties.expression.value, state));
        var target := ConditionTarget(model, holds);
        if target.None? {
          return Err(NoOutputConnected);
        }
        cursor := target;
        r := LandWithin(fuel);
      }
    }

    /** The dispatch on the model the cursor has just moved to. */
    method LandWithin(ghost fuel: nat) returns (r: Result<Outcome, InterpreterError>)
      requires cursor.Some? && |file.packages| > 0
      requires LandRun(file, eval, state, cursor.value, fuel).Returns?
      modifies this`cursor
      ensures LandRun(file, eval, state, old(cursor).value, fuel) == Returns(r, cursor)
      decreases fuel, 0
    {
      var current := CurrentModel(file, cursor);
      if current.Err? {
        return Err(NoModelFound);
      }
      match current.value.modelType
      case Dialogue =>
        r := Ok(EndOfDialogue);
      case Hub =>
        var choices := AvailableConnections(file, eval, state, cursor);
        r := if choices.Ok? then Ok(WaitingForChoice(choices.value)) else Err(NoOutputConnected);
      case Condition =>
        r := AdvanceWithin(fuel - 1);
      case _ =>
        r := Ok(Advanced);
    }

    /** `choose(index)`: the index-th available target when there is one,
        otherwise whatever `advance` does. */
    method Choose(index: nat) returns (r: Result<Outcome, InterpreterError>)
      requires AvailableDefined(file, cursor)
      requires AvailableConnections(file, eval, state, cursor).Ok? &&
               index >= |AvailableConnections(file, eval, state, cursor).value| ==>
                 AdvanceRun(file, eval, state, cursor, Bound(file)).Returns?
      modifies this`cursor
      ensures old(AvailableConnections(file, eval, state, cursor)).Err? ==>
                r == Err(NoOutputConnected) && cursor == old(cursor)
      ensures old(AvailableConnections(file, eval, state, cursor)).Ok? ==>
                var choices := old(AvailableConnections(file, eval, state, cursor)).value;
                if index < |choices| then r == Ok(Advanced) && cursor == Some(choices[index].properties.id)
                else AdvanceRun(file, eval, state, old(cursor), Bound(file)) == Returns(r, cursor)
    {
      var available := AvailableConnections(file, eval, state, cursor);
      if available.Err? {
        return Err(NoOutputConnected);
      }
      if index < |available.value| {
        cursor := Some(available.value[index].properties.id);
        return Ok(Advanced);
      }
      r := Advance();
    }
  }

  /** A chosen target is the target of an open connection of the current
      model: `choose` only moves along an edge whose gate is open. */
  lemma ChoiceIsOpenTarget(file: ArticyFile, eval: Evaluator, state: Store, cursor: Option<Id>, index: nat)
    requires AvailableDefined(file, cursor)
    requires AvailableConnections(file, eval, state, cursor).Ok?
    requires index < |AvailableConnections(file, eval, state, cursor).value|
    ensures var m := CurrentModel(file, cursor).value;
            var open := Filter(AllConnections(m.properties.outputPins.value), Gate(eval, state, Models(file)));
            index < |open| && IsOpen(eval, state, Models(file), open[index]) &&
            AvailableConnections(file, eval, state, cursor).value[index].properties.id == open[index].target &&
            open[index] in AllConnections(m.properties.outputPins.value)
  {
    var m := CurrentModel(file, cursor).value;
    var all := AllConnections(m.properties.outputPins.value);
    var open := Filter(all, Gate(eval, state, Models(file)));
    assert open[index] in multiset(open);
  }
}
