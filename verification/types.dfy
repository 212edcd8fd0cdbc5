/** The data model of an articy:draft JSON export (src/types.rs): packages of
    flow models with pins and connections, the hierarchy tree, global
    variables, and the per-variant accessors of `Model`. Layout fields
    (colours, positions, sizes, z-indices, preview images) are not modelled. */
module Types {
  import opened Wrappers
  import opened Strs

  /** `Id(pub String)`: compared by value. */
  datatype Id = Id(value: string)

  /** The part of `serde_json::Value` the model needs. */
  datatype Json =
    | Null
    | Bool(b: bool)
    | Number(n: int)
    | Str(s: string)
    | Array(items: seq<Json>)
    | Object(fields: map<string, Json>)

  /** `Value::get(key)`: a field of an object; every other value has none. */
  function Get(v: Json, key: string): (r: Option<Json>)
    ensures r.Some? <==> v.Object? && key in v.fields
    ensures r.Some? ==> r.value == v.fields[key]
  {
    if v.Object? && key in v.fields then Some(v.fields[key]) else None
  }

  /** `Value::as_str()`. */
  function AsStr(v: Json): (r: Option<string>)
    ensures r.Some? <==> v.Str?
    ensures r.Some? ==> r.value == v.s
  {
    if v.Str? then Some(v.s) else None
  }

  /** The `Type` enum: the kind of a hierarchy entry or object definition. */
  datatype Kind =
    | Rect | PreviewImageViewBoxModes | Point | Color | InputPin | OutputPin | Size
    | PreviewImage | Transformation | OutgoingConnection | IncomingConnection
    | LocationAnchor | LocationAnchorSize | ShapeType | SelectabilityModes
    | VisibilityModes | OutlineStyle | PathCaps | FlowFragment | Dialogue
    | DialogueFragment | Hub | Spot | Zone | Comment | Jump | Entity | Location
    | LocationText | LocationImage | Path | Link | Asset | Condition | Instruction
    | Document | TextObject | UserFolder | IdType | Float | Flow | Primitive
    | ArticyObject | Array | StringType
    | Custom(name: string)

  datatype Connection = Connection(caption: string, targetPin: Id, target: Id)

  /** A pin: its gating text, its id, its owner and its outgoing connections
      (absent connections are read as none). */
  datatype Pin = Pin(text: string, id: Id, owner: Id, connections: seq<Connection>)

  /** A flow model: one variant per node kind the export names, and `Custom`
      for every kind that failed to decode, keeping its raw properties. */
  datatype Model =
    | DialogueFragment(id: Id, parent: Id, technicalName: string,
                       menuText: string, stageDirections: string, speaker: Id,
                       text: string, externalId: Id,
                       inputPins: seq<Pin>, outputPins: seq<Pin>)
    | Hub(id: Id, parent: Id, technicalName: string,
          displayName: string, text: string, externalId: Id,
          inputPins: seq<Pin>, outputPins: seq<Pin>)
    | FlowFragment(parent: Id, id: Id, technicalName: string,
                   displayName: string, text: string, externalId: Id,
                   inputPins: seq<Pin>, outputPins: seq<Pin>)
    | Dialogue(id: Id, parent: Id, technicalName: string,
               displayName: string, text: string,
               inputPins: seq<Pin>, outputPins: seq<Pin>)
    | Comment(id: Id, parent: Id, technicalName: string,
              createdBy: string, createdOn: string, text: string, externalId: Id)
    | Condition(id: Id, parent: Id, technicalName: string,
                displayName: string, text: string, expression: string,
                inputPins: seq<Pin>, outputPins: seq<Pin>)
    | UserFolder(id: Id, parent: Id, technicalName: string)
    | Custom(kind: string, properties: Json)

  datatype Package = Package(name: string, description: string, isDefaultPackage: bool, models: seq<Model>)

  datatype Hierarchy = Hierarchy(id: Id, technicalName: string, kind: Kind, children: Option<seq<Hierarchy>>)

  /** The export; its settings, project, object definitions and script methods play no part here. */
  datatype File = File(globalVariables: seq<GlobalVariable>, packages: seq<Package>, hierarchy: Hierarchy)

  datatype Error =
    | IdNotFound | NoModel | NoMainFlow | NoHierarchy | NoCursor
    | NoDefaultPackage | NoOutputConnected | FailedToSetState | FailedToGetState

  datatype NodeType =
    | Unknown | Settings | Project | GlobalVariables | ObjectDefinitions
    | Packages | ScriptMethods | HierarchyNode | Assets

  datatype VariableValue = UnknownValue | Boolean(b: bool) | Integer(i: i32) | String(s: string)

  datatype Variable = Variable(name: string, value: VariableValue, description: string)

  datatype GlobalVariable = GlobalVariable(namespace: string, description: string, variables: seq<Variable>)

  datatype DeserializationError = KeyNotFound | UnexpectedType

  // ------------------------------------------------------------ accessors

  /** The string field `key` of `v`, or `otherwise` when it is absent or not a string. */
  function StrFieldOr(v: Json, key: string, otherwise: string): string
  {
    match Get(v, key)
    case Some(field) => (match AsStr(field) case Some(s) => s case None => otherwise)
    case None => otherwise
  }

  const MissingId: Id := Id("Custom Model did not have Id")
  const MissingParent: Id := Id("Custom Model did not have Parent Id")

  /** `Model::id`. */
  function ModelId(m: Model): (r: Id)
    ensures !m.Custom? ==> r == m.id
    ensures m.Custom? && Get(m.properties, "Id").Some? && Get(m.properties, "Id").value.Str? ==>
              r == Id(Get(m.properties, "Id").value.s)
    ensures m.Custom? && (Get(m.properties, "Id").None? || !Get(m.properties, "Id").value.Str?) ==>
              r == MissingId
  {
    if m.Custom? then Id(StrFieldOr(m.properties, "Id", MissingId.value)) else m.id
  }

  /** `Model::parent`. */
  function ModelParent(m: Model): (r: Id)
    ensures !m.Custom? ==> r == m.parent
    ensures m.Custom? && Get(m.properties, "Parent").Some? && Get(m.properties, "Parent").value.Str? ==>
              r == Id(Get(m.properties, "Parent").value.s)
    ensures m.Custom? && (Get(m.properties, "Parent").None? || !Get(m.properties, "Parent").value.Str?) ==>
              r == MissingParent
  {
    if m.Custom? then Id(StrFieldOr(m.properties, "Parent", MissingParent.value)) else m.parent
  }

  /** `Model::text`. */
  function ModelText(m: Model): (r: Option<string>)
    ensures r.None? <==> m.UserFolder? || m.Custom?
    ensures r.Some? ==> r.value == m.text
  {
    match m
    case UserFolder(_, _, _) => None
    case Custom(_, _) => None
    case _ => Some(m.text)
  }

  /** `Model::display_name`. */
  function ModelDisplayName(m: Model): (r: Option<string>)
    ensures r.Some? <==> m.FlowFragment? || m.Hub? || m.Dialogue? || m.Condition?
    ensures r.Some? ==> r.value == m.displayName
  {
    if m.FlowFragment? || m.Hub? || m.Dialogue? || m.Condition? then Some(m.displayName) else None
  }

  /** The node kinds that carry pins. */
  predicate HasPins(m: Model)
  {
    !(m.UserFolder? || m.Comment? || m.Custom?)
  }

  /** `Model::input_pins`. */
  function ModelInputPins(m: Model): (r: Option<seq<Pin>>)
    ensures r.None? <==> m.UserFolder? || m.Comment? || m.Custom?
    ensures r.Some? ==> r.value == m.inputPins
  {
    if HasPins(m) then Some(m.inputPins) else None
  }

  /** `Model::output_pins`. */
  function ModelOutputPins(m: Model): (r: Option<seq<Pin>>)
    ensures r.None? <==> m.UserFolder? || m.Comment? || m.Custom?
    ensures r.Some? ==> r.value == m.outputPins
  {
    if HasPins(m) then Some(m.outputPins) else None
  }

  /** How the accessors relate: a model with pins has both kinds and a text,
      and a model with a display name has pins. */
  lemma AccessorsAgree(m: Model)
    ensures ModelInputPins(m).Some? <==> ModelOutputPins(m).Some?
    ensures ModelOutputPins(m).Some? ==> ModelText(m).Some?
    ensures ModelDisplayName(m).Some? ==> ModelOutputPins(m).Some?
    ensures ModelText(m).Some? && ModelOutputPins(m).None? <==> m.Comment?
  {
  }

  /** The variant name `IntoStaticStr` gives a model. */
  function VariantName(m: Model): (r: string)
    ensures r == "Custom" <==> m.Custom?
    ensures r == "Dialogue" <==> m.Dialogue?
  {
    match m
    case DialogueFragment(_, _, _, _, _, _, _, _, _, _) => "DialogueFragment"
    case Hub(_, _, _, _, _, _, _, _) => "Hub"
    case FlowFragment(_, _, _, _, _, _, _, _) => "FlowFragment"
    case Dialogue(_, _, _, _, _, _, _) => "Dialogue"
    case Comment(_, _, _, _, _, _, _) => "Comment"
    case Condition(_, _, _, _, _, _, _, _) => "Condition"
    case UserFolder(_, _, _) => "UserFolder"
    case Custom(_, _) => "Custom"
  }
}
