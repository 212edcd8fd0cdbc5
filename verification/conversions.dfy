/** The small decoders of src/types.rs: the settings' boolean strings and
    node-type lists, and `Variable::try_from` on a raw JSON record. */
module Conversions {
  import opened Wrappers
  import opened Strs
  import opened Types

  // ------------------------------------------------------------ string_to_bool

  /** `string_to_bool`: only "True" and "true" are true; "False", "false"
      and every unrecognised string are false. */
  function StringToBool(s: string): (r: bool)
    ensures r <==> s == "True" || s == "true"
  {
    match s
    case "True" => true
    case "true" => true
    case "False" => false
    case "false" => false
    case _ => false
  }

  // ------------------------------------------------------------ string_list_to_node_type_vector

  /** The name a node type has in the export's `set_IncludedNodes` list. */
  function NodeTypeName(t: NodeType): (r: string)
    requires t != Unknown
  {
    match t
    case Settings => "Settings"
    case Project => "Project"
    case GlobalVariables => "GlobalVariables"
    case ObjectDefinitions => "ObjectDefinitions"
    case Packages => "Packages"
    case ScriptMethods => "ScriptMethods"
    case HierarchyNode => "Hierarchy"
    case Assets => "Assets"
  }

  /** The node type a trimmed list element names; `Unknown` for any other text. */
  function NodeTypeFromName(name: string): (r: NodeType)
    ensures r != Unknown ==> NodeTypeName(r) == name
    ensures forall t :: t != Unknown && NodeTypeName(t) == name ==> r == t
  {
    match name
    case "Settings" => Settings
    case "Project" => Project
    case "GlobalVariables" => GlobalVariables
    case "ObjectDefinitions" => ObjectDefinitions
    case "Packages" => Packages
    case "ScriptMethods" => ScriptMethods
    case "Hierarchy" => HierarchyNode
    case "Assets" => Assets
    case _ => Unknown
  }

  /** `string_list_to_node_type_vector`: one node type per comma-separated
      element, each element trimmed first; unknown names give `Unknown`. */
  function StringListToNodeTypes(s: string): (r: seq<NodeType>)
    ensures |r| == multiset(s)[','] + 1
    ensures forall i :: 0 <= i < |r| ==> r[i] == NodeTypeFromName(Trim(Split(s, ',')[i]))
  {
    var elements := Split(s, ',');
    seq(|elements|, i requires 0 <= i < |elements| => NodeTypeFromName(Trim(elements[i])))
  }

  function NodeTypeNames(ts: seq<NodeType>): (r: seq<string>)
    requires forall i :: 0 <= i < |ts| ==> ts[i] != Unknown
    ensures |r| == |ts|
  {
    seq(|ts|, i requires 0 <= i < |ts| => NodeTypeName(ts[i]))
  }

  /** Listing known node types with commas and reading the list back gives them again. */
  lemma NodeTypeListRoundTrip(ts: seq<NodeType>)
    requires |ts| >= 1
    requires forall i :: 0 <= i < |ts| ==> ts[i] != Unknown
    ensures StringListToNodeTypes(Join(NodeTypeNames(ts), ',')) == ts
  {
    var names := NodeTypeNames(ts);
    forall i | 0 <= i < |names| ensures ',' !in names[i] && NodeTypeFromName(Trim(names[i])) == ts[i] {
      NameReadsBack(ts[i]);
    }
    SplitJoin(names, ',');
  }

  /** A node-type name holds no comma and reads back, trimmed, as its node type. */
  lemma NameReadsBack(t: NodeType)
    requires t != Unknown
    ensures ',' !in NodeTypeName(t)
    ensures NodeTypeFromName(Trim(NodeTypeName(t))) == t
  {
    var name := NodeTypeName(t);
    NameShape(t);
    assert "" + name + "" == name;
    TrimPadded("", name, "");
  }

  /** Every node-type name is a non-empty word without commas or surrounding
      whitespace, and reads back as its node type. */
  lemma NameShape(t: NodeType)
    requires t != Unknown
    ensures ',' !in NodeTypeName(t) && |NodeTypeName(t)| > 0
    ensures !IsWhitespace(NodeTypeName(t)[0]) && !IsWhitespace(NodeTypeName(t)[|NodeTypeName(t)| - 1])
    ensures NodeTypeFromName(NodeTypeName(t)) == t
  {
  }

  // ------------------------------------------------------------ Variable::try_from

  /** The keys `Variable::try_from` reads, in the order it reads them. */
  const VariableKeys: seq<string> := ["Value", "Variable", "Type", "Description"]

  /** `value.get(key)?.as_str()?`: `KeyNotFound` for a missing key,
      `UnexpectedType` for a value that is not a string. */
  function StrField(v: Json, key: string): (r: Result<string, DeserializationError>)
    ensures r == Err(KeyNotFound) <==> Get(v, key).None?
    ensures r == Err(UnexpectedType) <==> Get(v, key).Some? && !Get(v, key).value.Str?
    ensures r.Ok? ==> Get(v, key) == Some(Str(r.value))
  {
    match Get(v, key)
    case None => Err(KeyNotFound)
    case Some(field) => (match AsStr(field) case None => Err(UnexpectedType) case Some(s) => Ok(s))
  }

  /** The raw value text is acceptable for the declared type; every other
      combination makes the source panic. */
  predicate ValueFits(ty: string, raw: string)
  {
    (ty == "Boolean" && raw in {"True", "true", "False", "false"}) ||
    (ty == "Integer" && ParseI32(raw).Some?) ||
    ty == "String"
  }

  function ParseValue(ty: string, raw: string): (r: VariableValue)
    requires ValueFits(ty, raw)
    ensures ty == "Boolean" ==> r == Boolean(raw == "True" || raw == "true")
    ensures ty == "Integer" ==> r.Integer? && Some(r.i) == ParseI32(raw)
    ensures ty == "String" ==> r == String(raw)
  {
    match ty
    case "Boolean" => (match raw case "True" => Boolean(true) case "true" => Boolean(true)
                                 case "False" => Boolean(false) case _ => Boolean(false))
    case "Integer" => Integer(ParseI32(raw).value)
    case _ => String(raw)
  }

  /** The record reaches the type dispatch only when Value, Variable and
      Type are strings; there the source demands a value that fits the type. */
  predicate DecodesWithoutPanic(v: Json)
  {
    StrField(v, "Value").Ok? && StrField(v, "Variable").Ok? && StrField(v, "Type").Ok? ==>
      ValueFits(StrField(v, "Type").value, StrField(v, "Value").value)
  }

  /** `Variable::try_from(Value)`. */
  function VariableFromJson(v: Json): (r: Result<Variable, DeserializationError>)
    requires DecodesWithoutPanic(v)
    ensures r.Ok? <==> StrField(v, "Value").Ok? && StrField(v, "Variable").Ok? &&
                       StrField(v, "Type").Ok? && StrField(v, "Description").Ok?
    ensures r.Err? ==> exists i :: 0 <= i < |VariableKeys| && StrField(v, VariableKeys[i]) == Err(r.error) &&
                                   forall j :: 0 <= j < i ==> StrField(v, VariableKeys[j]).Ok?
    ensures r.Ok? ==> r.value.name == StrField(v, "Variable").value &&
                      r.value.description == StrField(v, "Description").value
    ensures r.Ok? ==> r.value.value == ParseValue(StrField(v, "Type").value, StrField(v, "Value").value)
  {
    match StrField(v, "Value")
    case Err(e) => assert StrField(v, VariableKeys[0]) == Err(e); Err(e)
    case Ok(raw) =>
      match StrField(v, "Variable")
      case Err(e) => assert StrField(v, VariableKeys[1]) == Err(e); Err(e)
      case Ok(name) =>
        match StrField(v, "Type")
        case Err(e) => assert StrField(v, VariableKeys[2]) == Err(e); Err(e)
        case Ok(ty) =>
          var value := ParseValue(ty, raw);
          match StrField(v, "Description")
          case Err(e) => assert StrField(v, VariableKeys[3]) == Err(e); Err(e)
          case Ok(description) => Ok(Variable(name, value, description))
  }

  // ------------------------------------------------------------ the inverse: a variable as the export writes it

  function TypeName(value: VariableValue): string
  {
    match value
    case Boolean(_) => "Boolean"
    case Integer(_) => "Integer"
    case String(_) => "String"
    case UnknownValue => "Unknown"
  }

  function ValueText(value: VariableValue): string
  {
    match value
    case Boolean(b) => if b then "True" else "False"
    case Integer(i) => I32ToString(i)
    case String(s) => s
    case UnknownValue => ""
  }

  /** A variable record as the export writes it. */
  function VariableToJson(x: Variable): Json
  {
    Object(map["Value" := Str(ValueText(x.value)), "Variable" := Str(x.name),
               "Type" := Str(TypeName(x.value)), "Description" := Str(x.description)])
  }

  /** Every variable of a known type decodes back from its record. */
  lemma VariableRoundTrip(x: Variable)
    requires !x.value.UnknownValue?
    ensures DecodesWithoutPanic(VariableToJson(x))
    ensures VariableFromJson(VariableToJson(x)) == Ok(x)
  {
    if x.value.Integer? {
      ParseShowsI32(x.value.i);
    }
  }

  /** A boolean variable carries the value `string_to_bool` gives its text. */
  lemma BooleanVariableAgrees(v: Json)
    requires DecodesWithoutPanic(v)
    requires VariableFromJson(v).Ok? && VariableFromJson(v).value.value.Boolean?
    ensures VariableFromJson(v).value.value.b == StringToBool(StrField(v, "Value").value)
  {
  }
}
