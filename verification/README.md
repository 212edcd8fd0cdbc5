# articy-rs in Dafny

A model of the core of articy-rs, a Rust library that reads the JSON export of
the articy:draft narrative editor and walks its dialogue graphs.

The model covers two parts of the library.

- **The export's data model and its queries** (`src/types.rs`).
  - A `File` holds packages of flow models, a hierarchy tree and global variables.
  - Flow models are Dialogue, DialogueFragment, Hub, FlowFragment, Condition, Comment and UserFolder.
    A model whose kind failed to decode is kept as `Custom`, with its raw properties.
  - Models carry pins, and pins carry connections.
  - `impl File` finds the default package, finds the main flow and filters models.
    It also walks down the hierarchy by an id path and builds that path back up from a model by following parent ids.
  - Three small decoders read the settings' boolean strings, the list of included node types and global-variable records.
- **The interpreter** (`src/lib.rs`).
  - It holds a cursor over the models of the first package.
  - It lists the targets of the current model's connections.
    A connection is offered only when the input pin it addresses has an empty text, or a text that evaluates to true against the variable store.
  - It advances through DialogueFragments and Conditions, stops on Hubs to wait for a choice, and ends on Dialogues.
  - `choose` follows the n-th offered target.

Modules, one per concern:

| file | module | what it holds |
|---|---|---|
| `wrappers.dfy` | `Wrappers` | `Option`, `Result` |
| `seqs.dfy` | `Seqs` | `find`, `filter` and `reverse` over sequences, with their laws, and the pigeonhole principle |
| `strs.dfy` | `Strs` | `str::split`, `str::trim`, `i32` parsing and printing |
| `types.dfy` | `Types` | the export's entities and the `Model` accessors |
| `conversions.dfy` | `Conversions` | `string_to_bool`, `string_list_to_node_type_vector`, `Variable::try_from` |
| `chains.dfy` | `Chains` | repeating a partial step, and why a walk confined to a finite pool either stops early or never stops |
| `queries.dfy` | `FileQueries` | `impl File` |
| `engine.dfy` | `Engine` | the `Interpreter` |

Where the Rust code loops and mutates, the model does too.
- `get_hierarchy` and `get_hierarchy_path_from_model` are methods with loops.
  Each loop is proved against a recursive definition: `Descend` and `HierarchyPath`.
- The `Interpreter` is a class with a `cursor` field that `start`, `choose` and `advance` update.
  `advance` is proved against the ghost function `AdvanceRun`.
  That function describes how one call ends: it returns a result and leaves the cursor somewhere, it panics, or it keeps recursing through Conditions.

`src/lib.rs` imports an earlier shape of the types: `ArticyFile`, a `ModelType` tag and a `properties` record with optional pins and an optional expression.
`src/types.rs` no longer declares that shape, so `engine.dfy` declares it itself and reuses only `Id`.

The evaluator of boolean expressions is the `evalexpr` crate.
Here it is the function-valued field `eval` of the interpreter.
It receives the expression text and the variable store, and returns `Ok(bool)` or an error.

Behaviour as the code has it, which the model follows:
- On a Condition, `advance` looks only at the first output pin.
  When the expression holds, it takes the pin's first connection.
  When it is false or fails to evaluate, it takes the pin's last connection (`src/lib.rs:220-247`).
  A Condition whose true and false branches sit on two separate pins therefore follows the first pin in both cases.
- On a DialogueFragment, `advance` takes the first connection of the first output pin without consulting any gate (`src/lib.rs:169-185`).
- `start` only checks that the id names a model of the first package.
  It resolves nothing through the hierarchy (`src/lib.rs:55-68`).
- `choose` with an index past the offered targets does whatever `advance` does (`src/lib.rs:150`).

## Model

| member | source | states |
|---|---|---|
| `Strs.Split` | src/types.rs:158 | `split(",")` yields one piece more than there are separators, and no piece contains the separator |
| `Strs.JoinSplit` | src/types.rs:158 | joining the pieces of a split with the separator gives back the original string |
| `Strs.SplitJoin` | src/types.rs:158 | splitting a join of separator-free pieces gives back the pieces |
| `Strs.Trim` | src/types.rs:160 | `trim()` returns a slice of its input that neither starts nor ends with Unicode whitespace |
| `Strs.TrimPadded` | src/types.rs:160 | trimming a word padded with whitespace on both sides gives the word |
| `Strs.ParseI32` | src/types.rs:251-253 | `parse::<i32>` succeeds exactly when an optional `+` or `-` is followed by at least one ASCII digit and nothing else, and the signed value fits in 32 bits; the result is that signed decimal value |
| `Strs.ParseShowsI32` | src/types.rs:251-253 | every `i32`, printed in decimal, parses back to itself |
| `Types.ModelId` | src/types.rs:534-552 | a decoded model's `id` field; for `Custom`, the string under "Id", or the fixed text "Custom Model did not have Id" when that key is missing or not a string |
| `Types.ModelParent` | src/types.rs:554-572 | the same for the parent, with the text "Custom Model did not have Parent Id" |
| `Types.ModelText` | src/types.rs:574-584 | `text` is absent exactly for UserFolder and Custom, and is otherwise the model's text |
| `Types.ModelDisplayName` | src/types.rs:586-598 | a display name exists exactly for FlowFragment, Hub, Dialogue and Condition |
| `Types.ModelInputPins` | src/types.rs:600-610 | input pins are absent exactly for UserFolder, Comment and Custom |
| `Types.ModelOutputPins` | src/types.rs:612-622 | output pins are absent exactly for UserFolder, Comment and Custom |
| `Types.AccessorsAgree` | src/types.rs:574-622 | a model has input pins iff it has output pins; a model with pins has a text; a display name implies pins; only a Comment has a text but no pins |
| `Conversions.StringToBool` | src/types.rs:136-149 | the result is true exactly for "True" and "true"; "False", "false" and every other string give false |
| `Conversions.NodeTypeFromName` | src/types.rs:160-172 | a recognised name maps to the node type with that name; anything else maps to `Unknown` |
| `Conversions.StringListToNodeTypes` | src/types.rs:151-175 | one node type per comma-separated element, in order, each element trimmed before it is recognised |
| `Conversions.NodeTypeListRoundTrip` | src/types.rs:151-175 | a comma-joined list of known node-type names reads back as the same node types |
| `Conversions.StrField` | src/types.rs:226-230 | `get(key)?.as_str()?` fails with KeyNotFound exactly when the key is missing, and with UnexpectedType exactly when the value is not a string |
| `Conversions.ParseValue` | src/types.rs:245-256 | a Boolean is true for "True" or "true"; an Integer is the `i32` the text parses to; a String is the text itself |
| `Conversions.VariableFromJson` | src/types.rs:222-266 | success exactly when Value, Variable, Type and Description are all strings; an error is the error of the first of these keys that fails, in that order; on success the name, description and value come from the record |
| `Conversions.VariableRoundTrip` | src/types.rs:222-266 | every Boolean, Integer or String variable, written as an export record, decodes back to itself |
| `Conversions.BooleanVariableAgrees` | src/types.rs:136-149 | the value of a decoded Boolean variable is what `string_to_bool` gives for its text |
| `FileQueries.GetDefaultPackage` | src/types.rs:37-42 | the first package marked default; the call panics when there is none |
| `FileQueries.GetMainFlow` | src/types.rs:44-52 | none exactly when the root has no children or no child of kind Flow; otherwise the first child of kind Flow |
| `FileQueries.FindModel` | src/types.rs:103-108 | the first model whose `id()` is the given id; none exactly when no model has it |
| `FileQueries.GetModelsOfType` | src/types.rs:54-64 | the default package's models, in order, with repeats, kept exactly when the variant name (or a Custom model's exported kind) is the given kind |
| `FileQueries.GetDialoguesInFlow` | src/types.rs:66-80 | the default package's Dialogue models whose parent is the flow, in order, with repeats |
| `FileQueries.DialoguesInFlowAreDialogues` | src/types.rs:54-80 | every dialogue returned for a flow is also returned for the kind "Dialogue" |
| `FileQueries.GetHierarchy` | src/types.rs:82-95 | the loop descends from the root into the child named by each path id in turn; it returns the root for an empty path, and for a non-empty path an entry whose id is the last id |
| `FileQueries.DescendAppend` | src/types.rs:82-95 | descending by `p + q` is descending by `p`, then by `q` from where that lands |
| `FileQueries.DescendFailsAtMissingStep` | src/types.rs:82-95 | a failed descent has a step whose entry, reached by the ids before it, has no children or no child with the next id |
| `FileQueries.GetHierarchyPathFromModel` | src/types.rs:97-117 | the loop, which pushes parent ids until the main flow's id and then reverses, returns the root-to-model path `HierarchyPath` |
| `FileQueries.AncestorPathShape` | src/types.rs:102-112 | the parent walk fails only with NoModel; on success it runs from the main flow to the starting id, each id the parent of the model the next one names |
| `FileQueries.HierarchyPathShape` | src/types.rs:97-117 | a returned path has at least two ids, starts at the main flow, ends at the model's id with its parent just before it, and links each id to the next as parent and child |
| `FileQueries.HierarchyPathErrors` | src/types.rs:97-117 | the call fails with NoMainFlow exactly when there is no main flow, and otherwise can fail only with NoModel |
| `FileQueries.ParentOf` | src/types.rs:102-112 | one turn of the loop moves on exactly when the cursor is not the main flow's id and the default package has a model with it, and then moves to that model's parent |
| `FileQueries.ChainEndsIffStopped` | src/types.rs:102-112 | the walk ends within `n` lookups, by reaching the main flow or a missing id, exactly when repeating the loop's turn `n` times does not leave it still going |
| `FileQueries.WalkNeverEnds` | src/types.rs:102-112 | a walk still going after one lookup more than the default package has models never ends: the loop then runs forever |
| `Engine.FindModel` | src/lib.rs:157-162 | the first model of the package with the cursor's id; none exactly when no model has it |
| `Engine.CurrentModel` | src/lib.rs:70-84 | NoCursor exactly when there is no cursor; NoModelFound exactly when the first package has no model with the cursor's id; otherwise the first model with that id |
| `Engine.AvailableConnections` | src/lib.rs:86-137 | the errors of `get_current_model` pass through; a model without output pins gives NoOutputPins; otherwise the result is the targets of the connections of all output pins that the gate keeps, in pin order then connection order |
| `Engine.PinTargetsFilter` | src/lib.rs:94-134 | the nested per-pin `filter_map` followed by `flatten` equals one filter over the concatenated connections |
| `Engine.EmptyGateOpen` | src/lib.rs:119 | a connection whose target pin has an empty text is offered as often as it occurs, whatever the store holds |
| `Engine.ClosedGateShut` | src/lib.rs:120-126 | a connection whose target pin's expression evaluates to false, or fails to evaluate, is never offered |
| `Engine.FirstTarget` | src/lib.rs:169-185 | the target of the first connection of the first output pin, present exactly when that pin and connection exist |
| `Engine.ConditionTarget` | src/lib.rs:220-247 | the first connection of the first output pin when the expression holds, that pin's last connection otherwise; present exactly when the pin has a connection |
| `Engine.Holds` | src/lib.rs:215-218 | an evaluation counts as true only when it returns `Ok(true)`; an error counts as false |
| `Engine.AdvanceExplained` | src/lib.rs:154-265 | every result of `advance` is explained by the node the cursor is left on (see the list below this table) |
| `Engine.FuelMonotone` | src/lib.rs:190-200 | once `advance` returns or panics within some number of Condition re-entries, allowing more re-entries changes neither the outcome nor the cursor |
| `Engine.Hop` | src/lib.rs:166-262 | `advance` calls itself again only from a model of the first package, and only after moving the cursor onto a model of kind Condition |
| `Engine.HopReenters` | src/lib.rs:189-259 | a call that lands on a Condition is the recursive call from there, one re-entry later; with no re-entry left it diverges |
| `Engine.NoHopEnds` | src/lib.rs:166-262 | a call that does not land on a Condition ends, by returning or panicking, whatever the number of re-entries allowed |
| `Engine.DivergesIffHops` | src/lib.rs:166-262 | `advance` is still recursing after `n` re-entries exactly when the chain of Conditions it walks has more than `n` links |
| `Engine.BoundSuffices` | src/lib.rs:166-262 | if `advance` is still recursing after one re-entry more than the first package has models, a Condition has come round again with the same store and the recursion never ends |
| `Engine.BoundIsExact` | src/lib.rs:166-262 | whenever `advance` ends with some number of re-entries, it ends the same way, with the same cursor, within that bound |
| `Engine.StaysOnDialogueAndHub` | src/lib.rs:166-209 | on a Dialogue or a Hub, `advance` leaves the cursor where it is, and on a Dialogue it returns EndOfDialogue |
| `Engine.ConditionIsTransparent` | src/lib.rs:169-262 | in a flow F1 → C → (F2, F3), one `advance` from F1 passes through the Condition C and returns Advanced on F2 when "flag" holds, on F3 otherwise |
| `Engine.Interpreter.constructor` | src/lib.rs:46-53 | a new interpreter has an empty store and no cursor |
| `Engine.Interpreter.Start` | src/lib.rs:55-68 | it always succeeds; the cursor is the given id when the first package has a model with it, and unset otherwise |
| `Engine.Interpreter.Advance` | src/lib.rs:154-265 | the result and the new cursor are those of `AdvanceRun` from the old cursor |
| `Engine.Interpreter.Choose` | src/lib.rs:139-152 | a failed query gives NoOutputConnected and leaves the cursor; an index within the offered targets moves the cursor to that target and returns Advanced; any other index behaves as `advance` |
| `Engine.ChoiceIsOpenTarget` | src/lib.rs:139-148 | the target `choose` moves to is the target of a connection of the current model whose gate is open |

`Engine.Explains` states what the result of `advance` means for the node the cursor ends on.
- `EndOfDialogue`: the node is a Dialogue.
- `WaitingForChoice(cs)`: the node is a Hub, and `cs` is exactly its available connections.
- `Advanced`: the node is neither a Dialogue, a Hub nor a Condition.
  So `advance` never stops on a Condition.
- `NoCursor`: there is no cursor.
- `NoPackages`: the export has no package.
- `NoModelFound`: no model has the cursor's id.
- `NoExpressionFound`: the node is a Condition without an expression.
- `NoOutputConnected`: the node is a DialogueFragment or Condition without a first output connection, or a Hub whose query failed.
- `Stopped`, `IdNotFound` and `NoOutputPins` never come out of `advance`.

## Left out

- Deserialisation is not modelled: serde, `deserialize_model`, the layout fields (colours, positions, sizes, z-indices, preview images), short ids, and the settings, project, object-definition and script-method records. The model starts from decoded values. Floating-point fields are absent.
- The `Display` implementation of `DeserializationError` and the `println!` diagnostics are not modelled. They only write text.
- `src/bin/cli.rs` is not part of this model. It is terminal I/O around the interpreter.
- The internals of `evalexpr` are not modelled. The evaluator is the parameter `eval`, and the variable store is read only through it.
- Whitespace for `trim` is the Unicode White_Space property, written out as a predicate over characters.
- `FileQueries.GetDefaultPackage`: the `expect` panic on an export without a default package is the precondition `HasDefaultPackage`. The same precondition is on the two filters built on it. `GetHierarchyPathFromModel` carries it too, inside `PathWalkTerminates`, whenever the parent walk has to look a model up.
- `Conversions.VariableFromJson`: the source panics on a Boolean value other than True/true/False/false, on an Integer value that does not parse, and on an unknown type name. These panics are the precondition `DecodesWithoutPanic`, not an error result.
- `FileQueries.GetHierarchyPathFromModel`: its precondition `PathWalkTerminates` excludes two things. First, the `get_default_package` panic (`src/types.rs:104`, `src/types.rs:41`), which fires when the model's parent is not the main flow and no package is marked default; `ChainBound` is then 0, so only a walk that starts on the main flow's id is admitted. Second, it requires the parent walk to reach the main flow, or a missing id, within one lookup more than the default package has models. `FileQueries.WalkNeverEnds` proves that a walk not over by then never ends, so the precondition excludes only inputs on which the source loops forever.
- `Engine.Interpreter.Advance`: it requires `advance` to return within one Condition re-entry more than the first package has models. A longer chain of Conditions revisits one, and the store does not change during the call, so the source then recurses forever. Panics are excluded by the same precondition. These are the `unwrap`s of `get_available_connections` when the cursor lands on a Hub (a pin without a connection list, or a connection whose target model, target input-pin list or target pin is missing), and `unimplemented!` on a FlowFragment, Instruction or any other kind. The empty-package `unwrap` of `get_current_model` cannot fire here, since `advance` returns NoPackages first (`src/lib.rs:157-159`). `Engine.BoundSuffices` proves that a call still recursing at the bound recurses forever, and `Engine.BoundIsExact` that the bound changes no outcome.
- `Engine.Interpreter.Choose`: the panics of `get_available_connections` are its precondition `AvailableDefined`. They are the `unwrap` of the first package in `get_current_model` when a cursor is set and the export has no package (`src/lib.rs:78`), a pin without a connection list (`src/lib.rs:99`), and a connection whose target model (`src/lib.rs:107`), target input-pin list (`src/lib.rs:113`) or target pin (`src/lib.rs:116`) is missing. The fallback to `advance` adds that method's precondition.
- The store is never written by the interpreter. Nothing in `src/lib.rs` assigns to it apart from `new`, so the model keeps it as a field the methods do not modify.
- References with lifetimes are modelled as values. `WaitingForChoice` carries copies of the target models, not references into the export.
