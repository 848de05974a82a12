/**
 * The static data every integration declares: its action catalog
 * (`_actions_data`), its input declarations (`inputs`), the fields to cast to
 * `bool` (`_bool_variables`) or to split into lists (`_list_variables`), and
 * which of the engine's result policies its `execute_action` follows.
 *
 * A field is named `<ACTION_KEY>_<param>`; the model stores each field as its
 * action key and its `param` suffix, and `FieldName` puts the name together.
 */
module Catalog {
  import opened Wrappers
  import opened Json
  import PyStr

  /** The kind of input that declares a field: `MessageTextInput`, `IntInput` or `BoolInput`. */
  datatype FieldKind = Text | Integer | Boolean

  /** One entry of `inputs`: the field it declares, its kind, and its `value=` default if it states one. */
  datatype InputSpec = InputSpec(action: string, param: string, kind: FieldKind, default: Option<Json>)

  /** One entry of `_actions_data`. */
  datatype ActionSpec = ActionSpec(
    key: string,
    displayName: string,
    params: seq<string>,
    getResultField: bool,          // "get_result_field"; absent means False
    resultField: Option<string>)   // "result_field"; absent means None

  /** How a failed call is turned into an error object. */
  datatype ErrorPolicy =
    | ParseMessage   // inspect `data.message`, parsing it as JSON when it is a string
    | PlainError     // `{"error": result.get("error", "No response")}`

  /** What a successful call returns. */
  datatype ResultPolicy =
    | SearchOrRaise       // recursive search for result_field, else data; raise on a non-single-key payload
    | SearchOrFirstValue  // recursive search for result_field, else [value of the first key] of a non-empty dict
    | TopLevelOrRaise     // data.get(result_field), else data; raise on a non-single-key payload
    | DataVerbatim        // data as returned

  datatype App = App(
    actions: seq<ActionSpec>,
    inputs: seq<InputSpec>,
    boolVars: set<string>,
    listVars: set<string>,
    errors: ErrorPolicy,
    results: ResultPolicy)

  function FieldName(key: string, param: string): string {
    key + "_" + param
  }

  /** `action_fields` of an action, in catalog order. */
  function Fields(a: ActionSpec): (r: seq<string>)
    ensures |r| == |a.params|
    ensures forall j :: 0 <= j < |r| ==> r[j] == FieldName(a.key, a.params[j])
  {
    seq(|a.params|, j requires 0 <= j < |a.params| => FieldName(a.key, a.params[j]))
  }

  /** `_all_fields`: every field of every action. */
  function AllFields(actions: seq<ActionSpec>): set<string> {
    set i, j | 0 <= i < |actions| && 0 <= j < |actions[i].params| :: FieldName(actions[i].key, actions[i].params[j])
  }

  function InputName(d: InputSpec): string {
    FieldName(d.action, d.param)
  }

  /** `result_field` is set to a non-empty string (Python truthiness of the value). */
  predicate HasResultField(a: ActionSpec) {
    a.resultField.Some? && a.resultField.value != ""
  }

  // ---------------------------------------------------------------------------
  // Action resolver: display name -> action
  // ---------------------------------------------------------------------------

  /**
   * The display-name map is the inverse of the catalog's key -> display name
   * map, built by inserting the actions in catalog order, so a repeated
   * display name resolves to its last action. The result is the action's
   * position in the catalog.
   */
  function Resolve(actions: seq<ActionSpec>, name: string): (r: Option<nat>)
    ensures r.Some? ==> r.value < |actions| && actions[r.value].displayName == name &&
                        forall j :: r.value < j < |actions| ==> actions[j].displayName != name
    ensures r.None? <==> forall j :: 0 <= j < |actions| ==> actions[j].displayName != name
  {
    if |actions| == 0 then None
    else if actions[|actions| - 1].displayName == name then Some(|actions| - 1)
    else Resolve(actions[..|actions| - 1], name)
  }

  // ---------------------------------------------------------------------------
  // Catalog invariants
  // ---------------------------------------------------------------------------

  predicate KeysDistinct(actions: seq<ActionSpec>) {
    forall i, j :: 0 <= i < j < |actions| ==> actions[i].key != actions[j].key
  }

  predicate DisplayNamesDistinct(actions: seq<ActionSpec>) {
    forall i, j :: 0 <= i < j < |actions| ==> actions[i].displayName != actions[j].displayName
  }

  /** No name occurs twice. */
  predicate Distinct(names: seq<string>) {
    forall j, k :: 0 <= j < k < |names| ==> names[j] != names[k]
  }

  /** No action lists the same field twice. */
  predicate ParamsDistinct(actions: seq<ActionSpec>) {
    forall i :: 0 <= i < |actions| ==> Distinct(actions[i].params)
  }

  /** Every key is non-empty and its first character appears in none of its action's params. */
  predicate KeysLeadFree(actions: seq<ActionSpec>) {
    forall i :: 0 <= i < |actions| ==>
      |actions[i].key| > 0 && forall j :: 0 <= j < |actions[i].params| ==> actions[i].key[0] !in actions[i].params[j]
  }

  /** The field `<key>_<param>` is declared by some entry of `inputs`. */
  predicate Declared(inputs: seq<InputSpec>, key: string, param: string) {
    exists k :: 0 <= k < |inputs| && inputs[k].action == key && inputs[k].param == param
  }

  /** Every action field has an input declaring it. */
  predicate AllDeclared(actions: seq<ActionSpec>, inputs: seq<InputSpec>) {
    forall i, j :: 0 <= i < |actions| && 0 <= j < |actions[i].params| ==> Declared(inputs, actions[i].key, actions[i].params[j])
  }

  predicate WellFormed(app: App) {
    && KeysDistinct(app.actions)
    && DisplayNamesDistinct(app.actions)
    && ParamsDistinct(app.actions)
    && KeysLeadFree(app.actions)
    && app.boolVars <= AllFields(app.actions)
    && app.listVars <= AllFields(app.actions)
    && AllDeclared(app.actions, app.inputs)
  }

  /** The resolver is a left inverse of the catalog's display names. */
  lemma ResolveLeftInverse(actions: seq<ActionSpec>, i: nat)
    requires DisplayNamesDistinct(actions) && i < |actions|
    ensures Resolve(actions, actions[i].displayName) == Some(i)
  {
  }

  /**
   * In a lead-free catalog, `field.replace(action_key + "_", "")` gives back
   * exactly the param suffix of every field.
   */
  lemma ParamNameOfField(actions: seq<ActionSpec>, i: nat, j: nat)
    requires KeysLeadFree(actions) && i < |actions| && j < |actions[i].params|
    ensures PyStr.RemoveAll(Fields(actions[i])[j], actions[i].key + "_") == actions[i].params[j]
  {
    PyStr.StripKeyPrefix(actions[i].key, actions[i].params[j]);
  }

  /** A catalog whose display names collide resolves the shared name to one action only. */
  lemma ResolveCollision(actions: seq<ActionSpec>, i: nat, j: nat)
    requires i < j < |actions| && actions[i].displayName == actions[j].displayName
    ensures Resolve(actions, actions[i].displayName) != Some(i)
  {
  }
}
