/**
 * `execute_action` end to end: resolve the selected action, build its
 * parameters, hand them to the external call, and normalize what comes back.
 * Every exception raised on the way is re-raised as
 * "Failed to execute <display name>: <cause>".
 */
module Engine {
  import opened Wrappers
  import opened Json
  import opened Errors
  import opened Catalog
  import opened Params
  import opened Normalize

  /**
   * The component's `action` value: unset (`None`), a plain display name, or
   * the UI's `[{"name": ...}, ...]` list of which only the first name is used.
   */
  datatype Selection = Unset | Named(name: string) | Picked(names: seq<string>)

  /** What `execute_action` does: return a value, or raise `ValueError` for a display name and a cause. */
  datatype Outcome = Returned(value: Json) | Failed(display: string, cause: Cause)

  /**
   * `toolset.execute_action(action=..., params=...)`: given the enum value and
   * the parameters, it answers a raw result or raises with some text.
   */
  type Toolset = (string, map<string, Json>) -> Result<Json, string>

  /**
   * The text of the `ValueError` the handler raises, where the text of its
   * cause is modelled; `None` for a returned value.
   */
  function Message(o: Outcome): Option<string> {
    match o
    case Returned(_) => None
    case Failed(display, cause) =>
      match CauseText(cause)
      case Some(t) => Some(FailedText(display, t))
      case None => None
  }

  /** The display name the exception handler reports: the first picked name, else `str(self.action)`. */
  function Display(sel: Selection): string {
    match sel
    case Unset => "None"
    case Named(n) => n
    case Picked(ns) => if |ns| > 0 then ns[0] else "[]"
  }

  /**
   * The catalog position of the selected action. An empty list is looked up
   * as itself and is unhashable; `None` and unknown names find no key, and
   * neither does an action whose key is empty.
   */
  function ResolveSelection(actions: seq<ActionSpec>, sel: Selection): (r: Result<nat, Cause>)
    ensures r.Ok? ==> r.value < |actions| && actions[r.value].key != "" && !sel.Unset? &&
                      actions[r.value].displayName == Display(sel)
  {
    if sel.Unset? then Err(InvalidAction("None"))
    else if sel.Picked? && |sel.names| == 0 then Err(UnhashableSelection)
    else
      var name := Display(sel);
      match Resolve(actions, name)
      case Some(i) => if actions[i].key == "" then Err(InvalidAction(name)) else Ok(i)
      case None => Err(InvalidAction(name))
  }

  /** The steps inside the `try`, ending in the returned value or the cause of the exception. */
  function Run(app: App, ids: map<string, string>, values: map<string, Json>, sel: Selection,
               toolset: Toolset, decode: string -> Decoded): Result<Json, Cause>
  {
    match ResolveSelection(app.actions, sel)
    case Err(e) => Err(e)
    case Ok(i) =>
      var a := app.actions[i];
      if a.key !in ids then Err(UnknownActionId(a.key))
      else match ParamsOf(app, a, values)
        case Err(e) => Err(e)
        case Ok(params) =>
          match toolset(ids[a.key], params)
          case Err(t) => Err(CallRaised(t))
          case Ok(raw) => Response(app, a, raw, decode)
  }

  /**
   * `execute_action` with its collaborators as parameters: `ids` is the SDK's
   * `Action` enum, `values` the component's attributes, `toolset` the external
   * call and `decode` `json.loads`.
   */
  function Execute(app: App, ids: map<string, string>, values: map<string, Json>, sel: Selection,
                   toolset: Toolset, decode: string -> Decoded): Outcome
  {
    match Run(app, ids, values, sel, toolset, decode)
    case Ok(v) => Returned(v)
    case Err(e) => Failed(Display(sel), e)
  }

  /** `execute_action` statement by statement: the imperative form of `Execute`, proved equal to it. */
  method ExecuteAction(app: App, ids: map<string, string>, values: map<string, Json>, sel: Selection,
                       toolset: Toolset, decode: string -> Decoded)
    returns (o: Outcome)
    ensures o == Execute(app, ids, values, sel, toolset, decode)
  {
    var display := Display(sel);
    if sel.Unset? {
      return Failed(display, InvalidAction("None"));
    }
    if sel.Picked? && |sel.names| == 0 {
      return Failed(display, UnhashableSelection);
    }
    var found := Resolve(app.actions, display);
    if found.None? || app.actions[found.value].key == "" {
      return Failed(display, InvalidAction(display));
    }
    var action := app.actions[found.value];
    if action.key !in ids {
      return Failed(display, UnknownActionId(action.key));
    }
    var params := BuildParams(app, action.key, Fields(action), values);
    if params.Err? {
      return Failed(display, params.error);
    }
    var answer := toolset(ids[action.key], params.value);
    if answer.Err? {
      return Failed(display, CallRaised(answer.error));
    }
    var result := NormalizeResult(app, action, answer.value, decode);
    if result.Err? {
      return Failed(display, result.error);
    }
    return Returned(result.value);
  }

  // ---------------------------------------------------------------------------
  // Properties of the whole invocation
  // ---------------------------------------------------------------------------

  /**
   * A display name that is in no catalog entry raises "Invalid action: <name>",
   * reported under that name, before any field is read or any call is made.
   */
  lemma UnknownNameFails(app: App, ids: map<string, string>, values: map<string, Json>, sel: Selection,
                         toolset: Toolset, decode: string -> Decoded)
    requires sel.Named? || (sel.Picked? && |sel.names| > 0)
    requires forall j :: 0 <= j < |app.actions| ==> app.actions[j].displayName != Display(sel)
    ensures Execute(app, ids, values, sel, toolset, decode) == Failed(Display(sel), InvalidAction(Display(sel)))
    ensures forall values': map<string, Json>, toolset': Toolset ::
      Execute(app, ids, values', sel, toolset', decode) == Execute(app, ids, values, sel, toolset, decode)
  {
  }

  /** The text of that exception: "Failed to execute <name>: Invalid action: <name>". */
  lemma UnknownNameMessage(app: App, ids: map<string, string>, values: map<string, Json>, sel: Selection,
                           toolset: Toolset, decode: string -> Decoded)
    requires sel.Named? || (sel.Picked? && |sel.names| > 0)
    requires forall j :: 0 <= j < |app.actions| ==> app.actions[j].displayName != Display(sel)
    ensures Message(Execute(app, ids, values, sel, toolset, decode)) ==
            Some("Failed to execute " + Display(sel) + ": Invalid action: " + Display(sel))
  {
    UnknownNameFails(app, ids, values, sel, toolset, decode);
    InvalidActionFailedText(Display(sel));
  }

  /** An unset action is reported as `None`, and an empty pick as `[]`; neither reaches the call. */
  lemma DegenerateSelections(app: App, ids: map<string, string>, values: map<string, Json>,
                             toolset: Toolset, decode: string -> Decoded)
    ensures Execute(app, ids, values, Unset, toolset, decode) == Failed("None", InvalidAction("None"))
    ensures Execute(app, ids, values, Picked([]), toolset, decode) == Failed("[]", UnhashableSelection)
  {
  }

  /** The unset action's exception reads "Failed to execute None: Invalid action: None". */
  lemma UnsetMessage(app: App, ids: map<string, string>, values: map<string, Json>,
                     toolset: Toolset, decode: string -> Decoded)
    ensures Message(Execute(app, ids, values, Unset, toolset, decode)) ==
            Some("Failed to execute " + "None" + ": Invalid action: " + "None")
  {
    InvalidActionFailedText("None");
  }

  /** Only the first picked name matters, and it behaves as the plain name. */
  lemma FirstPickDecides(app: App, ids: map<string, string>, values: map<string, Json>, name: string, rest: seq<string>,
                         toolset: Toolset, decode: string -> Decoded)
    ensures Execute(app, ids, values, Picked([name] + rest), toolset, decode) ==
            Execute(app, ids, values, Named(name), toolset, decode)
  {
  }

  /**
   * Selecting the display name of a catalog entry of a well-formed catalog
   * runs that entry: its parameters are built from its own fields, the call
   * gets its enum member and those parameters, and the response is normalized
   * by the integration's policies.
   */
  lemma SelectedActionRuns(app: App, ids: map<string, string>, values: map<string, Json>, i: nat,
                           toolset: Toolset, decode: string -> Decoded)
    requires DisplayNamesDistinct(app.actions) && i < |app.actions|
    requires app.actions[i].key != "" && app.actions[i].key in ids
    ensures var a := app.actions[i];
            var o := Execute(app, ids, values, Named(a.displayName), toolset, decode);
            match ParamsOf(app, a, values)
            case Err(e) => o == Failed(a.displayName, e)
            case Ok(p) =>
              match toolset(ids[a.key], p)
              case Err(t) => o == Failed(a.displayName, CallRaised(t))
              case Ok(raw) =>
                match Response(app, a, raw, decode)
                case Ok(v) => o == Returned(v)
                case Err(e) => o == Failed(a.displayName, e)
  {
    ResolveLeftInverse(app.actions, i);
  }

  /**
   * When the call answers `raw` whatever the parameters, picking a catalog
   * action gives the normalized `raw`, or raises with the action's display name.
   */
  lemma SelectedActionAnswers(app: App, ids: map<string, string>, values: map<string, Json>, i: nat, raw: Json,
                              toolset: Toolset, decode: string -> Decoded)
    requires DisplayNamesDistinct(app.actions) && i < |app.actions|
    requires app.actions[i].key != "" && app.actions[i].key in ids
    requires ParamsOf(app, app.actions[i], values).Ok?
    requires forall p: map<string, Json> :: toolset(ids[app.actions[i].key], p) == Ok(raw)
    ensures Execute(app, ids, values, Picked([app.actions[i].displayName]), toolset, decode) ==
            match Response(app, app.actions[i], raw, decode)
            case Ok(v) => Returned(v)
            case Err(e) => Failed(app.actions[i].displayName, e)
  {
    SelectedActionRuns(app, ids, values, i, toolset, decode);
    FirstPickDecides(app, ids, values, app.actions[i].displayName, [], toolset, decode);
  }

  /**
   * An integration whose every result-asking action names its field never
   * raises "Expected a dict with a single key".
   */
  lemma NoSingleKeyErrorWhenFieldsNamed(app: App, ids: map<string, string>, values: map<string, Json>, sel: Selection,
                                        toolset: Toolset, decode: string -> Decoded)
    requires forall i :: 0 <= i < |app.actions| && app.actions[i].getResultField ==> HasResultField(app.actions[i])
    ensures var o := Execute(app, ids, values, sel, toolset, decode);
            !(o.Failed? && o.cause.NotSingleKey?)
  {
    var r := ResolveSelection(app.actions, sel);
    if r.Ok? {
      var a := app.actions[r.value];
      ParamsErrorIsFieldError(app, a, values);
      if a.key in ids && ParamsOf(app, a, values).Ok? {
        var answer := toolset(ids[a.key], ParamsOf(app, a, values).value);
        if answer.Ok? {
          SingleKeyErrorNeedsUnnamedField(app, a, answer.value, decode);
        }
      }
    }
  }

  /** A failed call that does not raise hands back a dict whose only key is `"error"`, under every policy. */
  lemma FailedCallReturnsError(app: App, ids: map<string, string>, values: map<string, Json>, sel: Selection,
                               toolset: Toolset, decode: string -> Decoded)
    requires Run(app, ids, values, sel, toolset, decode).Ok?
    requires var i := ResolveSelection(app.actions, sel).value;
             var a := app.actions[i];
             var answer := toolset(ids[a.key], ParamsOf(app, a, values).value);
             answer.Ok? && answer.value.Obj? && !Succeeded(answer.value.members)
    ensures var v := Execute(app, ids, values, sel, toolset, decode).value;
            v.Obj? && |v.members| == 1 && v.members[0].0 == "error"
  {
    var i := ResolveSelection(app.actions, sel).value;
    var a := app.actions[i];
    var raw := toolset(ids[a.key], ParamsOf(app, a, values).value).value;
    FailureIsErrorObject(app.errors, raw.members, decode);
  }

  /**
   * An exception of the external call itself is caught and re-raised as
   * "Failed to execute <display name>: <its text>".
   */
  lemma RaisingCallReported(app: App, ids: map<string, string>, values: map<string, Json>, sel: Selection,
                            toolset: Toolset, decode: string -> Decoded, text: string)
    requires ResolveSelection(app.actions, sel).Ok?
    requires var a := app.actions[ResolveSelection(app.actions, sel).value];
             a.key in ids && ParamsOf(app, a, values).Ok? &&
             toolset(ids[a.key], ParamsOf(app, a, values).value) == Err(text)
    ensures Execute(app, ids, values, sel, toolset, decode) == Failed(Display(sel), CallRaised(text))
    ensures Message(Execute(app, ids, values, sel, toolset, decode)) ==
            Some("Failed to execute " + Display(sel) + ": " + text)
  {
  }
}
