/**
 * Why an invocation stops with an exception. Every such exception is caught
 * at the invocation boundary and re-raised as
 * `ValueError("Failed to execute <display name>: <cause>")`.
 */
module Errors {
  import opened Wrappers


  datatype Cause =
    | InvalidAction(name: string)     // ValueError "Invalid action: <name>": the display name did not resolve
    | UnhashableSelection             // TypeError: an empty selection list used as a dict key
    | UnknownActionId(key: string)    // AttributeError: the action key is not a member of the SDK's Action enum
    | MissingField(field: string)     // AttributeError: the component has no attribute with the field's name
    | NotSplittable(field: string)    // AttributeError: `.split` on a list field whose value is not a string
    | NotAMapping                     // AttributeError: `.get` or `.keys` on a value that is not a dict
    | NoLength                        // TypeError: `len()` of null, a boolean or an integer
    | NotSingleKey(count: nat)        // ValueError "Expected a dict with a single key, got <count> keys: ..."
    | CallRaised(text: string)        // whatever the external call raised, with its text

  /** The text of the exceptions whose message the component writes itself. */
  function InvalidActionText(name: string): string {
    "Invalid action: " + name
  }

  /** The text of the re-raised exception, given the text of its cause. */
  function FailedText(display: string, causeText: string): string {
    "Failed to execute " + display + ": " + causeText
  }

  /**
   * The text `str(e)` of a cause, for the causes whose text the component
   * writes itself or receives from the call; `None` for the texts Python
   * writes (`TypeError`, `AttributeError`) and the single-key message, whose
   * `keys()` view is not modelled.
   */
  function CauseText(c: Cause): Option<string> {
    match c
    case InvalidAction(name) => Some(InvalidActionText(name))
    case CallRaised(text) => Some(text)
    case _ => None
  }

  /** The full text for an unknown display name, as the handler prints it. */
  lemma InvalidActionFailedText(name: string)
    ensures FailedText(name, InvalidActionText(name)) == "Failed to execute " + name + ": Invalid action: " + name
  {
    var a := "Failed to execute " + name;
    assert ": " + ("Invalid action: " + name) == ": Invalid action: " + name;
    assert a + ": " + ("Invalid action: " + name) == a + (": " + ("Invalid action: " + name));
  }
}
