# Composio integration components — `execute_action`

A model of the action-dispatch engine shared by four Langflow Composio
components: Google Tasks, Google Drive, Reddit and the Discord bot. Each
component declares a static catalog of actions (`_actions_data`: action key,
display name, the fields the action reads, and whether and where to pull a
result field out of the response), the fields to cast to `bool` or to split
into lists, and one input per field. Its `execute_action` resolves the
selected display name to an action key, builds a parameter dict from the
component's current field values, calls the external toolset, and turns the
raw response into the returned value or an exception, which it re-raises as
`Failed to execute <display name>: <cause>`.

The four `execute_action` bodies differ only in how they treat the response,
so the model has one engine and four configurations:

- `Json`, `PyStr`, `Errors`, `Wrappers`: JSON values with dicts as ordered
  entry lists, the Python string operations the builder uses
  (`replace`, `split`, `strip`), and the causes of the exceptions.
- `Catalog`: actions, inputs, the two error policies and four result
  policies, the display-name lookup, and the well-formedness of a catalog.
- `Params`: the parameter builder, as a specification function over the
  field list, proved properties about it, and the imperative loop
  `BuildParams` proved equal to it.
- `Search`: `_find_key_recursively`, proved to return the first non-`None`
  answer of an independent depth-first enumeration of the places the key
  answers, and proved sound against a structural predicate `Occurs` (any
  value it returns sits under the key somewhere in the data).
- `Normalize`: the failure and success branches as functions, the
  imperative statements (`NormalizeFailure`, `ExtractResult`,
  `NormalizeResult`) proved equal to them, and what each policy promises.
- `Engine`: selection, the whole invocation as the function `Execute`, the
  imperative `ExecuteAction` proved equal to it, and end-to-end properties.
- `GoogleTasks`, `GoogleDrive`, `Reddit`, `Discord`: each component's
  catalog, boolean and list fields and inputs as constants, proofs that the
  catalog is well formed, and the component's behaviour on the cases its
  code and tests single out.

The external call, the SDK's `Action` enum, the component's attributes and
`json.loads` are parameters of `Execute`: `toolset`, `ids`, `values` and
`decode`.

Behaviour as written that the model keeps:

- `result.get("error", "No response")` uses the default only when the key
  is absent; a present `None` is returned as the error.
- In the Tasks and Drive failure branch, a string message that parses to
  something other than a dict with `"error"` leaves the plain error in
  place; only a string that does not parse becomes the error itself. An
  error payload that is not a dict makes `.get` raise.
- An unset action raises `Invalid action: None`; an empty selection list is
  used as a dict key and raises the unhashable-type error, reported as `[]`.
- Tasks and Reddit take `len(result_data)` before the other tests, so a
  successful response whose `data` is `None`, a boolean or an integer raises
  for every action.
- Reddit with `data` absent and a result field returns `[]`
  (`{}.get(field, [])`).
- Discord raises for a list field holding a truthy value that is not a
  string (`.split` is missing).
- Drive, when the result-field search has no hit other than `None`, `[]`
  or `{}` (or the action asks for no field), returns the one-element list
  `[v]` where `v` is the value of a non-empty dict's first key, whatever its
  number of keys.
- The Tasks and Drive search returns `data[key]` for a dict holding the
  key, even when that value is `None`, without looking inside it.
- The display-name map is the inverse of the key-to-display-name map, so a
  display name shared by two actions selects only the later one.

## Model

| member | source | states |
|---|---|---|
| Json.Lookup | src/backend/base/langflow/components/composio/googletasks_composio.py:543-545 | `d[key]` for a dict: a value exactly when the key is present, namely the value of its first entry with that key |
| Json.GetOr | src/backend/base/langflow/components/composio/googletasks_composio.py:592 | `d.get(key, default)`: the default exactly when the key is absent, so a present `None` is kept |
| Json.Len | src/backend/base/langflow/components/composio/googletasks_composio.py:630 | `len(v)` is defined exactly for strings, lists and dicts; `None`, booleans and integers raise |
| PyStr.RemoveAllIdentity | src/backend/base/langflow/components/composio/googletasks_composio.py:581 | `s.replace(pat, "")` leaves `s` unchanged exactly when the non-empty `pat` does not occur in it |
| PyStr.StripKeyPrefix | src/backend/base/langflow/components/composio/googletasks_composio.py:581 | removing `<key>_` from `<key>_<param>` gives back `param` when the key's first character is not in `param` |
| PyStr.SplitLength | src/backend/base/langflow/components/composio/discord_composio.py:286 | `s.split(",")` has one more piece than `s` has commas |
| PyStr.SplitPiecesHaveNoSep | src/backend/base/langflow/components/composio/discord_composio.py:286 | no piece of a split contains the separator |
| PyStr.SplitJoin | src/backend/base/langflow/components/composio/discord_composio.py:286 | joining the pieces with the separator gives back `s` |
| PyStr.Strip | src/backend/base/langflow/components/composio/discord_composio.py:286 | `strip()` result has no whitespace at either end |
| PyStr.StripIsSlice | src/backend/base/langflow/components/composio/discord_composio.py:286 | what `strip()` keeps is a middle slice of `s`, and what it removed on both sides is whitespace |
| Catalog.Resolve | src/backend/base/langflow/components/composio/googletasks_composio.py:564 | the display-name lookup finds the last action with that display name, and finds none exactly when no action has it |
| Catalog.ResolveLeftInverse | src/backend/base/langflow/components/composio/googletasks_composio.py:564-567 | with distinct display names, looking up an action's display name gives back that action |
| Catalog.ResolveCollision | src/backend/base/langflow/components/composio/googletasks_composio.py:564 | when two actions share a display name, the earlier one can never be selected |
| Catalog.ParamNameOfField | src/backend/base/langflow/components/composio/googletasks_composio.py:581 | in a lead-free catalog the stored parameter name of every field is its param suffix |
| Params.FoldFailsAtFirstFailure | src/backend/base/langflow/components/composio/googletasks_composio.py:572-583 | the builder fails exactly when some field fails (no such attribute, or a set list field that cannot be split), and then with the cause of the first failing field |
| Params.FoldKeys | src/backend/base/langflow/components/composio/googletasks_composio.py:575-583 | the built names are exactly the stripped names of the fields whose value is neither `None` nor `""` |
| Params.FoldValues | src/backend/base/langflow/components/composio/googletasks_composio.py:578-583 | with distinct stripped names, each set field's parameter holds its coerced value |
| Params.FoldReadsOnlyItsFields | src/backend/base/langflow/components/composio/discord_composio.py:279-280 | the parameters depend only on the values of the action's own fields |
| Params.ParamsOfAction | src/backend/base/langflow/components/composio/discord_composio.py:276-293 | for a catalog action the parameters are keyed by exactly the params whose field is set, each holding the coerced value |
| Params.ParamOfField | src/backend/base/langflow/components/composio/discord_composio.py:285-293 | one set field: sent as it is, or as `bool(value)` for a boolean field, or as the stripped comma pieces for a list field holding a string |
| Params.UnsetFieldOmitted | src/backend/base/langflow/components/composio/googletasks_composio.py:575-576 | a field whose value is `None` or `""` is not sent |
| Params.ParamsOfFailsOnlyOnSplit | src/backend/base/langflow/components/composio/discord_composio.py:279-286 | when every declared input can be read, building fails only on an unsplittable list field, and never for an integration without list fields |
| Params.ParamsErrorIsFieldError | src/backend/base/langflow/components/composio/googletasks_composio.py:572-583 | building fails only with a missing attribute or an unsplittable list field |
| Params.ParamsOfSucceeds | src/backend/base/langflow/components/composio/googletasks_composio.py:572-583 | building succeeds when every field can be read and none is a list field |
| Params.CoercePlain | src/backend/base/langflow/components/composio/googletasks_composio.py:573-583 | a field that is neither a list nor a boolean field is sent unchanged |
| Params.CoerceBool | src/backend/base/langflow/components/composio/googletasks_composio.py:578-579 | a boolean field is sent as `bool(value)` whatever the value's type |
| Params.CoerceList | src/backend/base/langflow/components/composio/discord_composio.py:285-286 | a list field holding a non-empty string is sent as a list of one more item than it has commas, item k being the stripped k-th piece |
| Params.BuildParams | src/backend/base/langflow/components/composio/discord_composio.py:277-293 | the loop over the action's fields computes the builder's result: the same parameters, or the same first failure |
| Search.FirstNonNull | src/backend/base/langflow/components/composio/googletasks_composio.py:548-549 | the first non-`None` element of a sequence, `None` exactly when all are `None` |
| Search.FirstNonNullAppend | src/backend/base/langflow/components/composio/googletasks_composio.py:546-554 | the first non-`None` answer of two runs of answers is the first run's if it has one, else the second's |
| Search.FindKeyIsFirstHit | src/backend/base/langflow/components/composio/googletasks_composio.py:541-555 | the recursive search returns the first non-`None` value among the places the key answers, in depth-first order; a non-`None` result occurs under the key somewhere in the data |
| Search.MembersFirstHit | src/backend/base/langflow/components/composio/googletasks_composio.py:546-549 | the loop over a dict's values from position i returns the first non-`None` answer of those values, in order; a non-`None` result occurs under the key inside one of them |
| Search.ItemsFirstHit | src/backend/base/langflow/components/composio/googledrive_composio.py:409-413 | the loop over a list's items from position i returns the first non-`None` answer of those items, in order; a non-`None` result occurs under the key inside one of them |
| Search.FindKeyCharacterized | src/backend/base/langflow/components/composio/googledrive_composio.py:400-414 | against the structural reference: a non-`None` result sits under the key somewhere in the data, and a key that occurs nowhere gives `None` |
| Search.NullEntryHidesDeeperValue | src/backend/base/langflow/components/composio/googledrive_composio.py:402-403 | the converse fails: a dict holding the key with `None` hides a deeper value under the same key |
| Search.FindKeyAtTop | src/backend/base/langflow/components/composio/googletasks_composio.py:543-545 | a scalar never answers; a dict holding the key answers with that entry, even `None`, without looking inside |
| Search.FindKeyThroughWrapper | src/backend/base/langflow/components/composio/googletasks_composio.py:546-549 | a one-entry dict without the key answers as its value does |
| Normalize.NormalizeFailure | src/backend/base/langflow/components/composio/googletasks_composio.py:589-616 | the failure branch, `error_info` reassigned step by step, computes the failure policy's result |
| Normalize.ExtractResult | src/backend/base/langflow/components/composio/reddit_composio.py:295-304 | the success branch, `result_data` reassigned step by step, computes the result policy's result |
| Normalize.NormalizeResult | src/backend/base/langflow/components/composio/googletasks_composio.py:589-633 | everything after the external call computes the response function |
| Normalize.FailureIsErrorObject | src/backend/base/langflow/components/composio/googletasks_composio.py:592-616 | a failed call that does not raise returns a dict whose only key is `"error"` |
| Normalize.ParsedFailureRaises | src/backend/base/langflow/components/composio/googletasks_composio.py:590-614 | the parsing failure branch raises exactly when `data` is not a dict or the error payload it would reshape is not a dict, and then with the `.get` error |
| Normalize.ParsedFailureCases | src/backend/base/langflow/components/composio/googletasks_composio.py:593-614 | an unparseable message is the error itself; a message (or parsed message) carrying `"error"` is reshaped; anything else keeps `result.get("error", "No response")` |
| Normalize.ErrorDetailFields | src/backend/base/langflow/components/composio/googletasks_composio.py:597-603 | a reshaped error holds exactly `code` and `message`, taken from the payload or defaulting to `"Unknown"` and `"No error message"` |
| Normalize.PlainFailureKeepsRawError | src/backend/base/langflow/components/composio/reddit_composio.py:292-293 | the plain failure branch never raises and returns the raw `"error"` or `"No response"` |
| Normalize.SearchHitReturned | src/backend/base/langflow/components/composio/googletasks_composio.py:622-626 | with a named result field, a non-empty value found by the search is returned |
| Normalize.SearchOrRaiseRaises | src/backend/base/langflow/components/composio/googletasks_composio.py:630-632 | "Expected a dict with a single key" is raised exactly for a result-asking action without a named field on a dict of other than one key; other raises come only from `len` |
| Normalize.SingleKeyErrorNeedsUnnamedField | src/backend/base/langflow/components/composio/reddit_composio.py:301-303 | under every policy, the single-key error needs `get_result_field` without a `result_field` |
| Normalize.SearchOrRaiseFallsBack | src/backend/base/langflow/components/composio/googletasks_composio.py:627-633 | without a hit the whole `data` is returned when nothing raises |
| Normalize.FirstValueNeverRaises | src/backend/base/langflow/components/composio/googledrive_composio.py:477-488 | the Drive success branch never raises; without a hit a non-empty dict becomes `[value of its first key]`, anything else is returned as it is |
| Normalize.TopLevelLookup | src/backend/base/langflow/components/composio/reddit_composio.py:299-300 | a present result field is taken from `data`'s own entries, even when empty; a missing one gives back all of `data` |
| Normalize.TopLevelFieldAnswered | src/backend/base/langflow/components/composio/reddit_composio.py:295-304 | a present result field whose value has a length is the response |
| Normalize.TopLevelNullRaises | src/backend/base/langflow/components/composio/reddit_composio.py:295-303 | a successful call whose `data` is `None` raises |
| Normalize.TopLevelNoData | src/backend/base/langflow/components/composio/reddit_composio.py:295-300 | with `data` absent, a result-asking action returns `[]` |
| Normalize.PlainVerbatimResponse | src/backend/base/langflow/components/composio/discord_composio.py:299-302 | the Discord response to any dict is `data` (default `[]`) on success and the plain error on failure |
| Normalize.NoResultFieldVerbatim | src/backend/base/langflow/components/composio/googletasks_composio.py:618-633 | an action without `get_result_field` gets `data` back unchanged whenever it has a length |
| Engine.ResolveSelection | src/backend/base/langflow/components/composio/googletasks_composio.py:563-567 | a resolved selection is a catalog position with a non-empty key whose display name is the selected name |
| Engine.ExecuteAction | src/backend/base/langflow/components/composio/googletasks_composio.py:557-638 | the imperative `execute_action` computes the model's outcome: the returned value, or the re-raised cause, including a raising call, under the reported display name |
| Engine.UnknownNameFails | src/backend/base/langflow/components/composio/googletasks_composio.py:563-567 | a display name in no catalog entry raises "Invalid action", before any field is read or the call is made |
| Engine.UnknownNameMessage | src/backend/base/langflow/components/composio/googletasks_composio.py:563-567 | the exception that `Execute` raises for an unknown name reads "Failed to execute <name>: Invalid action: <name>" |
| Engine.UnsetMessage | src/backend/base/langflow/components/composio/googletasks_composio.py:634-638 | the exception for an unset action reads "Failed to execute None: Invalid action: None" |
| Engine.RaisingCallReported | src/backend/base/langflow/components/composio/googletasks_composio.py:585-638 | an external call that raises is re-raised as "Failed to execute <name>: <its text>" |
| Engine.DegenerateSelections | src/backend/base/langflow/components/composio/googletasks_composio.py:563 | an unset action raises "Invalid action: None"; an empty pick raises the unhashable-key error, reported as `[]` |
| Engine.FirstPickDecides | src/backend/base/langflow/components/composio/googletasks_composio.py:563 | only the first picked name counts, and it behaves as the plain name |
| Engine.SelectedActionRuns | src/backend/base/langflow/components/composio/googletasks_composio.py:562-588 | selecting a catalog action builds its parameters and normalizes the response of the call for its enum member |
| Engine.SelectedActionAnswers | src/backend/base/langflow/components/composio/googletasks_composio.py:585-633 | picking an action whose parameters build returns or raises exactly as the response function on the call's result |
| Engine.NoSingleKeyErrorWhenFieldsNamed | src/backend/base/langflow/components/composio/googletasks_composio.py:630-632 | an integration whose result-asking actions all name their field never raises the single-key error |
| Engine.FailedCallReturnsError | src/backend/base/langflow/components/composio/googletasks_composio.py:589-616 | a failed call that does not raise returns `{"error": ...}` under every policy |
| GoogleTasks.DisplayNamesAreDistinct | src/backend/base/langflow/components/composio/googletasks_composio.py:22-145 | no two actions share a display name, so every action can be selected |
| GoogleTasks.KeysAreDistinct | src/backend/base/langflow/components/composio/googletasks_composio.py:22-145 | no two actions share a key |
| GoogleTasks.ParamsAreDistinct | src/backend/base/langflow/components/composio/googletasks_composio.py:22-145 | no action lists a field twice |
| GoogleTasks.KeysStartWithLead | src/backend/base/langflow/components/composio/googletasks_composio.py:22-145 | every action key starts with the integration's letter |
| GoogleTasks.KeysAreLeadFree | src/backend/base/langflow/components/composio/googletasks_composio.py:22-145 | no param contains the first character of its action key, so stripping `<key>_` from a field leaves its param |
| GoogleTasks.BoolVarsAreFields | src/backend/base/langflow/components/composio/googletasks_composio.py:149-157 | every boolean field is a field of some action |
| GoogleTasks.EveryFieldDeclared | src/backend/base/langflow/components/composio/googletasks_composio.py:159-539 | every action field is declared by an input |
| GoogleTasks.ComponentIsWellFormed | src/backend/base/langflow/components/composio/googletasks_composio.py:22-539 | the catalog, its field sets and its inputs satisfy all the above |
| GoogleDrive.DisplayNamesAreDistinct | src/backend/base/langflow/components/composio/googledrive_composio.py:22-120 | no two actions share a display name, so every action can be selected |
| GoogleDrive.KeysAreDistinct | src/backend/base/langflow/components/composio/googledrive_composio.py:22-120 | no two actions share a key |
| GoogleDrive.ParamsAreDistinct | src/backend/base/langflow/components/composio/googledrive_composio.py:22-120 | no action lists a field twice |
| GoogleDrive.KeysStartWithLead | src/backend/base/langflow/components/composio/googledrive_composio.py:22-120 | every action key starts with the integration's letter |
| GoogleDrive.KeysAreLeadFree | src/backend/base/langflow/components/composio/googledrive_composio.py:22-120 | no param contains the first character of its action key, so stripping `<key>_` from a field leaves its param |
| GoogleDrive.BoolVarsAreFields | src/backend/base/langflow/components/composio/googledrive_composio.py:124-129 | every boolean field is a field of some action |
| GoogleDrive.EveryFieldDeclared | src/backend/base/langflow/components/composio/googledrive_composio.py:131-398 | every action field is declared by an input |
| GoogleDrive.ComponentIsWellFormed | src/backend/base/langflow/components/composio/googledrive_composio.py:22-398 | the catalog, its field sets and its inputs satisfy all the above |
| Reddit.DisplayNamesAreDistinct | src/backend/base/langflow/components/composio/reddit_composio.py:20-98 | no two actions share a display name, so every action can be selected |
| Reddit.KeysAreDistinct | src/backend/base/langflow/components/composio/reddit_composio.py:20-98 | no two actions share a key |
| Reddit.ParamsAreDistinct | src/backend/base/langflow/components/composio/reddit_composio.py:20-98 | no action lists a field twice |
| Reddit.KeysStartWithLead | src/backend/base/langflow/components/composio/reddit_composio.py:20-98 | every action key starts with the integration's letter |
| Reddit.KeysAreLeadFree | src/backend/base/langflow/components/composio/reddit_composio.py:20-98 | no param contains the first character of its action key, so stripping `<key>_` from a field leaves its param |
| Reddit.BoolVarsAreFields | src/backend/base/langflow/components/composio/reddit_composio.py:106-108 | every boolean field is a field of some action |
| Reddit.EveryFieldDeclared | src/backend/base/langflow/components/composio/reddit_composio.py:110-257 | every action field is declared by an input |
| Reddit.ComponentIsWellFormed | src/backend/base/langflow/components/composio/reddit_composio.py:20-257 | the catalog, its field sets and its inputs satisfy all the above |
| Discord.DisplayNamesAreDistinct | src/backend/base/langflow/components/composio/discord_composio.py:20-78 | no two actions share a display name, so every action can be selected |
| Discord.KeysAreDistinct | src/backend/base/langflow/components/composio/discord_composio.py:20-78 | no two actions share a key |
| Discord.ParamsAreDistinct | src/backend/base/langflow/components/composio/discord_composio.py:20-78 | no action lists a field twice |
| Discord.KeysStartWithLead | src/backend/base/langflow/components/composio/discord_composio.py:20-78 | every action key starts with the integration's letter |
| Discord.KeysAreLeadFree | src/backend/base/langflow/components/composio/discord_composio.py:20-78 | no param contains the first character of its action key, so stripping `<key>_` from a field leaves its param |
| Discord.BoolVarsAreFields | src/backend/base/langflow/components/composio/discord_composio.py:87 | every boolean field is a field of some action |
| Discord.EveryFieldDeclared | src/backend/base/langflow/components/composio/discord_composio.py:89-262 | every action field is declared by an input |
| Discord.ComponentIsWellFormed | src/backend/base/langflow/components/composio/discord_composio.py:20-262 | the catalog, its field sets and its inputs satisfy all the above |
| Discord.ListVarsAreFields | src/backend/base/langflow/components/composio/discord_composio.py:80-83 | both list fields are fields of their actions |
| GoogleTasks.ResultFieldWheneverAsked | src/backend/base/langflow/components/composio/googletasks_composio.py:22-145 | every action with `get_result_field` names a `result_field` |
| GoogleTasks.NeverSingleKeyError | src/backend/base/langflow/components/composio/googletasks_composio.py:630-632 | Google Tasks never raises "Expected a dict with a single key" |
| GoogleTasks.GetTaskYieldsTask | src/backend/tests/unit/components/bundles/composio/test_googletasks.py:90-112 | "Get Task" answered with `{"task": t}` for a non-empty `t` returns `t` |
| GoogleTasks.PlainActionReturnsData | src/backend/tests/unit/components/bundles/composio/test_googletasks.py:61-88 | an action without `get_result_field` answered with a dict returns that dict whole |
| GoogleTasks.InvalidActionRejected | src/backend/tests/unit/components/bundles/composio/test_googletasks.py:114-122 | picking "Invalid Action" raises "Invalid action: Invalid Action" |
| GoogleDrive.PageTokenDefaultOmitted | src/backend/base/langflow/components/composio/googledrive_composio.py:322-328 | `page_token` defaults to `""`, so a component left at the default sends no page token |
| GoogleDrive.AnsweredCallNeverRaises | src/backend/base/langflow/components/composio/googledrive_composio.py:477-488 | given a call that answers, every Drive action returns a value once the call reports success |
| GoogleDrive.PlainActionUnwrapsFirstValue | src/backend/tests/unit/components/bundles/composio/test_googledrive.py:54-82 | an action without `get_result_field` answered with a non-empty dict returns `[value of its first key]` |
| GoogleDrive.FindFilesReturnsFiles | src/backend/base/langflow/components/composio/googledrive_composio.py:479-484 | "Find Files" answered with `{"files": fs}`, `fs` non-empty, returns `fs` |
| Reddit.ResultFieldWheneverAsked | src/backend/base/langflow/components/composio/reddit_composio.py:20-98 | every action with `get_result_field` names a `result_field` |
| Reddit.NeverSingleKeyError | src/backend/base/langflow/components/composio/reddit_composio.py:301-303 | Reddit never raises "Expected a dict with a single key" |
| Reddit.FailedCallReturnsRawError | src/backend/base/langflow/components/composio/reddit_composio.py:292-293 | a failed call returns `{"error": result.get("error", "No response")}` |
| Reddit.ResultFieldReturned | src/backend/base/langflow/components/composio/reddit_composio.py:299-304 | a result-asking action returns the top-level entry of its field whenever it has a length, empty or not |
| Reddit.MissingResultFieldReturnsData | src/backend/tests/unit/components/bundles/composio/test_reddit.py:53-76 | a dict `data` without the result field is returned whole |
| Reddit.NullDataRaises | src/backend/base/langflow/components/composio/reddit_composio.py:295-303 | a successful call with `data` `None` raises for every action |
| Discord.CallAlwaysReturns | src/backend/base/langflow/components/composio/discord_composio.py:299-302 | given a call that answers, nothing raises after it: `data` on success, the plain error on failure |
| Discord.NonListFieldsSentVerbatim | src/backend/base/langflow/components/composio/discord_composio.py:285-293 | with no boolean fields, every set non-list field is sent exactly as held |
| Discord.AccessTokensSplit | src/backend/base/langflow/components/composio/discord_composio.py:285-286 | `access_tokens` given as a string is sent as its stripped comma-separated pieces |
| Discord.AccessTokensNotSplittable | src/backend/base/langflow/components/composio/discord_composio.py:285-286 | `access_tokens` holding a truthy non-string raises, reported under the action's display name |

## Left out

- The external toolset call, the network and the API key: the call is the
  parameter `toolset`, a function from the action's enum value and the
  parameters to either the raw response or the text of the exception it
  raises (`CallRaised`); which of the two happens is not modelled.
- `_build_wrapper`: it runs before the `try`, so its errors are not
  re-raised as "Failed to execute"; the model starts after it.
- `_build_action_maps` and the rest of `ComposioBaseComponent` are not part
  of this model; the display-name map is modelled as the inverse of the
  catalog's key-to-display-name map, built in catalog order.
- The SDK's `Action` enum is the map `ids`; `getattr(self, field)` is a
  lookup in the map `values`, whose absence is the `AttributeError`.
- `json.loads` is the parameter `decode`, which either parses a string to a
  value or rejects it; JSON text syntax is not modelled.
- Logging (`logger.error`) has no effect on the outcome and is left out.
- The texts of exceptions raised by Python itself (`TypeError`,
  `AttributeError`, `KeyError`) and of the single-key `ValueError` are
  modelled by their cause only (`CauseText` gives `None` for them); the
  texts the components write for an invalid action and for a raising call,
  and the "Failed to execute" wrapper around them, are modelled (`Message`).
- Json.Obj: a dict is an entry list that may hold a key twice, which no
  Python dict does; `Len` then counts both entries, and lookups take the
  first.
- Picked: a selection list stands for the names already taken from its
  items; a list whose first item is not a dict with `"name"` makes
  `self.action[0]["name"]` raise `KeyError` or `TypeError`, which the
  model does not represent.
- "Expected a dict with a single key": only the key count is kept, not the
  printed `keys()` view.
- Floats and any other value types beyond `None`, booleans, integers,
  strings, lists and dicts.
- Inputs: only each field's name, kind and stated `value=` default are
  kept; display names, info texts, `show`, `advanced` and `required` flags
  are UI metadata without effect on `execute_action`.
- `update_build_config`, `set_default_tools` and `sanitize_action_name`:
  they shape the UI and the tool list, not the dispatch.
- `__init__.py`, the lfx stub components and the icon are not part of this
  model.
- The test modules' mocked catalogs: the component lemmas state the tested
  behaviour on the real catalogs instead (Drive's test replaces
  "Find Files" by an action without a result field;
  `GoogleDrive.PlainActionUnwrapsFirstValue` states that behaviour for every
  such action of the real catalog).
- Concurrency and object identity: the component is a value here, because
  `execute_action` only reads its attributes (the maps that
  `_build_action_maps` rebuilds are modelled as their contents).
