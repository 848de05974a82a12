/**
 * What `execute_action` makes of the raw `{"successful", "data", "error"}`
 * result of the external call: an error object on failure, and on success
 * the part of `data` that the integration's result policy selects.
 */
module Normalize {
  import opened Wrappers
  import opened Json
  import opened Errors
  import opened Catalog
  import opened Search

  /** What `json.loads` does with a string: a value, or a `JSONDecodeError`. */
  datatype Decoded = Parsed(value: Json) | Invalid

  // ---------------------------------------------------------------------------
  // Failed calls
  // ---------------------------------------------------------------------------

  /** `{"error": result.get("error", "No response")}`. */
  function PlainFailure(raw: seq<(string, Json)>): Json {
    Obj([("error", GetOr(raw, "error", Str("No response")))])
  }

  /** The reshaped error `{"error": {"code": ..., "message": ...}}`; `.get` on a non-dict payload raises. */
  function ErrorDetail(e: Json): Result<Json, Cause> {
    if !e.Obj? then Err(NotAMapping)
    else Ok(Obj([("error", Obj([("code", GetOr(e.members, "code", Str("Unknown"))),
                                ("message", GetOr(e.members, "message", Str("No error message")))]))]))
  }

  /** A dict that carries an `"error"` entry. */
  predicate CarriesError(v: Json) {
    v.Obj? && HasKey(v.members, "error")
  }

  /**
   * The Tasks and Drive failure branch: `data.message` is parsed when it is a
   * string and reshaped when it carries an error; an unparseable string is
   * the error itself; anything else falls back to the plain error.
   */
  function ParsedFailure(raw: seq<(string, Json)>, decode: string -> Decoded): Result<Json, Cause> {
    var data := GetOr(raw, "data", Obj([]));
    if !data.Obj? then Err(NotAMapping)
    else
      var message := GetOr(data.members, "message", Obj([]));
      if message.Str? then
        match decode(message.s)
        case Invalid => Ok(Obj([("error", message)]))
        case Parsed(p) => if CarriesError(p) then ErrorDetail(Lookup(p.members, "error").value) else Ok(PlainFailure(raw))
      else if CarriesError(message) then ErrorDetail(Lookup(message.members, "error").value)
      else Ok(PlainFailure(raw))
  }

  function Failure(policy: ErrorPolicy, raw: seq<(string, Json)>, decode: string -> Decoded): Result<Json, Cause> {
    match policy
    case ParseMessage => ParsedFailure(raw, decode)
    case PlainError => Ok(PlainFailure(raw))
  }

  // ---------------------------------------------------------------------------
  // Successful calls
  // ---------------------------------------------------------------------------

  /** `found is not None and found != [] and found != {}`. */
  predicate Hit(v: Json) {
    v != Null && v != Arr([]) && v != Obj([])
  }

  /** The recursive search, when the action asks for a result field and finds a non-empty value. */
  function Searched(a: ActionSpec, data: Json): Option<Json> {
    if a.getResultField && HasResultField(a) && Hit(FindKey(data, a.resultField.value))
    then Some(FindKey(data, a.resultField.value))
    else None
  }

  /**
   * `if len(data) != 1 and not result_field and get_result_field: raise`; the
   * length is taken first, and the message's `data.keys()` raises on a non-dict.
   */
  function SingleKeyCheck(a: ActionSpec, v: Json): Result<Json, Cause> {
    match Len(v)
    case None => Err(NoLength)
    case Some(n) =>
      if n != 1 && !HasResultField(a) && a.getResultField then
        (if v.Obj? then Err(NotSingleKey(n)) else Err(NotAMapping))
      else Ok(v)
  }

  /** `[data[next(iter(data))]]` for a non-empty dict, the data itself otherwise. */
  function FirstValue(data: Json): Json {
    if data.Obj? && |data.members| > 0 then Arr([data.members[0].1]) else data
  }

  /** Reddit's extraction: `data.get(result_field, result.get("data", []))`, with `data` defaulting to `{}`. */
  function TopLevel(a: ActionSpec, raw: seq<(string, Json)>): Result<Json, Cause> {
    var data := GetOr(raw, "data", Obj([]));
    if a.getResultField && HasResultField(a) then
      if data.Obj? then Ok(GetOr(data.members, a.resultField.value, GetOr(raw, "data", Arr([]))))
      else Err(NotAMapping)
    else Ok(data)
  }

  function Success(policy: ResultPolicy, a: ActionSpec, raw: seq<(string, Json)>): Result<Json, Cause> {
    match policy
    case SearchOrRaise =>
      var data := GetOr(raw, "data", Arr([]));
      (match Searched(a, data)
       case Some(found) => Ok(found)
       case None => SingleKeyCheck(a, data))
    case SearchOrFirstValue =>
      var data := GetOr(raw, "data", Arr([]));
      (match Searched(a, data)
       case Some(found) => Ok(found)
       case None => Ok(FirstValue(data)))
    case TopLevelOrRaise =>
      (match TopLevel(a, raw)
       case Err(e) => Err(e)
       case Ok(v) => SingleKeyCheck(a, v))
    case DataVerbatim => Ok(GetOr(raw, "data", Arr([])))
  }

  /** `if not result.get("successful")`: absent, `None`, `False` and other false values all mean failure. */
  predicate Succeeded(raw: seq<(string, Json)>) {
    Truthy(GetOr(raw, "successful", Null))
  }

  /** The value `execute_action` returns for the raw result of action `a`, or why it raises. */
  function Response(app: App, a: ActionSpec, raw: Json, decode: string -> Decoded): Result<Json, Cause> {
    if !raw.Obj? then Err(NotAMapping)
    else if !Succeeded(raw.members) then Failure(app.errors, raw.members, decode)
    else Success(app.results, a, raw.members)
  }

  /** The raw result `{"successful": True, "data": data}` of a call that went through. */
  function Answered(data: Json): Json {
    Obj([("successful", Bool(true)), ("data", data)])
  }

  lemma AnsweredEntries(data: Json)
    ensures Succeeded(Answered(data).members)
    ensures HasKey(Answered(data).members, "data") && Lookup(Answered(data).members, "data") == Some(data)
  {
    var ms := Answered(data).members;
    assert ms[1..] == [("data", data)];
    assert Lookup(ms[1..], "data") == Some(data);
  }

  // ---------------------------------------------------------------------------
  // The statements of `execute_action` after the call
  // ---------------------------------------------------------------------------

  /**
   * The failure branch: `error_info` starts as the plain error and is overwritten by what `data.message` says.
   * The imperative form of `Failure`, proved equal to it.
   */
  method NormalizeFailure(policy: ErrorPolicy, raw: seq<(string, Json)>, decode: string -> Decoded)
    returns (r: Result<Json, Cause>)
    ensures r == Failure(policy, raw, decode)
  {
    if policy == PlainError {
      return Ok(Obj([("error", GetOr(raw, "error", Str("No response")))]));
    }
    var data := GetOr(raw, "data", Obj([]));
    if !data.Obj? {
      return Err(NotAMapping);
    }
    var message := GetOr(data.members, "message", Obj([]));
    var errorInfo := Obj([("error", GetOr(raw, "error", Str("No response")))]);
    if message.Str? {
      var parsed := decode(message.s);
      if parsed.Invalid? {
        errorInfo := Obj([("error", message)]);
      } else if parsed.value.Obj? && HasKey(parsed.value.members, "error") {
        var detail := ErrorDetail(Lookup(parsed.value.members, "error").value);
        if detail.Err? {
          return detail;
        }
        errorInfo := detail.value;
      }
    } else if message.Obj? && HasKey(message.members, "error") {
      var detail := ErrorDetail(Lookup(message.members, "error").value);
      if detail.Err? {
        return detail;
      }
      errorInfo := detail.value;
    }
    return Ok(errorInfo);
  }

  /**
   * The success branch: `result_data` is taken from `data`, possibly replaced by the search, then checked.
   * The imperative form of `Success`, proved equal to it.
   */
  method ExtractResult(policy: ResultPolicy, a: ActionSpec, raw: seq<(string, Json)>)
    returns (r: Result<Json, Cause>)
    ensures r == Success(policy, a, raw)
  {
    if policy == DataVerbatim {
      return Ok(GetOr(raw, "data", Arr([])));
    }
    var resultData: Json;
    if policy == TopLevelOrRaise {
      resultData := GetOr(raw, "data", Obj([]));
      if a.getResultField && HasResultField(a) {
        if !resultData.Obj? {
          return Err(NotAMapping);
        }
        resultData := GetOr(resultData.members, a.resultField.value, GetOr(raw, "data", Arr([])));
      }
    } else {
      resultData := GetOr(raw, "data", Arr([]));
      if a.getResultField && HasResultField(a) {
        var found := FindKey(resultData, a.resultField.value);
        if found != Null && found != Arr([]) && found != Obj([]) {
          return Ok(found);
        }
      }
      if policy == SearchOrFirstValue {
        if Truthy(resultData) && resultData.Obj? {
          return Ok(Arr([resultData.members[0].1]));
        }
        return Ok(resultData);
      }
    }
    var n := Len(resultData);
    if n.None? {
      return Err(NoLength);
    }
    if n.value != 1 && !HasResultField(a) && a.getResultField {
      if resultData.Obj? {
        return Err(NotSingleKey(n.value));
      }
      return Err(NotAMapping);
    }
    return Ok(resultData);
  }

  /** Everything after `toolset.execute_action(...)`: the imperative form of `Response`, proved equal to it. */
  method NormalizeResult(app: App, a: ActionSpec, raw: Json, decode: string -> Decoded)
    returns (r: Result<Json, Cause>)
    ensures r == Response(app, a, raw, decode)
  {
    if !raw.Obj? {
      return Err(NotAMapping);
    }
    if !Truthy(GetOr(raw.members, "successful", Null)) {
      r := NormalizeFailure(app.errors, raw.members, decode);
    } else {
      r := ExtractResult(app.results, a, raw.members);
    }
  }

  // ---------------------------------------------------------------------------
  // What the failure branch promises
  // ---------------------------------------------------------------------------

  /** A failed call's error is returned, never raised, as a dict whose only key is `"error"`. */
  lemma FailureIsErrorObject(policy: ErrorPolicy, raw: seq<(string, Json)>, decode: string -> Decoded)
    ensures Failure(policy, raw, decode).Ok? ==>
      var v := Failure(policy, raw, decode).value;
      v.Obj? && |v.members| == 1 && v.members[0].0 == "error"
  {
  }

  /** The value whose `"error"` entry would be reshaped: the parsed string, or the message itself; none for an unparseable string. */
  function ErrorCarrier(m: Json, decode: string -> Decoded): Option<Json> {
    if !m.Str? then Some(m)
    else if decode(m.s).Parsed? then Some(decode(m.s).value)
    else None
  }

  /**
   * The parsing failure branch raises only where Python's `.get` meets a
   * non-dict: a `data` that is not a dict, or an error payload that is not one.
   */
  lemma ParsedFailureRaises(raw: seq<(string, Json)>, decode: string -> Decoded)
    ensures var data := GetOr(raw, "data", Obj([]));
            ParsedFailure(raw, decode).Err? <==>
              (!data.Obj? ||
               (var c := ErrorCarrier(GetOr(data.members, "message", Obj([])), decode);
                c.Some? && CarriesError(c.value) && !Lookup(c.value.members, "error").value.Obj?))
    ensures ParsedFailure(raw, decode).Err? ==> ParsedFailure(raw, decode).error == NotAMapping
  {
  }

  /**
   * With `data` a dict, the message decides: an unparseable string is the
   * error itself, a carrier of an error is reshaped, and anything else leaves
   * the raw result's own `"error"` in place.
   */
  lemma ParsedFailureCases(raw: seq<(string, Json)>, decode: string -> Decoded)
    requires GetOr(raw, "data", Obj([])).Obj?
    ensures var m := GetOr(GetOr(raw, "data", Obj([])).members, "message", Obj([]));
            var c := ErrorCarrier(m, decode);
            (c.None? ==> ParsedFailure(raw, decode) == Ok(Obj([("error", m)]))) &&
            (c.Some? && CarriesError(c.value) ==> ParsedFailure(raw, decode) == ErrorDetail(Lookup(c.value.members, "error").value)) &&
            (c.Some? && !CarriesError(c.value) ==> ParsedFailure(raw, decode) == Ok(PlainFailure(raw)))
  {
  }

  /**
   * A reshaped error keeps the payload's `code` and `message` when present
   * and supplies `"Unknown"` and `"No error message"` when not; no other
   * entry of the payload survives.
   */
  lemma ErrorDetailFields(e: Json)
    requires e.Obj?
    ensures ErrorDetail(e).Ok?
    ensures var d := ErrorDetail(e).value.members[0].1;
            d.Obj? && |d.members| == 2 && d.members[0].0 == "code" && d.members[1].0 == "message" &&
            (HasKey(e.members, "code") ==> Some(d.members[0].1) == Lookup(e.members, "code")) &&
            (!HasKey(e.members, "code") ==> d.members[0].1 == Str("Unknown")) &&
            (HasKey(e.members, "message") ==> Some(d.members[1].1) == Lookup(e.members, "message")) &&
            (!HasKey(e.members, "message") ==> d.members[1].1 == Str("No error message"))
  {
  }

  /** The plain policy never raises and passes the raw `"error"` through, even when it is `None`. */
  lemma PlainFailureKeepsRawError(raw: seq<(string, Json)>, decode: string -> Decoded)
    ensures Failure(PlainError, raw, decode).Ok?
    ensures HasKey(raw, "error") ==> Some(Failure(PlainError, raw, decode).value.members[0].1) == Lookup(raw, "error")
    ensures !HasKey(raw, "error") ==> Failure(PlainError, raw, decode).value.members[0].1 == Str("No response")
  {
  }

  // ---------------------------------------------------------------------------
  // What the success branch promises
  // ---------------------------------------------------------------------------

  /** With a result field, a non-empty value found by the search is returned, whatever else `data` holds. */
  lemma SearchHitReturned(policy: ResultPolicy, a: ActionSpec, raw: seq<(string, Json)>)
    requires policy == SearchOrRaise || policy == SearchOrFirstValue
    requires a.getResultField && HasResultField(a)
    requires Hit(FindKey(GetOr(raw, "data", Arr([])), a.resultField.value))
    ensures Success(policy, a, raw) == Ok(FindKey(GetOr(raw, "data", Arr([])), a.resultField.value))
  {
  }

  /**
   * The search-or-raise policy raises `NotSingleKey` exactly for an action
   * that wants a result without naming one, on a dict without exactly one key;
   * otherwise it raises only where `len` or `.keys` cannot apply.
   */
  lemma SearchOrRaiseRaises(a: ActionSpec, raw: seq<(string, Json)>)
    ensures var data := GetOr(raw, "data", Arr([]));
            (Success(SearchOrRaise, a, raw).Err? && Success(SearchOrRaise, a, raw).error.NotSingleKey?) <==>
              (a.getResultField && !HasResultField(a) && data.Obj? && |data.members| != 1)
    ensures var data := GetOr(raw, "data", Arr([]));
            Success(SearchOrRaise, a, raw).Err? ==> Searched(a, data).None? && (Len(data).None? || (a.getResultField && !HasResultField(a)))
  {
  }

  /**
   * Under every policy, "Expected a dict with a single key" is raised only
   * for an action that asks for a result without naming its field.
   */
  lemma SingleKeyErrorNeedsUnnamedField(app: App, a: ActionSpec, raw: Json, decode: string -> Decoded)
    ensures var r := Response(app, a, raw, decode);
            r.Err? && r.error.NotSingleKey? ==> a.getResultField && !HasResultField(a)
  {
    if raw.Obj? {
      ParsedFailureRaises(raw.members, decode);
    }
  }

  /** Without a hit, the search-or-raise policy returns the whole `data` when it does not raise. */
  lemma SearchOrRaiseFallsBack(a: ActionSpec, raw: seq<(string, Json)>)
    requires Searched(a, GetOr(raw, "data", Arr([]))).None?
    ensures Success(SearchOrRaise, a, raw).Ok? ==> Success(SearchOrRaise, a, raw).value == GetOr(raw, "data", Arr([]))
  {
  }

  /**
   * The first-value policy never raises; without a hit it returns a non-empty
   * dict as the one-element list of its first entry's value, whatever its key
   * count, and any other data as it is.
   */
  lemma FirstValueNeverRaises(a: ActionSpec, raw: seq<(string, Json)>)
    ensures Success(SearchOrFirstValue, a, raw).Ok?
    ensures var data := GetOr(raw, "data", Arr([]));
            Searched(a, data).None? ==>
              (data.Obj? && |data.members| > 0 ==> Success(SearchOrFirstValue, a, raw).value == Arr([data.members[0].1])) &&
              (!(data.Obj? && |data.members| > 0) ==> Success(SearchOrFirstValue, a, raw).value == data)
  {
  }

  /**
   * The top-level policy looks only at `data`'s own entries: a present result
   * field is returned even when empty, a missing one gives back all of `data`.
   */
  lemma TopLevelLookup(a: ActionSpec, raw: seq<(string, Json)>, data: seq<(string, Json)>)
    requires a.getResultField && HasResultField(a)
    requires HasKey(raw, "data") && Lookup(raw, "data") == Some(Obj(data))
    ensures HasKey(data, a.resultField.value) ==> TopLevel(a, raw) == Ok(Lookup(data, a.resultField.value).value)
    ensures !HasKey(data, a.resultField.value) ==> TopLevel(a, raw) == Ok(Obj(data))
  {
  }

  /** A successful Reddit call whose named field holds a value with a length returns that value, empty or not. */
  lemma TopLevelFieldAnswered(app: App, a: ActionSpec, data: seq<(string, Json)>, field: string, v: Json,
                               decode: string -> Decoded)
    requires app.results == TopLevelOrRaise && a.getResultField && a.resultField == Some(field) && field != ""
    requires Lookup(data, field) == Some(v) && Len(v).Some?
    ensures Response(app, a, Answered(Obj(data)), decode) == Ok(v)
  {
    AnsweredEntries(Obj(data));
    TopLevelLookup(a, Answered(Obj(data)).members, data);
  }

  /** Looking up among the top-level entries of `data`, a successful call whose `data` is `None` raises. */
  lemma TopLevelNullRaises(app: App, a: ActionSpec, decode: string -> Decoded)
    requires app.results == TopLevelOrRaise
    ensures Response(app, a, Answered(Null), decode).Err?
  {
    AnsweredEntries(Null);
  }

  /** With the raw-error and verbatim-data policies every dict result is answered, never raised. */
  lemma PlainVerbatimResponse(app: App, a: ActionSpec, raw: seq<(string, Json)>, decode: string -> Decoded)
    requires app.errors == PlainError && app.results == DataVerbatim
    ensures Response(app, a, Obj(raw), decode) ==
            Ok(if Succeeded(raw) then GetOr(raw, "data", Arr([])) else PlainFailure(raw))
  {
  }

  /** Reddit with `data` absent: `{}.get(result_field, [])` is `[]`. */
  lemma TopLevelNoData(a: ActionSpec, raw: seq<(string, Json)>)
    requires a.getResultField && HasResultField(a) && !HasKey(raw, "data")
    ensures TopLevel(a, raw) == Ok(Arr([]))
    ensures Success(TopLevelOrRaise, a, raw) == Ok(Arr([]))
  {
  }

  /** An action with `get_result_field` false gets `data` back unchanged whenever it has a length. */
  lemma NoResultFieldVerbatim(policy: ResultPolicy, a: ActionSpec, raw: seq<(string, Json)>)
    requires !a.getResultField && policy != SearchOrFirstValue
    requires var data := GetOr(raw, "data", if policy == TopLevelOrRaise then Obj([]) else Arr([]));
             Len(data).Some? || policy == DataVerbatim
    ensures Success(policy, a, raw) == Ok(GetOr(raw, "data", if policy == TopLevelOrRaise then Obj([]) else Arr([])))
  {
  }
}
