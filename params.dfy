/**
 * The parameter builder of `execute_action`: walks the selected action's
 * `action_fields` in order, reads each field's current value, drops unset
 * values, applies the list split and the boolean cast, and stores the value
 * under the field's name with the action-key prefix removed.
 */
module Params {
  import opened Wrappers
  import opened Json
  import opened Errors
  import opened Catalog
  import PyStr

  /** A value the builder sends: anything but `None` and `""` (so `False` and `0` are sent). */
  predicate Present(v: Json) {
    v != Null && v != Str("")
  }

  /** The field has a value on the component and that value is sent. */
  predicate IsSet(values: map<string, Json>, field: string) {
    field in values && Present(values[field])
  }

  /** The stored parameter name: `field.replace(action_key + "_", "")`. */
  function ParamName(key: string, field: string): string {
    PyStr.RemoveAll(field, key + "_")
  }

  function StrList(ss: seq<string>): (r: seq<Json>)
    ensures |r| == |ss| && forall i :: 0 <= i < |ss| ==> r[i] == Str(ss[i])
  {
    seq(|ss|, i requires 0 <= i < |ss| => Str(ss[i]))
  }

  /**
   * The value sent for a field that is set: a list field holding a non-empty
   * string becomes the list of its stripped comma-separated pieces (any other
   * truthy value has no `.split`), then a boolean field is cast with `bool`.
   */
  function Coerce(app: App, field: string, v: Json): Result<Json, Cause> {
    var split :=
      if field in app.listVars && Truthy(v) then
        if v.Str? then Ok(Arr(StrList(PyStr.SplitStrip(v.s, ',')))) else Err(NotSplittable(field))
      else Ok(v);
    match split
    case Err(e) => Err(e)
    case Ok(w) => Ok(if field in app.boolVars then Bool(Truthy(w)) else w)
  }

  /** A field stops the builder: the component has no such attribute, or its set value cannot be split. */
  predicate Fails(app: App, values: map<string, Json>, field: string) {
    field !in values || (Present(values[field]) && Coerce(app, field, values[field]).Err?)
  }

  function FailCause(app: App, values: map<string, Json>, field: string): Cause
    requires Fails(app, values, field)
  {
    if field !in values then MissingField(field) else Coerce(app, field, values[field]).error
  }

  /** One iteration of the loop over `action_fields`. */
  function Step(app: App, key: string, values: map<string, Json>, acc: map<string, Json>, field: string)
    : Result<map<string, Json>, Cause>
  {
    if field !in values then Err(MissingField(field))
    else if !Present(values[field]) then Ok(acc)
    else match Coerce(app, field, values[field])
      case Err(e) => Err(e)
      case Ok(c) => Ok(acc[ParamName(key, field) := c])
  }

  /** The loop over `fields`, starting from the parameters `acc` built so far. */
  function Fold(app: App, key: string, values: map<string, Json>, acc: map<string, Json>, fields: seq<string>)
    : Result<map<string, Json>, Cause>
    decreases |fields|
  {
    if |fields| == 0 then Ok(acc)
    else match Step(app, key, values, acc, fields[0])
      case Err(e) => Err(e)
      case Ok(next) => Fold(app, key, values, next, fields[1..])
  }

  /** The parameters built for action `a`. */
  function ParamsOf(app: App, a: ActionSpec, values: map<string, Json>): Result<map<string, Json>, Cause> {
    Fold(app, a.key, values, map[], Fields(a))
  }

  // ---------------------------------------------------------------------------
  // What the builder computes
  // ---------------------------------------------------------------------------

  /** The builder fails exactly when some field fails, and then with the cause of the first one. */
  lemma {:induction false} FoldFailsAtFirstFailure(app: App, key: string, values: map<string, Json>,
                                                   acc: map<string, Json>, fields: seq<string>)
    ensures Fold(app, key, values, acc, fields).Err? <==> exists j :: 0 <= j < |fields| && Fails(app, values, fields[j])
    ensures Fold(app, key, values, acc, fields).Err? ==>
      exists j :: 0 <= j < |fields| && Fails(app, values, fields[j]) &&
                  Fold(app, key, values, acc, fields).error == FailCause(app, values, fields[j]) &&
                  forall i :: 0 <= i < j ==> !Fails(app, values, fields[i])
    decreases |fields|
  {
    if |fields| > 0 {
      var s := Step(app, key, values, acc, fields[0]);
      if s.Ok? {
        assert !Fails(app, values, fields[0]);
        FoldFailsAtFirstFailure(app, key, values, s.value, fields[1..]);
        assert forall j :: 0 < j < |fields| ==> fields[j] == fields[1..][j - 1];
        if Fold(app, key, values, acc, fields).Err? {
          var j :| 0 <= j < |fields[1..]| && Fails(app, values, fields[1..][j]) &&
                   Fold(app, key, values, s.value, fields[1..]).error == FailCause(app, values, fields[1..][j]) &&
                   forall i :: 0 <= i < j ==> !Fails(app, values, fields[1..][i]);
          assert Fails(app, values, fields[j + 1]);
          assert forall i :: 0 <= i < j + 1 ==> !Fails(app, values, fields[i]) by {
            forall i | 0 <= i < j + 1 ensures !Fails(app, values, fields[i]) {
              if i > 0 { assert fields[i] == fields[1..][i - 1]; }
            }
          }
        } else {
          assert forall j :: 0 <= j < |fields| ==> !Fails(app, values, fields[j]) by {
            forall j | 0 <= j < |fields| ensures !Fails(app, values, fields[j]) {
              if j > 0 { assert fields[j] == fields[1..][j - 1]; }
            }
          }
        }
      } else {
        assert Fails(app, values, fields[0]);
      }
    }
  }

  /**
   * The parameter names are the names already built plus the stripped names
   * of exactly the fields whose value is set.
   */
  lemma {:induction false} FoldKeys(app: App, key: string, values: map<string, Json>,
                                    acc: map<string, Json>, fields: seq<string>)
    requires Fold(app, key, values, acc, fields).Ok?
    ensures forall k :: k in Fold(app, key, values, acc, fields).value <==>
      (k in acc || exists j :: 0 <= j < |fields| && IsSet(values, fields[j]) &&
                               ParamName(key, fields[j]) == k)
    decreases |fields|
  {
    if |fields| > 0 {
      var next := Step(app, key, values, acc, fields[0]).value;
      FoldKeys(app, key, values, next, fields[1..]);
      assert forall j :: 0 < j < |fields| ==> fields[j] == fields[1..][j - 1];
      forall k ensures k in Fold(app, key, values, acc, fields).value <==>
        (k in acc || exists j :: 0 <= j < |fields| && IsSet(values, fields[j]) &&
                                 ParamName(key, fields[j]) == k)
      {
        if exists j :: 0 <= j < |fields[1..]| && IsSet(values, fields[1..][j]) &&
                       ParamName(key, fields[1..][j]) == k {
          var j :| 0 <= j < |fields[1..]| && IsSet(values, fields[1..][j]) &&
                   ParamName(key, fields[1..][j]) == k;
          assert fields[j + 1] == fields[1..][j];
        }
        if exists j :: 0 <= j < |fields| && IsSet(values, fields[j]) &&
                       ParamName(key, fields[j]) == k {
          var j :| 0 <= j < |fields| && IsSet(values, fields[j]) &&
                   ParamName(key, fields[j]) == k;
          if j > 0 { assert fields[1..][j - 1] == fields[j]; }
        }
      }
    }
  }

  /** Distinct fields never strip to the same parameter name. */
  predicate NamesDistinct(key: string, fields: seq<string>) {
    forall i, j :: 0 <= i < j < |fields| ==> ParamName(key, fields[i]) != ParamName(key, fields[j])
  }

  /**
   * When no two fields strip to the same name, each set field's parameter
   * is its coerced value, and names built earlier keep their value.
   */
  lemma {:induction false} FoldValues(app: App, key: string, values: map<string, Json>,
                                      acc: map<string, Json>, fields: seq<string>)
    requires Fold(app, key, values, acc, fields).Ok? && NamesDistinct(key, fields)
    ensures forall j :: 0 <= j < |fields| && IsSet(values, fields[j]) ==>
      Coerce(app, fields[j], values[fields[j]]).Ok? && ParamName(key, fields[j]) in Fold(app, key, values, acc, fields).value &&
      Fold(app, key, values, acc, fields).value[ParamName(key, fields[j])] == Coerce(app, fields[j], values[fields[j]]).value
    ensures forall k :: k in acc && (forall j :: 0 <= j < |fields| && IsSet(values, fields[j]) ==> ParamName(key, fields[j]) != k) ==>
      k in Fold(app, key, values, acc, fields).value && Fold(app, key, values, acc, fields).value[k] == acc[k]
    decreases |fields|
  {
    if |fields| > 0 {
      FoldFailsAtFirstFailure(app, key, values, acc, fields);
      var next := Step(app, key, values, acc, fields[0]).value;
      var rest := fields[1..];
      assert NamesDistinct(key, rest) by {
        forall i, j | 0 <= i < j < |rest| ensures ParamName(key, rest[i]) != ParamName(key, rest[j]) {
          assert rest[i] == fields[i + 1] && rest[j] == fields[j + 1];
        }
      }
      FoldValues(app, key, values, next, rest);
      FoldKeys(app, key, values, next, rest);
      var p := Fold(app, key, values, acc, fields).value;
      assert p == Fold(app, key, values, next, rest).value;
      forall j | 0 <= j < |fields| && IsSet(values, fields[j])
        ensures Coerce(app, fields[j], values[fields[j]]).Ok? && ParamName(key, fields[j]) in p &&
                p[ParamName(key, fields[j])] == Coerce(app, fields[j], values[fields[j]]).value
      {
        assert !Fails(app, values, fields[j]);
        if j == 0 {
          var n0 := ParamName(key, fields[0]);
          assert n0 in next && next[n0] == Coerce(app, fields[0], values[fields[0]]).value;
          forall i | 0 <= i < |rest| && IsSet(values, rest[i]) ensures ParamName(key, rest[i]) != n0 {
            assert rest[i] == fields[i + 1];
          }
        } else {
          assert fields[j] == rest[j - 1];
        }
      }
      forall k | k in acc && (forall j :: 0 <= j < |fields| && IsSet(values, fields[j]) ==> ParamName(key, fields[j]) != k)
        ensures k in p && p[k] == acc[k]
      {
        assert k in next && next[k] == acc[k];
        forall i | 0 <= i < |rest| && IsSet(values, rest[i]) ensures ParamName(key, rest[i]) != k {
          assert rest[i] == fields[i + 1];
        }
      }
    }
  }

  /** The builder reads the values of the fields it walks and nothing else. */
  lemma {:induction false} FoldReadsOnlyItsFields(app: App, key: string, values: map<string, Json>,
                                                  values': map<string, Json>, acc: map<string, Json>, fields: seq<string>)
    requires forall j :: 0 <= j < |fields| ==>
      (fields[j] in values <==> fields[j] in values') && (fields[j] in values ==> values[fields[j]] == values'[fields[j]])
    ensures Fold(app, key, values, acc, fields) == Fold(app, key, values', acc, fields)
    decreases |fields|
  {
    if |fields| > 0 {
      assert Step(app, key, values, acc, fields[0]) == Step(app, key, values', acc, fields[0]);
      var s := Step(app, key, values, acc, fields[0]);
      if s.Ok? {
        assert forall j :: 0 < j < |fields| ==> fields[j] == fields[1..][j - 1];
        FoldReadsOnlyItsFields(app, key, values, values', s.value, fields[1..]);
      }
    }
  }

  // ---------------------------------------------------------------------------
  // The builder on a well-formed catalog
  // ---------------------------------------------------------------------------

  /**
   * For an action of a well-formed catalog, the built parameters are keyed by
   * exactly the params whose field is set, and each holds its field's coerced
   * value; nothing outside the action contributes.
   */
  lemma ParamsOfAction(app: App, i: nat, values: map<string, Json>)
    requires WellFormed(app) && i < |app.actions|
    requires ParamsOf(app, app.actions[i], values).Ok?
    ensures var a := app.actions[i];
            var p := ParamsOf(app, a, values).value;
            (forall k :: k in p <==> exists j :: 0 <= j < |a.params| && IsSet(values, Fields(a)[j]) && k == a.params[j]) &&
            (forall j :: 0 <= j < |a.params| && IsSet(values, Fields(a)[j]) ==>
               Coerce(app, Fields(a)[j], values[Fields(a)[j]]).Ok? &&
               p[a.params[j]] == Coerce(app, Fields(a)[j], values[Fields(a)[j]]).value)
  {
    var a := app.actions[i];
    var fs := Fields(a);
    forall j | 0 <= j < |a.params| ensures ParamName(a.key, fs[j]) == a.params[j] {
      ParamNameOfField(app.actions, i, j);
    }
    FoldFailsAtFirstFailure(app, a.key, values, map[], fs);
    assert forall j :: 0 <= j < |fs| ==> fs[j] in values;
    FoldKeys(app, a.key, values, map[], fs);
    FoldValues(app, a.key, values, map[], fs);
  }

  /**
   * The value sent for one field of a catalog action: a boolean field as
   * `bool(value)`, a list field's string as its stripped pieces, and any
   * other field as it is, under the field's param name.
   */
  lemma ParamOfField(app: App, i: nat, j: nat, values: map<string, Json>)
    requires WellFormed(app) && i < |app.actions| && j < |app.actions[i].params|
    requires ParamsOf(app, app.actions[i], values).Ok?
    requires IsSet(values, Fields(app.actions[i])[j])
    ensures var a := app.actions[i];
            var f := Fields(a)[j];
            var v := values[f];
            var p := ParamsOf(app, a, values).value;
            a.params[j] in p &&
            (f !in app.listVars && f !in app.boolVars ==> p[a.params[j]] == v) &&
            (f !in app.listVars && f in app.boolVars ==> p[a.params[j]] == Bool(Truthy(v))) &&
            (f in app.listVars && f !in app.boolVars && v.Str? ==> p[a.params[j]] == Arr(StrList(PyStr.SplitStrip(v.s, ','))))
  {
    ParamsOfAction(app, i, values);
  }

  /** A field whose value is `None` or `""` is not sent at all. */
  lemma UnsetFieldOmitted(app: App, i: nat, j: nat, values: map<string, Json>)
    requires WellFormed(app) && i < |app.actions| && j < |app.actions[i].params|
    requires ParamsOf(app, app.actions[i], values).Ok?
    requires !IsSet(values, Fields(app.actions[i])[j])
    ensures app.actions[i].params[j] !in ParamsOf(app, app.actions[i], values).value
  {
    ParamsOfAction(app, i, values);
  }

  /**
   * When every declared input can be read, building the parameters of a
   * catalog action fails only on a list field whose value cannot be split,
   * and never fails for an integration without list fields.
   */
  lemma ParamsOfFailsOnlyOnSplit(app: App, i: nat, values: map<string, Json>)
    requires AllDeclared(app.actions, app.inputs) && i < |app.actions|
    requires forall k :: 0 <= k < |app.inputs| ==> InputName(app.inputs[k]) in values
    ensures ParamsOf(app, app.actions[i], values).Err? ==> ParamsOf(app, app.actions[i], values).error.NotSplittable?
    ensures app.listVars == {} ==> ParamsOf(app, app.actions[i], values).Ok?
  {
    var a := app.actions[i];
    var fs := Fields(a);
    forall j | 0 <= j < |fs| ensures fs[j] in values {
      assert Declared(app.inputs, a.key, a.params[j]);
      var k :| 0 <= k < |app.inputs| && app.inputs[k].action == a.key && app.inputs[k].param == a.params[j];
      assert InputName(app.inputs[k]) == fs[j];
    }
    FoldFailsAtFirstFailure(app, a.key, values, map[], fs);
  }

  /** Building the parameters fails only with the component lacking a field or a list field that cannot be split. */
  lemma ParamsErrorIsFieldError(app: App, a: ActionSpec, values: map<string, Json>)
    ensures ParamsOf(app, a, values).Err? ==>
      ParamsOf(app, a, values).error.MissingField? || ParamsOf(app, a, values).error.NotSplittable?
  {
    FoldFailsAtFirstFailure(app, a.key, values, map[], Fields(a));
  }

  /** Building the parameters succeeds when every field can be read and none is a list field. */
  lemma ParamsOfSucceeds(app: App, a: ActionSpec, values: map<string, Json>)
    requires forall j :: 0 <= j < |a.params| ==> Fields(a)[j] in values && Fields(a)[j] !in app.listVars
    ensures ParamsOf(app, a, values).Ok?
  {
    FoldFailsAtFirstFailure(app, a.key, values, map[], Fields(a));
  }

  /** For a field that is neither a list nor a boolean field, the value passes through unchanged. */
  lemma CoercePlain(app: App, field: string, v: Json)
    requires field !in app.listVars && field !in app.boolVars
    ensures Coerce(app, field, v) == Ok(v)
  {
  }

  /** A boolean field (that is not a list field) is sent as `bool(value)`, whatever the raw value's type. */
  lemma CoerceBool(app: App, field: string, v: Json)
    requires field in app.boolVars && field !in app.listVars
    ensures Coerce(app, field, v) == Ok(Bool(Truthy(v)))
  {
  }

  /**
   * A list field holding a string is sent as the stripped pieces between its
   * commas: one more piece than there are commas, empty pieces kept.
   */
  lemma {:induction false} CoerceList(app: App, field: string, s: string)
    requires field in app.listVars && field !in app.boolVars && s != ""
    ensures Coerce(app, field, Str(s)).Ok?
    ensures var r := Coerce(app, field, Str(s)).value;
            r.Arr? && |r.items| == PyStr.Count(s, ',') + 1 &&
            forall k :: 0 <= k < |r.items| ==> r.items[k] == Str(PyStr.Strip(PyStr.Split(s, ',')[k]))
  {
    PyStr.SplitLength(s, ',');
  }

  // ---------------------------------------------------------------------------
  // The loop itself
  // ---------------------------------------------------------------------------

  /** `for field in action_fields: ... params[param_name] = value`, raising at the first failing field. */
  method BuildParams(app: App, key: string, fields: seq<string>, values: map<string, Json>)
    returns (r: Result<map<string, Json>, Cause>)
    ensures r == Fold(app, key, values, map[], fields)
  {
    var params: map<string, Json> := map[];
    var i := 0;
    while i < |fields|
      invariant 0 <= i <= |fields|
      invariant Fold(app, key, values, params, fields[i..]) == Fold(app, key, values, map[], fields)
    {
      assert fields[i..][0] == fields[i] && fields[i..][1..] == fields[i + 1..];
      var field := fields[i];
      if field !in values {
        return Err(MissingField(field));
      }
      var value := values[field];
      if value == Null || value == Str("") {
        i := i + 1;
        continue;
      }
      if field in app.listVars && Truthy(value) {
        if !value.Str? {
          return Err(NotSplittable(field));
        }
        value := Arr(StrList(PyStr.SplitStrip(value.s, ',')));
      }
      if field in app.boolVars {
        value := Bool(Truthy(value));
      }
      var paramName := PyStr.RemoveAll(field, key + "_");
      params := params[paramName := value];
      i := i + 1;
    }
    assert fields[i..] == [];
    return Ok(params);
  }
}
