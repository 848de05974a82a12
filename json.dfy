/**
 * JSON values as the dispatch engine sees them: Python's `None`, `bool`,
 * `int`, `str`, `list` and `dict`. A `dict` is kept as its list of entries in
 * insertion order, because the engine's result search and its "first key"
 * fallback both depend on that order.
 */
module Json {
  import opened Wrappers

  datatype Json =
    | Null
    | Bool(b: bool)
    | Int(i: int)
    | Str(s: string)
    | Arr(items: seq<Json>)
    | Obj(members: seq<(string, Json)>)

  /** Python's truth value `bool(v)`: empty containers, `0`, `""`, `False` and `None` are false. */
  predicate Truthy(v: Json) {
    match v
    case Null => false
    case Bool(b) => b
    case Int(i) => i != 0
    case Str(s) => s != ""
    case Arr(xs) => xs != []
    case Obj(ms) => ms != []
  }

  /** `key in d` for a dict with entries `ms`. */
  predicate HasKey(ms: seq<(string, Json)>, key: string) {
    exists i :: 0 <= i < |ms| && ms[i].0 == key
  }

  /** `d[key]` when present: the value of the first entry with that key. */
  function Lookup(ms: seq<(string, Json)>, key: string): (r: Option<Json>)
    ensures r.Some? <==> HasKey(ms, key)
    ensures r.Some? ==> exists i :: 0 <= i < |ms| && ms[i] == (key, r.value) &&
                                    forall j :: 0 <= j < i ==> ms[j].0 != key
  {
    if |ms| == 0 then None
    else if ms[0].0 == key then Some(ms[0].1)
    else
      var r := Lookup(ms[1..], key);
      assert HasKey(ms[1..], key) ==> HasKey(ms, key) by {
        if HasKey(ms[1..], key) {
          var i :| 0 <= i < |ms[1..]| && ms[1..][i].0 == key;
          assert ms[i + 1].0 == key;
        }
      }
      assert HasKey(ms, key) ==> HasKey(ms[1..], key) by {
        if HasKey(ms, key) {
          var i :| 0 <= i < |ms| && ms[i].0 == key;
          assert i != 0 && ms[1..][i - 1].0 == key;
        }
      }
      if r.Some? then
        var i :| 0 <= i < |ms[1..]| && ms[1..][i] == (key, r.value) &&
                 forall j :: 0 <= j < i ==> ms[1..][j].0 != key;
        assert ms[i + 1] == (key, r.value);
        assert forall j :: 0 <= j < i + 1 ==> ms[j].0 != key by {
          forall j | 0 <= j < i + 1 ensures ms[j].0 != key {
            if j > 0 { assert ms[j] == ms[1..][j - 1]; }
          }
        }
        r
      else r
  }

  /** `d.get(key, default)`. */
  function GetOr(ms: seq<(string, Json)>, key: string, default: Json): (r: Json)
    ensures !HasKey(ms, key) ==> r == default
    ensures HasKey(ms, key) ==> Some(r) == Lookup(ms, key)
  {
    match Lookup(ms, key)
    case Some(v) => v
    case None => default
  }

  /** `len(v)`; `None` where Python raises `TypeError` (null, booleans, integers). */
  function Len(v: Json): (r: Option<nat>)
    ensures r.Some? <==> (v.Str? || v.Arr? || v.Obj?)
    ensures v.Str? ==> r == Some(|v.s|)
    ensures v.Arr? ==> r == Some(|v.items|)
    ensures v.Obj? ==> r == Some(|v.members|)
  {
    match v
    case Str(s) => Some(|s|)
    case Arr(xs) => Some(|xs|)
    case Obj(ms) => Some(|ms|)
    case _ => None
  }
}
