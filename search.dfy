/**
 * `_find_key_recursively`: a depth-first search for a key through nested
 * dicts and lists. A dict that holds the key answers with that entry's value
 * (even `None`) without looking further inside it; otherwise its values, or a
 * list's items, are searched in order and the first non-`None` answer wins.
 */
module Search {
  import opened Wrappers
  import opened Json

  /** The search as written: the loops over `data.values()` and over a list's items. */
  function FindKey(data: Json, key: string): (r: Json)
    decreases data, 1, 0
  {
    match data
    case Obj(ms) =>
      if HasKey(ms, key) then Lookup(ms, key).value else FindInMembers(data, 0, key)
    case Arr(_) => FindInItems(data, 0, key)
    case _ => Null
  }

  /** `for v in list(data.values())[i:]: ...` */
  function FindInMembers(data: Json, i: nat, key: string): (r: Json)
    requires data.Obj? && i <= |data.members|
    decreases data, 0, |data.members| - i
  {
    if i == |data.members| then Null
    else
      assert data.members[i] in data.members;
      var found := FindKey(data.members[i].1, key);
      if found != Null then found else FindInMembers(data, i + 1, key)
  }

  /** `for item in data[i:]: ...` */
  function FindInItems(data: Json, i: nat, key: string): (r: Json)
    requires data.Arr? && i <= |data.items|
    decreases data, 0, |data.items| - i
  {
    if i == |data.items| then Null
    else
      var found := FindKey(data.items[i], key);
      if found != Null then found else FindInItems(data, i + 1, key)
  }

  // ---------------------------------------------------------------------------
  // Reference: every place the key answers, in depth-first order
  // ---------------------------------------------------------------------------

  /**
   * The answers the search can stop at, in the order it visits them: a dict
   * holding the key contributes its value and hides what is beneath it;
   * every other dict and list contributes what its children contribute.
   */
  function Hits(data: Json, key: string): seq<Json>
    decreases data, 1, 0
  {
    match data
    case Obj(ms) =>
      if HasKey(ms, key) then [Lookup(ms, key).value] else HitsInMembers(data, 0, key)
    case Arr(_) => HitsInItems(data, 0, key)
    case _ => []
  }

  function HitsInMembers(data: Json, i: nat, key: string): seq<Json>
    requires data.Obj? && i <= |data.members|
    decreases data, 0, |data.members| - i
  {
    if i == |data.members| then []
    else
      assert data.members[i] in data.members;
      Hits(data.members[i].1, key) + HitsInMembers(data, i + 1, key)
  }

  function HitsInItems(data: Json, i: nat, key: string): seq<Json>
    requires data.Arr? && i <= |data.items|
    decreases data, 0, |data.items| - i
  {
    if i == |data.items| then []
    else Hits(data.items[i], key) + HitsInItems(data, i + 1, key)
  }

  /** The first answer that is not `None`, or `None` when there is none. */
  function FirstNonNull(s: seq<Json>): (r: Json)
    ensures r == Null <==> forall k :: 0 <= k < |s| ==> s[k] == Null
    ensures r != Null ==> exists k :: 0 <= k < |s| && s[k] == r && forall m :: 0 <= m < k ==> s[m] == Null
  {
    if |s| == 0 then Null
    else if s[0] != Null then s[0]
    else
      var r := FirstNonNull(s[1..]);
      assert forall k :: 0 < k < |s| ==> s[k] == s[1..][k - 1];
      if r != Null then
        var k :| 0 <= k < |s[1..]| && s[1..][k] == r && forall m :: 0 <= m < k ==> s[1..][m] == Null;
        assert s[k + 1] == r;
        r
      else r
  }

  lemma {:induction false} FirstNonNullAppend(a: seq<Json>, b: seq<Json>)
    ensures FirstNonNull(a + b) == if FirstNonNull(a) != Null then FirstNonNull(a) else FirstNonNull(b)
    decreases |a|
  {
    if |a| > 0 {
      assert (a + b)[0] == a[0];
      assert (a + b)[1..] == a[1..] + b;
      FirstNonNullAppend(a[1..], b);
    } else {
      assert a + b == b;
    }
  }

  /**
   * Structural reference: some dict at any depth, under any other entry,
   * holds an entry `key: v`.
   */
  predicate Occurs(data: Json, key: string, v: Json)
    decreases data
  {
    match data
    case Obj(ms) =>
      exists i :: 0 <= i < |ms| && (ms[i] == (key, v) || OccursUnder(ms[i], key, v))
    case Arr(xs) => exists i :: 0 <= i < |xs| && Occurs(xs[i], key, v)
    case _ => false
  }

  /** The entry's value contains `key: v`. */
  predicate OccursUnder(m: (string, Json), key: string, v: Json)
    decreases m
  {
    Occurs(m.1, key, v)
  }

  // ---------------------------------------------------------------------------
  // The search finds the first non-null answer
  // ---------------------------------------------------------------------------

  /** The search returns the first answer in depth-first order that is not `None`. */
  lemma {:induction false} FindKeyIsFirstHit(data: Json, key: string)
    ensures FindKey(data, key) == FirstNonNull(Hits(data, key))
    ensures FindKey(data, key) != Null ==> Occurs(data, key, FindKey(data, key))
    decreases data, 1, 0
  {
    match data
    case Obj(ms) =>
      if !HasKey(ms, key) {
        MembersFirstHit(data, 0, key);
        var r := FindKey(data, key);
        if r != Null {
          var j :| 0 <= j < |ms| && Occurs(ms[j].1, key, r);
          assert OccursUnder(ms[j], key, r);
        }
      }
    case Arr(xs) =>
      ItemsFirstHit(data, 0, key);
    case _ =>
  }

  lemma {:induction false} MembersFirstHit(data: Json, i: nat, key: string)
    requires data.Obj? && i <= |data.members|
    ensures FindInMembers(data, i, key) == FirstNonNull(HitsInMembers(data, i, key))
    ensures FindInMembers(data, i, key) != Null ==>
              exists j :: i <= j < |data.members| && Occurs(data.members[j].1, key, FindInMembers(data, i, key))
    decreases data, 0, |data.members| - i
  {
    if i < |data.members| {
      assert data.members[i] in data.members;
      FindKeyIsFirstHit(data.members[i].1, key);
      MembersFirstHit(data, i + 1, key);
      FirstNonNullAppend(Hits(data.members[i].1, key), HitsInMembers(data, i + 1, key));
    }
  }

  lemma {:induction false} ItemsFirstHit(data: Json, i: nat, key: string)
    requires data.Arr? && i <= |data.items|
    ensures FindInItems(data, i, key) == FirstNonNull(HitsInItems(data, i, key))
    ensures FindInItems(data, i, key) != Null ==>
              exists j :: i <= j < |data.items| && Occurs(data.items[j], key, FindInItems(data, i, key))
    decreases data, 0, |data.items| - i
  {
    if i < |data.items| {
      FindKeyIsFirstHit(data.items[i], key);
      ItemsFirstHit(data, i + 1, key);
      FirstNonNullAppend(Hits(data.items[i], key), HitsInItems(data, i + 1, key));
    }
  }

  /**
   * What the search promises, against the structural reference: a value it
   * returns other than `None` sits under the key somewhere in `data`, so a
   * key that occurs nowhere makes it return `None`.
   */
  lemma FindKeyCharacterized(data: Json, key: string)
    ensures FindKey(data, key) != Null ==> Occurs(data, key, FindKey(data, key))
    ensures (forall v :: !Occurs(data, key, v)) ==> FindKey(data, key) == Null
  {
    FindKeyIsFirstHit(data, key);
  }

  /**
   * The converse fails: a dict holding the key with `None` hides a value
   * beneath it, so `{"k": None, "x": {"k": 1}}` finds `None` under `"k"`.
   */
  lemma NullEntryHidesDeeperValue()
    ensures var d := Obj([("k", Null), ("x", Obj([("k", Int(1))]))]);
            Occurs(d, "k", Int(1)) && FindKey(d, "k") == Null
  {
    var inner := Obj([("k", Int(1))]);
    var d := Obj([("k", Null), ("x", inner)]);
    assert inner.members[0] == ("k", Int(1));
    assert Occurs(inner, "k", Int(1));
    assert OccursUnder(d.members[1], "k", Int(1));
    assert d.members[0].0 == "k";
  }

  /** A scalar never answers, and a dict holding the key answers with that entry. */
  lemma FindKeyAtTop(data: Json, key: string)
    ensures !data.Obj? && !data.Arr? ==> FindKey(data, key) == Null
    ensures data.Obj? && HasKey(data.members, key) ==> Some(FindKey(data, key)) == Lookup(data.members, key)
  {
  }

  /**
   * A dict without the key that wraps a single value answers as that value
   * does: `{"data": {"task": t}}` finds `t` under `"task"`.
   */
  lemma FindKeyThroughWrapper(name: string, v: Json, key: string)
    requires name != key
    ensures FindKey(Obj([(name, v)]), key) == FindKey(v, key)
  {
    var d := Obj([(name, v)]);
    assert !HasKey(d.members, key);
    assert FindInMembers(d, 1, key) == Null;
  }
}
