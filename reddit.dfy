/**
 * The Reddit integration: its action catalog and inputs, and the engine
 * configured as its `execute_action` is: failures are reported as the raw
 * error, results are looked up among the top-level entries of `data`.
 */
module Reddit {
  import opened Wrappers
  import opened Json
  import opened Errors
  import opened Catalog
  import opened Params
  import opened Search
  import opened Normalize
  import opened Engine

  /** `_actions_data`: key, display name, the params of `action_fields`, `get_result_field`, `result_field`. */
  const Actions: seq<ActionSpec> := [
    ActionSpec("REDDIT_CREATE_REDDIT_POST", "Create Reddit Post",
      ["flair_id", "kind", "subreddit", "text", "title", "url"],
      true, Some("items")),
    ActionSpec("REDDIT_DELETE_REDDIT_COMMENT", "Delete Reddit Comment",
      ["id"],
      false, None),
    ActionSpec("REDDIT_DELETE_REDDIT_POST", "Delete Reddit Post",
      ["id"],
      false, None),
    ActionSpec("REDDIT_EDIT_REDDIT_COMMENT_OR_POST", "Edit Reddit Comment Or Post",
      ["text", "thing_id"],
      false, None),
    ActionSpec("REDDIT_GET_USER_FLAIR", "Get User Flair",
      ["subreddit"],
      true, Some("flair_list")),
    ActionSpec("REDDIT_POST_REDDIT_COMMENT", "Post Reddit Comment",
      ["text", "thing_id"],
      false, None),
    ActionSpec("REDDIT_RETRIEVE_POST_COMMENTS", "Retrieve Post Comments",
      ["article"],
      true, Some("comments")),
    ActionSpec("REDDIT_RETRIEVE_REDDIT_POST", "Retrieve Reddit Post",
      ["size", "subreddit"],
      true, Some("posts_list")),
    ActionSpec("REDDIT_RETRIEVE_SPECIFIC_COMMENT", "Retrieve Specific Comment",
      ["id"],
      true, Some("things")),
    ActionSpec("REDDIT_SEARCH_ACROSS_SUBREDDITS", "Search Across Subreddits",
      ["limit", "restrict_sr", "search_query", "sort"],
      true, Some("search_results"))
  ]

  /** `_bool_variables`. */
  const BoolVars: set<string> := {
    FieldName("REDDIT_SEARCH_ACROSS_SUBREDDITS", "restrict_sr")
  }

  /** `inputs` after the base inputs: the field each declares, its kind and its stated `value=`. */
  const Inputs: seq<InputSpec> :=
    CreateRedditPostInputs
    + DeleteRedditCommentInputs
    + DeleteRedditPostInputs
    + EditRedditCommentOrPostInputs
    + GetUserFlairInputs
    + PostRedditCommentInputs
    + RetrievePostCommentsInputs
    + RetrieveRedditPostInputs
    + RetrieveSpecificCommentInputs
    + SearchAcrossSubredditsInputs

  const CreateRedditPostInputs: seq<InputSpec> := [
    InputSpec("REDDIT_CREATE_REDDIT_POST", "flair_id", Text, None),
    InputSpec("REDDIT_CREATE_REDDIT_POST", "kind", Text, None),
    InputSpec("REDDIT_CREATE_REDDIT_POST", "subreddit", Text, None),
    InputSpec("REDDIT_CREATE_REDDIT_POST", "text", Text, None),
    InputSpec("REDDIT_CREATE_REDDIT_POST", "title", Text, None),
    InputSpec("REDDIT_CREATE_REDDIT_POST", "url", Text, None)
  ]

  const DeleteRedditCommentInputs: seq<InputSpec> := [
    InputSpec("REDDIT_DELETE_REDDIT_COMMENT", "id", Text, None)
  ]

  const DeleteRedditPostInputs: seq<InputSpec> := [
    InputSpec("REDDIT_DELETE_REDDIT_POST", "id", Text, None)
  ]

  const EditRedditCommentOrPostInputs: seq<InputSpec> := [
    InputSpec("REDDIT_EDIT_REDDIT_COMMENT_OR_POST", "text", Text, None),
    InputSpec("REDDIT_EDIT_REDDIT_COMMENT_OR_POST", "thing_id", Text, None)
  ]

  const GetUserFlairInputs: seq<InputSpec> := [
    InputSpec("REDDIT_GET_USER_FLAIR", "subreddit", Text, None)
  ]

  const PostRedditCommentInputs: seq<InputSpec> := [
    InputSpec("REDDIT_POST_REDDIT_COMMENT", "text", Text, None),
    InputSpec("REDDIT_POST_REDDIT_COMMENT", "thing_id", Text, None)
  ]

  const RetrievePostCommentsInputs: seq<InputSpec> := [
    InputSpec("REDDIT_RETRIEVE_POST_COMMENTS", "article", Text, None)
  ]

  const RetrieveRedditPostInputs: seq<InputSpec> := [
    InputSpec("REDDIT_RETRIEVE_REDDIT_POST", "size", Integer, Some(Int(5))),
    InputSpec("REDDIT_RETRIEVE_REDDIT_POST", "subreddit", Text, None)
  ]

  const RetrieveSpecificCommentInputs: seq<InputSpec> := [
    InputSpec("REDDIT_RETRIEVE_SPECIFIC_COMMENT", "id", Text, None)
  ]

  const SearchAcrossSubredditsInputs: seq<InputSpec> := [
    InputSpec("REDDIT_SEARCH_ACROSS_SUBREDDITS", "limit", Integer, Some(Int(5))),
    InputSpec("REDDIT_SEARCH_ACROSS_SUBREDDITS", "restrict_sr", Boolean, Some(Bool(true))),
    InputSpec("REDDIT_SEARCH_ACROSS_SUBREDDITS", "search_query", Text, None),
    InputSpec("REDDIT_SEARCH_ACROSS_SUBREDDITS", "sort", Text, Some(Str("relevance")))
  ]

  const Component: App := App(Actions, Inputs, BoolVars, {}, PlainError, TopLevelOrRaise)

  // ---------------------------------------------------------------------------
  // Catalog invariants
  // ---------------------------------------------------------------------------

  lemma DisplayNamesAreDistinct()
    ensures DisplayNamesDistinct(Actions)
  {
  }

  lemma KeysAreDistinct()
    ensures KeysDistinct(Actions)
  {
  }

  lemma KeysStartWithLead()
    ensures forall i :: 0 <= i < |Actions| ==> |Actions[i].key| > 0 && Actions[i].key[0] == 'R'
  {
  }

  lemma CreateRedditPostParamsAvoidLead()
    ensures forall j :: 0 <= j < |Actions[0].params| ==> 'R' !in Actions[0].params[j]
  {
  }

  lemma DeleteRedditCommentParamsAvoidLead()
    ensures forall j :: 0 <= j < |Actions[1].params| ==> 'R' !in Actions[1].params[j]
  {
  }

  lemma DeleteRedditPostParamsAvoidLead()
    ensures forall j :: 0 <= j < |Actions[2].params| ==> 'R' !in Actions[2].params[j]
  {
  }

  lemma EditRedditCommentOrPostParamsAvoidLead()
    ensures forall j :: 0 <= j < |Actions[3].params| ==> 'R' !in Actions[3].params[j]
  {
  }

  lemma GetUserFlairParamsAvoidLead()
    ensures forall j :: 0 <= j < |Actions[4].params| ==> 'R' !in Actions[4].params[j]
  {
  }

  lemma PostRedditCommentParamsAvoidLead()
    ensures forall j :: 0 <= j < |Actions[5].params| ==> 'R' !in Actions[5].params[j]
  {
  }

  lemma RetrievePostCommentsParamsAvoidLead()
    ensures forall j :: 0 <= j < |Actions[6].params| ==> 'R' !in Actions[6].params[j]
  {
  }

  lemma RetrieveRedditPostParamsAvoidLead()
    ensures forall j :: 0 <= j < |Actions[7].params| ==> 'R' !in Actions[7].params[j]
  {
  }

  lemma RetrieveSpecificCommentParamsAvoidLead()
    ensures forall j :: 0 <= j < |Actions[8].params| ==> 'R' !in Actions[8].params[j]
  {
  }

  lemma SearchAcrossSubredditsParamsAvoidLead()
    ensures forall j :: 0 <= j < |Actions[9].params| ==> 'R' !in Actions[9].params[j]
  {
  }

  lemma ParamsAvoidLead()
    ensures forall i, j :: 0 <= i < |Actions| && 0 <= j < |Actions[i].params| ==> 'R' !in Actions[i].params[j]
  {
    CreateRedditPostParamsAvoidLead();
    DeleteRedditCommentParamsAvoidLead();
    DeleteRedditPostParamsAvoidLead();
    EditRedditCommentOrPostParamsAvoidLead();
    GetUserFlairParamsAvoidLead();
    PostRedditCommentParamsAvoidLead();
    RetrievePostCommentsParamsAvoidLead();
    RetrieveRedditPostParamsAvoidLead();
    RetrieveSpecificCommentParamsAvoidLead();
    SearchAcrossSubredditsParamsAvoidLead();
    forall i, j | 0 <= i < |Actions| && 0 <= j < |Actions[i].params| ensures 'R' !in Actions[i].params[j] {
      assert i == 0 || i == 1 || i == 2 || i == 3 || i == 4 || i == 5 || i == 6 || i == 7 || i == 8 || i == 9;
    }
  }

  /** No param contains the first character of its action key, so stripping `<key>_` leaves the param. */
  lemma KeysAreLeadFree()
    ensures KeysLeadFree(Actions)
  {
    KeysStartWithLead();
    ParamsAvoidLead();
  }

  /** `_bool_variables` is a subset of `_all_fields`. */
  lemma BoolVarsAreFields()
    ensures BoolVars <= AllFields(Actions)
  {
    assert FieldName(Actions[9].key, Actions[9].params[1]) == FieldName("REDDIT_SEARCH_ACROSS_SUBREDDITS", "restrict_sr");
  }

  lemma CreateRedditPostFieldsDeclared()
    ensures forall j :: 0 <= j < |Actions[0].params| ==> Declared(Inputs, Actions[0].key, Actions[0].params[j])
  {
    forall j | 0 <= j < |Actions[0].params| ensures Declared(Inputs, Actions[0].key, Actions[0].params[j]) {
      if j == 0 { assert Inputs[0].action == Actions[0].key && Inputs[0].param == Actions[0].params[0]; }
      else if j == 1 { assert Inputs[1].action == Actions[0].key && Inputs[1].param == Actions[0].params[1]; }
      else if j == 2 { assert Inputs[2].action == Actions[0].key && Inputs[2].param == Actions[0].params[2]; }
      else if j == 3 { assert Inputs[3].action == Actions[0].key && Inputs[3].param == Actions[0].params[3]; }
      else if j == 4 { assert Inputs[4].action == Actions[0].key && Inputs[4].param == Actions[0].params[4]; }
      else { assert Inputs[5].action == Actions[0].key && Inputs[5].param == Actions[0].params[5]; }
    }
  }

  lemma DeleteRedditCommentFieldsDeclared()
    ensures forall j :: 0 <= j < |Actions[1].params| ==> Declared(Inputs, Actions[1].key, Actions[1].params[j])
  {
    forall j | 0 <= j < |Actions[1].params| ensures Declared(Inputs, Actions[1].key, Actions[1].params[j]) {
      { assert Inputs[6].action == Actions[1].key && Inputs[6].param == Actions[1].params[0]; }
    }
  }

  lemma DeleteRedditPostFieldsDeclared()
    ensures forall j :: 0 <= j < |Actions[2].params| ==> Declared(Inputs, Actions[2].key, Actions[2].params[j])
  {
    forall j | 0 <= j < |Actions[2].params| ensures Declared(Inputs, Actions[2].key, Actions[2].params[j]) {
      { assert Inputs[7].action == Actions[2].key && Inputs[7].param == Actions[2].params[0]; }
    }
  }

  lemma EditRedditCommentOrPostFieldsDeclared()
    ensures forall j :: 0 <= j < |Actions[3].params| ==> Declared(Inputs, Actions[3].key, Actions[3].params[j])
  {
    forall j | 0 <= j < |Actions[3].params| ensures Declared(Inputs, Actions[3].key, Actions[3].params[j]) {
      if j == 0 { assert Inputs[8].action == Actions[3].key && Inputs[8].param == Actions[3].params[0]; }
      else { assert Inputs[9].action == Actions[3].key && Inputs[9].param == Actions[3].params[1]; }
    }
  }

  lemma GetUserFlairFieldsDeclared()
    ensures forall j :: 0 <= j < |Actions[4].params| ==> Declared(Inputs, Actions[4].key, Actions[4].params[j])
  {
    forall j | 0 <= j < |Actions[4].params| ensures Declared(Inputs, Actions[4].key, Actions[4].params[j]) {
      { assert Inputs[10].action == Actions[4].key && Inputs[10].param == Actions[4].params[0]; }
    }
  }

  lemma PostRedditCommentFieldsDeclared()
    ensures forall j :: 0 <= j < |Actions[5].params| ==> Declared(Inputs, Actions[5].key, Actions[5].params[j])
  {
    forall j | 0 <= j < |Actions[5].params| ensures Declared(Inputs, Actions[5].key, Actions[5].params[j]) {
      if j == 0 { assert Inputs[11].action == Actions[5].key && Inputs[11].param == Actions[5].params[0]; }
      else { assert Inputs[12].action == Actions[5].key && Inputs[12].param == Actions[5].params[1]; }
    }
  }

  lemma RetrievePostCommentsFieldsDeclared()
    ensures forall j :: 0 <= j < |Actions[6].params| ==> Declared(Inputs, Actions[6].key, Actions[6].params[j])
  {
    forall j | 0 <= j < |Actions[6].params| ensures Declared(Inputs, Actions[6].key, Actions[6].params[j]) {
      { assert Inputs[13].action == Actions[6].key && Inputs[13].param == Actions[6].params[0]; }
    }
  }

  lemma RetrieveRedditPostFieldsDeclared()
    ensures forall j :: 0 <= j < |Actions[7].params| ==> Declared(Inputs, Actions[7].key, Actions[7].params[j])
  {
    forall j | 0 <= j < |Actions[7].params| ensures Declared(Inputs, Actions[7].key, Actions[7].params[j]) {
      if j == 0 { assert Inputs[14].action == Actions[7].key && Inputs[14].param == Actions[7].params[0]; }
      else { assert Inputs[15].action == Actions[7].key && Inputs[15].param == Actions[7].params[1]; }
    }
  }

  lemma RetrieveSpecificCommentFieldsDeclared()
    ensures forall j :: 0 <= j < |Actions[8].params| ==> Declared(Inputs, Actions[8].key, Actions[8].params[j])
  {
    forall j | 0 <= j < |Actions[8].params| ensures Declared(Inputs, Actions[8].key, Actions[8].params[j]) {
      { assert Inputs[16].action == Actions[8].key && Inputs[16].param == Actions[8].params[0]; }
    }
  }

  lemma SearchAcrossSubredditsFieldsDeclared()
    ensures forall j :: 0 <= j < |Actions[9].params| ==> Declared(Inputs, Actions[9].key, Actions[9].params[j])
  {
    forall j | 0 <= j < |Actions[9].params| ensures Declared(Inputs, Actions[9].key, Actions[9].params[j]) {
      if j == 0 { assert Inputs[17].action == Actions[9].key && Inputs[17].param == Actions[9].params[0]; }
      else if j == 1 { assert Inputs[18].action == Actions[9].key && Inputs[18].param == Actions[9].params[1]; }
      else if j == 2 { assert Inputs[19].action == Actions[9].key && Inputs[19].param == Actions[9].params[2]; }
      else { assert Inputs[20].action == Actions[9].key && Inputs[20].param == Actions[9].params[3]; }
    }
  }

  /** Every field of `_actions_data` is declared in `inputs`. */
  lemma EveryFieldDeclared()
    ensures AllDeclared(Actions, Inputs)
  {
    CreateRedditPostFieldsDeclared();
    DeleteRedditCommentFieldsDeclared();
    DeleteRedditPostFieldsDeclared();
    EditRedditCommentOrPostFieldsDeclared();
    GetUserFlairFieldsDeclared();
    PostRedditCommentFieldsDeclared();
    RetrievePostCommentsFieldsDeclared();
    RetrieveRedditPostFieldsDeclared();
    RetrieveSpecificCommentFieldsDeclared();
    SearchAcrossSubredditsFieldsDeclared();
    forall i, j | 0 <= i < |Actions| && 0 <= j < |Actions[i].params|
      ensures Declared(Inputs, Actions[i].key, Actions[i].params[j])
    {
      assert i == 0 || i == 1 || i == 2 || i == 3 || i == 4 || i == 5 || i == 6 || i == 7 || i == 8 || i == 9;
    }
  }

  lemma CreateRedditPostParamsDistinct()
    ensures Distinct(Actions[0].params)
  {
  }

  lemma DeleteRedditCommentParamsDistinct()
    ensures Distinct(Actions[1].params)
  {
  }

  lemma DeleteRedditPostParamsDistinct()
    ensures Distinct(Actions[2].params)
  {
  }

  lemma EditRedditCommentOrPostParamsDistinct()
    ensures Distinct(Actions[3].params)
  {
  }

  lemma GetUserFlairParamsDistinct()
    ensures Distinct(Actions[4].params)
  {
  }

  lemma PostRedditCommentParamsDistinct()
    ensures Distinct(Actions[5].params)
  {
  }

  lemma RetrievePostCommentsParamsDistinct()
    ensures Distinct(Actions[6].params)
  {
  }

  lemma RetrieveRedditPostParamsDistinct()
    ensures Distinct(Actions[7].params)
  {
  }

  lemma RetrieveSpecificCommentParamsDistinct()
    ensures Distinct(Actions[8].params)
  {
  }

  lemma SearchAcrossSubredditsParamsDistinct()
    ensures Distinct(Actions[9].params)
  {
  }

  /** No action lists a field twice. */
  lemma ParamsAreDistinct()
    ensures ParamsDistinct(Actions)
  {
    CreateRedditPostParamsDistinct();
    DeleteRedditCommentParamsDistinct();
    DeleteRedditPostParamsDistinct();
    EditRedditCommentOrPostParamsDistinct();
    GetUserFlairParamsDistinct();
    PostRedditCommentParamsDistinct();
    RetrievePostCommentsParamsDistinct();
    RetrieveRedditPostParamsDistinct();
    RetrieveSpecificCommentParamsDistinct();
    SearchAcrossSubredditsParamsDistinct();
    forall i | 0 <= i < |Actions| ensures Distinct(Actions[i].params) {
      assert i == 0 || i == 1 || i == 2 || i == 3 || i == 4 || i == 5 || i == 6 || i == 7 || i == 8 || i == 9;
    }
  }

  lemma ComponentIsWellFormed()
    ensures WellFormed(Component)
  {
    DisplayNamesAreDistinct();
    KeysAreDistinct();
    ParamsAreDistinct();
    KeysAreLeadFree();
    BoolVarsAreFields();
    EveryFieldDeclared();
  }

  // ---------------------------------------------------------------------------
  // Behaviour of the component
  // ---------------------------------------------------------------------------

  /** Every action that asks for a result field names one. */
  lemma ResultFieldWheneverAsked()
    ensures forall i :: 0 <= i < |Actions| && Actions[i].getResultField ==> HasResultField(Actions[i])
  {
  }

  /** So the "Expected a dict with a single key" error is unreachable. */
  lemma NeverSingleKeyError(ids: map<string, string>, values: map<string, Json>, sel: Selection,
                            toolset: Toolset, decode: string -> Decoded)
    ensures var o := Execute(Component, ids, values, sel, toolset, decode);
            !(o.Failed? && o.cause.NotSingleKey?)
  {
    ResultFieldWheneverAsked();
    NoSingleKeyErrorWhenFieldsNamed(Component, ids, values, sel, toolset, decode);
  }

  /** A failed call returns `{"error": result.get("error", "No response")}` and nothing from `data`. */
  lemma FailedCallReturnsRawError(i: nat, ids: map<string, string>, values: map<string, Json>, raw: seq<(string, Json)>,
                                  toolset: Toolset, decode: string -> Decoded)
    requires i < |Actions| && Actions[i].key in ids
    requires ParamsOf(Component, Actions[i], values).Ok?
    requires !Succeeded(raw)
    requires forall p: map<string, Json> :: toolset(ids[Actions[i].key], p) == Ok(Obj(raw))
    ensures Execute(Component, ids, values, Picked([Actions[i].displayName]), toolset, decode) ==
            Returned(Obj([("error", GetOr(raw, "error", Str("No response")))]))
  {
    DisplayNamesAreDistinct();
    KeysStartWithLead();
    SelectedActionAnswers(Component, ids, values, i, Obj(raw), toolset, decode);
  }

  /**
   * An action with a result field gets back that top-level entry of a dict
   * `data`, even an empty one, as long as it has a length.
   */
  lemma ResultFieldReturned(i: nat, ids: map<string, string>, values: map<string, Json>,
                            data: seq<(string, Json)>, field: string, v: Json,
                            toolset: Toolset, decode: string -> Decoded)
    requires i < |Actions| && Actions[i].getResultField && Actions[i].key in ids
    requires ParamsOf(Component, Actions[i], values).Ok?
    requires Actions[i].resultField == Some(field) && Lookup(data, field) == Some(v) && Len(v).Some?
    requires forall p: map<string, Json> :: toolset(ids[Actions[i].key], p) == Ok(Answered(Obj(data)))
    ensures Execute(Component, ids, values, Picked([Actions[i].displayName]), toolset, decode) == Returned(v)
  {
    ResultFieldWheneverAsked();
    TopLevelFieldAnswered(Component, Actions[i], data, field, v, decode);
    DisplayNamesAreDistinct();
    KeysStartWithLead();
    SelectedActionAnswers(Component, ids, values, i, Answered(Obj(data)), toolset, decode);
  }

  /**
   * A dict `data` without the result field comes back whole: "Retrieve
   * Reddit Post" answered with `{"result": "mocked response"}` returns it.
   */
  lemma MissingResultFieldReturnsData(i: nat, ids: map<string, string>, values: map<string, Json>, data: seq<(string, Json)>,
                                      toolset: Toolset, decode: string -> Decoded)
    requires i < |Actions| && Actions[i].getResultField && Actions[i].key in ids
    requires ParamsOf(Component, Actions[i], values).Ok?
    requires Actions[i].resultField.Some? && !HasKey(data, Actions[i].resultField.value)
    requires forall p: map<string, Json> :: toolset(ids[Actions[i].key], p) == Ok(Answered(Obj(data)))
    ensures Execute(Component, ids, values, Picked([Actions[i].displayName]), toolset, decode) == Returned(Obj(data))
  {
    ResultFieldWheneverAsked();
    AnsweredEntries(Obj(data));
    TopLevelLookup(Actions[i], Answered(Obj(data)).members, data);
    DisplayNamesAreDistinct();
    KeysStartWithLead();
    SelectedActionAnswers(Component, ids, values, i, Answered(Obj(data)), toolset, decode);
  }

  /** A successful call whose `data` is `None` raises for every action, with or without a result field. */
  lemma NullDataRaises(i: nat, ids: map<string, string>, values: map<string, Json>,
                       toolset: Toolset, decode: string -> Decoded)
    requires i < |Actions| && Actions[i].key in ids
    requires ParamsOf(Component, Actions[i], values).Ok?
    requires forall p: map<string, Json> :: toolset(ids[Actions[i].key], p) == Ok(Answered(Null))
    ensures Execute(Component, ids, values, Picked([Actions[i].displayName]), toolset, decode).Failed?
  {
    TopLevelNullRaises(Component, Actions[i], decode);
    DisplayNamesAreDistinct();
    KeysStartWithLead();
    SelectedActionAnswers(Component, ids, values, i, Answered(Null), toolset, decode);
  }
}
