/**
 * The Discord bot integration: its action catalog and inputs, and the
 * engine configured as its `execute_action` is: list fields are split on
 * commas, failures are reported as the raw error, and `data` is returned
 * as it comes.
 */
module Discord {
  import opened Wrappers
  import opened Json
  import opened Errors
  import opened Catalog
  import opened Params
  import opened Search
  import opened Normalize
  import opened Engine

  /** `_actions_data`: key, display name, the params of `action_fields`, `get_result_field`, `result_field`. */
  const Actions: seq<ActionSpec> := [
    ActionSpec("DISCORDBOT_ADD_GUILD_MEMBER_ROLE", "Assign role to guild member",
      ["guild_id", "role_id", "user_id"],
      false, None),
    ActionSpec("DISCORDBOT_CREATE_DM", "Initiate user channel with recipient",
      ["access_tokens", "nicks", "recipient_id"],
      false, None),
    ActionSpec("DISCORDBOT_CREATE_GUILD", "Create new guild object",
      ["afk_channel_id", "afk_timeout", "channels", "default_message_notifications", "description", "explicit_content_filter", "icon", "name", "preferred_locale", "region", "roles", "system_channel_flags", "system_channel_id", "verification_level"],
      false, None),
    ActionSpec("DISCORDBOT_DELETE_GUILD_MEMBER_ROLE", "Delete guild member role",
      ["guild_id", "role_id", "user_id"],
      false, None),
    ActionSpec("DISCORDBOT_GET_USER", "Retrieve user by id",
      ["user_id"],
      false, None),
    ActionSpec("DISCORDBOT_LIST_GUILD_MEMBERS", "Get guild members",
      ["after", "guild_id", "limit"],
      false, None)
  ]

  /** `_bool_variables`. */
  const BoolVars: set<string> := {}

  /** `_list_variables`. */
  const ListVars: set<string> := {
    FieldName("DISCORDBOT_CREATE_DM", "access_tokens"),
    FieldName("DISCORDBOT_CREATE_GUILD", "roles")
  }

  /** `inputs` after the base inputs: the field each declares, its kind and its stated `value=`. */
  const Inputs: seq<InputSpec> :=
    DeleteGuildMemberRoleInputs
    + ListGuildMembersInputs
    + GetUserInputs
    + CreateDmInputs
    + AddGuildMemberRoleInputs
    + CreateGuildInputs

  const DeleteGuildMemberRoleInputs: seq<InputSpec> := [
    InputSpec("DISCORDBOT_DELETE_GUILD_MEMBER_ROLE", "guild_id", Text, None),
    InputSpec("DISCORDBOT_DELETE_GUILD_MEMBER_ROLE", "role_id", Text, None),
    InputSpec("DISCORDBOT_DELETE_GUILD_MEMBER_ROLE", "user_id", Text, None)
  ]

  const ListGuildMembersInputs: seq<InputSpec> := [
    InputSpec("DISCORDBOT_LIST_GUILD_MEMBERS", "after", Integer, None),
    InputSpec("DISCORDBOT_LIST_GUILD_MEMBERS", "guild_id", Text, None),
    InputSpec("DISCORDBOT_LIST_GUILD_MEMBERS", "limit", Integer, None)
  ]

  const GetUserInputs: seq<InputSpec> := [
    InputSpec("DISCORDBOT_GET_USER", "user_id", Text, None)
  ]

  const CreateDmInputs: seq<InputSpec> := [
    InputSpec("DISCORDBOT_CREATE_DM", "access_tokens", Text, None),
    InputSpec("DISCORDBOT_CREATE_DM", "nicks", Text, None),
    InputSpec("DISCORDBOT_CREATE_DM", "recipient_id", Text, None)
  ]

  const AddGuildMemberRoleInputs: seq<InputSpec> := [
    InputSpec("DISCORDBOT_ADD_GUILD_MEMBER_ROLE", "guild_id", Text, None),
    InputSpec("DISCORDBOT_ADD_GUILD_MEMBER_ROLE", "role_id", Text, None),
    InputSpec("DISCORDBOT_ADD_GUILD_MEMBER_ROLE", "user_id", Text, None)
  ]

  const CreateGuildInputs: seq<InputSpec> := [
    InputSpec("DISCORDBOT_CREATE_GUILD", "afk_channel_id", Text, None),
    InputSpec("DISCORDBOT_CREATE_GUILD", "afk_timeout", Text, None),
    InputSpec("DISCORDBOT_CREATE_GUILD", "channels", Text, None),
    InputSpec("DISCORDBOT_CREATE_GUILD", "default_message_notifications", Text, None),
    InputSpec("DISCORDBOT_CREATE_GUILD", "description", Text, None),
    InputSpec("DISCORDBOT_CREATE_GUILD", "explicit_content_filter", Text, None),
    InputSpec("DISCORDBOT_CREATE_GUILD", "icon", Text, None),
    InputSpec("DISCORDBOT_CREATE_GUILD", "name", Text, None),
    InputSpec("DISCORDBOT_CREATE_GUILD", "preferred_locale", Text, None),
    InputSpec("DISCORDBOT_CREATE_GUILD", "region", Text, None),
    InputSpec("DISCORDBOT_CREATE_GUILD", "roles", Text, None),
    InputSpec("DISCORDBOT_CREATE_GUILD", "system_channel_flags", Integer, None),
    InputSpec("DISCORDBOT_CREATE_GUILD", "system_channel_id", Text, None),
    InputSpec("DISCORDBOT_CREATE_GUILD", "verification_level", Text, None)
  ]

  const Component: App := App(Actions, Inputs, BoolVars, ListVars, PlainError, DataVerbatim)

  // ---------------------------------------------------------------------------
  // Catalog invariants
  // ---------------------------------------------------------------------------

  lemma DisplayNamesAreDistinct()
    ensures DisplayNamesDistinct(Actions)
  {
  }

  lemma KeysAreDistinct()
    ensures KeysDistinct(Actions)
  {
  }

  lemma KeysStartWithLead()
    ensures forall i :: 0 <= i < |Actions| ==> |Actions[i].key| > 0 && Actions[i].key[0] == 'D'
  {
  }

  lemma AddGuildMemberRoleParamsAvoidLead()
    ensures forall j :: 0 <= j < |Actions[0].params| ==> 'D' !in Actions[0].params[j]
  {
  }

  lemma CreateDmParamsAvoidLead()
    ensures forall j :: 0 <= j < |Actions[1].params| ==> 'D' !in Actions[1].params[j]
  {
  }

  lemma CreateGuildParamsAvoidLead()
    ensures forall j :: 0 <= j < |Actions[2].params| ==> 'D' !in Actions[2].params[j]
  {
  }

  lemma DeleteGuildMemberRoleParamsAvoidLead()
    ensures forall j :: 0 <= j < |Actions[3].params| ==> 'D' !in Actions[3].params[j]
  {
  }

  lemma GetUserParamsAvoidLead()
    ensures forall j :: 0 <= j < |Actions[4].params| ==> 'D' !in Actions[4].params[j]
  {
  }

  lemma ListGuildMembersParamsAvoidLead()
    ensures forall j :: 0 <= j < |Actions[5].params| ==> 'D' !in Actions[5].params[j]
  {
  }

  lemma ParamsAvoidLead()
    ensures forall i, j :: 0 <= i < |Actions| && 0 <= j < |Actions[i].params| ==> 'D' !in Actions[i].params[j]
  {
    AddGuildMemberRoleParamsAvoidLead();
    CreateDmParamsAvoidLead();
    CreateGuildParamsAvoidLead();
    DeleteGuildMemberRoleParamsAvoidLead();
    GetUserParamsAvoidLead();
    ListGuildMembersParamsAvoidLead();
    forall i, j | 0 <= i < |Actions| && 0 <= j < |Actions[i].params| ensures 'D' !in Actions[i].params[j] {
      assert i == 0 || i == 1 || i == 2 || i == 3 || i == 4 || i == 5;
    }
  }

  /** No param contains the first character of its action key, so stripping `<key>_` leaves the param. */
  lemma KeysAreLeadFree()
    ensures KeysLeadFree(Actions)
  {
    KeysStartWithLead();
    ParamsAvoidLead();
  }

  /** `_bool_variables` is a subset of `_all_fields`. */
  lemma BoolVarsAreFields()
    ensures BoolVars <= AllFields(Actions)
  {
  }

  /** `_list_variables` is a subset of `_all_fields`. */
  lemma ListVarsAreFields()
    ensures ListVars <= AllFields(Actions)
  {
    assert FieldName(Actions[1].key, Actions[1].params[0]) == FieldName("DISCORDBOT_CREATE_DM", "access_tokens");
    assert FieldName(Actions[2].key, Actions[2].params[10]) == FieldName("DISCORDBOT_CREATE_GUILD", "roles");
  }

  lemma AddGuildMemberRoleFieldsDeclared()
    ensures forall j :: 0 <= j < |Actions[0].params| ==> Declared(Inputs, Actions[0].key, Actions[0].params[j])
  {
    forall j | 0 <= j < |Actions[0].params| ensures Declared(Inputs, Actions[0].key, Actions[0].params[j]) {
      if j == 0 { assert Inputs[10].action == Actions[0].key && Inputs[10].param == Actions[0].params[0]; }
      else if j == 1 { assert Inputs[11].action == Actions[0].key && Inputs[11].param == Actions[0].params[1]; }
      else { assert Inputs[12].action == Actions[0].key && Inputs[12].param == Actions[0].params[2]; }
    }
  }

  lemma CreateDmFieldsDeclared()
    ensures forall j :: 0 <= j < |Actions[1].params| ==> Declared(Inputs, Actions[1].key, Actions[1].params[j])
  {
    forall j | 0 <= j < |Actions[1].params| ensures Declared(Inputs, Actions[1].key, Actions[1].params[j]) {
      if j == 0 { assert Inputs[7].action == Actions[1].key && Inputs[7].param == Actions[1].params[0]; }
      else if j == 1 { assert Inputs[8].action == Actions[1].key && Inputs[8].param == Actions[1].params[1]; }
      else { assert Inputs[9].action == Actions[1].key && Inputs[9].param == Actions[1].params[2]; }
    }
  }

  lemma CreateGuildFieldsDeclared()
    ensures forall j :: 0 <= j < |Actions[2].params| ==> Declared(Inputs, Actions[2].key, Actions[2].params[j])
  {
    forall j | 0 <= j < |Actions[2].params| ensures Declared(Inputs, Actions[2].key, Actions[2].params[j]) {
      if j == 0 { assert Inputs[13].action == Actions[2].key && Inputs[13].param == Actions[2].params[0]; }
      else if j == 1 { assert Inputs[14].action == Actions[2].key && Inputs[14].param == Actions[2].params[1]; }
      else if j == 2 { assert Inputs[15].action == Actions[2].key && Inputs[15].param == Actions[2].params[2]; }
      else if j == 3 { assert Inputs[16].action == Actions[2].key && Inputs[16].param == Actions[2].params[3]; }
      else if j == 4 { assert Inputs[17].action == Actions[2].key && Inputs[17].param == Actions[2].params[4]; }
      else if j == 5 { assert Inputs[18].action == Actions[2].key && Inputs[18].param == Actions[2].params[5]; }
      else if j == 6 { assert Inputs[19].action == Actions[2].key && Inputs[19].param == Actions[2].params[6]; }
      else if j == 7 { assert Inputs[20].action == Actions[2].key && Inputs[20].param == Actions[2].params[7]; }
      else if j == 8 { assert Inputs[21].action == Actions[2].key && Inputs[21].param == Actions[2].params[8]; }
      else if j == 9 { assert Inputs[22].action == Actions[2].key && Inputs[22].param == Actions[2].params[9]; }
      else if j == 10 { assert Inputs[23].action == Actions[2].key && Inputs[23].param == Actions[2].params[10]; }
      else if j == 11 { assert Inputs[24].action == Actions[2].key && Inputs[24].param == Actions[2].params[11]; }
      else if j == 12 { assert Inputs[25].action == Actions[2].key && Inputs[25].param == Actions[2].params[12]; }
      else { assert Inputs[26].action == Actions[2].key && Inputs[26].param == Actions[2].params[13]; }
    }
  }

  lemma DeleteGuildMemberRoleFieldsDeclared()
    ensures forall j :: 0 <= j < |Actions[3].params| ==> Declared(Inputs, Actions[3].key, Actions[3].params[j])
  {
    forall j | 0 <= j < |Actions[3].params| ensures Declared(Inputs, Actions[3].key, Actions[3].params[j]) {
      if j == 0 { assert Inputs[0].action == Actions[3].key && Inputs[0].param == Actions[3].params[0]; }
      else if j == 1 { assert Inputs[1].action == Actions[3].key && Inputs[1].param == Actions[3].params[1]; }
      else { assert Inputs[2].action == Actions[3].key && Inputs[2].param == Actions[3].params[2]; }
    }
  }

  lemma GetUserFieldsDeclared()
    ensures forall j :: 0 <= j < |Actions[4].params| ==> Declared(Inputs, Actions[4].key, Actions[4].params[j])
  {
    forall j | 0 <= j < |Actions[4].params| ensures Declared(Inputs, Actions[4].key, Actions[4].params[j]) {
      { assert Inputs[6].action == Actions[4].key && Inputs[6].param == Actions[4].params[0]; }
    }
  }

  lemma ListGuildMembersFieldsDeclared()
    ensures forall j :: 0 <= j < |Actions[5].params| ==> Declared(Inputs, Actions[5].key, Actions[5].params[j])
  {
    forall j | 0 <= j < |Actions[5].params| ensures Declared(Inputs, Actions[5].key, Actions[5].params[j]) {
      if j == 0 { assert Inputs[3].action == Actions[5].key && Inputs[3].param == Actions[5].params[0]; }
      else if j == 1 { assert Inputs[4].action == Actions[5].key && Inputs[4].param == Actions[5].params[1]; }
      else { assert Inputs[5].action == Actions[5].key && Inputs[5].param == Actions[5].params[2]; }
    }
  }

  /** Every field of `_actions_data` is declared in `inputs`. */
  lemma EveryFieldDeclared()
    ensures AllDeclared(Actions, Inputs)
  {
    AddGuildMemberRoleFieldsDeclared();
    CreateDmFieldsDeclared();
    CreateGuildFieldsDeclared();
    DeleteGuildMemberRoleFieldsDeclared();
    GetUserFieldsDeclared();
    ListGuildMembersFieldsDeclared();
    forall i, j | 0 <= i < |Actions| && 0 <= j < |Actions[i].params|
      ensures Declared(Inputs, Actions[i].key, Actions[i].params[j])
    {
      assert i == 0 || i == 1 || i == 2 || i == 3 || i == 4 || i == 5;
    }
  }

  lemma AddGuildMemberRoleParamsDistinct()
    ensures Distinct(Actions[0].params)
  {
  }

  lemma CreateDmParamsDistinct()
    ensures Distinct(Actions[1].params)
  {
  }

  lemma CreateGuildParamsDistinct()
    ensures Distinct(Actions[2].params)
  {
  }

  lemma DeleteGuildMemberRoleParamsDistinct()
    ensures Distinct(Actions[3].params)
  {
  }

  lemma GetUserParamsDistinct()
    ensures Distinct(Actions[4].params)
  {
  }

  lemma ListGuildMembersParamsDistinct()
    ensures Distinct(Actions[5].params)
  {
  }

  /** No action lists a field twice. */
  lemma ParamsAreDistinct()
    ensures ParamsDistinct(Actions)
  {
    AddGuildMemberRoleParamsDistinct();
    CreateDmParamsDistinct();
    CreateGuildParamsDistinct();
    DeleteGuildMemberRoleParamsDistinct();
    GetUserParamsDistinct();
    ListGuildMembersParamsDistinct();
    forall i | 0 <= i < |Actions| ensures Distinct(Actions[i].params) {
      assert i == 0 || i == 1 || i == 2 || i == 3 || i == 4 || i == 5;
    }
  }

  lemma ComponentIsWellFormed()
    ensures WellFormed(Component)
  {
    DisplayNamesAreDistinct();
    KeysAreDistinct();
    ParamsAreDistinct();
    KeysAreLeadFree();
    BoolVarsAreFields();
    EveryFieldDeclared();
    ListVarsAreFields();
  }

  // ---------------------------------------------------------------------------
  // Behaviour of the component
  // ---------------------------------------------------------------------------

  /**
   * Once the call is made nothing raises: a successful call returns `data`
   * as it is, a failed one `{"error": result.get("error", "No response")}`.
   */
  lemma CallAlwaysReturns(i: nat, ids: map<string, string>, values: map<string, Json>, raw: seq<(string, Json)>,
                          toolset: Toolset, decode: string -> Decoded)
    requires i < |Actions| && Actions[i].key in ids
    requires ParamsOf(Component, Actions[i], values).Ok?
    requires forall p: map<string, Json> :: toolset(ids[Actions[i].key], p) == Ok(Obj(raw))
    ensures Execute(Component, ids, values, Picked([Actions[i].displayName]), toolset, decode) ==
            Returned(if Succeeded(raw) then GetOr(raw, "data", Arr([])) else PlainFailure(raw))
  {
    PlainVerbatimResponse(Component, Actions[i], raw, decode);
    DisplayNamesAreDistinct();
    KeysStartWithLead();
    SelectedActionAnswers(Component, ids, values, i, Obj(raw), toolset, decode);
  }

  /**
   * Discord has no boolean fields: every set field that is not a list field
   * is sent exactly as the component holds it.
   */
  lemma NonListFieldsSentVerbatim(i: nat, j: nat, values: map<string, Json>)
    requires i < |Actions| && j < |Actions[i].params|
    requires ParamsOf(Component, Actions[i], values).Ok?
    requires IsSet(values, Fields(Actions[i])[j]) && Fields(Actions[i])[j] !in ListVars
    ensures Actions[i].params[j] in ParamsOf(Component, Actions[i], values).value
    ensures ParamsOf(Component, Actions[i], values).value[Actions[i].params[j]] == values[Fields(Actions[i])[j]]
  {
    ComponentIsWellFormed();
    ParamOfField(Component, i, j, values);
  }

  /**
   * "Initiate user channel with recipient" sends `access_tokens` given as a
   * comma-separated string as the list of its stripped pieces.
   */
  lemma AccessTokensSplit(values: map<string, Json>, s: string)
    requires ParamsOf(Component, Actions[1], values).Ok?
    requires FieldName("DISCORDBOT_CREATE_DM", "access_tokens") in values
    requires values[FieldName("DISCORDBOT_CREATE_DM", "access_tokens")] == Str(s) && s != ""
    ensures "access_tokens" in ParamsOf(Component, Actions[1], values).value
    ensures ParamsOf(Component, Actions[1], values).value["access_tokens"] == Arr(StrList(PyStr.SplitStrip(s, ',')))
  {
    assert Fields(Actions[1])[0] == FieldName("DISCORDBOT_CREATE_DM", "access_tokens");
    ComponentIsWellFormed();
    ParamOfField(Component, 1, 0, values);
  }

  /** `access_tokens` holding a truthy value that is not a string has no `.split`: the action raises. */
  lemma AccessTokensNotSplittable(ids: map<string, string>, values: map<string, Json>, v: Json,
                                  toolset: Toolset, decode: string -> Decoded)
    requires "DISCORDBOT_CREATE_DM" in ids
    requires FieldName("DISCORDBOT_CREATE_DM", "access_tokens") in values
    requires values[FieldName("DISCORDBOT_CREATE_DM", "access_tokens")] == v && Truthy(v) && !v.Str?
    ensures Execute(Component, ids, values, Named("Initiate user channel with recipient"), toolset, decode) ==
            Failed("Initiate user channel with recipient", NotSplittable(FieldName("DISCORDBOT_CREATE_DM", "access_tokens")))
  {
    var a := Actions[1];
    var f := FieldName("DISCORDBOT_CREATE_DM", "access_tokens");
    assert Fields(a)[0] == f;
    assert f in ListVars;
    assert Coerce(Component, f, v) == Err(NotSplittable(f));
    assert ParamsOf(Component, a, values) == Err(NotSplittable(f));
    DisplayNamesAreDistinct();
    KeysStartWithLead();
    SelectedActionRuns(Component, ids, values, 1, toolset, decode);
  }
}
