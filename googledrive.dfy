/**
 * The Google Drive integration: its action catalog and inputs, and the
 * engine configured as its `execute_action` is: failures are parsed from
 * the message, results are searched for recursively and otherwise a
 * non-empty dict is unwrapped to the value of its first key.
 */
module GoogleDrive {
  import opened Wrappers
  import opened Json
  import opened Errors
  import opened Catalog
  import opened Params
  import opened Search
  import opened Normalize
  import opened Engine

  /** `_actions_data`: key, display name, the params of `action_fields`, `get_result_field`, `result_field`. */
  const Actions: seq<ActionSpec> := [
    ActionSpec("GOOGLEDRIVE_ADD_FILE_SHARING_PREFERENCE", "Add File Sharing Preference",
      ["domain", "email_address", "file_id", "role", "type"],
      false, None),
    ActionSpec("GOOGLEDRIVE_COPY_FILE", "Copy File",
      ["file_id", "new_title"],
      false, None),
    ActionSpec("GOOGLEDRIVE_CREATE_FILE_FROM_TEXT", "Create A File From Text",
      ["file_name", "mime_type", "parent_id", "text_content"],
      false, None),
    ActionSpec("GOOGLEDRIVE_CREATE_FOLDER", "Create A Folder",
      ["folder_name", "parent_id"],
      false, None),
    ActionSpec("GOOGLEDRIVE_DELETE_FOLDER_OR_FILE", "Delete Folder Or File",
      ["file_id"],
      false, None),
    ActionSpec("GOOGLEDRIVE_DOWNLOAD_FILE", "Download A File From Google Drive",
      ["file_id", "mime_type"],
      false, None),
    ActionSpec("GOOGLEDRIVE_EDIT_FILE", "Edit File",
      ["content", "file_id", "mime_type"],
      true, Some("data")),
    ActionSpec("GOOGLEDRIVE_FIND_FILE", "Find Files",
      ["folder_id", "full_text_contains", "full_text_not_contains", "include_items_from_all_drives", "mime_type", "modified_after", "name_contains", "name_exact", "name_not_contains", "page_size", "page_token", "starred", "supports_all_drives"],
      true, Some("files")),
    ActionSpec("GOOGLEDRIVE_FIND_FOLDER", "Find Folder",
      ["full_text_contains", "full_text_not_contains", "modified_after", "name_contains", "name_exact", "name_not_contains", "starred"],
      true, Some("folders")),
    ActionSpec("GOOGLEDRIVE_PARSE_FILE", "Export Or Download A File",
      ["file_id", "mime_type"],
      false, None)
  ]

  /** `_bool_variables`. */
  const BoolVars: set<string> := {
    FieldName("GOOGLEDRIVE_FIND_FILE", "include_items_from_all_drives"),
    FieldName("GOOGLEDRIVE_FIND_FILE", "starred"),
    FieldName("GOOGLEDRIVE_FIND_FILE", "supports_all_drives"),
    FieldName("GOOGLEDRIVE_FIND_FOLDER", "starred")
  }

  /** `inputs` after the base inputs: the field each declares, its kind and its stated `value=`. */
  const Inputs: seq<InputSpec> :=
    AddFileSharingPreferenceInputs
    + CopyFileInputs
    + CreateFileFromTextInputs
    + CreateFolderInputs
    + DeleteFolderOrFileInputs
    + DownloadFileInputs
    + EditFileInputs
    + FindFileInputs
    + FindFolderInputs
    + ParseFileInputs

  const AddFileSharingPreferenceInputs: seq<InputSpec> := [
    InputSpec("GOOGLEDRIVE_ADD_FILE_SHARING_PREFERENCE", "domain", Text, None),
    InputSpec("GOOGLEDRIVE_ADD_FILE_SHARING_PREFERENCE", "email_address", Text, None),
    InputSpec("GOOGLEDRIVE_ADD_FILE_SHARING_PREFERENCE", "file_id", Text, None),
    InputSpec("GOOGLEDRIVE_ADD_FILE_SHARING_PREFERENCE", "role", Text, None),
    InputSpec("GOOGLEDRIVE_ADD_FILE_SHARING_PREFERENCE", "type", Text, None)
  ]

  const CopyFileInputs: seq<InputSpec> := [
    InputSpec("GOOGLEDRIVE_COPY_FILE", "file_id", Text, None),
    InputSpec("GOOGLEDRIVE_COPY_FILE", "new_title", Text, None)
  ]

  const CreateFileFromTextInputs: seq<InputSpec> := [
    InputSpec("GOOGLEDRIVE_CREATE_FILE_FROM_TEXT", "file_name", Text, None),
    InputSpec("GOOGLEDRIVE_CREATE_FILE_FROM_TEXT", "mime_type", Text, Some(Str("text/plain"))),
    InputSpec("GOOGLEDRIVE_CREATE_FILE_FROM_TEXT", "parent_id", Text, None),
    InputSpec("GOOGLEDRIVE_CREATE_FILE_FROM_TEXT", "text_content", Text, None)
  ]

  const CreateFolderInputs: seq<InputSpec> := [
    InputSpec("GOOGLEDRIVE_CREATE_FOLDER", "folder_name", Text, None),
    InputSpec("GOOGLEDRIVE_CREATE_FOLDER", "parent_id", Text, None)
  ]

  const DeleteFolderOrFileInputs: seq<InputSpec> := [
    InputSpec("GOOGLEDRIVE_DELETE_FOLDER_OR_FILE", "file_id", Text, None)
  ]

  const DownloadFileInputs: seq<InputSpec> := [
    InputSpec("GOOGLEDRIVE_DOWNLOAD_FILE", "file_id", Text, None),
    InputSpec("GOOGLEDRIVE_DOWNLOAD_FILE", "mime_type", Text, None)
  ]

  const EditFileInputs: seq<InputSpec> := [
    InputSpec("GOOGLEDRIVE_EDIT_FILE", "content", Text, None),
    InputSpec("GOOGLEDRIVE_EDIT_FILE", "file_id", Text, None),
    InputSpec("GOOGLEDRIVE_EDIT_FILE", "mime_type", Text, Some(Str("text/plain")))
  ]

  const FindFileInputs: seq<InputSpec> := [
    InputSpec("GOOGLEDRIVE_FIND_FILE", "folder_id", Text, None),
    InputSpec("GOOGLEDRIVE_FIND_FILE", "full_text_contains", Text, None),
    InputSpec("GOOGLEDRIVE_FIND_FILE", "full_text_not_contains", Text, None),
    InputSpec("GOOGLEDRIVE_FIND_FILE", "include_items_from_all_drives", Boolean, Some(Bool(true))),
    InputSpec("GOOGLEDRIVE_FIND_FILE", "mime_type", Text, None),
    InputSpec("GOOGLEDRIVE_FIND_FILE", "modified_after", Text, None),
    InputSpec("GOOGLEDRIVE_FIND_FILE", "name_contains", Text, None),
    InputSpec("GOOGLEDRIVE_FIND_FILE", "name_exact", Text, None),
    InputSpec("GOOGLEDRIVE_FIND_FILE", "name_not_contains", Text, None),
    InputSpec("GOOGLEDRIVE_FIND_FILE", "page_size", Integer, Some(Int(5))),
    InputSpec("GOOGLEDRIVE_FIND_FILE", "page_token", Text, Some(Str(""))),
    InputSpec("GOOGLEDRIVE_FIND_FILE", "starred", Boolean, None),
    InputSpec("GOOGLEDRIVE_FIND_FILE", "supports_all_drives", Boolean, Some(Bool(true)))
  ]

  const FindFolderInputs: seq<InputSpec> := [
    InputSpec("GOOGLEDRIVE_FIND_FOLDER", "full_text_contains", Text, None),
    InputSpec("GOOGLEDRIVE_FIND_FOLDER", "full_text_not_contains", Text, None),
    InputSpec("GOOGLEDRIVE_FIND_FOLDER", "modified_after", Text, None),
    InputSpec("GOOGLEDRIVE_FIND_FOLDER", "name_contains", Text, None),
    InputSpec("GOOGLEDRIVE_FIND_FOLDER", "name_exact", Text, None),
    InputSpec("GOOGLEDRIVE_FIND_FOLDER", "name_not_contains", Text, None),
    InputSpec("GOOGLEDRIVE_FIND_FOLDER", "starred", Boolean, None)
  ]

  const ParseFileInputs: seq<InputSpec> := [
    InputSpec("GOOGLEDRIVE_PARSE_FILE", "file_id", Text, None),
    InputSpec("GOOGLEDRIVE_PARSE_FILE", "mime_type", Text, None)
  ]

  const Component: App := App(Actions, Inputs, BoolVars, {}, ParseMessage, SearchOrFirstValue)

  // ---------------------------------------------------------------------------
  // Catalog invariants
  // ---------------------------------------------------------------------------

  lemma DisplayNamesAreDistinct()
    ensures DisplayNamesDistinct(Actions)
  {
  }

  lemma KeysAreDistinct()
    ensures KeysDistinct(Actions)
  {
  }

  lemma KeysStartWithLead()
    ensures forall i :: 0 <= i < |Actions| ==> |Actions[i].key| > 0 && Actions[i].key[0] == 'G'
  {
  }

  lemma AddFileSharingPreferenceParamsAvoidLead()
    ensures forall j :: 0 <= j < |Actions[0].params| ==> 'G' !in Actions[0].params[j]
  {
  }

  lemma CopyFileParamsAvoidLead()
    ensures forall j :: 0 <= j < |Actions[1].params| ==> 'G' !in Actions[1].params[j]
  {
  }

  lemma CreateFileFromTextParamsAvoidLead()
    ensures forall j :: 0 <= j < |Actions[2].params| ==> 'G' !in Actions[2].params[j]
  {
  }

  lemma CreateFolderParamsAvoidLead()
    ensures forall j :: 0 <= j < |Actions[3].params| ==> 'G' !in Actions[3].params[j]
  {
  }

  lemma DeleteFolderOrFileParamsAvoidLead()
    ensures forall j :: 0 <= j < |Actions[4].params| ==> 'G' !in Actions[4].params[j]
  {
  }

  lemma DownloadFileParamsAvoidLead()
    ensures forall j :: 0 <= j < |Actions[5].params| ==> 'G' !in Actions[5].params[j]
  {
  }

  lemma EditFileParamsAvoidLead()
    ensures forall j :: 0 <= j < |Actions[6].params| ==> 'G' !in Actions[6].params[j]
  {
  }

  lemma FindFileParamsAvoidLead()
    ensures forall j :: 0 <= j < |Actions[7].params| ==> 'G' !in Actions[7].params[j]
  {
  }

  lemma FindFolderParamsAvoidLead()
    ensures forall j :: 0 <= j < |Actions[8].params| ==> 'G' !in Actions[8].params[j]
  {
  }

  lemma ParseFileParamsAvoidLead()
    ensures forall j :: 0 <= j < |Actions[9].params| ==> 'G' !in Actions[9].params[j]
  {
  }

  lemma ParamsAvoidLead()
    ensures forall i, j :: 0 <= i < |Actions| && 0 <= j < |Actions[i].params| ==> 'G' !in Actions[i].params[j]
  {
    AddFileSharingPreferenceParamsAvoidLead();
    CopyFileParamsAvoidLead();
    CreateFileFromTextParamsAvoidLead();
    CreateFolderParamsAvoidLead();
    DeleteFolderOrFileParamsAvoidLead();
    DownloadFileParamsAvoidLead();
    EditFileParamsAvoidLead();
    FindFileParamsAvoidLead();
    FindFolderParamsAvoidLead();
    ParseFileParamsAvoidLead();
    forall i, j | 0 <= i < |Actions| && 0 <= j < |Actions[i].params| ensures 'G' !in Actions[i].params[j] {
      assert i == 0 || i == 1 || i == 2 || i == 3 || i == 4 || i == 5 || i == 6 || i == 7 || i == 8 || i == 9;
    }
  }

  /** No param contains the first character of its action key, so stripping `<key>_` leaves the param. */
  lemma KeysAreLeadFree()
    ensures KeysLeadFree(Actions)
  {
    KeysStartWithLead();
    ParamsAvoidLead();
  }

  /** `_bool_variables` is a subset of `_all_fields`. */
  lemma BoolVarsAreFields()
    ensures BoolVars <= AllFields(Actions)
  {
    assert FieldName(Actions[7].key, Actions[7].params[3]) == FieldName("GOOGLEDRIVE_FIND_FILE", "include_items_from_all_drives");
    assert FieldName(Actions[7].key, Actions[7].params[11]) == FieldName("GOOGLEDRIVE_FIND_FILE", "starred");
    assert FieldName(Actions[7].key, Actions[7].params[12]) == FieldName("GOOGLEDRIVE_FIND_FILE", "supports_all_drives");
    assert FieldName(Actions[8].key, Actions[8].params[6]) == FieldName("GOOGLEDRIVE_FIND_FOLDER", "starred");
  }

  lemma AddFileSharingPreferenceFieldsDeclared()
    ensures forall j :: 0 <= j < |Actions[0].params| ==> Declared(Inputs, Actions[0].key, Actions[0].params[j])
  {
    forall j | 0 <= j < |Actions[0].params| ensures Declared(Inputs, Actions[0].key, Actions[0].params[j]) {
      if j == 0 { assert Inputs[0].action == Actions[0].key && Inputs[0].param == Actions[0].params[0]; }
      else if j == 1 { assert Inputs[1].action == Actions[0].key && Inputs[1].param == Actions[0].params[1]; }
      else if j == 2 { assert Inputs[2].action == Actions[0].key && Inputs[2].param == Actions[0].params[2]; }
      else if j == 3 { assert Inputs[3].action == Actions[0].key && Inputs[3].param == Actions[0].params[3]; }
      else { assert Inputs[4].action == Actions[0].key && Inputs[4].param == Actions[0].params[4]; }
    }
  }

  lemma CopyFileFieldsDeclared()
    ensures forall j :: 0 <= j < |Actions[1].params| ==> Declared(Inputs, Actions[1].key, Actions[1].params[j])
  {
    forall j | 0 <= j < |Actions[1].params| ensures Declared(Inputs, Actions[1].key, Actions[1].params[j]) {
      if j == 0 { assert Inputs[5].action == Actions[1].key && Inputs[5].param == Actions[1].params[0]; }
      else { assert Inputs[6].action == Actions[1].key && Inputs[6].param == Actions[1].params[1]; }
    }
  }

  lemma CreateFileFromTextFieldsDeclared()
    ensures forall j :: 0 <= j < |Actions[2].params| ==> Declared(Inputs, Actions[2].key, Actions[2].params[j])
  {
    forall j | 0 <= j < |Actions[2].params| ensures Declared(Inputs, Actions[2].key, Actions[2].params[j]) {
      if j == 0 { assert Inputs[7].action == Actions[2].key && Inputs[7].param == Actions[2].params[0]; }
      else if j == 1 { assert Inputs[8].action == Actions[2].key && Inputs[8].param == Actions[2].params[1]; }
      else if j == 2 { assert Inputs[9].action == Actions[2].key && Inputs[9].param == Actions[2].params[2]; }
      else { assert Inputs[10].action == Actions[2].key && Inputs[10].param == Actions[2].params[3]; }
    }
  }

  lemma CreateFolderFieldsDeclared()
    ensures forall j :: 0 <= j < |Actions[3].params| ==> Declared(Inputs, Actions[3].key, Actions[3].params[j])
  {
    forall j | 0 <= j < |Actions[3].params| ensures Declared(Inputs, Actions[3].key, Actions[3].params[j]) {
      if j == 0 { assert Inputs[11].action == Actions[3].key && Inputs[11].param == Actions[3].params[0]; }
      else { assert Inputs[12].action == Actions[3].key && Inputs[12].param == Actions[3].params[1]; }
    }
  }

  lemma DeleteFolderOrFileFieldsDeclared()
    ensures forall j :: 0 <= j < |Actions[4].params| ==> Declared(Inputs, Actions[4].key, Actions[4].params[j])
  {
    forall j | 0 <= j < |Actions[4].params| ensures Declared(Inputs, Actions[4].key, Actions[4].params[j]) {
      { assert Inputs[13].action == Actions[4].key && Inputs[13].param == Actions[4].params[0]; }
    }
  }

  lemma DownloadFileFieldsDeclared()
    ensures forall j :: 0 <= j < |Actions[5].params| ==> Declared(Inputs, Actions[5].key, Actions[5].params[j])
  {
    forall j | 0 <= j < |Actions[5].params| ensures Declared(Inputs, Actions[5].key, Actions[5].params[j]) {
      if j == 0 { assert Inputs[14].action == Actions[5].key && Inputs[14].param == Actions[5].params[0]; }
      else { assert Inputs[15].action == Actions[5].key && Inputs[15].param == Actions[5].params[1]; }
    }
  }

  lemma EditFileFieldsDeclared()
    ensures forall j :: 0 <= j < |Actions[6].params| ==> Declared(Inputs, Actions[6].key, Actions[6].params[j])
  {
    forall j | 0 <= j < |Actions[6].params| ensures Declared(Inputs, Actions[6].key, Actions[6].params[j]) {
      if j == 0 { assert Inputs[16].action == Actions[6].key && Inputs[16].param == Actions[6].params[0]; }
      else if j == 1 { assert Inputs[17].action == Actions[6].key && Inputs[17].param == Actions[6].params[1]; }
      else { assert Inputs[18].action == Actions[6].key && Inputs[18].param == Actions[6].params[2]; }
    }
  }

  lemma FindFileFieldsDeclared()
    ensures forall j :: 0 <= j < |Actions[7].params| ==> Declared(Inputs, Actions[7].key, Actions[7].params[j])
  {
    forall j | 0 <= j < |Actions[7].params| ensures Declared(Inputs, Actions[7].key, Actions[7].params[j]) {
      if j == 0 { assert Inputs[19].action == Actions[7].key && Inputs[19].param == Actions[7].params[0]; }
      else if j == 1 { assert Inputs[20].action == Actions[7].key && Inputs[20].param == Actions[7].params[1]; }
      else if j == 2 { assert Inputs[21].action == Actions[7].key && Inputs[21].param == Actions[7].params[2]; }
      else if j == 3 { assert Inputs[22].action == Actions[7].key && Inputs[22].param == Actions[7].params[3]; }
      else if j == 4 { assert Inputs[23].action == Actions[7].key && Inputs[23].param == Actions[7].params[4]; }
      else if j == 5 { assert Inputs[24].action == Actions[7].key && Inputs[24].param == Actions[7].params[5]; }
      else if j == 6 { assert Inputs[25].action == Actions[7].key && Inputs[25].param == Actions[7].params[6]; }
      else if j == 7 { assert Inputs[26].action == Actions[7].key && Inputs[26].param == Actions[7].params[7]; }
      else if j == 8 { assert Inputs[27].action == Actions[7].key && Inputs[27].param == Actions[7].params[8]; }
      else if j == 9 { assert Inputs[28].action == Actions[7].key && Inputs[28].param == Actions[7].params[9]; }
      else if j == 10 { assert Inputs[29].action == Actions[7].key && Inputs[29].param == Actions[7].params[10]; }
      else if j == 11 { assert Inputs[30].action == Actions[7].key && Inputs[30].param == Actions[7].params[11]; }
      else { assert Inputs[31].action == Actions[7].key && Inputs[31].param == Actions[7].params[12]; }
    }
  }

  lemma FindFolderFieldsDeclared()
    ensures forall j :: 0 <= j < |Actions[8].params| ==> Declared(Inputs, Actions[8].key, Actions[8].params[j])
  {
    forall j | 0 <= j < |Actions[8].params| ensures Declared(Inputs, Actions[8].key, Actions[8].params[j]) {
      if j == 0 { assert Inputs[32].action == Actions[8].key && Inputs[32].param == Actions[8].params[0]; }
      else if j == 1 { assert Inputs[33].action == Actions[8].key && Inputs[33].param == Actions[8].params[1]; }
      else if j == 2 { assert Inputs[34].action == Actions[8].key && Inputs[34].param == Actions[8].params[2]; }
      else if j == 3 { assert Inputs[35].action == Actions[8].key && Inputs[35].param == Actions[8].params[3]; }
      else if j == 4 { assert Inputs[36].action == Actions[8].key && Inputs[36].param == Actions[8].params[4]; }
      else if j == 5 { assert Inputs[37].action == Actions[8].key && Inputs[37].param == Actions[8].params[5]; }
      else { assert Inputs[38].action == Actions[8].key && Inputs[38].param == Actions[8].params[6]; }
    }
  }

  lemma ParseFileFieldsDeclared()
    ensures forall j :: 0 <= j < |Actions[9].params| ==> Declared(Inputs, Actions[9].key, Actions[9].params[j])
  {
    forall j | 0 <= j < |Actions[9].params| ensures Declared(Inputs, Actions[9].key, Actions[9].params[j]) {
      if j == 0 { assert Inputs[39].action == Actions[9].key && Inputs[39].param == Actions[9].params[0]; }
      else { assert Inputs[40].action == Actions[9].key && Inputs[40].param == Actions[9].params[1]; }
    }
  }

  /** Every field of `_actions_data` is declared in `inputs`. */
  lemma EveryFieldDeclared()
    ensures AllDeclared(Actions, Inputs)
  {
    AddFileSharingPreferenceFieldsDeclared();
    CopyFileFieldsDeclared();
    CreateFileFromTextFieldsDeclared();
    CreateFolderFieldsDeclared();
    DeleteFolderOrFileFieldsDeclared();
    DownloadFileFieldsDeclared();
    EditFileFieldsDeclared();
    FindFileFieldsDeclared();
    FindFolderFieldsDeclared();
    ParseFileFieldsDeclared();
    forall i, j | 0 <= i < |Actions| && 0 <= j < |Actions[i].params|
      ensures Declared(Inputs, Actions[i].key, Actions[i].params[j])
    {
      assert i == 0 || i == 1 || i == 2 || i == 3 || i == 4 || i == 5 || i == 6 || i == 7 || i == 8 || i == 9;
    }
  }

  lemma AddFileSharingPreferenceParamsDistinct()
    ensures Distinct(Actions[0].params)
  {
  }

  lemma CopyFileParamsDistinct()
    ensures Distinct(Actions[1].params)
  {
  }

  lemma CreateFileFromTextParamsDistinct()
    ensures Distinct(Actions[2].params)
  {
  }

  lemma CreateFolderParamsDistinct()
    ensures Distinct(Actions[3].params)
  {
  }

  lemma DeleteFolderOrFileParamsDistinct()
    ensures Distinct(Actions[4].params)
  {
  }

  lemma DownloadFileParamsDistinct()
    ensures Distinct(Actions[5].params)
  {
  }

  lemma EditFileParamsDistinct()
    ensures Distinct(Actions[6].params)
  {
  }

  lemma FindFileParamsDistinct()
    ensures Distinct(Actions[7].params)
  {
  }

  lemma FindFolderParamsDistinct()
    ensures Distinct(Actions[8].params)
  {
  }

  lemma ParseFileParamsDistinct()
    ensures Distinct(Actions[9].params)
  {
  }

  /** No action lists a field twice. */
  lemma ParamsAreDistinct()
    ensures ParamsDistinct(Actions)
  {
    AddFileSharingPreferenceParamsDistinct();
    CopyFileParamsDistinct();
    CreateFileFromTextParamsDistinct();
    CreateFolderParamsDistinct();
    DeleteFolderOrFileParamsDistinct();
    DownloadFileParamsDistinct();
    EditFileParamsDistinct();
    FindFileParamsDistinct();
    FindFolderParamsDistinct();
    ParseFileParamsDistinct();
    forall i | 0 <= i < |Actions| ensures Distinct(Actions[i].params) {
      assert i == 0 || i == 1 || i == 2 || i == 3 || i == 4 || i == 5 || i == 6 || i == 7 || i == 8 || i == 9;
    }
  }

  lemma ComponentIsWellFormed()
    ensures WellFormed(Component)
  {
    DisplayNamesAreDistinct();
    KeysAreDistinct();
    ParamsAreDistinct();
    KeysAreLeadFree();
    BoolVarsAreFields();
    EveryFieldDeclared();
  }

  // ---------------------------------------------------------------------------
  // Behaviour of the component
  // ---------------------------------------------------------------------------

  /**
   * `page_token` is declared with the default `""`, so a component left at
   * that default sends no page token at all.
   */
  lemma PageTokenDefaultOmitted(values: map<string, Json>)
    requires FieldName("GOOGLEDRIVE_FIND_FILE", "page_token") in values
    requires values[FieldName("GOOGLEDRIVE_FIND_FILE", "page_token")] == FindFileInputs[10].default.value
    requires ParamsOf(Component, Actions[7], values).Ok?
    ensures FindFileInputs[10].action == "GOOGLEDRIVE_FIND_FILE" && FindFileInputs[10].param == "page_token"
    ensures "page_token" !in ParamsOf(Component, Actions[7], values).value
  {
    ComponentIsWellFormed();
    assert Fields(Actions[7])[10] == FieldName("GOOGLEDRIVE_FIND_FILE", "page_token");
    UnsetFieldOmitted(Component, 7, 10, values);
  }

  /**
   * Once the call went through, the component never raises: whatever `data`
   * holds, some value is returned.
   */
  lemma AnsweredCallNeverRaises(i: nat, ids: map<string, string>, values: map<string, Json>, data: Json,
                                toolset: Toolset, decode: string -> Decoded)
    requires i < |Actions| && Actions[i].key in ids
    requires ParamsOf(Component, Actions[i], values).Ok?
    requires forall p: map<string, Json> :: toolset(ids[Actions[i].key], p) == Ok(Answered(data))
    ensures Execute(Component, ids, values, Picked([Actions[i].displayName]), toolset, decode).Returned?
  {
    FirstValueNeverRaises(Actions[i], Answered(data).members);
    AnsweredEntries(data);
    DisplayNamesAreDistinct();
    KeysStartWithLead();
    SelectedActionAnswers(Component, ids, values, i, Answered(data), toolset, decode);
  }

  /**
   * An action without `get_result_field` answered with a non-empty dict
   * returns the one-element list of its first entry's value, however many
   * entries it has: `{"result": "mocked response"}` gives `["mocked response"]`.
   */
  lemma PlainActionUnwrapsFirstValue(i: nat, ids: map<string, string>, values: map<string, Json>,
                                     data: seq<(string, Json)>,
                                     toolset: Toolset, decode: string -> Decoded)
    requires i < |Actions| && !Actions[i].getResultField && Actions[i].key in ids
    requires forall j :: 0 <= j < |Actions[i].params| ==> FieldName(Actions[i].key, Actions[i].params[j]) in values
    requires |data| > 0
    requires forall p: map<string, Json> :: toolset(ids[Actions[i].key], p) == Ok(Answered(Obj(data)))
    ensures Execute(Component, ids, values, Picked([Actions[i].displayName]), toolset, decode) == Returned(Arr([data[0].1]))
  {
    var a := Actions[i];
    AnsweredEntries(Obj(data));
    FirstValueNeverRaises(a, Answered(Obj(data)).members);
    assert Response(Component, a, Answered(Obj(data)), decode) == Ok(Arr([data[0].1]));
    DisplayNamesAreDistinct();
    KeysStartWithLead();
    ParamsOfSucceeds(Component, a, values);
    SelectedActionAnswers(Component, ids, values, i, Answered(Obj(data)), toolset, decode);
  }

  /** "Find Files" answered with `{"files": [...]}`, a non-empty list, returns that list. */
  lemma FindFilesReturnsFiles(ids: map<string, string>, values: map<string, Json>, files: seq<Json>,
                              toolset: Toolset, decode: string -> Decoded)
    requires "GOOGLEDRIVE_FIND_FILE" in ids
    requires ParamsOf(Component, Actions[7], values).Ok?
    requires |files| > 0
    requires forall p: map<string, Json> :: toolset(ids["GOOGLEDRIVE_FIND_FILE"], p) == Ok(Answered(Obj([("files", Arr(files))])))
    ensures Execute(Component, ids, values, Picked(["Find Files"]), toolset, decode) == Returned(Arr(files))
  {
    var a := Actions[7];
    assert a.key == "GOOGLEDRIVE_FIND_FILE" && a.displayName == "Find Files";
    assert a.getResultField && a.resultField == Some("files");
    var data := Obj([("files", Arr(files))]);
    AnsweredEntries(data);
    assert FindKey(data, "files") == Arr(files);
    SearchHitReturned(SearchOrFirstValue, a, Answered(data).members);
    assert Response(Component, a, Answered(data), decode) == Ok(Arr(files));
    DisplayNamesAreDistinct();
    SelectedActionAnswers(Component, ids, values, 7, Answered(data), toolset, decode);
  }
}
