/**
 * The Google Tasks integration: its action catalog and inputs, and the
 * engine configured as its `execute_action` is: failures are parsed from
 * the message, results are searched for recursively and otherwise
 * returned whole, raising on a payload that is not a single-key dict.
 */
module GoogleTasks {
  import opened Wrappers
  import opened Json
  import opened Errors
  import opened Catalog
  import opened Params
  import opened Search
  import opened Normalize
  import opened Engine

  /** `_actions_data`: key, display name, the params of `action_fields`, `get_result_field`, `result_field`. */
  const Actions: seq<ActionSpec> := [
    ActionSpec("GOOGLETASKS_CLEAR_TASKS", "Clear Tasks",
      ["tasklist"],
      true, Some("response_data")),
    ActionSpec("GOOGLETASKS_CREATE_TASK_LIST", "Create A Task List",
      ["tasklist_title"],
      false, None),
    ActionSpec("GOOGLETASKS_DELETE_TASK", "Delete Task",
      ["task_id", "tasklist_id"],
      false, None),
    ActionSpec("GOOGLETASKS_DELETE_TASK_LIST", "Delete Task List",
      ["tasklist_id"],
      false, None),
    ActionSpec("GOOGLETASKS_GET_TASK", "Get Task",
      ["task_id", "tasklist_id"],
      true, Some("task")),
    ActionSpec("GOOGLETASKS_GET_TASK_LIST", "Get Task List",
      ["tasklist_id"],
      true, Some("task_list")),
    ActionSpec("GOOGLETASKS_INSERT_TASK", "Insert Task",
      ["completed", "deleted", "due", "etag", "hidden", "id", "notes", "status", "task_parent", "task_previous", "tasklist_id", "title"],
      true, Some("task")),
    ActionSpec("GOOGLETASKS_LIST_TASKS", "List Tasks",
      ["completedMax", "completedMin", "dueMax", "dueMin", "maxResults", "pageToken", "showCompleted", "showDeleted", "showHidden", "tasklist_id", "updatedMin"],
      true, Some("tasks")),
    ActionSpec("GOOGLETASKS_LIST_TASK_LISTS", "List Task Lists",
      ["maxResults", "pageToken"],
      true, Some("items")),
    ActionSpec("GOOGLETASKS_MOVE_TASK", "Move Task",
      ["destinationTasklist", "parent", "previous", "task", "tasklist"],
      false, None),
    ActionSpec("GOOGLETASKS_PATCH_TASK", "Patch Task",
      ["completed", "deleted", "due", "etag", "hidden", "id", "notes", "status", "task_id", "tasklist_id", "title"],
      true, Some("task")),
    ActionSpec("GOOGLETASKS_PATCH_TASK_LIST", "Patch Task List",
      ["tasklist_id", "updated_title"],
      true, Some("response_data")),
    ActionSpec("GOOGLETASKS_UPDATE_TASK", "Update Task",
      ["due", "notes", "status", "task", "tasklist", "title"],
      false, None),
    ActionSpec("GOOGLETASKS_UPDATE_TASK_LIST", "Update Task List",
      ["tasklist_id", "title"],
      false, None)
  ]

  /** `_bool_variables`. */
  const BoolVars: set<string> := {
    FieldName("GOOGLETASKS_INSERT_TASK", "deleted"),
    FieldName("GOOGLETASKS_INSERT_TASK", "hidden"),
    FieldName("GOOGLETASKS_LIST_TASKS", "showCompleted"),
    FieldName("GOOGLETASKS_LIST_TASKS", "showDeleted"),
    FieldName("GOOGLETASKS_LIST_TASKS", "showHidden"),
    FieldName("GOOGLETASKS_PATCH_TASK", "deleted"),
    FieldName("GOOGLETASKS_PATCH_TASK", "hidden")
  }

  /** `inputs` after the base inputs: the field each declares, its kind and its stated `value=`. */
  const Inputs: seq<InputSpec> :=
    ClearTasksInputs
    + CreateTaskListInputs
    + DeleteTaskInputs
    + DeleteTaskListInputs
    + GetTaskInputs
    + GetTaskListInputs
    + InsertTaskInputs
    + ListTasksInputs
    + ListTaskListsInputs
    + MoveTaskInputs
    + PatchTaskInputs
    + PatchTaskListInputs
    + UpdateTaskInputs
    + UpdateTaskListInputs

  const ClearTasksInputs: seq<InputSpec> := [
    InputSpec("GOOGLETASKS_CLEAR_TASKS", "tasklist", Text, None)
  ]

  const CreateTaskListInputs: seq<InputSpec> := [
    InputSpec("GOOGLETASKS_CREATE_TASK_LIST", "tasklist_title", Text, None)
  ]

  const DeleteTaskInputs: seq<InputSpec> := [
    InputSpec("GOOGLETASKS_DELETE_TASK", "task_id", Text, None),
    InputSpec("GOOGLETASKS_DELETE_TASK", "tasklist_id", Text, None)
  ]

  const DeleteTaskListInputs: seq<InputSpec> := [
    InputSpec("GOOGLETASKS_DELETE_TASK_LIST", "tasklist_id", Text, None)
  ]

  const GetTaskInputs: seq<InputSpec> := [
    InputSpec("GOOGLETASKS_GET_TASK", "task_id", Text, None),
    InputSpec("GOOGLETASKS_GET_TASK", "tasklist_id", Text, None)
  ]

  const GetTaskListInputs: seq<InputSpec> := [
    InputSpec("GOOGLETASKS_GET_TASK_LIST", "tasklist_id", Text, None)
  ]

  const InsertTaskInputs: seq<InputSpec> := [
    InputSpec("GOOGLETASKS_INSERT_TASK", "completed", Text, None),
    InputSpec("GOOGLETASKS_INSERT_TASK", "deleted", Boolean, None),
    InputSpec("GOOGLETASKS_INSERT_TASK", "due", Text, None),
    InputSpec("GOOGLETASKS_INSERT_TASK", "etag", Text, None),
    InputSpec("GOOGLETASKS_INSERT_TASK", "hidden", Boolean, None),
    InputSpec("GOOGLETASKS_INSERT_TASK", "id", Text, None),
    InputSpec("GOOGLETASKS_INSERT_TASK", "notes", Text, None),
    InputSpec("GOOGLETASKS_INSERT_TASK", "status", Text, None),
    InputSpec("GOOGLETASKS_INSERT_TASK", "task_parent", Text, None),
    InputSpec("GOOGLETASKS_INSERT_TASK", "task_previous", Text, None),
    InputSpec("GOOGLETASKS_INSERT_TASK", "tasklist_id", Text, None),
    InputSpec("GOOGLETASKS_INSERT_TASK", "title", Text, None)
  ]

  const ListTasksInputs: seq<InputSpec> := [
    InputSpec("GOOGLETASKS_LIST_TASKS", "completedMax", Text, None),
    InputSpec("GOOGLETASKS_LIST_TASKS", "completedMin", Text, None),
    InputSpec("GOOGLETASKS_LIST_TASKS", "dueMax", Text, None),
    InputSpec("GOOGLETASKS_LIST_TASKS", "dueMin", Text, None),
    InputSpec("GOOGLETASKS_LIST_TASKS", "maxResults", Integer, None),
    InputSpec("GOOGLETASKS_LIST_TASKS", "pageToken", Text, None),
    InputSpec("GOOGLETASKS_LIST_TASKS", "showCompleted", Boolean, None),
    InputSpec("GOOGLETASKS_LIST_TASKS", "showDeleted", Boolean, None),
    InputSpec("GOOGLETASKS_LIST_TASKS", "showHidden", Boolean, None),
    InputSpec("GOOGLETASKS_LIST_TASKS", "tasklist_id", Text, None),
    InputSpec("GOOGLETASKS_LIST_TASKS", "updatedMin", Text, None)
  ]

  const ListTaskListsInputs: seq<InputSpec> := [
    InputSpec("GOOGLETASKS_LIST_TASK_LISTS", "maxResults", Integer, Some(Int(20))),
    InputSpec("GOOGLETASKS_LIST_TASK_LISTS", "pageToken", Text, None)
  ]

  const MoveTaskInputs: seq<InputSpec> := [
    InputSpec("GOOGLETASKS_MOVE_TASK", "destinationTasklist", Text, None),
    InputSpec("GOOGLETASKS_MOVE_TASK", "parent", Text, None),
    InputSpec("GOOGLETASKS_MOVE_TASK", "previous", Text, None),
    InputSpec("GOOGLETASKS_MOVE_TASK", "task", Text, None),
    InputSpec("GOOGLETASKS_MOVE_TASK", "tasklist", Text, None)
  ]

  const PatchTaskInputs: seq<InputSpec> := [
    InputSpec("GOOGLETASKS_PATCH_TASK", "completed", Text, None),
    InputSpec("GOOGLETASKS_PATCH_TASK", "deleted", Boolean, None),
    InputSpec("GOOGLETASKS_PATCH_TASK", "due", Text, None),
    InputSpec("GOOGLETASKS_PATCH_TASK", "etag", Text, None),
    InputSpec("GOOGLETASKS_PATCH_TASK", "hidden", Boolean, None),
    InputSpec("GOOGLETASKS_PATCH_TASK", "id", Text, None),
    InputSpec("GOOGLETASKS_PATCH_TASK", "notes", Text, None),
    InputSpec("GOOGLETASKS_PATCH_TASK", "status", Text, None),
    InputSpec("GOOGLETASKS_PATCH_TASK", "task_id", Text, None),
    InputSpec("GOOGLETASKS_PATCH_TASK", "tasklist_id", Text, None),
    InputSpec("GOOGLETASKS_PATCH_TASK", "title", Text, None)
  ]

  const PatchTaskListInputs: seq<InputSpec> := [
    InputSpec("GOOGLETASKS_PATCH_TASK_LIST", "tasklist_id", Text, None),
    InputSpec("GOOGLETASKS_PATCH_TASK_LIST", "updated_title", Text, None)
  ]

  const UpdateTaskInputs: seq<InputSpec> := [
    InputSpec("GOOGLETASKS_UPDATE_TASK", "due", Text, None),
    InputSpec("GOOGLETASKS_UPDATE_TASK", "notes", Text, None),
    InputSpec("GOOGLETASKS_UPDATE_TASK", "status", Text, None),
    InputSpec("GOOGLETASKS_UPDATE_TASK", "task", Text, None),
    InputSpec("GOOGLETASKS_UPDATE_TASK", "tasklist", Text, None),
    InputSpec("GOOGLETASKS_UPDATE_TASK", "title", Text, None)
  ]

  const UpdateTaskListInputs: seq<InputSpec> := [
    InputSpec("GOOGLETASKS_UPDATE_TASK_LIST", "tasklist_id", Text, None),
    InputSpec("GOOGLETASKS_UPDATE_TASK_LIST", "title", Text, None)
  ]

  const Component: App := App(Actions, Inputs, BoolVars, {}, ParseMessage, SearchOrRaise)

  // ---------------------------------------------------------------------------
  // Catalog invariants
  // ---------------------------------------------------------------------------

  lemma DisplayNamesAreDistinct()
    ensures DisplayNamesDistinct(Actions)
  {
  }

  lemma KeysAreDistinct()
    ensures KeysDistinct(Actions)
  {
  }

  lemma KeysStartWithLead()
    ensures forall i :: 0 <= i < |Actions| ==> |Actions[i].key| > 0 && Actions[i].key[0] == 'G'
  {
  }

  lemma ClearTasksParamsAvoidLead()
    ensures forall j :: 0 <= j < |Actions[0].params| ==> 'G' !in Actions[0].params[j]
  {
  }

  lemma CreateTaskListParamsAvoidLead()
    ensures forall j :: 0 <= j < |Actions[1].params| ==> 'G' !in Actions[1].params[j]
  {
  }

  lemma DeleteTaskParamsAvoidLead()
    ensures forall j :: 0 <= j < |Actions[2].params| ==> 'G' !in Actions[2].params[j]
  {
  }

  lemma DeleteTaskListParamsAvoidLead()
    ensures forall j :: 0 <= j < |Actions[3].params| ==> 'G' !in Actions[3].params[j]
  {
  }

  lemma GetTaskParamsAvoidLead()
    ensures forall j :: 0 <= j < |Actions[4].params| ==> 'G' !in Actions[4].params[j]
  {
  }

  lemma GetTaskListParamsAvoidLead()
    ensures forall j :: 0 <= j < |Actions[5].params| ==> 'G' !in Actions[5].params[j]
  {
  }

  lemma InsertTaskParamsAvoidLead()
    ensures forall j :: 0 <= j < |Actions[6].params| ==> 'G' !in Actions[6].params[j]
  {
  }

  lemma ListTasksParamsAvoidLead()
    ensures forall j :: 0 <= j < |Actions[7].params| ==> 'G' !in Actions[7].params[j]
  {
  }

  lemma ListTaskListsParamsAvoidLead()
    ensures forall j :: 0 <= j < |Actions[8].params| ==> 'G' !in Actions[8].params[j]
  {
  }

  lemma MoveTaskParamsAvoidLead()
    ensures forall j :: 0 <= j < |Actions[9].params| ==> 'G' !in Actions[9].params[j]
  {
  }

  lemma PatchTaskParamsAvoidLead()
    ensures forall j :: 0 <= j < |Actions[10].params| ==> 'G' !in Actions[10].params[j]
  {
  }

  lemma PatchTaskListParamsAvoidLead()
    ensures forall j :: 0 <= j < |Actions[11].params| ==> 'G' !in Actions[11].params[j]
  {
  }

  lemma UpdateTaskParamsAvoidLead()
    ensures forall j :: 0 <= j < |Actions[12].params| ==> 'G' !in Actions[12].params[j]
  {
  }

  lemma UpdateTaskListParamsAvoidLead()
    ensures forall j :: 0 <= j < |Actions[13].params| ==> 'G' !in Actions[13].params[j]
  {
  }

  lemma ParamsAvoidLead()
    ensures forall i, j :: 0 <= i < |Actions| && 0 <= j < |Actions[i].params| ==> 'G' !in Actions[i].params[j]
  {
    ClearTasksParamsAvoidLead();
    CreateTaskListParamsAvoidLead();
    DeleteTaskParamsAvoidLead();
    DeleteTaskListParamsAvoidLead();
    GetTaskParamsAvoidLead();
    GetTaskListParamsAvoidLead();
    InsertTaskParamsAvoidLead();
    ListTasksParamsAvoidLead();
    ListTaskListsParamsAvoidLead();
    MoveTaskParamsAvoidLead();
    PatchTaskParamsAvoidLead();
    PatchTaskListParamsAvoidLead();
    UpdateTaskParamsAvoidLead();
    UpdateTaskListParamsAvoidLead();
    forall i, j | 0 <= i < |Actions| && 0 <= j < |Actions[i].params| ensures 'G' !in Actions[i].params[j] {
      assert i == 0 || i == 1 || i == 2 || i == 3 || i == 4 || i == 5 || i == 6 || i == 7 || i == 8 || i == 9 || i == 10 || i == 11 || i == 12 || i == 13;
    }
  }

  /** No param contains the first character of its action key, so stripping `<key>_` leaves the param. */
  lemma KeysAreLeadFree()
    ensures KeysLeadFree(Actions)
  {
    KeysStartWithLead();
    ParamsAvoidLead();
  }

  /** `_bool_variables` is a subset of `_all_fields`. */
  lemma BoolVarsAreFields()
    ensures BoolVars <= AllFields(Actions)
  {
    assert FieldName(Actions[6].key, Actions[6].params[1]) == FieldName("GOOGLETASKS_INSERT_TASK", "deleted");
    assert FieldName(Actions[6].key, Actions[6].params[4]) == FieldName("GOOGLETASKS_INSERT_TASK", "hidden");
    assert FieldName(Actions[7].key, Actions[7].params[6]) == FieldName("GOOGLETASKS_LIST_TASKS", "showCompleted");
    assert FieldName(Actions[7].key, Actions[7].params[7]) == FieldName("GOOGLETASKS_LIST_TASKS", "showDeleted");
    assert FieldName(Actions[7].key, Actions[7].params[8]) == FieldName("GOOGLETASKS_LIST_TASKS", "showHidden");
    assert FieldName(Actions[10].key, Actions[10].params[1]) == FieldName("GOOGLETASKS_PATCH_TASK", "deleted");
    assert FieldName(Actions[10].key, Actions[10].params[4]) == FieldName("GOOGLETASKS_PATCH_TASK", "hidden");
  }

  lemma ClearTasksFieldsDeclared()
    ensures forall j :: 0 <= j < |Actions[0].params| ==> Declared(Inputs, Actions[0].key, Actions[0].params[j])
  {
    forall j | 0 <= j < |Actions[0].params| ensures Declared(Inputs, Actions[0].key, Actions[0].params[j]) {
      { assert Inputs[0].action == Actions[0].key && Inputs[0].param == Actions[0].params[0]; }
    }
  }

  lemma CreateTaskListFieldsDeclared()
    ensures forall j :: 0 <= j < |Actions[1].params| ==> Declared(Inputs, Actions[1].key, Actions[1].params[j])
  {
    forall j | 0 <= j < |Actions[1].params| ensures Declared(Inputs, Actions[1].key, Actions[1].params[j]) {
      { assert Inputs[1].action == Actions[1].key && Inputs[1].param == Actions[1].params[0]; }
    }
  }

  lemma DeleteTaskFieldsDeclared()
    ensures forall j :: 0 <= j < |Actions[2].params| ==> Declared(Inputs, Actions[2].key, Actions[2].params[j])
  {
    forall j | 0 <= j < |Actions[2].params| ensures Declared(Inputs, Actions[2].key, Actions[2].params[j]) {
      if j == 0 { assert Inputs[2].action == Actions[2].key && Inputs[2].param == Actions[2].params[0]; }
      else { assert Inputs[3].action == Actions[2].key && Inputs[3].param == Actions[2].params[1]; }
    }
  }

  lemma DeleteTaskListFieldsDeclared()
    ensures forall j :: 0 <= j < |Actions[3].params| ==> Declared(Inputs, Actions[3].key, Actions[3].params[j])
  {
    forall j | 0 <= j < |Actions[3].params| ensures Declared(Inputs, Actions[3].key, Actions[3].params[j]) {
      { assert Inputs[4].action == Actions[3].key && Inputs[4].param == Actions[3].params[0]; }
    }
  }

  lemma GetTaskFieldsDeclared()
    ensures forall j :: 0 <= j < |Actions[4].params| ==> Declared(Inputs, Actions[4].key, Actions[4].params[j])
  {
    forall j | 0 <= j < |Actions[4].params| ensures Declared(Inputs, Actions[4].key, Actions[4].params[j]) {
      if j == 0 { assert Inputs[5].action == Actions[4].key && Inputs[5].param == Actions[4].params[0]; }
      else { assert Inputs[6].action == Actions[4].key && Inputs[6].param == Actions[4].params[1]; }
    }
  }

  lemma GetTaskListFieldsDeclared()
    ensures forall j :: 0 <= j < |Actions[5].params| ==> Declared(Inputs, Actions[5].key, Actions[5].params[j])
  {
    forall j | 0 <= j < |Actions[5].params| ensures Declared(Inputs, Actions[5].key, Actions[5].params[j]) {
      { assert Inputs[7].action == Actions[5].key && Inputs[7].param == Actions[5].params[0]; }
    }
  }

  lemma InsertTaskFieldsDeclared()
    ensures forall j :: 0 <= j < |Actions[6].params| ==> Declared(Inputs, Actions[6].key, Actions[6].params[j])
  {
    forall j | 0 <= j < |Actions[6].params| ensures Declared(Inputs, Actions[6].key, Actions[6].params[j]) {
      if j == 0 { assert Inputs[8].action == Actions[6].key && Inputs[8].param == Actions[6].params[0]; }
      else if j == 1 { assert Inputs[9].action == Actions[6].key && Inputs[9].param == Actions[6].params[1]; }
      else if j == 2 { assert Inputs[10].action == Actions[6].key && Inputs[10].param == Actions[6].params[2]; }
      else if j == 3 { assert Inputs[11].action == Actions[6].key && Inputs[11].param == Actions[6].params[3]; }
      else if j == 4 { assert Inputs[12].action == Actions[6].key && Inputs[12].param == Actions[6].params[4]; }
      else if j == 5 { assert Inputs[13].action == Actions[6].key && Inputs[13].param == Actions[6].params[5]; }
      else if j == 6 { assert Inputs[14].action == Actions[6].key && Inputs[14].param == Actions[6].params[6]; }
      else if j == 7 { assert Inputs[15].action == Actions[6].key && Inputs[15].param == Actions[6].params[7]; }
      else if j == 8 { assert Inputs[16].action == Actions[6].key && Inputs[16].param == Actions[6].params[8]; }
      else if j == 9 { assert Inputs[17].action == Actions[6].key && Inputs[17].param == Actions[6].params[9]; }
      else if j == 10 { assert Inputs[18].action == Actions[6].key && Inputs[18].param == Actions[6].params[10]; }
      else { assert Inputs[19].action == Actions[6].key && Inputs[19].param == Actions[6].params[11]; }
    }
  }

  lemma ListTasksFieldsDeclared()
    ensures forall j :: 0 <= j < |Actions[7].params| ==> Declared(Inputs, Actions[7].key, Actions[7].params[j])
  {
    forall j | 0 <= j < |Actions[7].params| ensures Declared(Inputs, Actions[7].key, Actions[7].params[j]) {
      if j == 0 { assert Inputs[20].action == Actions[7].key && Inputs[20].param == Actions[7].params[0]; }
      else if j == 1 { assert Inputs[21].action == Actions[7].key && Inputs[21].param == Actions[7].params[1]; }
      else if j == 2 { assert Inputs[22].action == Actions[7].key && Inputs[22].param == Actions[7].params[2]; }
      else if j == 3 { assert Inputs[23].action == Actions[7].key && Inputs[23].param == Actions[7].params[3]; }
      else if j == 4 { assert Inputs[24].action == Actions[7].key && Inputs[24].param == Actions[7].params[4]; }
      else if j == 5 { assert Inputs[25].action == Actions[7].key && Inputs[25].param == Actions[7].params[5]; }
      else if j == 6 { assert Inputs[26].action == Actions[7].key && Inputs[26].param == Actions[7].params[6]; }
      else if j == 7 { assert Inputs[27].action == Actions[7].key && Inputs[27].param == Actions[7].params[7]; }
      else if j == 8 { assert Inputs[28].action == Actions[7].key && Inputs[28].param == Actions[7].params[8]; }
      else if j == 9 { assert Inputs[29].action == Actions[7].key && Inputs[29].param == Actions[7].params[9]; }
      else { assert Inputs[30].action == Actions[7].key && Inputs[30].param == Actions[7].params[10]; }
    }
  }

  lemma ListTaskListsFieldsDeclared()
    ensures forall j :: 0 <= j < |Actions[8].params| ==> Declared(Inputs, Actions[8].key, Actions[8].params[j])
  {
    forall j | 0 <= j < |Actions[8].params| ensures Declared(Inputs, Actions[8].key, Actions[8].params[j]) {
      if j == 0 { assert Inputs[31].action == Actions[8].key && Inputs[31].param == Actions[8].params[0]; }
      else { assert Inputs[32].action == Actions[8].key && Inputs[32].param == Actions[8].params[1]; }
    }
  }

  lemma MoveTaskFieldsDeclared()
    ensures forall j :: 0 <= j < |Actions[9].params| ==> Declared(Inputs, Actions[9].key, Actions[9].params[j])
  {
    forall j | 0 <= j < |Actions[9].params| ensures Declared(Inputs, Actions[9].key, Actions[9].params[j]) {
      if j == 0 { assert Inputs[33].action == Actions[9].key && Inputs[33].param == Actions[9].params[0]; }
      else if j == 1 { assert Inputs[34].action == Actions[9].key && Inputs[34].param == Actions[9].params[1]; }
      else if j == 2 { assert Inputs[35].action == Actions[9].key && Inputs[35].param == Actions[9].params[2]; }
      else if j == 3 { assert Inputs[36].action == Actions[9].key && Inputs[36].param == Actions[9].params[3]; }
      else { assert Inputs[37].action == Actions[9].key && Inputs[37].param == Actions[9].params[4]; }
    }
  }

  lemma PatchTaskFieldsDeclared()
    ensures forall j :: 0 <= j < |Actions[10].params| ==> Declared(Inputs, Actions[10].key, Actions[10].params[j])
  {
    forall j | 0 <= j < |Actions[10].params| ensures Declared(Inputs, Actions[10].key, Actions[10].params[j]) {
      if j == 0 { assert Inputs[38].action == Actions[10].key && Inputs[38].param == Actions[10].params[0]; }
      else if j == 1 { assert Inputs[39].action == Actions[10].key && Inputs[39].param == Actions[10].params[1]; }
      else if j == 2 { assert Inputs[40].action == Actions[10].key && Inputs[40].param == Actions[10].params[2]; }
      else if j == 3 { assert Inputs[41].action == Actions[10].key && Inputs[41].param == Actions[10].params[3]; }
      else if j == 4 { assert Inputs[42].action == Actions[10].key && Inputs[42].param == Actions[10].params[4]; }
      else if j == 5 { assert Inputs[43].action == Actions[10].key && Inputs[43].param == Actions[10].params[5]; }
      else if j == 6 { assert Inputs[44].action == Actions[10].key && Inputs[44].param == Actions[10].params[6]; }
      else if j == 7 { assert Inputs[45].action == Actions[10].key && Inputs[45].param == Actions[10].params[7]; }
      else if j == 8 { assert Inputs[46].action == Actions[10].key && Inputs[46].param == Actions[10].params[8]; }
      else if j == 9 { assert Inputs[47].action == Actions[10].key && Inputs[47].param == Actions[10].params[9]; }
      else { assert Inputs[48].action == Actions[10].key && Inputs[48].param == Actions[10].params[10]; }
    }
  }

  lemma PatchTaskListFieldsDeclared()
    ensures forall j :: 0 <= j < |Actions[11].params| ==> Declared(Inputs, Actions[11].key, Actions[11].params[j])
  {
    forall j | 0 <= j < |Actions[11].params| ensures Declared(Inputs, Actions[11].key, Actions[11].params[j]) {
      if j == 0 { assert Inputs[49].action == Actions[11].key && Inputs[49].param == Actions[11].params[0]; }
      else { assert Inputs[50].action == Actions[11].key && Inputs[50].param == Actions[11].params[1]; }
    }
  }

  lemma UpdateTaskFieldsDeclared()
    ensures forall j :: 0 <= j < |Actions[12].params| ==> Declared(Inputs, Actions[12].key, Actions[12].params[j])
  {
    forall j | 0 <= j < |Actions[12].params| ensures Declared(Inputs, Actions[12].key, Actions[12].params[j]) {
      if j == 0 { assert Inputs[51].action == Actions[12].key && Inputs[51].param == Actions[12].params[0]; }
      else if j == 1 { assert Inputs[52].action == Actions[12].key && Inputs[52].param == Actions[12].params[1]; }
      else if j == 2 { assert Inputs[53].action == Actions[12].key && Inputs[53].param == Actions[12].params[2]; }
      else if j == 3 { assert Inputs[54].action == Actions[12].key && Inputs[54].param == Actions[12].params[3]; }
      else if j == 4 { assert Inputs[55].action == Actions[12].key && Inputs[55].param == Actions[12].params[4]; }
      else { assert Inputs[56].action == Actions[12].key && Inputs[56].param == Actions[12].params[5]; }
    }
  }

  lemma UpdateTaskListFieldsDeclared()
    ensures forall j :: 0 <= j < |Actions[13].params| ==> Declared(Inputs, Actions[13].key, Actions[13].params[j])
  {
    forall j | 0 <= j < |Actions[13].params| ensures Declared(Inputs, Actions[13].key, Actions[13].params[j]) {
      if j == 0 { assert Inputs[57].action == Actions[13].key && Inputs[57].param == Actions[13].params[0]; }
      else { assert Inputs[58].action == Actions[13].key && Inputs[58].param == Actions[13].params[1]; }
    }
  }

  /** Every field of `_actions_data` is declared in `inputs`. */
  lemma EveryFieldDeclared()
    ensures AllDeclared(Actions, Inputs)
  {
    ClearTasksFieldsDeclared();
    CreateTaskListFieldsDeclared();
    DeleteTaskFieldsDeclared();
    DeleteTaskListFieldsDeclared();
    GetTaskFieldsDeclared();
    GetTaskListFieldsDeclared();
    InsertTaskFieldsDeclared();
    ListTasksFieldsDeclared();
    ListTaskListsFieldsDeclared();
    MoveTaskFieldsDeclared();
    PatchTaskFieldsDeclared();
    PatchTaskListFieldsDeclared();
    UpdateTaskFieldsDeclared();
    UpdateTaskListFieldsDeclared();
    forall i, j | 0 <= i < |Actions| && 0 <= j < |Actions[i].params|
      ensures Declared(Inputs, Actions[i].key, Actions[i].params[j])
    {
      assert i == 0 || i == 1 || i == 2 || i == 3 || i == 4 || i == 5 || i == 6 || i == 7 || i == 8 || i == 9 || i == 10 || i == 11 || i == 12 || i == 13;
    }
  }

  lemma ClearTasksParamsDistinct()
    ensures Distinct(Actions[0].params)
  {
  }

  lemma CreateTaskListParamsDistinct()
    ensures Distinct(Actions[1].params)
  {
  }

  lemma DeleteTaskParamsDistinct()
    ensures Distinct(Actions[2].params)
  {
  }

  lemma DeleteTaskListParamsDistinct()
    ensures Distinct(Actions[3].params)
  {
  }

  lemma GetTaskParamsDistinct()
    ensures Distinct(Actions[4].params)
  {
  }

  lemma GetTaskListParamsDistinct()
    ensures Distinct(Actions[5].params)
  {
  }

  lemma InsertTaskParamsDistinct()
    ensures Distinct(Actions[6].params)
  {
  }

  lemma ListTasksParamsDistinct()
    ensures Distinct(Actions[7].params)
  {
  }

  lemma ListTaskListsParamsDistinct()
    ensures Distinct(Actions[8].params)
  {
  }

  lemma MoveTaskParamsDistinct()
    ensures Distinct(Actions[9].params)
  {
  }

  lemma PatchTaskParamsDistinct()
    ensures Distinct(Actions[10].params)
  {
  }

  lemma PatchTaskListParamsDistinct()
    ensures Distinct(Actions[11].params)
  {
  }

  lemma UpdateTaskParamsDistinct()
    ensures Distinct(Actions[12].params)
  {
  }

  lemma UpdateTaskListParamsDistinct()
    ensures Distinct(Actions[13].params)
  {
  }

  /** No action lists a field twice. */
  lemma ParamsAreDistinct()
    ensures ParamsDistinct(Actions)
  {
    ClearTasksParamsDistinct();
    CreateTaskListParamsDistinct();
    DeleteTaskParamsDistinct();
    DeleteTaskListParamsDistinct();
    GetTaskParamsDistinct();
    GetTaskListParamsDistinct();
    InsertTaskParamsDistinct();
    ListTasksParamsDistinct();
    ListTaskListsParamsDistinct();
    MoveTaskParamsDistinct();
    PatchTaskParamsDistinct();
    PatchTaskListParamsDistinct();
    UpdateTaskParamsDistinct();
    UpdateTaskListParamsDistinct();
    forall i | 0 <= i < |Actions| ensures Distinct(Actions[i].params) {
      assert i == 0 || i == 1 || i == 2 || i == 3 || i == 4 || i == 5 || i == 6 || i == 7 || i == 8 || i == 9 || i == 10 || i == 11 || i == 12 || i == 13;
    }
  }

  lemma ComponentIsWellFormed()
    ensures WellFormed(Component)
  {
    DisplayNamesAreDistinct();
    KeysAreDistinct();
    ParamsAreDistinct();
    KeysAreLeadFree();
    BoolVarsAreFields();
    EveryFieldDeclared();
  }

  // ---------------------------------------------------------------------------
  // Behaviour of the component
  // ---------------------------------------------------------------------------

  /** Every action that asks for a result field names one. */
  lemma ResultFieldWheneverAsked()
    ensures forall i :: 0 <= i < |Actions| && Actions[i].getResultField ==> HasResultField(Actions[i])
  {
  }

  /**
   * So the "Expected a dict with a single key" error is unreachable: no
   * catalog action asks for a result without naming its field.
   */
  lemma NeverSingleKeyError(ids: map<string, string>, values: map<string, Json>, sel: Selection,
                            toolset: Toolset, decode: string -> Decoded)
    ensures var o := Execute(Component, ids, values, sel, toolset, decode);
            !(o.Failed? && o.cause.NotSingleKey?)
  {
    ResultFieldWheneverAsked();
    NoSingleKeyErrorWhenFieldsNamed(Component, ids, values, sel, toolset, decode);
  }

  /**
   * "Get Task" answered with `{"task": {...}}` returns the task itself, found
   * by the recursive search for its result field `task`.
   */
  lemma GetTaskYieldsTask(ids: map<string, string>, values: map<string, Json>, task: seq<(string, Json)>,
                          toolset: Toolset, decode: string -> Decoded)
    requires "GOOGLETASKS_GET_TASK" in ids
    requires FieldName("GOOGLETASKS_GET_TASK", "task_id") in values
    requires FieldName("GOOGLETASKS_GET_TASK", "tasklist_id") in values
    requires |task| > 0
    requires forall p: map<string, Json> :: toolset(ids["GOOGLETASKS_GET_TASK"], p) == Ok(Answered(Obj([("task", Obj(task))])))
    ensures Execute(Component, ids, values, Picked(["Get Task"]), toolset, decode) == Returned(Obj(task))
  {
    var a := Actions[4];
    assert a == ActionSpec("GOOGLETASKS_GET_TASK", "Get Task", ["task_id", "tasklist_id"], true, Some("task"));
    var data := Obj([("task", Obj(task))]);
    AnsweredEntries(data);
    assert FindKey(data, "task") == Obj(task);
    SearchHitReturned(SearchOrRaise, a, Answered(data).members);
    assert Response(Component, a, Answered(data), decode) == Ok(Obj(task));
    DisplayNamesAreDistinct();
    ParamsOfSucceeds(Component, a, values);
    SelectedActionAnswers(Component, ids, values, 4, Answered(data), toolset, decode);
  }

  /**
   * An action without `get_result_field`, such as "Create A Task List" or
   * "Delete Task", returns a dict `data` exactly as the call sent it.
   */
  lemma PlainActionReturnsData(i: nat, ids: map<string, string>, values: map<string, Json>, data: seq<(string, Json)>,
                               toolset: Toolset, decode: string -> Decoded)
    requires i < |Actions| && !Actions[i].getResultField && Actions[i].key in ids
    requires forall j :: 0 <= j < |Actions[i].params| ==> FieldName(Actions[i].key, Actions[i].params[j]) in values
    requires forall p: map<string, Json> :: toolset(ids[Actions[i].key], p) == Ok(Answered(Obj(data)))
    ensures Execute(Component, ids, values, Picked([Actions[i].displayName]), toolset, decode) == Returned(Obj(data))
  {
    var a := Actions[i];
    AnsweredEntries(Obj(data));
    NoResultFieldVerbatim(SearchOrRaise, a, Answered(Obj(data)).members);
    assert Response(Component, a, Answered(Obj(data)), decode) == Ok(Obj(data));
    DisplayNamesAreDistinct();
    KeysStartWithLead();
    ParamsOfSucceeds(Component, a, values);
    SelectedActionAnswers(Component, ids, values, i, Answered(Obj(data)), toolset, decode);
  }

  /** A display name that is not in the catalog is refused before anything is read or called. */
  lemma InvalidActionRejected(ids: map<string, string>, values: map<string, Json>,
                              toolset: Toolset, decode: string -> Decoded)
    ensures Execute(Component, ids, values, Picked(["Invalid Action"]), toolset, decode) ==
            Failed("Invalid Action", InvalidAction("Invalid Action"))
  {
    UnknownNameFails(Component, ids, values, Picked(["Invalid Action"]), toolset, decode);
  }
}
