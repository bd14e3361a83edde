/**
 * The rows of the four onboarding tables and the database that holds them.
 *
 * `onboarding_configs` -> `onboarding_steps` (by `config_id`) ->
 * `onboarding_fields` (by `step_id`) describe a questionnaire per role;
 * `user_onboarding_data` holds one answer row per
 * (user, configuration, step key, field key).
 */
module Schema {
  import opened Wrappers
  import opened Sql

  /** A JSON value as the request body carries it; `JNull` is SQL NULL when stored. */
  datatype Json =
    | JNull
    | JBool(b: bool)
    | JNum(n: real)
    | JStr(s: string)
    | JArray(items: seq<Json>)
    | JObject(members: map<string, Json>)

  /** A row of `onboarding_configs`. */
  datatype Config = Config(
    id: string,
    targetRole: string,
    name: string,
    isDefault: bool,
    isActive: bool,
    version: int,
    createdAt: Option<Instant>,
    updatedAt: Option<Instant>)

  /** A row of `onboarding_steps`. */
  datatype Step = Step(
    id: string,
    configId: string,
    stepNumber: int,
    stepKey: string,
    title: string,
    description: Option<string>,
    isRequired: bool,
    isActive: bool,
    createdAt: Option<Instant>)

  /** A row of `onboarding_fields`. */
  datatype Field = Field(
    id: string,
    stepId: string,
    fieldKey: string,
    fieldType: string,
    labelText: string,
    description: Option<string>,
    placeholder: Option<string>,
    helpText: Option<string>,
    referenceCategoryCode: Option<string>,
    isRequired: bool,
    isActive: bool,
    fieldOrder: int,
    allowCustomValues: bool,
    validationRules: Json,
    fieldConfig: Json,
    groupId: Option<string>,
    createdAt: Option<Instant>,
    updatedAt: Option<Instant>)

  /** The columns of the conflict target of the answer upsert. */
  datatype AnswerKey = AnswerKey(userId: string, configId: string, stepKey: string, fieldKey: string)

  /** The seven value columns of an answer; any of them may be NULL. */
  datatype Slots = Slots(
    text: Json,
    number: Json,
    boolean: Json,
    date: Json,
    time: Json,
    json: Json,
    custom: Json)

  /** A row of `user_onboarding_data`. */
  datatype Answer = Answer(
    id: string,
    key: AnswerKey,
    values: Slots,
    isCompleted: Json,
    createdAt: Option<Instant>,
    updatedAt: Option<Instant>)

  /** The columns of `onboarding_steps` an `order_by` can name. */
  datatype StepColumn =
    | StepIdColumn | StepConfigIdColumn | StepNumberColumn | StepKeyColumn | StepTitleColumn
    | StepDescriptionColumn | StepIsRequiredColumn | StepIsActiveColumn | StepCreatedAtColumn

  /** The scalar columns of `onboarding_fields` an `order_by` can name. */
  datatype FieldColumn =
    | FieldIdColumn | FieldStepIdColumn | FieldKeyColumn | FieldTypeColumn | FieldLabelColumn
    | FieldDescriptionColumn | FieldPlaceholderColumn | FieldHelpTextColumn
    | FieldReferenceCategoryCodeColumn | FieldIsRequiredColumn | FieldIsActiveColumn
    | FieldOrderColumn | FieldAllowCustomValuesColumn | FieldGroupIdColumn
    | FieldCreatedAtColumn | FieldUpdatedAtColumn

  /** The name of a step column in SQL. */
  function StepColumnName(c: StepColumn): string {
    match c
    case StepIdColumn => "id"
    case StepConfigIdColumn => "config_id"
    case StepNumberColumn => "step_number"
    case StepKeyColumn => "step_key"
    case StepTitleColumn => "title"
    case StepDescriptionColumn => "description"
    case StepIsRequiredColumn => "is_required"
    case StepIsActiveColumn => "is_active"
    case StepCreatedAtColumn => "created_at"
  }

  /** The step column an `order_by` text names, if it names one. */
  function StepColumnNamed(name: string): (r: Option<StepColumn>)
    ensures r.Some? ==> StepColumnName(r.value) == name
    ensures r.None? ==> forall c :: StepColumnName(c) != name
  {
    if name == "id" then Some(StepIdColumn)
    else if name == "config_id" then Some(StepConfigIdColumn)
    else if name == "step_number" then Some(StepNumberColumn)
    else if name == "step_key" then Some(StepKeyColumn)
    else if name == "title" then Some(StepTitleColumn)
    else if name == "description" then Some(StepDescriptionColumn)
    else if name == "is_required" then Some(StepIsRequiredColumn)
    else if name == "is_active" then Some(StepIsActiveColumn)
    else if name == "created_at" then Some(StepCreatedAtColumn)
    else None
  }

  /** The name of a field column in SQL. */
  function FieldColumnName(c: FieldColumn): string {
    match c
    case FieldIdColumn => "id"
    case FieldStepIdColumn => "step_id"
    case FieldKeyColumn => "field_key"
    case FieldTypeColumn => "field_type"
    case FieldLabelColumn => "label"
    case FieldDescriptionColumn => "description"
    case FieldPlaceholderColumn => "placeholder"
    case FieldHelpTextColumn => "help_text"
    case FieldReferenceCategoryCodeColumn => "reference_category_code"
    case FieldIsRequiredColumn => "is_required"
    case FieldIsActiveColumn => "is_active"
    case FieldOrderColumn => "field_order"
    case FieldAllowCustomValuesColumn => "allow_custom_values"
    case FieldGroupIdColumn => "group_id"
    case FieldCreatedAtColumn => "created_at"
    case FieldUpdatedAtColumn => "updated_at"
  }

  /** The field column an `order_by` text names, if it names one. */
  function FieldColumnNamed(name: string): (r: Option<FieldColumn>)
    ensures r.Some? ==> FieldColumnName(r.value) == name
    ensures r.None? ==> forall c :: FieldColumnName(c) != name
  {
    if name == "id" then Some(FieldIdColumn)
    else if name == "step_id" then Some(FieldStepIdColumn)
    else if name == "field_key" then Some(FieldKeyColumn)
    else if name == "field_type" then Some(FieldTypeColumn)
    else if name == "label" then Some(FieldLabelColumn)
    else if name == "description" then Some(FieldDescriptionColumn)
    else if name == "placeholder" then Some(FieldPlaceholderColumn)
    else if name == "help_text" then Some(FieldHelpTextColumn)
    else if name == "reference_category_code" then Some(FieldReferenceCategoryCodeColumn)
    else if name == "is_required" then Some(FieldIsRequiredColumn)
    else if name == "is_active" then Some(FieldIsActiveColumn)
    else if name == "field_order" then Some(FieldOrderColumn)
    else if name == "allow_custom_values" then Some(FieldAllowCustomValuesColumn)
    else if name == "group_id" then Some(FieldGroupIdColumn)
    else if name == "created_at" then Some(FieldCreatedAtColumn)
    else if name == "updated_at" then Some(FieldUpdatedAtColumn)
    else None
  }

  /** Step column names are distinct, so each column is found by its own name. */
  lemma StepColumnRoundTrip(c: StepColumn)
    ensures StepColumnNamed(StepColumnName(c)) == Some(c)
  {
  }

  /** Field column names are distinct, so each column is found by its own name. */
  lemma FieldColumnRoundTrip(c: FieldColumn)
    ensures FieldColumnNamed(FieldColumnName(c)) == Some(c)
  {
  }

  function StepCell(s: Step, c: StepColumn): Cell {
    match c
    case StepIdColumn => Text(s.id)
    case StepConfigIdColumn => Text(s.configId)
    case StepNumberColumn => Int(s.stepNumber)
    case StepKeyColumn => Text(s.stepKey)
    case StepTitleColumn => Text(s.title)
    case StepDescriptionColumn => TextCell(s.description)
    case StepIsRequiredColumn => Bool(s.isRequired)
    case StepIsActiveColumn => Bool(s.isActive)
    case StepCreatedAtColumn => TimestampCell(s.createdAt)
  }

  function FieldCell(f: Field, c: FieldColumn): Cell {
    match c
    case FieldIdColumn => Text(f.id)
    case FieldStepIdColumn => Text(f.stepId)
    case FieldKeyColumn => Text(f.fieldKey)
    case FieldTypeColumn => Text(f.fieldType)
    case FieldLabelColumn => Text(f.labelText)
    case FieldDescriptionColumn => TextCell(f.description)
    case FieldPlaceholderColumn => TextCell(f.placeholder)
    case FieldHelpTextColumn => TextCell(f.helpText)
    case FieldReferenceCategoryCodeColumn => TextCell(f.referenceCategoryCode)
    case FieldIsRequiredColumn => Bool(f.isRequired)
    case FieldIsActiveColumn => Bool(f.isActive)
    case FieldOrderColumn => Int(f.fieldOrder)
    case FieldAllowCustomValuesColumn => Bool(f.allowCustomValues)
    case FieldGroupIdColumn => TextCell(f.groupId)
    case FieldCreatedAtColumn => TimestampCell(f.createdAt)
    case FieldUpdatedAtColumn => TimestampCell(f.updatedAt)
  }

  /** Sort keys: one function value per column, so that equal columns give equal keys. */
  function StepKey(c: StepColumn): Step -> Cell {
    s => StepCell(s, c)
  }

  function FieldKey(c: FieldColumn): Field -> Cell {
    f => FieldCell(f, c)
  }

  function ConfigCreated(c: Config): Cell {
    TimestampCell(c.createdAt)
  }

  function AnswerCreated(a: Answer): Cell {
    TimestampCell(a.createdAt)
  }

  /** No two configurations share an `id` (the primary key). */
  ghost predicate UniqueConfigIds(configs: seq<Config>) {
    forall i, j | 0 <= i < j < |configs| :: configs[i].id != configs[j].id
  }

  /**
   * No two answers share an `id` (the primary key) or a key (the unique index
   * the upsert's ON CONFLICT clause names).
   */
  ghost predicate UniqueAnswers(rows: seq<Answer>) {
    forall i, j | 0 <= i < j < |rows| :: rows[i].id != rows[j].id && rows[i].key != rows[j].key
  }

  /** The database the service and the router read and write. */
  class Database {
    var configs: seq<Config>
    var steps: seq<Step>
    var fields: seq<Field>
    var answers: seq<Answer>

    /** The constraints the database itself enforces. */
    ghost predicate Valid()
      reads this
    {
      UniqueConfigIds(configs) && UniqueAnswers(answers)
    }

    constructor (configs: seq<Config>, steps: seq<Step>, fields: seq<Field>, answers: seq<Answer>)
      requires UniqueConfigIds(configs) && UniqueAnswers(answers)
      ensures Valid()
      ensures this.configs == configs && this.steps == steps
      ensures this.fields == fields && this.answers == answers
    {
      this.configs := configs;
      this.steps := steps;
      this.fields := fields;
      this.answers := answers;
    }
  }
}
