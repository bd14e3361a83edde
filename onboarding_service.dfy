/**
 * The onboarding service: reads over configurations, steps, fields and
 * stored answers, and the upsert that stores one answer.
 *
 * Each query is a function over the tables (the SQL it sends, as filter, sort
 * and take); each method of `OnboardingService` returns that function's value
 * and states what the value means: which rows it holds, that it is a
 * permutation of them, and in which order.
 */
module OnboardingService {
  import opened Wrappers
  import opened Sql
  import opened Schema

  // ---------------------------------------------------------------------------
  // get_configs: each filter given narrows the result, a missing one does not.

  predicate ConfigMatches(c: Config, targetRole: Option<string>, isDefault: Option<bool>, isActive: Option<bool>) {
    && (targetRole.None? || c.targetRole == targetRole.value)
    && (isDefault.None? || c.isDefault == isDefault.value)
    && (isActive.None? || c.isActive == isActive.value)
  }

  function ConfigFilter(targetRole: Option<string>, isDefault: Option<bool>, isActive: Option<bool>): Config -> bool {
    c => ConfigMatches(c, targetRole, isDefault, isActive)
  }

  /** The matching configurations, newest first (`ORDER BY created_at DESC`). */
  function ConfigsQuery(configs: seq<Config>, targetRole: Option<string>, isDefault: Option<bool>, isActive: Option<bool>): (r: seq<Config>)
    ensures forall c :: c in r <==> c in configs && ConfigMatches(c, targetRole, isDefault, isActive)
    ensures multiset(r) == multiset(Filter(configs, ConfigFilter(targetRole, isDefault, isActive)))
    ensures SortedBy(r, ConfigCreated, Desc)
  {
    SortBy(Filter(configs, ConfigFilter(targetRole, isDefault, isActive)), ConfigCreated, Desc)
  }

  /** When `get_fields` fails: on an empty IN list, or on an order naming no column. */
  lemma FieldsRequestOutcome(fields: seq<Field>, sel: StepSelector, isActive: Option<bool>, orderBy: string)
    ensures FieldsRequest(fields, sel, isActive, orderBy) == Err(EmptyInList) <==> sel == StepsIn([])
    ensures FieldsRequest(fields, sel, isActive, orderBy).Err? <==> sel == StepsIn([]) || FieldOrder(orderBy).Err?
  {
  }

  /**
   * The rows of a field query: a permutation of the matching fields, ordered by
   * the given column, or in storage order when there is none.
   */
  lemma FieldsQueryRows(fields: seq<Field>, sel: StepSelector, isActive: Option<bool>, orderBy: Option<FieldColumn>)
    ensures forall f :: f in FieldsQuery(fields, sel, isActive, orderBy) <==> f in fields && FieldMatches(f, sel, isActive)
    ensures multiset(FieldsQuery(fields, sel, isActive, orderBy)) == multiset(Filter(fields, FieldFilter(sel, isActive)))
    ensures orderBy.Some? ==> SortedBy(FieldsQuery(fields, sel, isActive, orderBy), FieldKey(orderBy.value), Asc)
    ensures orderBy.None? ==> FieldsQuery(fields, sel, isActive, orderBy) == Filter(fields, FieldFilter(sel, isActive))
  {
    var m := Filter(fields, FieldFilter(sel, isActive));
    if orderBy.Some? {
      assert FieldsQuery(fields, sel, isActive, orderBy) == SortBy(m, FieldKey(orderBy.value), Asc);
    }
  }

  /** A `get_fields` that succeeds runs the field query under the ordering its `order_by` names. */
  lemma FieldsRequestRows(fields: seq<Field>, sel: StepSelector, isActive: Option<bool>, orderBy: string)
    requires FieldsRequest(fields, sel, isActive, orderBy).Ok?
    ensures FieldOrder(orderBy).Ok?
    ensures FieldsRequest(fields, sel, isActive, orderBy).value == FieldsQuery(fields, sel, isActive, FieldOrder(orderBy).value)
  {
  }

  // ---------------------------------------------------------------------------
  // get_config_by_role: the newest active default configuration of a role.

  predicate IsRoleDefault(c: Config, role: string) {
    c.targetRole == role && c.isDefault && c.isActive
  }

  /** `ORDER BY created_at DESC LIMIT 1` over the active defaults of `role`. */
  function ConfigByRole(configs: seq<Config>, role: string): Option<Config> {
    var s := ConfigsQuery(configs, Some(role), Some(true), Some(true));
    if s == [] then None else Some(s[0])
  }

  /**
   * There is no configuration for the role exactly when no row is an active
   * default of it; otherwise the one returned is such a row and no such row is
   * newer (a NULL `created_at` counts as newest, as it sorts first in DESC).
   */
  lemma ConfigByRoleNewest(configs: seq<Config>, role: string)
    ensures ConfigByRole(configs, role).None? <==> forall c :: c in configs ==> !IsRoleDefault(c, role)
    ensures ConfigByRole(configs, role).Some? ==>
      var n := ConfigByRole(configs, role).value;
      && n in configs
      && IsRoleDefault(n, role)
      && forall c :: c in configs && IsRoleDefault(c, role) ==> CellLe(ConfigCreated(c), ConfigCreated(n))
  {
    var p := ConfigFilter(Some(role), Some(true), Some(true));
    var m := Filter(configs, p);
    var s := ConfigsQuery(configs, Some(role), Some(true), Some(true));
    assert forall c :: p(c) == IsRoleDefault(c, role);
    if s != [] {
      assert s[0] in multiset(m);
      forall c | c in configs && IsRoleDefault(c, role)
        ensures CellLe(ConfigCreated(c), ConfigCreated(s[0]))
      {
        assert c in multiset(s);
        var j :| 0 <= j < |s| && s[j] == c;
        if j == 0 {
          CellLeTotal(ConfigCreated(c), ConfigCreated(c));
        }
      }
    }
  }

  // ---------------------------------------------------------------------------
  // order_by: the text goes into `ORDER BY` as it is, so it must name a column.

  /** Why the database refuses a read. */
  datatype QueryError = EmptyInList | UnknownOrderColumn(name: string)

  /** The ordering an `order_by` text asks for: none when the text is empty. */
  function StepOrder(orderBy: string): (r: Result<Option<StepColumn>, QueryError>)
    ensures r == Ok(None) <==> orderBy == ""
    ensures r.Ok? && r.value.Some? ==> StepColumnName(r.value.value) == orderBy
    ensures r.Err? ==> r.error == UnknownOrderColumn(orderBy) && forall c :: StepColumnName(c) != orderBy
  {
    if orderBy == "" then Ok(None)
    else match StepColumnNamed(orderBy)
      case Some(c) => Ok(Some(c))
      case None => Err(UnknownOrderColumn(orderBy))
  }

  function FieldOrder(orderBy: string): (r: Result<Option<FieldColumn>, QueryError>)
    ensures r == Ok(None) <==> orderBy == ""
    ensures r.Ok? && r.value.Some? ==> FieldColumnName(r.value.value) == orderBy
    ensures r.Err? ==> r.error == UnknownOrderColumn(orderBy) && forall c :: FieldColumnName(c) != orderBy
  {
    if orderBy == "" then Ok(None)
    else match FieldColumnNamed(orderBy)
      case Some(c) => Ok(Some(c))
      case None => Err(UnknownOrderColumn(orderBy))
  }

  // ---------------------------------------------------------------------------
  // get_steps

  predicate StepMatches(s: Step, configId: Option<string>, isActive: Option<bool>) {
    && (configId.None? || s.configId == configId.value)
    && (isActive.None? || s.isActive == isActive.value)
  }

  function StepFilter(configId: Option<string>, isActive: Option<bool>): Step -> bool {
    s => StepMatches(s, configId, isActive)
  }

  /**
   * The matching steps, ordered by the column `orderBy` names, or in storage
   * order when `order_by` is empty (no ORDER BY clause).
   */
  function StepsQuery(steps: seq<Step>, configId: Option<string>, isActive: Option<bool>, orderBy: Option<StepColumn>): seq<Step> {
    var m := Filter(steps, StepFilter(configId, isActive));
    if orderBy.Some? then SortBy(m, StepKey(orderBy.value), Asc) else m
  }

  /** `get_steps` with its `order_by` text. */
  function StepsRequest(steps: seq<Step>, configId: Option<string>, isActive: Option<bool>, orderBy: string): (r: Result<seq<Step>, QueryError>)
    ensures r.Err? <==> StepOrder(orderBy).Err?
    ensures r.Ok? ==> forall s :: s in r.value <==> s in steps && StepMatches(s, configId, isActive)
    ensures r.Ok? ==> multiset(r.value) == multiset(Filter(steps, StepFilter(configId, isActive)))
    ensures r.Ok? && StepOrder(orderBy).value.Some? ==> SortedBy(r.value, StepKey(StepOrder(orderBy).value.value), Asc)
  {
    match StepOrder(orderBy)
    case Err(e) => Err(e)
    case Ok(o) => Ok(StepsQuery(steps, configId, isActive, o))
  }

  // ---------------------------------------------------------------------------
  // get_fields

  /** Which steps a field query asks for: any, one, or those in an IN list. */
  datatype StepSelector = AnyStep | OneStep(id: string) | StepsIn(ids: seq<string>)

  /** A single `step_id` wins over `step_ids`. */
  function SelectorOf(stepId: Option<string>, stepIds: Option<seq<string>>): StepSelector {
    if stepId.Some? then OneStep(stepId.value)
    else if stepIds.Some? then StepsIn(stepIds.value)
    else AnyStep
  }

  predicate Selects(sel: StepSelector, stepId: string) {
    match sel
    case AnyStep => true
    case OneStep(id) => stepId == id
    case StepsIn(ids) => stepId in ids
  }

  /** Which step ids a selector built from `step_id` and `step_ids` admits. */
  lemma SelectorOfAdmits(stepId: Option<string>, stepIds: Option<seq<string>>, id: string)
    ensures stepId.Some? ==> (Selects(SelectorOf(stepId, stepIds), id) <==> id == stepId.value)
    ensures stepId.None? && stepIds.Some? ==> (Selects(SelectorOf(stepId, stepIds), id) <==> id in stepIds.value)
    ensures stepId.None? && stepIds.None? ==> Selects(SelectorOf(stepId, stepIds), id)
  {
  }

  predicate FieldMatches(f: Field, sel: StepSelector, isActive: Option<bool>) {
    Selects(sel, f.stepId) && (isActive.None? || f.isActive == isActive.value)
  }

  function FieldFilter(sel: StepSelector, isActive: Option<bool>): Field -> bool {
    f => FieldMatches(f, sel, isActive)
  }

  /** The matching fields, ordered by the column `orderBy` names, or in storage order. */
  function FieldsQuery(fields: seq<Field>, sel: StepSelector, isActive: Option<bool>, orderBy: Option<FieldColumn>): seq<Field> {
    var m := Filter(fields, FieldFilter(sel, isActive));
    if orderBy.Some? then SortBy(m, FieldKey(orderBy.value), Asc) else m
  }

  /**
   * The text of `get_fields` with an empty `step_ids` holds `step_id IN ()`, which
   * the database refuses; an `order_by` that names no column of the table is
   * refused too.
   */
  function FieldsRequest(fields: seq<Field>, sel: StepSelector, isActive: Option<bool>, orderBy: string): Result<seq<Field>, QueryError> {
    if sel.StepsIn? && sel.ids == [] then Err(EmptyInList)
    else match FieldOrder(orderBy)
      case Err(e) => Err(e)
      case Ok(o) => Ok(FieldsQuery(fields, sel, isActive, o))
  }

  // ---------------------------------------------------------------------------
  // get_steps_by_role: steps joined to their configuration.

  /** A row of the join: the step's columns and its configuration's name. */
  datatype RoleStep = RoleStep(step: Step, configName: string)

  function RoleStepNumber(r: RoleStep): Cell {
    Int(r.step.stepNumber)
  }

  /** The join rows of one step: one per configuration it matches. */
  function JoinStep(s: Step, configs: seq<Config>, role: string): seq<RoleStep> {
    if configs == [] then []
    else
      (if s.configId == configs[0].id && configs[0].targetRole == role && s.isActive
       then [RoleStep(s, configs[0].name)] else [])
      + JoinStep(s, configs[1..], role)
  }

  /**
   * `FROM onboarding_steps os JOIN onboarding_configs oc ON os.config_id = oc.id
   * WHERE oc.target_role = :role AND os.is_active = true`, in storage order.
   */
  function RoleJoin(steps: seq<Step>, configs: seq<Config>, role: string): seq<RoleStep> {
    if steps == [] then [] else JoinStep(steps[0], configs, role) + RoleJoin(steps[1..], configs, role)
  }

  /** The join ordered by `step_number`. */
  function StepsByRole(steps: seq<Step>, configs: seq<Config>, role: string): (r: seq<RoleStep>)
    ensures multiset(r) == multiset(RoleJoin(steps, configs, role))
    ensures SortedBy(r, RoleStepNumber, Asc)
  {
    SortBy(RoleJoin(steps, configs, role), RoleStepNumber, Asc)
  }

  /** The step's configuration exists and targets `role`; its other flags do not matter. */
  predicate OwnedByRole(s: Step, configs: seq<Config>, role: string) {
    exists c :: c in configs && c.id == s.configId && c.targetRole == role
  }

  /** The row names the step's configuration, which targets `role`. */
  predicate NamedByOwner(r: RoleStep, configs: seq<Config>, role: string) {
    exists c :: c in configs && c.id == r.step.configId && c.targetRole == role && c.name == r.configName
  }

  function RoleFilter(configs: seq<Config>, role: string): Step -> bool {
    (s: Step) => s.isActive && OwnedByRole(s, configs, role)
  }

  function StepsOf(rows: seq<RoleStep>): (r: seq<Step>)
    ensures |r| == |rows|
  {
    if rows == [] then [] else [rows[0].step] + StepsOf(rows[1..])
  }

  lemma {:induction false} StepsOfAppend(a: seq<RoleStep>, b: seq<RoleStep>)
    ensures StepsOf(a + b) == StepsOf(a) + StepsOf(b)
  {
    if a != [] {
      assert (a + b)[0] == a[0] && (a + b)[1..] == a[1..] + b;
      StepsOfAppend(a[1..], b);
      calc {
        StepsOf(a + b);
        [a[0].step] + StepsOf(a[1..] + b);
        [a[0].step] + (StepsOf(a[1..]) + StepsOf(b));
        ([a[0].step] + StepsOf(a[1..])) + StepsOf(b);
        StepsOf(a) + StepsOf(b);
      }
    } else {
      assert a + b == b;
    }
  }

  lemma RemoveAt<T>(b: seq<T>, i: nat)
    requires i < |b|
    ensures b == b[..i] + [b[i]] + b[i + 1..]
    ensures multiset(b[..i] + b[i + 1..]) == multiset(b) - multiset{b[i]}
  {
    assert b == b[..i] + [b[i]] + b[i + 1..];
  }

  /** Dropping row `i` drops its step from the steps the rows carry. */
  lemma StepsOfRemove(b: seq<RoleStep>, i: nat)
    requires i < |b|
    ensures multiset(StepsOf(b)) == multiset(StepsOf(b[..i] + b[i + 1..])) + multiset{b[i].step}
  {
    RemoveAt(b, i);
    StepsOfAppend(b[..i] + [b[i]], b[i + 1..]);
    StepsOfAppend(b[..i], [b[i]]);
    StepsOfAppend(b[..i], b[i + 1..]);
    assert StepsOf([b[i]]) == [b[i].step] by {
      assert [b[i]][1..] == [];
    }
  }

  /** Rows that are permutations of each other carry permutations of the same steps. */
  lemma {:induction false} StepsOfPermutation(a: seq<RoleStep>, b: seq<RoleStep>)
    requires multiset(a) == multiset(b)
    ensures multiset(StepsOf(a)) == multiset(StepsOf(b))
    decreases |a|
  {
    if a != [] {
      var x := a[0];
      assert x in multiset(b) by {
        assert x in multiset(a);
      }
      assert x in b;
      var i :| 0 <= i < |b| && b[i] == x;
      RemoveAt(b, i);
      RemoveAt(a, 0);
      assert a[..0] + a[1..] == a[1..];
      var rest := b[..i] + b[i + 1..];
      assert multiset(a[1..]) == multiset(rest);
      StepsOfPermutation(a[1..], rest);
      StepsOfRemove(b, i);
      StepsOfRemove(a, 0);
    }
  }

  /** A step with no configuration of that id in `configs` joins to nothing. */
  lemma {:induction false} JoinStepWithoutOwner(s: Step, configs: seq<Config>, role: string)
    requires forall c :: c in configs ==> c.id != s.configId
    ensures JoinStep(s, configs, role) == []
  {
    if configs != [] {
      JoinStepWithoutOwner(s, configs[1..], role);
    }
  }

  /** With unique configuration ids, a step joins at most once. */
  lemma {:induction false} JoinStepOnce(s: Step, configs: seq<Config>, role: string)
    requires UniqueConfigIds(configs)
    ensures StepsOf(JoinStep(s, configs, role)) == if s.isActive && OwnedByRole(s, configs, role) then [s] else []
    ensures forall r :: r in JoinStep(s, configs, role) ==> r.step == s && NamedByOwner(r, configs, role)
  {
    if configs != [] {
      var c0 := configs[0];
      var rest := configs[1..];
      assert UniqueConfigIds(rest);
      JoinStepOnce(s, rest, role);
      StepsOfAppend(if s.configId == c0.id && c0.targetRole == role && s.isActive then [RoleStep(s, c0.name)] else [],
                    JoinStep(s, rest, role));
      if s.configId == c0.id {
        forall c | c in rest
          ensures c.id != s.configId
        {
          var j :| 0 <= j < |rest| && rest[j] == c;
          assert configs[j + 1] == c;
        }
        JoinStepWithoutOwner(s, rest, role);
        assert !OwnedByRole(s, rest, role);
        assert OwnedByRole(s, configs, role) <==> c0.targetRole == role;
      } else {
        assert OwnedByRole(s, configs, role) <==> OwnedByRole(s, rest, role);
      }
    }
  }

  /**
   * With unique configuration ids the join carries exactly the active steps
   * whose configuration targets the role, in storage order, each with that
   * configuration's name.
   */
  lemma {:induction false} JoinIsRoleSteps(steps: seq<Step>, configs: seq<Config>, role: string)
    requires UniqueConfigIds(configs)
    ensures StepsOf(RoleJoin(steps, configs, role)) == Filter(steps, RoleFilter(configs, role))
    ensures forall r :: r in RoleJoin(steps, configs, role) ==> NamedByOwner(r, configs, role)
  {
    if steps != [] {
      var s := steps[0];
      JoinStepOnce(s, configs, role);
      JoinIsRoleSteps(steps[1..], configs, role);
      StepsOfAppend(JoinStep(s, configs, role), RoleJoin(steps[1..], configs, role));
    }
  }

  /** `get_steps_by_role`'s result, stated without the join. */
  lemma StepsByRoleMeaning(steps: seq<Step>, configs: seq<Config>, role: string)
    requires UniqueConfigIds(configs)
    ensures multiset(StepsOf(StepsByRole(steps, configs, role))) == multiset(Filter(steps, RoleFilter(configs, role)))
    ensures forall r :: r in StepsByRole(steps, configs, role) ==> NamedByOwner(r, configs, role)
    ensures SortedBy(StepsByRole(steps, configs, role), RoleStepNumber, Asc)
  {
    var j := RoleJoin(steps, configs, role);
    var r := StepsByRole(steps, configs, role);
    JoinIsRoleSteps(steps, configs, role);
    StepsOfPermutation(r, j);
    forall x | x in r
      ensures NamedByOwner(x, configs, role)
    {
      assert x in multiset(j);
    }
  }

  // ---------------------------------------------------------------------------
  // get_user_data

  /** A `config_id` narrows the answers only when it is a non-empty string. */
  predicate AnswerMatches(a: Answer, userId: string, configId: Option<string>) {
    a.key.userId == userId && (configId.None? || configId.value == "" || a.key.configId == configId.value)
  }

  function AnswerFilter(userId: string, configId: Option<string>): Answer -> bool {
    a => AnswerMatches(a, userId, configId)
  }

  /** The user's answers, oldest first (`ORDER BY created_at`). */
  function UserDataQuery(answers: seq<Answer>, userId: string, configId: Option<string>): (r: seq<Answer>)
    ensures forall a :: a in r <==> a in answers && AnswerMatches(a, userId, configId)
    ensures multiset(r) == multiset(Filter(answers, AnswerFilter(userId, configId)))
    ensures SortedBy(r, AnswerCreated, Asc)
  {
    SortBy(Filter(answers, AnswerFilter(userId, configId)), AnswerCreated, Asc)
  }

  // ---------------------------------------------------------------------------
  // save_user_data: INSERT ... ON CONFLICT (user_id, config_id, step_key, field_key) DO UPDATE

  /** Why a save fails; the whole write is then rolled back. */
  datatype SaveError =
    | KeyNotText(column: string)  // a key column missing, NULL or not text in the request data
    | DuplicateId(id: string)     // the new row's id is already a primary key
    | StorageFailure              // the database fails the statement for a reason outside the model

  /** What `save_user_data` returns on success. */
  datatype Ack = Ack(success: bool, message: string)

  const Saved := Ack(true, "Onboarding data saved successfully")

  /** What one submission writes: the key, the seven value slots and `is_completed`. */
  datatype Submission = Submission(key: AnswerKey, values: Slots, isCompleted: Json)

  /** Python's `data.get(k)`: the value, or None when the key is absent. */
  function Get(data: map<string, Json>, k: string): Json {
    if k in data then data[k] else JNull
  }

  /** A key column of the request data; the key columns hold text and are never NULL. */
  function KeyColumn(data: map<string, Json>, column: string): (r: Result<string, SaveError>)
    ensures r.Ok? <==> Get(data, column).JStr?
    ensures r.Ok? ==> Get(data, column) == JStr(r.value)
  {
    match Get(data, column)
    case JStr(s) => Ok(s)
    case _ => Err(KeyNotText(column))
  }

  /**
   * The statement's parameters: each value slot is `data.get(...)`, so a slot the
   * request leaves out is NULL; `is_completed` is `data.get("is_completed", False)`,
   * so only an absent flag becomes false.
   */
  function ParseSubmission(userId: string, data: map<string, Json>): (r: Result<Submission, SaveError>)
    ensures r.Ok? <==> KeysAreText(data)
    ensures r.Ok? ==> r.value.key == SubmittedKey(userId, data) && r.value.key.userId == userId
    ensures r.Err? ==> r.error.KeyNotText? && !Get(data, r.error.column).JStr?
  {
    match KeyColumn(data, "config_id")
    case Err(e) => Err(e)
    case Ok(configId) =>
      match KeyColumn(data, "step_key")
      case Err(e) => Err(e)
      case Ok(stepKey) =>
        match KeyColumn(data, "field_key")
        case Err(e) => Err(e)
        case Ok(fieldKey) =>
          Ok(Submission(
               AnswerKey(userId, configId, stepKey, fieldKey),
               Slots(Get(data, "text_value"), Get(data, "number_value"), Get(data, "boolean_value"),
                     Get(data, "date_value"), Get(data, "time_value"), Get(data, "json_value"),
                     Get(data, "custom_values")),
               if "is_completed" in data then data["is_completed"] else JBool(false)))
  }

  /** The request holds text for every key column. */
  predicate KeysAreText(data: map<string, Json>) {
    Get(data, "config_id").JStr? && Get(data, "step_key").JStr? && Get(data, "field_key").JStr?
  }

  /** The conflict key a request with text key columns writes. */
  function SubmittedKey(userId: string, data: map<string, Json>): AnswerKey
    requires KeysAreText(data)
  {
    AnswerKey(userId, Get(data, "config_id").s, Get(data, "step_key").s, Get(data, "field_key").s)
  }

  /** The position of the row holding `key`, if one does. */
  function KeyIndex(rows: seq<Answer>, key: AnswerKey): (r: Option<nat>)
    ensures r.Some? ==> r.value < |rows| && rows[r.value].key == key
    ensures r.Some? ==> forall j :: 0 <= j < r.value ==> rows[j].key != key
    ensures r.None? ==> forall j :: 0 <= j < |rows| ==> rows[j].key != key
  {
    if rows == [] then None
    else if rows[0].key == key then Some(0)
    else match KeyIndex(rows[1..], key)
      case None => None
      case Some(i) => Some(i + 1)
  }

  predicate IdTaken(rows: seq<Answer>, id: string) {
    exists j :: 0 <= j < |rows| && rows[j].id == id
  }

  /** The row the upsert writes when the key is new. */
  function NewAnswer(sub: Submission, now: Instant, freshId: string): Answer {
    Answer(freshId, sub.key, sub.values, sub.isCompleted, Some(now), Some(now))
  }

  /** The existing row after `DO UPDATE SET`: new values and flag, `updated_at = NOW()`. */
  function Overwritten(a: Answer, sub: Submission, now: Instant): Answer {
    a.(values := sub.values, isCompleted := sub.isCompleted, updatedAt := Some(now))
  }

  /** The answer table after the upsert; `now` is `NOW()` and `freshId` is `uuid4()`. */
  function Upsert(rows: seq<Answer>, sub: Submission, now: Instant, freshId: string): Result<seq<Answer>, SaveError> {
    match KeyIndex(rows, sub.key)
    case Some(i) => Ok(rows[i := Overwritten(rows[i], sub, now)])
    case None =>
      if IdTaken(rows, freshId) then Err(DuplicateId(freshId))
      else Ok(rows + [NewAnswer(sub, now, freshId)])
  }

  /** The answer table after `save_user_data`; `fault` is the database failing the statement. */
  function Save(rows: seq<Answer>, userId: string, data: map<string, Json>, now: Instant, freshId: string, fault: bool): Result<seq<Answer>, SaveError> {
    if fault then Err(StorageFailure)
    else match ParseSubmission(userId, data)
      case Err(e) => Err(e)
      case Ok(sub) => Upsert(rows, sub, now, freshId)
  }

  /**
   * After an upsert exactly one row holds the key, and it holds the submitted
   * slots and flag with `updated_at` set to now; the table keeps its constraints.
   */
  lemma UpsertStoresSubmission(rows: seq<Answer>, sub: Submission, now: Instant, freshId: string)
    requires UniqueAnswers(rows)
    requires Upsert(rows, sub, now, freshId).Ok?
    ensures var t := Upsert(rows, sub, now, freshId).value;
      && UniqueAnswers(t)
      && KeyIndex(t, sub.key).Some?
      && var i := KeyIndex(t, sub.key).value;
      && t[i].values == sub.values && t[i].isCompleted == sub.isCompleted && t[i].updatedAt == Some(now)
      && forall j :: 0 <= j < |t| && t[j].key == sub.key ==> j == i
  {
    var t := Upsert(rows, sub, now, freshId).value;
    match KeyIndex(rows, sub.key)
    case Some(i) =>
      assert t[i] == Overwritten(rows[i], sub, now);
      assert forall j :: 0 <= j < |t| && j != i ==> t[j] == rows[j];
      assert KeyIndex(t, sub.key) == Some(i);
    case None =>
      var n := |rows|;
      assert t == rows + [NewAnswer(sub, now, freshId)];
      assert forall j :: 0 <= j < n ==> t[j] == rows[j];
      assert t[n].key == sub.key;
      assert KeyIndex(t, sub.key) == Some(n);
  }

  /**
   * Every row with another key keeps its place and its contents, and the only
   * row the upsert may add is the one with the key.
   */
  lemma UpsertKeepsOtherRows(rows: seq<Answer>, sub: Submission, now: Instant, freshId: string)
    requires Upsert(rows, sub, now, freshId).Ok?
    ensures var t := Upsert(rows, sub, now, freshId).value;
      && |rows| <= |t| <= |rows| + 1
      && (forall j :: 0 <= j < |rows| && rows[j].key != sub.key ==> t[j] == rows[j])
      && (forall j :: |rows| <= j < |t| ==> t[j] == NewAnswer(sub, now, freshId))
  {
  }

  /** On a key conflict the row keeps its `id` and `created_at`, and no row is added. */
  lemma UpsertOnConflict(rows: seq<Answer>, sub: Submission, now: Instant, freshId: string, i: nat)
    requires UniqueAnswers(rows)
    requires i < |rows| && rows[i].key == sub.key
    ensures Upsert(rows, sub, now, freshId).Ok?
    ensures var t := Upsert(rows, sub, now, freshId).value;
      && |t| == |rows|
      && t[i].id == rows[i].id && t[i].createdAt == rows[i].createdAt && t[i].key == rows[i].key
      && t[i].updatedAt == Some(now)
  {
    assert KeyIndex(rows, sub.key) == Some(i);
  }

  /**
   * Replaying a save gives back the same table except for the row's `updated_at`,
   * whatever clock reading and fresh id the replay comes with.
   */
  lemma UpsertReplay(rows: seq<Answer>, sub: Submission, now: Instant, freshId: string, later: Instant, laterId: string)
    requires UniqueAnswers(rows)
    requires Upsert(rows, sub, now, freshId).Ok?
    ensures var t := Upsert(rows, sub, now, freshId).value;
      && KeyIndex(t, sub.key).Some?
      && var i := KeyIndex(t, sub.key).value;
      Upsert(t, sub, later, laterId) == Ok(t[i := t[i].(updatedAt := Some(later))])
  {
    UpsertStoresSubmission(rows, sub, now, freshId);
  }

  /**
   * When a save succeeds: the database does not fail, the key columns hold text,
   * and the key is already stored or the fresh id is free. Each failure has its
   * own error, and a save that succeeds is the upsert of the parsed submission.
   */
  lemma SaveOutcome(rows: seq<Answer>, userId: string, data: map<string, Json>, now: Instant, freshId: string, fault: bool)
    ensures var r := Save(rows, userId, data, now, freshId, fault);
      && (r.Ok? <==> !fault && KeysAreText(data) &&
                     (KeyIndex(rows, SubmittedKey(userId, data)).Some? || !IdTaken(rows, freshId)))
      && (r == Err(StorageFailure) <==> fault)
      && (r.Err? && r.error.KeyNotText? <==> !fault && !KeysAreText(data))
      && (r == Err(DuplicateId(freshId)) <==>
            !fault && KeysAreText(data) && KeyIndex(rows, SubmittedKey(userId, data)).None? && IdTaken(rows, freshId))
      && (r.Ok? ==> r == Upsert(rows, ParseSubmission(userId, data).value, now, freshId))
  {
  }

  /**
   * After a save that succeeds, exactly one row holds the request's key. Each
   * value slot holds what the request sent for it, or NULL when the request
   * leaves it out, and `is_completed` holds the sent flag, or false when absent.
   */
  lemma SaveStoresRequest(rows: seq<Answer>, userId: string, data: map<string, Json>, now: Instant,
                          freshId: string, fault: bool)
    requires UniqueAnswers(rows)
    requires Save(rows, userId, data, now, freshId, fault).Ok?
    ensures KeysAreText(data)
    ensures var t := Save(rows, userId, data, now, freshId, fault).value;
      var key := SubmittedKey(userId, data);
      && UniqueAnswers(t)
      && KeyIndex(t, key).Some?
      && var i := KeyIndex(t, key).value;
      && (forall j :: 0 <= j < |t| && t[j].key == key ==> j == i)
      && t[i].values.text == (if "text_value" in data then data["text_value"] else JNull)
      && t[i].values.number == (if "number_value" in data then data["number_value"] else JNull)
      && t[i].values.boolean == (if "boolean_value" in data then data["boolean_value"] else JNull)
      && t[i].values.date == (if "date_value" in data then data["date_value"] else JNull)
      && t[i].values.time == (if "time_value" in data then data["time_value"] else JNull)
      && t[i].values.json == (if "json_value" in data then data["json_value"] else JNull)
      && t[i].values.custom == (if "custom_values" in data then data["custom_values"] else JNull)
      && t[i].isCompleted == (if "is_completed" in data then data["is_completed"] else JBool(false))
      && t[i].updatedAt == Some(now)
  {
    SaveOutcome(rows, userId, data, now, freshId, fault);
    UpsertStoresSubmission(rows, ParseSubmission(userId, data).value, now, freshId);
  }

  /**
   * The store does not make the slots exclusive: a request that fills both
   * `text_value` and `number_value` stores both.
   */
  lemma SlotsNotExclusive(rows: seq<Answer>, now: Instant, freshId: string)
    requires forall j :: 0 <= j < |rows| ==> rows[j].id != freshId && rows[j].key.userId != "u1"
    ensures var data := map["config_id" := JStr("cfg-1"), "step_key" := JStr("basic_info"),
                             "field_key" := JStr("child_age"), "text_value" := JStr("four"),
                             "number_value" := JNum(4.0)];
      var t := Save(rows, "u1", data, now, freshId, false);
      t.Ok? && t.value[|rows|].values.text == JStr("four") && t.value[|rows|].values.number == JNum(4.0)
  {
    var data := map["config_id" := JStr("cfg-1"), "step_key" := JStr("basic_info"),
                    "field_key" := JStr("child_age"), "text_value" := JStr("four"),
                    "number_value" := JNum(4.0)];
    var sub := ParseSubmission("u1", data).value;
    assert KeyIndex(rows, sub.key).None?;
    assert !IdTaken(rows, freshId);
  }

  /**
   * Submitting 4 and then 5 for the same field of the same user leaves a single
   * row for it, holding 5.
   */
  lemma ResubmissionScenario(rows: seq<Answer>, t1: Instant, id1: string, t2: Instant, id2: string)
    requires UniqueAnswers(rows)
    requires forall j :: 0 <= j < |rows| ==> rows[j].id != id1
    ensures var first := map["config_id" := JStr("cfg-1"), "step_key" := JStr("basic_info"),
                              "field_key" := JStr("child_age"), "number_value" := JNum(4.0),
                              "is_completed" := JBool(true)];
      var second := first["number_value" := JNum(5.0)];
      var r1 := Save(rows, "u1", first, t1, id1, false);
      r1.Ok? &&
      var r2 := Save(r1.value, "u1", second, t2, id2, false);
      && r2.Ok?
      && var key := AnswerKey("u1", "cfg-1", "basic_info", "child_age");
      && KeyIndex(r2.value, key).Some?
      && r2.value[KeyIndex(r2.value, key).value].values.number == JNum(5.0)
      && forall j :: 0 <= j < |r2.value| && r2.value[j].key == key ==> j == KeyIndex(r2.value, key).value
  {
    var first := map["config_id" := JStr("cfg-1"), "step_key" := JStr("basic_info"),
                     "field_key" := JStr("child_age"), "number_value" := JNum(4.0),
                     "is_completed" := JBool(true)];
    var second := first["number_value" := JNum(5.0)];
    var s1 := ParseSubmission("u1", first).value;
    var s2 := ParseSubmission("u1", second).value;
    assert s1.key == s2.key == AnswerKey("u1", "cfg-1", "basic_info", "child_age");
    assert !IdTaken(rows, id1);
    var r1 := Upsert(rows, s1, t1, id1);
    assert r1.Ok?;
    UpsertStoresSubmission(rows, s1, t1, id1);
    var i := KeyIndex(r1.value, s1.key).value;
    UpsertOnConflict(r1.value, s2, t2, id2, i);
    UpsertStoresSubmission(r1.value, s2, t2, id2);
  }

  // ---------------------------------------------------------------------------

  /** The service over one database session. */
  class OnboardingService {
    const db: Database

    constructor (db: Database)
      ensures this.db == db
    {
      this.db := db;
    }

    /** `get_configs`. */
    method GetConfigs(targetRole: Option<string>, isDefault: Option<bool>, isActive: Option<bool>) returns (r: seq<Config>)
      ensures r == ConfigsQuery(db.configs, targetRole, isDefault, isActive)
      ensures forall c :: c in r <==> c in db.configs && ConfigMatches(c, targetRole, isDefault, isActive)
      ensures multiset(r) == multiset(Filter(db.configs, ConfigFilter(targetRole, isDefault, isActive)))
      ensures SortedBy(r, ConfigCreated, Desc)
    {
      r := ConfigsQuery(db.configs, targetRole, isDefault, isActive);
    }

    /** `get_steps`. */
    method GetSteps(configId: Option<string>, isActive: Option<bool>, orderBy: string := "step_number")
      returns (r: Result<seq<Step>, QueryError>)
      ensures r == StepsRequest(db.steps, configId, isActive, orderBy)
      ensures r.Err? <==> StepOrder(orderBy).Err?
      ensures r.Ok? ==> forall s :: s in r.value <==> s in db.steps && StepMatches(s, configId, isActive)
      ensures r.Ok? ==> multiset(r.value) == multiset(Filter(db.steps, StepFilter(configId, isActive)))
      ensures r.Ok? && StepOrder(orderBy).value.Some? ==> SortedBy(r.value, StepKey(StepOrder(orderBy).value.value), Asc)
      ensures r.Ok? && StepOrder(orderBy).value.None? ==> r.value == Filter(db.steps, StepFilter(configId, isActive))
    {
      r := StepsRequest(db.steps, configId, isActive, orderBy);
    }

    /** `get_fields`: `step_id` wins over `step_ids`; an empty `step_ids` is an SQL error. */
    method GetFields(stepId: Option<string>, stepIds: Option<seq<string>>, isActive: Option<bool>,
                     orderBy: string := "field_order")
      returns (r: Result<seq<Field>, QueryError>)
      ensures r == FieldsRequest(db.fields, SelectorOf(stepId, stepIds), isActive, orderBy)
      ensures r == Err(EmptyInList) <==> stepId.None? && stepIds == Some([])
      ensures r.Err? <==> (stepId.None? && stepIds == Some([])) || FieldOrder(orderBy).Err?
      ensures r.Ok? ==> forall f :: f in r.value <==>
        f in db.fields && FieldMatches(f, SelectorOf(stepId, stepIds), isActive)
      ensures r.Ok? ==> multiset(r.value) == multiset(Filter(db.fields, FieldFilter(SelectorOf(stepId, stepIds), isActive)))
      ensures r.Ok? && FieldOrder(orderBy).value.Some? ==> SortedBy(r.value, FieldKey(FieldOrder(orderBy).value.value), Asc)
      ensures r.Ok? && FieldOrder(orderBy).value.None? ==> r.value == Filter(db.fields, FieldFilter(SelectorOf(stepId, stepIds), isActive))
    {
      var sel := SelectorOf(stepId, stepIds);
      r := FieldsRequest(db.fields, sel, isActive, orderBy);
      FieldsRequestOutcome(db.fields, sel, isActive, orderBy);
      if r.Ok? {
        FieldsRequestRows(db.fields, sel, isActive, orderBy);
        FieldsQueryRows(db.fields, sel, isActive, FieldOrder(orderBy).value);
      }
    }

    /** `get_config_by_role`. */
    method GetConfigByRole(role: string) returns (r: Option<Config>)
      ensures r == ConfigByRole(db.configs, role)
      ensures r.None? <==> forall c :: c in db.configs ==> !IsRoleDefault(c, role)
      ensures r.Some? ==> r.value in db.configs && IsRoleDefault(r.value, role)
      ensures r.Some? ==> forall c :: c in db.configs && IsRoleDefault(c, role) ==>
        CellLe(ConfigCreated(c), ConfigCreated(r.value))
    {
      r := ConfigByRole(db.configs, role);
      ConfigByRoleNewest(db.configs, role);
    }

    /** `get_steps_by_role`. */
    method GetStepsByRole(role: string) returns (r: seq<RoleStep>)
      requires db.Valid()
      ensures r == StepsByRole(db.steps, db.configs, role)
      ensures multiset(StepsOf(r)) == multiset(Filter(db.steps, RoleFilter(db.configs, role)))
      ensures forall x :: x in r ==> NamedByOwner(x, db.configs, role)
      ensures SortedBy(r, RoleStepNumber, Asc)
    {
      r := StepsByRole(db.steps, db.configs, role);
      StepsByRoleMeaning(db.steps, db.configs, role);
    }

    /**
     * `save_user_data`: one atomic upsert with `now` for `NOW()` and `freshId` for
     * `uuid4()`; `fault` is the database failing the statement, after which the
     * transaction is rolled back.
     */
    method SaveUserData(userId: string, data: map<string, Json>, now: Instant, freshId: string, fault: bool)
      returns (r: Result<Ack, SaveError>)
      requires db.Valid()
      modifies db`answers
      ensures db.Valid()
      ensures var s := Save(old(db.answers), userId, data, now, freshId, fault);
        && (s.Ok? ==> r == Ok(Saved) && db.answers == s.value)
        && (s.Err? ==> r == Err(s.error) && db.answers == old(db.answers))
    {
      if fault {
        return Err(StorageFailure);
      }
      var parsed := ParseSubmission(userId, data);
      if parsed.Err? {
        return Err(parsed.error);
      }
      var sub := parsed.value;
      var rows := db.answers;
      var i := 0;
      while i < |rows| && rows[i].key != sub.key
        invariant 0 <= i <= |rows|
        invariant forall j :: 0 <= j < i ==> rows[j].key != sub.key
      {
        i := i + 1;
      }
      if i < |rows| {
        assert KeyIndex(rows, sub.key) == Some(i);
        db.answers := rows[i := Overwritten(rows[i], sub, now)];
      } else {
        assert KeyIndex(rows, sub.key) == None;
        var taken := false;
        var j := 0;
        while j < |rows| && !taken
          invariant 0 <= j <= |rows|
          invariant taken <==> IdTaken(rows[..j], freshId)
        {
          taken := rows[j].id == freshId;
          assert rows[..j + 1] == rows[..j] + [rows[j]];
          j := j + 1;
        }
        assert taken ==> IdTaken(rows, freshId);
        assert !taken ==> rows[..j] == rows;
        if taken {
          return Err(DuplicateId(freshId));
        }
        db.answers := rows + [NewAnswer(sub, now, freshId)];
      }
      UpsertStoresSubmission(rows, sub, now, freshId);
      r := Ok(Saved);
    }

    /** `get_user_data`. */
    method GetUserData(userId: string, configId: Option<string>) returns (r: seq<Answer>)
      ensures r == UserDataQuery(db.answers, userId, configId)
      ensures forall a :: a in r <==>
        a in db.answers && a.key.userId == userId && (configId.None? || configId.value == "" || a.key.configId == configId.value)
      ensures multiset(r) == multiset(Filter(db.answers, AnswerFilter(userId, configId)))
      ensures SortedBy(r, AnswerCreated, Asc)
    {
      r := UserDataQuery(db.answers, userId, configId);
    }
  }
}
