/**
 * The HTTP endpoints over the onboarding tables. The handlers run the
 * service's queries on the same tables, with two differences:
 * `/onboarding_fields` selects steps by splitting one `step_id` on commas
 * rather than through a `step_ids` list, and `/onboarding/fields/{step_id}`
 * has no service read to match. Any failure of a query becomes a server error.
 */
module OnboardingRouter {
  import opened Wrappers
  import opened Sql
  import opened Strings
  import opened Schema
  import opened OnboardingService

  /** The error response every handler raises when its query fails. */
  datatype HttpError = HttpError(status: int, detail: string)

  const ServerError := HttpError(500, "Помилка сервера")

  /** A query's result as a handler returns it. */
  function Respond<T>(q: Result<T, QueryError>): (r: Result<T, HttpError>)
    ensures r.Ok? <==> q.Ok?
    ensures r.Ok? ==> r.value == q.value
    ensures r.Err? ==> r.error == ServerError
  {
    match q
    case Ok(v) => Ok(v)
    case Err(_) => Err(ServerError)
  }

  /** Strips every piece. */
  function StripAll(pieces: seq<string>): (r: seq<string>)
    ensures |r| == |pieces|
    ensures forall k :: 0 <= k < |r| ==> r[k] == Strip(pieces[k])
  {
    seq(|pieces|, k requires 0 <= k < |pieces| => Strip(pieces[k]))
  }

  /**
   * The steps `/onboarding_fields` asks for: a `step_id` holding a comma is the
   * list of its comma-separated parts, each stripped of surrounding whitespace;
   * any other `step_id` is one id, taken as it is.
   */
  function StepIdSelector(stepId: Option<string>): StepSelector {
    if stepId.None? then AnyStep
    else if ',' in stepId.value then StepsIn(StripAll(Split(stepId.value, ',')))
    else OneStep(stepId.value)
  }

  /**
   * A list that `step_id` yields has at least two ids, one per comma-separated
   * part, so the handler never sends `IN ()`; the ids joined with commas give the
   * text back up to whitespace around each part.
   */
  lemma {:induction false} StepIdSelectorList(stepId: string)
    requires ',' in stepId
    ensures StepIdSelector(Some(stepId)).StepsIn?
    ensures var ids := StepIdSelector(Some(stepId)).ids;
      && |ids| == |Split(stepId, ',')| >= 2
      && (forall k :: 0 <= k < |ids| ==> ids[k] == Strip(Split(stepId, ',')[k]))
      && Join(Split(stepId, ','), ',') == stepId
  {
    SplitWithSeparator(stepId, ',');
    JoinSplit(stepId, ',');
  }

  /** Without a `step_id` the request selects the fields of every step. */
  lemma StepIdSelectorAbsent()
    ensures StepIdSelector(None) == AnyStep
  {
  }

  /** A `step_id` without a comma selects that id, spaces and all. */
  lemma StepIdSelectorSingle(stepId: string)
    requires ',' !in stepId
    ensures StepIdSelector(Some(stepId)) == OneStep(stepId)
  {
  }

  /** `a,b` with no other comma selects the two parts, each stripped. */
  lemma {:induction false} StepIdSelectorPair(a: string, b: string)
    requires ',' !in a && ',' !in b
    ensures StepIdSelector(Some(a + [','] + b)) == StepsIn([Strip(a), Strip(b)])
  {
    var text := a + [','] + b;
    assert text[|a|] == ',';
    SplitAtFirst(a, b, ',');
    SplitWithoutSeparator(b, ',');
    assert Split(text, ',') == [a, b];
    var ids := StripAll([a, b]);
    assert |ids| == 2 && ids[0] == Strip(a) && ids[1] == Strip(b);
    assert ids == [Strip(a), Strip(b)];
  }

  /** `GET /onboarding_configs`: the service's `get_configs`. */
  method GetOnboardingConfigs(db: Database, targetRole: Option<string>, isDefault: Option<bool>, isActive: Option<bool>)
    returns (r: seq<Config>)
    ensures r == ConfigsQuery(db.configs, targetRole, isDefault, isActive)
    ensures forall c :: c in r <==> c in db.configs && ConfigMatches(c, targetRole, isDefault, isActive)
    ensures SortedBy(r, ConfigCreated, Desc)
  {
    var service := new OnboardingService(db);
    r := service.GetConfigs(targetRole, isDefault, isActive);
  }

  /** `GET /onboarding_steps`: the same query as the service's `get_steps`. */
  method GetOnboardingSteps(db: Database, configId: Option<string>, isActive: Option<bool>, orderBy: string := "step_number")
    returns (r: Result<seq<Step>, HttpError>)
    ensures r == Respond(StepsRequest(db.steps, configId, isActive, orderBy))
    ensures r.Err? <==> StepOrder(orderBy).Err?
    ensures r.Ok? ==> forall s :: s in r.value <==> s in db.steps && StepMatches(s, configId, isActive)
    ensures r.Ok? ==> multiset(r.value) == multiset(Filter(db.steps, StepFilter(configId, isActive)))
    ensures r.Ok? && StepOrder(orderBy).value.Some? ==> SortedBy(r.value, StepKey(StepOrder(orderBy).value.value), Asc)
    ensures r.Ok? && StepOrder(orderBy).value.None? ==> r.value == Filter(db.steps, StepFilter(configId, isActive))
  {
    var q := StepsRequest(db.steps, configId, isActive, orderBy);
    if q.Err? {
      return Err(ServerError);
    }
    r := Ok(q.value);
  }

  /**
   * `GET /onboarding_fields`: a comma in `step_id` turns it into an IN list,
   * which is never empty, so only an `order_by` naming no column fails.
   */
  method GetOnboardingFields(db: Database, stepId: Option<string>, isActive: Option<bool>, orderBy: string := "field_order")
    returns (r: Result<seq<Field>, HttpError>)
    ensures r == Respond(FieldsRequest(db.fields, StepIdSelector(stepId), isActive, orderBy))
    ensures r.Err? <==> FieldOrder(orderBy).Err?
    ensures r.Ok? ==> forall f :: f in r.value <==> f in db.fields && FieldMatches(f, StepIdSelector(stepId), isActive)
    ensures r.Ok? ==> multiset(r.value) == multiset(Filter(db.fields, FieldFilter(StepIdSelector(stepId), isActive)))
    ensures r.Ok? && FieldOrder(orderBy).value.Some? ==> SortedBy(r.value, FieldKey(FieldOrder(orderBy).value.value), Asc)
    ensures r.Ok? && FieldOrder(orderBy).value.None? ==> r.value == Filter(db.fields, FieldFilter(StepIdSelector(stepId), isActive))
  {
    var sel := StepIdSelector(stepId);
    if stepId.Some? && ',' in stepId.value {
      StepIdSelectorList(stepId.value);
    }
    var q := FieldsRequest(db.fields, sel, isActive, orderBy);
    FieldsRequestOutcome(db.fields, sel, isActive, orderBy);
    if q.Err? {
      return Err(ServerError);
    }
    FieldsRequestRows(db.fields, sel, isActive, orderBy);
    FieldsQueryRows(db.fields, sel, isActive, FieldOrder(orderBy).value);
    r := Ok(q.value);
  }

  /** `GET /onboarding/configs/{role}`: the service's answer as a list of none or one. */
  method GetOnboardingConfigByRole(db: Database, role: string) returns (r: seq<Config>)
    ensures ConfigByRole(db.configs, role).None? ==> r == []
    ensures ConfigByRole(db.configs, role).Some? ==> r == [ConfigByRole(db.configs, role).value]
    ensures r == [] <==> forall c :: c in db.configs ==> !IsRoleDefault(c, role)
    ensures forall n :: n in r ==> n in db.configs && IsRoleDefault(n, role)
    ensures forall n, c :: n in r && c in db.configs && IsRoleDefault(c, role) ==> CellLe(ConfigCreated(c), ConfigCreated(n))
  {
    var found := ConfigByRole(db.configs, role);
    ConfigByRoleNewest(db.configs, role);
    if found.None? {
      return [];
    }
    r := [found.value];
  }

  /** `GET /onboarding/steps/{role}`: the service's `get_steps_by_role`. */
  method GetOnboardingStepsByRole(db: Database, role: string) returns (r: seq<RoleStep>)
    requires db.Valid()
    ensures r == StepsByRole(db.steps, db.configs, role)
    ensures multiset(StepsOf(r)) == multiset(Filter(db.steps, RoleFilter(db.configs, role)))
    ensures forall x :: x in r ==> NamedByOwner(x, db.configs, role)
    ensures SortedBy(r, RoleStepNumber, Asc)
  {
    r := StepsByRole(db.steps, db.configs, role);
    StepsByRoleMeaning(db.steps, db.configs, role);
  }

  /** `GET /onboarding/fields/{step_id}`: the active fields of one step by `field_order`. */
  method GetOnboardingFieldsByStep(db: Database, stepId: string) returns (r: seq<Field>)
    ensures r == FieldsQuery(db.fields, OneStep(stepId), Some(true), Some(FieldOrderColumn))
    ensures forall f :: f in r <==> f in db.fields && f.stepId == stepId && f.isActive
    ensures multiset(r) == multiset(Filter(db.fields, FieldFilter(OneStep(stepId), Some(true))))
    ensures SortedBy(r, FieldKey(FieldOrderColumn), Asc)
  {
    r := SortBy(Filter(db.fields, FieldFilter(OneStep(stepId), Some(true))), FieldKey(FieldOrderColumn), Asc);
  }

  /**
   * For a step id without a comma, `/onboarding/fields/{step_id}` gives what
   * `/onboarding_fields?step_id=...&is_active=true` gives with its default order.
   */
  lemma FieldsByStepAgrees(fields: seq<Field>, stepId: string)
    requires ',' !in stepId
    ensures Respond(FieldsRequest(fields, StepIdSelector(Some(stepId)), Some(true), "field_order"))
         == Ok(FieldsQuery(fields, OneStep(stepId), Some(true), Some(FieldOrderColumn)))
  {
    FieldColumnRoundTrip(FieldOrderColumn);
    assert FieldColumnName(FieldOrderColumn) == "field_order";
  }
}
