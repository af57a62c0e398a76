/** The case records: the stored row, the request bodies, the response projections and the update merge. */
module Cases {
  import opened Wrappers

  /** A row of the `cases` table. Nullable columns are `Option`; `used` is the stored TINYINT flag. */
  datatype Case = Case(
    id: string,
    userId: string,
    title: string,
    host: string,
    uri: string,
    httpMethod: Option<string>,
    requestBody: Option<string>,
    expectedResult: Option<string>,
    category: Option<string>,
    responseCode: Option<string>,
    responseBody: Option<string>,
    used: int,
    createdAt: Option<int>,
    updatedAt: Option<int>)

  /** The case as list, get, create and edit answer it: no response columns, `used` as a boolean. */
  datatype CaseResponse = CaseResponse(
    id: string,
    userId: string,
    title: string,
    host: string,
    uri: string,
    httpMethod: string,
    requestBody: string,
    expectedResult: string,
    category: string,
    used: bool,
    createdAt: int,
    updatedAt: int)

  /** The case as dispatch answers it: the response columns included. */
  datatype CaseAllResponse = CaseAllResponse(
    id: string,
    userId: string,
    title: string,
    host: string,
    uri: string,
    httpMethod: string,
    requestBody: string,
    expectedResult: string,
    category: string,
    responseCode: string,
    responseBody: string,
    used: bool,
    createdAt: int,
    updatedAt: int)

  /** The body of a create request. `userId` and `used` are accepted but never stored. */
  datatype CreateCaseSchema = CreateCaseSchema(
    userId: Option<string>,
    title: string,
    host: string,
    uri: string,
    httpMethod: string,
    requestBody: string,
    expectedResult: string,
    category: Option<string>,
    used: Option<bool>)

  /** The body of a partial update: every field may be left out. */
  datatype UpdateCaseSchema = UpdateCaseSchema(
    userId: Option<string>,
    title: Option<string>,
    host: Option<string>,
    uri: Option<string>,
    httpMethod: Option<string>,
    requestBody: Option<string>,
    expectedResult: Option<string>,
    category: Option<string>,
    responseCode: Option<string>,
    responseBody: Option<string>,
    used: Option<bool>)

  const EmptyUpdate := UpdateCaseSchema(None, None, None, None, None, None, None, None, None, None, None)

  // ---------------------------------------------------------------- response shaping

  /** The columns `filter_db_record` unwraps: a row lacking one of them makes the projection panic. */
  predicate Presentable(c: Case) {
    c.httpMethod.Some? && c.requestBody.Some? && c.expectedResult.Some? && c.category.Some?
    && c.createdAt.Some? && c.updatedAt.Some?
  }

  /** The response columns, which `filter_db_all_record` unwraps as well. */
  predicate Dispatched(c: Case) {
    c.responseCode.Some? && c.responseBody.Some?
  }

  /** `filter_db_record`. */
  function FilterDbRecord(c: Case): (r: CaseResponse)
    requires Presentable(c)
    ensures r.id == c.id && r.userId == c.userId && r.title == c.title
    ensures r.used <==> c.used != 0
  {
    CaseResponse(c.id, c.userId, c.title, c.host, c.uri, c.httpMethod.value, c.requestBody.value,
                 c.expectedResult.value, c.category.value, c.used != 0, c.createdAt.value, c.updatedAt.value)
  }

  /** `filter_db_all_record`. */
  function FilterDbAllRecord(c: Case): (r: CaseAllResponse)
    requires Presentable(c) && Dispatched(c)
    ensures Brief(r) == FilterDbRecord(c)
    ensures Some(r.responseCode) == c.responseCode && Some(r.responseBody) == c.responseBody
  {
    CaseAllResponse(c.id, c.userId, c.title, c.host, c.uri, c.httpMethod.value, c.requestBody.value,
                    c.expectedResult.value, c.category.value, c.responseCode.value, c.responseBody.value,
                    c.used != 0, c.createdAt.value, c.updatedAt.value)
  }

  /** The short form of a full response. */
  function Brief(a: CaseAllResponse): CaseResponse {
    CaseResponse(a.id, a.userId, a.title, a.host, a.uri, a.httpMethod, a.requestBody,
                 a.expectedResult, a.category, a.used, a.createdAt, a.updatedAt)
  }

  /** The full projection is the short one plus the two response columns, unwrapped. */
  lemma FilterDbAllRecordExtends(c: Case)
    requires Presentable(c) && Dispatched(c)
    ensures Brief(FilterDbAllRecord(c)) == FilterDbRecord(c)
    ensures Some(FilterDbAllRecord(c).responseCode) == c.responseCode
    ensures Some(FilterDbAllRecord(c).responseBody) == c.responseBody
  {
  }

  /**
   * The short projection loses the response columns and how `used` was encoded, and nothing else:
   * two rows with the same projection agree on every other column.
   */
  lemma FilterDbRecordLosesOnlyResponse(a: Case, b: Case)
    requires Presentable(a) && Presentable(b)
    requires FilterDbRecord(a) == FilterDbRecord(b)
    ensures a.(responseCode := b.responseCode, responseBody := b.responseBody, used := b.used) == b
    ensures (a.used != 0) == (b.used != 0)
  {
  }

  // ---------------------------------------------------------------- creation

  /** The row the INSERT of `create_case_handler` stores under `id`, with the timestamps set at `now`. */
  function NewCase(id: string, caller: string, body: CreateCaseSchema, now: int): (c: Case)
    ensures c.id == id && c.userId == caller && c.used == 0
    ensures Presentable(c) && !c.responseCode.Some? && !c.responseBody.Some?
  {
    Case(id, caller, body.title, body.host, body.uri, Some(body.httpMethod), Some(body.requestBody),
         Some(body.expectedResult), Some(body.category.GetOr("")), None, None, 0, Some(now), Some(now))
  }

  /**
   * A created case belongs to the caller and nobody else: the `user_id` and `used` a create
   * body carries make no difference to what is stored.
   */
  lemma NewCaseIgnoresBodyOwner(id: string, caller: string, body: CreateCaseSchema, owner: Option<string>, used: Option<bool>, now: int)
    ensures NewCase(id, caller, body, now) == NewCase(id, caller, body.(userId := owner, used := used), now)
    ensures NewCase(id, caller, body, now).userId == caller
  {
  }

  /** A created case can be shown, has never been dispatched, is unused, and has category "" unless one was given. */
  lemma NewCaseShape(id: string, caller: string, body: CreateCaseSchema, now: int)
    ensures var c := NewCase(id, caller, body, now);
      && Presentable(c) && !c.responseCode.Some? && !c.responseBody.Some?
      && FilterDbRecord(c).used == false
      && FilterDbRecord(c).category == (if body.category.Some? then body.category.value else "")
  {
  }

  // ---------------------------------------------------------------- partial update

  /**
   * The update is well defined only when every column whose fallback is `unwrap()` is either
   * supplied by the body or present in the stored row; otherwise the handler panics.
   */
  predicate MergeDefined(stored: Case, body: UpdateCaseSchema): (defined: bool)
    ensures Presentable(stored) ==>
      (defined <==> (body.responseCode.Some? || stored.responseCode.Some?) && (body.responseBody.Some? || stored.responseBody.Some?))
  {
    && (body.httpMethod.Some? || stored.httpMethod.Some?)
    && (body.requestBody.Some? || stored.requestBody.Some?)
    && (body.expectedResult.Some? || stored.expectedResult.Some?)
    && (body.category.Some? || stored.category.Some?)
    && (body.responseCode.Some? || stored.responseCode.Some?)
    && (body.responseBody.Some? || stored.responseBody.Some?)
  }

  /** `supplied.unwrap_or_else(|| stored.unwrap())`. */
  function Fallback(supplied: Option<string>, stored: Option<string>): string
    requires supplied.Some? || stored.Some?
  {
    match supplied
    case Some(v) => v
    case None => stored.value
  }

  /** `used` as the UPDATE binds it: the boolean written back as 0 or 1. */
  function UsedFlag(b: bool): (flag: int)
    ensures flag == 0 || flag == 1
    ensures (flag != 0) == b
  {
    if b then 1 else 0
  }

  /** The row the UPDATE of `edit_case_handler` writes: `body` merged field by field over `stored`. */
  function Merge(stored: Case, body: UpdateCaseSchema): (r: Case)
    requires MergeDefined(stored, body)
    ensures r.id == stored.id && r.createdAt == stored.createdAt && r.updatedAt == stored.updatedAt
    ensures Dispatched(r) && r.used in {0, 1}
  {
    stored.(
      userId := body.userId.GetOr(stored.userId),
      title := body.title.GetOr(stored.title),
      host := body.host.GetOr(stored.host),
      uri := body.uri.GetOr(stored.uri),
      httpMethod := Some(Fallback(body.httpMethod, stored.httpMethod)),
      requestBody := Some(Fallback(body.requestBody, stored.requestBody)),
      expectedResult := Some(Fallback(body.expectedResult, stored.expectedResult)),
      category := Some(Fallback(body.category, stored.category)),
      responseCode := Some(Fallback(body.responseCode, stored.responseCode)),
      responseBody := Some(Fallback(body.responseBody, stored.responseBody)),
      used := UsedFlag(body.used.GetOr(stored.used != 0)))
  }

  /** "Take the body's value when it is supplied, else keep the stored one", for a column that may be NULL. */
  predicate TakesOrKeeps(merged: Option<string>, supplied: Option<string>, stored: Option<string>) {
    merged == (if supplied.Some? then supplied else stored)
  }

  /**
   * Every column takes the body's value when supplied and keeps its stored value otherwise; the id
   * and the timestamps are never touched; `used` is the body's flag or else the stored flag's truth.
   */
  lemma MergeTakesSuppliedOrKeeps(stored: Case, body: UpdateCaseSchema)
    requires MergeDefined(stored, body)
    ensures var m := Merge(stored, body);
      && m.id == stored.id && m.createdAt == stored.createdAt && m.updatedAt == stored.updatedAt
      && m.userId == (if body.userId.Some? then body.userId.value else stored.userId)
      && m.title == (if body.title.Some? then body.title.value else stored.title)
      && m.host == (if body.host.Some? then body.host.value else stored.host)
      && m.uri == (if body.uri.Some? then body.uri.value else stored.uri)
      && TakesOrKeeps(m.httpMethod, body.httpMethod, stored.httpMethod)
      && TakesOrKeeps(m.requestBody, body.requestBody, stored.requestBody)
      && TakesOrKeeps(m.expectedResult, body.expectedResult, stored.expectedResult)
      && TakesOrKeeps(m.category, body.category, stored.category)
      && TakesOrKeeps(m.responseCode, body.responseCode, stored.responseCode)
      && TakesOrKeeps(m.responseBody, body.responseBody, stored.responseBody)
      && (m.used != 0) == (if body.used.Some? then body.used.value else stored.used != 0)
  {
  }

  /** An update that supplies nothing leaves a row whose flag is already 0 or 1 as it was. */
  lemma MergeEmptyIsIdentity(stored: Case)
    requires MergeDefined(stored, EmptyUpdate)
    requires stored.used == 0 || stored.used == 1
    ensures Merge(stored, EmptyUpdate) == stored
  {
  }

  /** Every column `unwrap()` falls back on is present after an update, so no later update can panic. */
  lemma MergeLeavesNoNull(stored: Case, body: UpdateCaseSchema, next: UpdateCaseSchema)
    requires MergeDefined(stored, body)
    ensures MergeDefined(Merge(stored, body), next)
    ensures Dispatched(Merge(stored, body))
    ensures Presentable(stored) ==> Presentable(Merge(stored, body))
  {
  }

  /** Applying the same update twice is applying it once. */
  lemma MergeIdempotent(stored: Case, body: UpdateCaseSchema)
    requires MergeDefined(stored, body)
    ensures MergeDefined(Merge(stored, body), body)
    ensures Merge(Merge(stored, body), body) == Merge(stored, body)
  {
  }

  /**
   * A case that has just been created has no response columns, so an update of it is defined
   * exactly when the body supplies both of them: any other update before the first dispatch panics.
   */
  lemma UpdateBeforeDispatchNeedsResponse(id: string, caller: string, create: CreateCaseSchema, now: int, body: UpdateCaseSchema)
    ensures MergeDefined(NewCase(id, caller, create, now), body) <==> body.responseCode.Some? && body.responseBody.Some?
  {
  }

  // ---------------------------------------------------------------- the table

  /** A title already stored under an id other than `id`: the unique index on `title` rejects it. */
  predicate TitleUsedElsewhere(cases: map<string, Case>, title: string, id: string): (used: bool)
    ensures !used ==> forall k :: k in cases && cases[k].title == title ==> k == id
    ensures used ==> exists k :: k in cases && k != id && cases[k].title == title
  {
    exists k :: k in cases && k != id && cases[k].title == title
  }

  /** Every row sits under its own id. */
  ghost predicate KeyedById(cases: map<string, Case>) {
    forall k :: k in cases ==> cases[k].id == k
  }

  /** What every row the handlers store satisfies: it sits under its own id and can be shown, and titles are unique. */
  ghost predicate WellFormed(cases: map<string, Case>) {
    && KeyedById(cases)
    && (forall k :: k in cases ==> Presentable(cases[k]))
    && (forall k, k' :: k in cases && k' in cases && k != k' ==> cases[k].title != cases[k'].title)
  }
}
