/**
 * The case handlers as operations on the `cases` table, kept here as a map from id to row.
 * List and create receive the caller's id from the auth guard; the by-id operations are not
 * owner-scoped and receive none.
 */
module CaseHandlers {
  import opened Wrappers
  import opened Errors
  import opened Text
  import opened Order
  import opened Cases
  import opened Listing
  import opened Dispatch

  /** The answer of a successful delete: 204 with no body. */
  datatype Deleted = NoContent

  class CaseStore {
    var cases: map<string, Case>

    ghost predicate Valid()
      reads this
    {
      WellFormed(cases)
    }

    constructor ()
      ensures Valid() && cases == map[]
    {
      cases := map[];
    }

    /**
     * `case_list_handler`: the caller's cases ordered by id, `offset` skipped and at most `limit`
     * kept, each shaped by `filter_db_record`; `results` counts them.
     */
    method List(caller: string, opts: FilterOptions) returns (r: ListResponse)
      requires Valid()
      requires PaginationDefined(opts)
      ensures r.results == |r.cases| <= Limit(opts)
      ensures var page := Window(OwnedInOrder(cases, caller), Offset(opts), Limit(opts));
        && |r.cases| == |page|
        && forall j :: 0 <= j < |page| ==> Presentable(page[j]) && r.cases[j] == FilterDbRecord(page[j])
      ensures forall j :: 0 <= j < |r.cases| ==>
        && r.cases[j].id in cases && r.cases[j] == FilterDbRecord(cases[r.cases[j].id])
        && r.cases[j].userId == caller
        && |set k | k in cases && cases[k].userId == caller && Lt(k, r.cases[j].id)| == Offset(opts) + j
      ensures forall i, j :: 0 <= i < j < |r.cases| ==> Lt(r.cases[i].id, r.cases[j].id)
    {
      var limit := Limit(opts);
      var offset := Offset(opts);
      var rows := Window(OwnedInOrder(cases, caller), offset, limit);
      PageOfOwnedCases(cases, caller, offset, limit);
      var responses := seq(|rows|, i requires 0 <= i < |rows| => FilterDbRecord(rows[i]));
      assert forall j :: 0 <= j < |rows| ==> responses[j].id == rows[j].id;
      r := ListResponse(|responses|, responses);
    }

    /**
     * `create_case_handler`: the row is stored under the fresh id, owned by the caller; a title
     * already stored makes the insert a duplicate entry, answered with Conflict and no change.
     */
    method Create(caller: string, body: CreateCaseSchema, id: string, now: int) returns (r: Result<CaseResponse, Failure>)
      requires Valid()
      requires id !in cases
      modifies this
      ensures Valid()
      ensures TitleUsedElsewhere(old(cases), body.title, id) ==> r == Err(TitleConflict) && cases == old(cases)
      ensures !TitleUsedElsewhere(old(cases), body.title, id) ==>
        && cases == old(cases)[id := NewCase(id, caller, body, now)]
        && r == Ok(FilterDbRecord(cases[id]))
        && r.value.id == id && r.value.userId == caller && !r.value.used
    {
      if TitleUsedElsewhere(cases, body.title, id) {
        r := Err(TitleConflict);
        return;
      }
      cases := cases[id := NewCase(id, caller, body, now)];
      var created := cases[id];
      r := Ok(FilterDbRecord(created));
    }

    /** `get_case_handler`: the row shaped by `filter_db_record`, or NotFound. */
    method Get(id: string) returns (r: Result<CaseResponse, Failure>)
      requires Valid()
      ensures id in cases <==> r.Ok?
      ensures id in cases ==> r.value == FilterDbRecord(cases[id]) && r.value.id == id
      ensures id !in cases ==> r == Err(NotFound(id)) && r.error.Status() == 404
    {
      if id !in cases {
        r := Err(NotFound(id));
        return;
      }
      r := Ok(FilterDbRecord(cases[id]));
    }

    /**
     * `edit_case_handler`: the body merged over the stored row, written back under the same id;
     * NotFound when absent; a title stored under another id makes the UPDATE fail, with no change.
     * Callable only where the merge's `unwrap()` fallbacks are defined.
     */
    method Edit(id: string, body: UpdateCaseSchema) returns (r: Result<CaseResponse, Failure>)
      requires Valid()
      requires id in cases ==> MergeDefined(cases[id], body)
      modifies this
      ensures Valid()
      ensures id !in old(cases) ==> r == Err(NotFound(id)) && cases == old(cases)
      ensures id in old(cases) ==>
        var merged := Merge(old(cases)[id], body);
        && (TitleUsedElsewhere(old(cases), merged.title, id) ==> r == Err(StorageError) && cases == old(cases))
        && (!TitleUsedElsewhere(old(cases), merged.title, id) ==>
              cases == old(cases)[id := merged] && r == Ok(FilterDbRecord(merged)))
    {
      if id !in cases {
        r := Err(NotFound(id));
        return;
      }
      var stored := cases[id];
      var merged := Merge(stored, body);
      if TitleUsedElsewhere(cases, merged.title, id) {
        r := Err(StorageError);
        return;
      }
      MergeLeavesNoNull(stored, body, body);
      cases := cases[id := merged];
      var updated := cases[id];
      r := Ok(FilterDbRecord(updated));
    }

    /** `delete_case_handler`: the row removed and nothing else; NotFound, with no change, when no row was affected. */
    method Delete(id: string) returns (r: Result<Deleted, Failure>)
      requires Valid()
      modifies this
      ensures Valid()
      ensures id in old(cases) ==> r == Ok(NoContent) && cases == old(cases) - {id}
      ensures id !in old(cases) ==> r == Err(NotFound(id)) && cases == old(cases)
    {
      var affected := if id in cases then 1 else 0;
      cases := cases - {id};
      if affected == 0 {
        r := Err(NotFound(id));
        return;
      }
      r := Ok(NoContent);
    }

    /**
     * `test_case_handler`: builds the request from the stored row, hands it to the HTTP client,
     * whose report is `outcome`, and on a response overwrites the two response columns.
     * `sent` is the request handed to the client, if any.
     */
    method Test(id: string, outcome: Transport) returns (r: Result<CaseAllResponse, Failure>, sent: Option<Request>)
      requires Valid()
      modifies this
      ensures Valid()
      ensures id !in old(cases) ==> r == Err(NotFound(id)) && sent == None && cases == old(cases)
      ensures id in old(cases) && BuildRequest(old(cases)[id]).Err? ==>
        r == Err(BuildRequest(old(cases)[id]).error) && sent == None && cases == old(cases)
      ensures id in old(cases) && BuildRequest(old(cases)[id]).Ok? ==>
        sent == Some(BuildRequest(old(cases)[id]).value)
      ensures id in old(cases) && BuildRequest(old(cases)[id]).Ok? && outcome.TransportError? ==>
        r == Err(RequestFailed) && cases == old(cases)
      ensures id in old(cases) && BuildRequest(old(cases)[id]).Ok? && outcome.Received? ==>
        && cases == old(cases)[id := RecordResponse(old(cases)[id], outcome.status, outcome.text)]
        && r == Ok(FilterDbAllRecord(cases[id]))
        && r.value.responseCode == outcome.status && r.value.responseBody == outcome.text.GetOr("")
    {
      sent := None;
      if id !in cases {
        r := Err(NotFound(id));
        return;
      }
      var local := cases[id];
      var request := BuildRequest(local);
      if request.Err? {
        r := Err(request.error);
        return;
      }
      sent := Some(request.value);
      match outcome {
        case TransportError =>
          r := Err(RequestFailed);
        case Received(status, text) =>
          local := local.(responseCode := Some(status), responseBody := Some(text.GetOr("")));
          cases := cases[id := cases[id].(responseCode := local.responseCode, responseBody := local.responseBody)];
          var updated := cases[id];
          RecordedRowIsShowable(old(cases)[id], status, text);
          r := Ok(FilterDbAllRecord(updated));
      }
    }
  }

  /**
   * A case's life as a client sees it: the created case is what get returns, a second dispatch's
   * response replaces the first one's, and of two deletes the second finds nothing.
   */
  method Lifecycle(caller: string, body: CreateCaseSchema, id: string, now: int, first: Transport, second: Transport)
    returns (created: Result<CaseResponse, Failure>, fetched: Result<CaseResponse, Failure>,
             dispatched: Result<CaseAllResponse, Failure>, deleted: Result<Deleted, Failure>, again: Result<Deleted, Failure>)
    requires second.Received?
    requires Upper(body.httpMethod) == "GET" || Upper(body.httpMethod) == "POST"
    ensures created.Ok? && created.value.userId == caller && fetched == created
    ensures dispatched.Ok? && dispatched.value.responseCode == second.status && dispatched.value.responseBody == second.text.GetOr("")
    ensures deleted == Ok(NoContent) && again == Err(NotFound(id))
  {
    var store := new CaseStore();
    created := store.Create(caller, body, id, now);
    fetched := store.Get(id);
    var sent;
    dispatched, sent := store.Test(id, first);
    dispatched, sent := store.Test(id, second);
    deleted := store.Delete(id);
    again := store.Delete(id);
  }
}
