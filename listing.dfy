/** Pagination of `case_list_handler`: the caller's cases, ordered by id, one page at a time. */
module Listing {
  import opened Wrappers
  import opened Cases
  import opened Order

  /** The query string of the list request. */
  datatype FilterOptions = FilterOptions(page: Option<nat>, limit: Option<nat>)

  /** The list answer: `results` and the page of cases. */
  datatype ListResponse = ListResponse(results: nat, cases: seq<CaseResponse>)

  const DefaultPage: nat := 1
  const DefaultLimit: nat := 10
  /** The largest value the `as i32` casts of limit and offset keep unchanged. */
  const I32Max: nat := 0x7fff_ffff

  function Limit(opts: FilterOptions): (lim: nat)
    ensures opts.limit.None? ==> lim == DefaultLimit
  {
    opts.limit.GetOr(DefaultLimit)
  }

  /**
   * The pagination arithmetic is defined: page 0 underflows `page - 1` in `usize`, and a limit or
   * offset above the `i32` range is truncated by the casts that bind them to the query.
   */
  predicate PaginationDefined(opts: FilterOptions): (defined: bool)
    ensures defined ==> opts.page != Some(0) && Limit(opts) <= I32Max && Offset(opts) <= I32Max
  {
    && opts.page != Some(0)
    && Limit(opts) <= I32Max
    && (opts.page.GetOr(DefaultPage) - 1) * Limit(opts) <= I32Max
  }

  /** `(page.unwrap_or(1) - 1) * limit`. */
  function Offset(opts: FilterOptions): (off: nat)
    requires opts.page != Some(0)
    ensures opts.page.GetOr(DefaultPage) == 1 ==> off == 0
    ensures Limit(opts) == 0 ==> off == 0
  {
    (opts.page.GetOr(DefaultPage) - 1) * Limit(opts)
  }

  /** Without a query string the first ten cases are listed. */
  lemma DefaultPagination()
    ensures PaginationDefined(FilterOptions(None, None))
    ensures Offset(FilterOptions(None, None)) == 0 && Limit(FilterOptions(None, None)) == 10
  {
  }

  /** Page `p` of size `n` starts after the first `(p - 1) * n` cases, so consecutive pages abut. */
  lemma ConsecutivePagesAbut(p: nat, n: nat)
    requires p >= 1
    ensures Offset(FilterOptions(Some(p + 1), Some(n))) == Offset(FilterOptions(Some(p), Some(n))) + n
  {
  }

  /** The ids of the cases owned by `user`: `WHERE user_id = ?`. */
  function OwnedIds(cases: map<string, Case>, user: string): (ids: set<string>)
    ensures ids <= cases.Keys
    ensures forall k :: k in ids ==> cases[k].userId == user
  {
    set k | k in cases && cases[k].userId == user
  }

  /** The cases owned by `user` in ascending id order: `WHERE user_id = ? ORDER BY id`. */
  function OwnedInOrder(cases: map<string, Case>, user: string): (r: seq<Case>)
    ensures |r| == |OwnedIds(cases, user)|
    ensures forall i :: 0 <= i < |r| ==> r[i].userId == user
  {
    var ks := SortedKeys(OwnedIds(cases, user));
    seq(|ks|, i requires 0 <= i < |ks| => cases[ks[i]])
  }

  /** `LIMIT limit OFFSET offset`: skip `offset` elements, then keep at most `limit`. */
  function Window<T>(s: seq<T>, offset: nat, limit: nat): (r: seq<T>)
    ensures |r| == if offset >= |s| then 0 else if |s| - offset < limit then |s| - offset else limit
    ensures forall i :: 0 <= i < |r| ==> r[i] == s[offset + i]
  {
    if offset >= |s| then []
    else if |s| - offset < limit then s[offset..]
    else s[offset..offset + limit]
  }

  /**
   * The ordered listing holds every case of `user` exactly once and nothing else, in strictly
   * ascending id order.
   */
  lemma OwnedInOrderIsTheOwnedCases(cases: map<string, Case>, user: string)
    requires KeyedById(cases)
    ensures var s := OwnedInOrder(cases, user);
      && |s| == |OwnedIds(cases, user)|
      && (forall i :: 0 <= i < |s| ==> s[i].id in cases && cases[s[i].id] == s[i] && s[i].userId == user)
      && (forall i, j :: 0 <= i < j < |s| ==> Lt(s[i].id, s[j].id))
      && (forall k :: k in cases && cases[k].userId == user ==> exists i :: 0 <= i < |s| && s[i].id == k)
  {
    var ks := SortedKeys(OwnedIds(cases, user));
    var s := OwnedInOrder(cases, user);
    assert forall i :: 0 <= i < |s| ==> s[i].id == ks[i];
    forall k | k in cases && cases[k].userId == user
      ensures exists i :: 0 <= i < |s| && s[i].id == k
    {
      assert k in OwnedIds(cases, user);
      var i :| 0 <= i < |ks| && ks[i] == k;
      assert s[i].id == k;
    }
  }

  /**
   * The meaning of the offset: the `j`-th case of a page is preceded, among the caller's cases,
   * by exactly `offset + j` cases with a smaller id.
   */
  lemma PageRank(cases: map<string, Case>, user: string, offset: nat, limit: nat, j: nat)
    requires KeyedById(cases)
    requires j < limit && offset + j < |OwnedIds(cases, user)|
    ensures var c := Window(OwnedInOrder(cases, user), offset, limit)[j];
      |set k | k in cases && cases[k].userId == user && Lt(k, c.id)| == offset + j
  {
    var ks := SortedKeys(OwnedIds(cases, user));
    var c := Window(OwnedInOrder(cases, user), offset, limit)[j];
    assert c == cases[ks[offset + j]] && c.id == ks[offset + j];
    RankInAscending(ks, offset + j);
    assert (set k | k in cases && cases[k].userId == user && Lt(k, c.id)) == (set k | k in ks && Lt(k, ks[offset + j]));
  }

  /**
   * A page of the caller's cases: stored rows of the caller, in strictly ascending id order, no
   * more than `limit` of them, the `j`-th preceded by exactly `offset + j` of the caller's cases.
   */
  lemma PageOfOwnedCases(cases: map<string, Case>, user: string, offset: nat, limit: nat)
    requires KeyedById(cases)
    ensures var page := Window(OwnedInOrder(cases, user), offset, limit);
      && |page| <= limit
      && (forall j :: 0 <= j < |page| ==> page[j].id in cases && cases[page[j].id] == page[j] && page[j].userId == user)
      && (forall i, j :: 0 <= i < j < |page| ==> Lt(page[i].id, page[j].id))
      && (forall j :: 0 <= j < |page| ==>
            |set k | k in cases && cases[k].userId == user && Lt(k, page[j].id)| == offset + j)
  {
    OwnedInOrderIsTheOwnedCases(cases, user);
    var page := Window(OwnedInOrder(cases, user), offset, limit);
    forall j | 0 <= j < |page|
      ensures |set k | k in cases && cases[k].userId == user && Lt(k, page[j].id)| == offset + j
    {
      PageRank(cases, user, offset, limit, j);
    }
  }

  /** With seven cases, the second page of five holds the sixth and the seventh. */
  lemma SecondPageOfSeven(s: seq<Case>)
    requires |s| == 7
    ensures var opts := FilterOptions(Some(2), Some(5));
      PaginationDefined(opts) && Window(s, Offset(opts), Limit(opts)) == [s[5], s[6]]
  {
    var w := Window(s, Offset(FilterOptions(Some(2), Some(5))), 5);
    assert |w| == 2 && w[0] == s[5] && w[1] == s[6];
  }
}
