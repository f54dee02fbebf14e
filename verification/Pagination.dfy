/** Listing instances page by page: following the tokens yields the whole list, each row once. */
module Pagination {
  import opened Prelude
  import opened ActivityIds
  import opened Ordering

  /** A listed row; `started_at` has whole seconds. */
  datatype Instance = Instance(id: string, startedAt: nat, workflow: string)

  datatype Cursor = Cursor(startedAt: nat, id: string)

  // ---- Order ----

  /** Text comparison, character by character; a prefix comes first. */
  predicate Less(a: string, b: string) {
    b != [] && (a == [] || a[0] < b[0] || (a[0] == b[0] && Less(a[1..], b[1..])))
  }

  lemma {:induction false} LessOneWay(a: string, b: string)
    ensures Less(a, b) ==> !Less(b, a)
    ensures Less(a, b) || Less(b, a) || a == b
  {
    if a != [] && b != [] && a[0] == b[0] {
      LessOneWay(a[1..], b[1..]);
      assert a == [a[0]] + a[1..] && b == [b[0]] + b[1..];
    }
  }

  lemma {:induction false} LessTransitive(a: string, b: string, c: string)
    requires Less(a, b) && Less(b, c)
    ensures Less(a, c)
  {
    if a != [] && a[0] == b[0] == c[0] {
      LessTransitive(a[1..], b[1..], c[1..]);
    }
  }

  /** The first characters in which they differ decide; a text comes after its own beginning. */
  lemma {:induction false} LessAtFirstDifference(a: string, b: string, k: nat)
    requires k <= |a| && k <= |b| && a[..k] == b[..k]
    ensures k < |a| && k < |b| && a[k] < b[k] ==> Less(a, b)
    ensures k == |a| < |b| ==> Less(a, b)
  {
    if k > 0 {
      assert a[..k][0] == a[0] && b[..k][0] == b[0];
      assert a[1..][..k - 1] == a[..k][1..] && b[1..][..k - 1] == b[..k][1..];
      LessAtFirstDifference(a[1..], b[1..], k - 1);
    }
  }

  /** (started_at, instance_id) below the cursor's: what comes after it in the list. */
  predicate Follows(x: Instance, c: Cursor) {
    x.startedAt < c.startedAt || (x.startedAt == c.startedAt && Less(x.id, c.id))
  }

  function CursorOf(x: Instance): Cursor {
    Cursor(x.startedAt, x.id)
  }

  /** ORDER BY started_at DESC, instance_id DESC. */
  predicate Before(a: Instance, b: Instance) {
    Follows(b, CursorOf(a))
  }

  lemma BeforeOrders()
    ensures Orders(Before)
  {
    forall a, b | Before(a, b) ensures !Before(b, a) {
      LessOneWay(a.id, b.id);
    }
    forall a, b, c | Before(a, b) && Before(b, c) ensures Before(a, c) {
      if a.startedAt == b.startedAt == c.startedAt {
        LessTransitive(c.id, b.id, a.id);
      }
    }
  }

  /** instance_id is the primary key. */
  predicate DistinctIds(table: seq<Instance>) {
    forall i, j :: 0 <= i < j < |table| ==> table[i].id != table[j].id
  }

  lemma DistinctComparable(table: seq<Instance>)
    requires DistinctIds(table)
    ensures Comparable(table, Before)
  {
    forall i, j | 0 <= i < j < |table| ensures Before(table[i], table[j]) || Before(table[j], table[i]) {
      LessOneWay(table[i].id, table[j].id);
    }
  }

  // ---- Tokens ----

  function ParseDecimal(s: string): Option<nat> {
    if s == [] || !('0' <= s[|s| - 1] <= '9') then None
    else
      var digit := (s[|s| - 1] - '0') as nat;
      if |s| == 1 then Some(digit)
      else
        var front := ParseDecimal(s[..|s| - 1]);
        if front.None? then None else Some(front.value * 10 + digit)
  }

  lemma {:induction false} ParseDecimalOf(n: nat)
    ensures ParseDecimal(Decimal(n)) == Some(n)
    ensures forall i :: 0 <= i < |Decimal(n)| ==> Decimal(n)[i] != '|'
  {
    if n >= 10 {
      ParseDecimalOf(n / 10);
      assert Decimal(n)[..|Decimal(n)| - 1] == Decimal(n / 10);
    }
  }

  /** Where the separator first stands; the length if it does not. */
  function Separator(s: string): (k: nat)
    ensures k <= |s|
  {
    if |s| < 2 then |s|
    else if s[0] == '|' && s[1] == '|' then 0
    else 1 + Separator(s[1..])
  }

  lemma {:induction false} SeparatorAfter(front: string, back: string)
    requires forall i :: 0 <= i < |front| ==> front[i] != '|'
    ensures Separator(front + "||" + back) == |front|
  {
    var s := front + "||" + back;
    if front != [] {
      SeparatorAfter(front[1..], back);
      assert s[1..] == front[1..] + "||" + back;
    }
  }

  /** A time and an id; the time is written as its number of seconds. */
  function TokenOf(x: Instance): string {
    Decimal(x.startedAt) + "||" + x.id
  }

  /** A token that does not parse is no cursor: the listing starts over. */
  function ParseToken(token: string): Option<Cursor> {
    var k := Separator(token);
    if k + 2 > |token| then None
    else
      var time := ParseDecimal(token[..k]);
      if time.None? then None else Some(Cursor(time.value, token[k + 2..]))
  }

  /** Tokens come back as the cursor they were made from, whatever the id contains. */
  lemma TokenRoundTrip(x: Instance)
    ensures ParseToken(TokenOf(x)) == Some(CursorOf(x))
  {
    ParseDecimalOf(x.startedAt);
    SeparatorAfter(Decimal(x.startedAt), x.id);
    var token, k := TokenOf(x), |Decimal(x.startedAt)|;
    assert token[..k] == Decimal(x.startedAt) && token[k + 2..] == x.id;
  }

  // ---- Queries ----

  function Wanted(filter: Instance -> bool, cursor: Option<Cursor>): Instance -> bool {
    (x: Instance) => filter(x) && (cursor.Some? ==> Follows(x, cursor.value))
  }

  /** The rows the query matches, in order: those after the cursor, if there is one. */
  function Rows(table: seq<Instance>, filter: Instance -> bool, cursor: Option<Cursor>): seq<Instance> {
    Sort(Filter(table, Wanted(filter, cursor)), Before)
  }

  lemma {:induction false} FilterCounts(table: seq<Instance>, keep: Instance -> bool, x: Instance)
    ensures multiset(Filter(table, keep))[x] == if keep(x) then multiset(table)[x] else 0
  {
    if table != [] {
      var init, last := table[..|table| - 1], table[|table| - 1];
      FilterCounts(init, keep, x);
      assert table == init + [last];
      FilterSnoc(init, last, keep);
    }
  }

  lemma {:induction false} CountOfDistinct(table: seq<Instance>, x: Instance)
    requires DistinctIds(table)
    ensures multiset(table)[x] == if x in table then 1 else 0
  {
    if table != [] {
      var init, last := table[..|table| - 1], table[|table| - 1];
      CountOfDistinct(init, x);
      assert table == init + [last];
      assert forall i :: 0 <= i < |init| ==> init[i] == table[i];
    }
  }

  /** What a query leaves of rows with distinct ids has distinct ids. */
  lemma {:induction false} FilterDistinct(table: seq<Instance>, keep: Instance -> bool)
    requires DistinctIds(table)
    ensures DistinctIds(Filter(table, keep))
  {
    if table != [] {
      var init, last := table[..|table| - 1], table[|table| - 1];
      FilterDistinct(init, keep);
      assert table == init + [last];
      FilterSnoc(init, last, keep);
      FilterMembers(init, keep);
      var r := Filter(init, keep);
      forall i | 0 <= i < |r| ensures r[i].id != last.id {
        assert r[i] in r;
        var j :| 0 <= j < |init| && init[j] == r[i];
        assert table[j].id != table[|table| - 1].id;
      }
    }
  }

  lemma FilterSublist(table: seq<Instance>, keep: Instance -> bool)
    requires DistinctIds(table)
    ensures DistinctIds(Filter(table, keep))
    ensures forall x :: multiset(Filter(table, keep))[x] == if x in table && keep(x) then 1 else 0
  {
    FilterDistinct(table, keep);
    forall x ensures multiset(Filter(table, keep))[x] == if x in table && keep(x) then 1 else 0 {
      FilterCounts(table, keep, x);
      CountOfDistinct(table, x);
    }
  }

  lemma RowsSorted(table: seq<Instance>, filter: Instance -> bool, cursor: Option<Cursor>)
    requires DistinctIds(table)
    ensures Sorted(Rows(table, filter, cursor), Before)
    ensures forall x :: multiset(Rows(table, filter, cursor))[x] ==
                        if x in table && Wanted(filter, cursor)(x) then 1 else 0
  {
    BeforeOrders();
    FilterSublist(table, Wanted(filter, cursor));
    DistinctComparable(Filter(table, Wanted(filter, cursor)));
    SortSorts(Filter(table, Wanted(filter, cursor)), Before);
  }

  /** The list: every row of the table that passes the filter, once, the latest start first, then by id. */
  lemma RowsAreNewestFirst(table: seq<Instance>, filter: Instance -> bool)
    requires DistinctIds(table)
    ensures var all := Rows(table, filter, None);
            && (forall x :: multiset(all)[x] == if x in table && filter(x) then 1 else 0)
            && forall i, j :: 0 <= i < j < |all| ==>
                 || all[i].startedAt > all[j].startedAt
                 || (all[i].startedAt == all[j].startedAt && Less(all[j].id, all[i].id))
  {
    hide Rows;
    RowsSorted(table, filter, None);
  }

  /** The rows after row k of the list are what the query for the cursor of row k matches. */
  lemma RowsAfter(table: seq<Instance>, filter: Instance -> bool, k: nat)
    requires DistinctIds(table) && k < |Rows(table, filter, None)|
    ensures var all := Rows(table, filter, None);
            Rows(table, filter, Some(CursorOf(all[k]))) == all[k + 1..]
  {
    hide Rows;
    var all := Rows(table, filter, None);
    var rest := Rows(table, filter, Some(CursorOf(all[k])));
    RowsSorted(table, filter, None);
    RowsSorted(table, filter, Some(CursorOf(all[k])));
    BeforeOrders();
    forall x ensures multiset(rest)[x] == multiset(all[k + 1..])[x] {
      SuffixHolds(all, k, x);
    }
    assert multiset(rest) == multiset(all[k + 1..]);
    SortedUnique(rest, all[k + 1..], Before);
  }

  /** In a sorted list, the part after row k holds exactly what follows row k. */
  lemma SuffixHolds(all: seq<Instance>, k: nat, x: Instance)
    requires k < |all| && Sorted(all, Before) && Orders(Before)
    requires forall y :: multiset(all)[y] <= 1
    ensures multiset(all[k + 1..])[x] == if multiset(all)[x] == 1 && Before(all[k], x) then 1 else 0
  {
    assert all == all[..k + 1] + all[k + 1..];
    if x in all[k + 1..] {
      var j :| 0 <= j < |all[k + 1..]| && all[k + 1..][j] == x;
      assert all[k + 1 + j] == x;
    }
    if x in all[..k + 1] {
      var j :| 0 <= j < k + 1 && all[j] == x;
      assert j < k ==> Before(x, all[k]);
    }
  }

  datatype Page = Page(instances: seq<Instance>, nextPageToken: string, hasMore: bool)

  /** A limit of zero or less means 50. */
  function Effective(limit: int): nat {
    if limit <= 0 then 50 else limit
  }

  /** What ListInstances is to return for a token. */
  function PageOf(rows: seq<Instance>, limit: int): Page {
    if |rows| > Effective(limit)
    then Page(rows[..Effective(limit)], TokenOf(rows[Effective(limit) - 1]), true)
    else Page(rows, "", false)
  }

  function CursorFor(token: string): Option<Cursor> {
    if token == "" then None else ParseToken(token)
  }

  method ListInstances(table: seq<Instance>, filter: Instance -> bool, token: string, limit: int) returns (page: Page)
    ensures page == PageOf(Rows(table, filter, CursorFor(token)), limit)
    ensures var rows, most := Rows(table, filter, CursorFor(token)), if limit <= 0 then 50 else limit;
            && |page.instances| <= most && page.instances <= rows
            && (page.hasMore <==> |rows| > most) && (!page.hasMore ==> page.instances == rows)
            && (page.nextPageToken != "" <==> page.hasMore)
            && (page.hasMore ==>
                  && |page.instances| == most
                  && var last := page.instances[most - 1];
                     ParseToken(page.nextPageToken) == Some(Cursor(last.startedAt, last.id)))
  {
    hide Rows, CursorFor, TokenOf, ParseToken;
    var rows := Rows(table, filter, CursorFor(token));
    var n := Effective(limit);
    var instances: seq<Instance>, k := [], 0;
    while k < |rows| && k < n + 1
      invariant 0 <= k <= |rows| && k <= n + 1 && instances == rows[..k]
    {
      instances := instances + [rows[k]];
      k := k + 1;
    }
    var hasMore := |instances| > n;
    if hasMore {
      instances := instances[..n];
    }
    var next := "";
    if hasMore && |instances| > 0 {
      next := TokenOf(instances[|instances| - 1]);
    }
    page := Page(instances, next, hasMore);
    if hasMore {
      TokenRoundTrip(instances[|instances| - 1]);
      TokenIsText(instances[|instances| - 1]);
    }
  }

  lemma TokenIsText(x: Instance)
    ensures TokenOf(x) != ""
  {
  }

  /** A page, and what the next token leads to. */
  lemma PageContinues(table: seq<Instance>, filter: Instance -> bool, k: nat, limit: int)
    requires DistinctIds(table) && k <= |Rows(table, filter, None)|
    ensures var all := Rows(table, filter, None);
            var page := PageOf(all[k..], limit);
            && k + |page.instances| <= |all|
            && page.instances == all[k..k + |page.instances|]
            && (page.hasMore ==>
                  && |page.instances| > 0 && page.nextPageToken != ""
                  && Rows(table, filter, CursorFor(page.nextPageToken)) == all[k + |page.instances|..])
            && (!page.hasMore ==> k + |page.instances| == |all|)
  {
    hide Rows;
    var all := Rows(table, filter, None);
    var page := PageOf(all[k..], limit);
    if page.hasMore {
      var last := k + Effective(limit) - 1;
      assert all[k..][Effective(limit) - 1] == all[last];
      TokenRoundTrip(all[last]);
      RowsAfter(table, filter, last);
    }
  }

  /**
   * Following the tokens until there are no more pages ends, and the pages together are the
   * whole list in its order: no gap, no repeat, whatever the page size and the ids.
   */
  method ListAll(table: seq<Instance>, filter: Instance -> bool, limit: int) returns (listed: seq<Instance>, pages: nat)
    requires DistinctIds(table)
    ensures listed == Rows(table, filter, None)
    ensures forall x :: multiset(listed)[x] == if x in table && filter(x) then 1 else 0
    ensures forall i, j :: 0 <= i < j < |listed| ==>
              || listed[i].startedAt > listed[j].startedAt
              || (listed[i].startedAt == listed[j].startedAt && Less(listed[j].id, listed[i].id))
    ensures pages > 0 && (pages - 1) * Effective(limit) <= |listed|
  {
    hide Rows, PageOf, CursorFor;
    ghost var all := Rows(table, filter, None);
    FirstPage();
    listed, pages := [], 0;
    var token, more := "", true;
    assert all[0..] == all;
    while more
      invariant |listed| <= |all| && listed == all[..|listed|]
      invariant more ==> Rows(table, filter, CursorFor(token)) == all[|listed|..] && |listed| == pages * Effective(limit)
      invariant !more ==> listed == all && (pages - 1) * Effective(limit) <= |all| && pages > 0
      decreases |all| - |listed|, more
    {
      PageContinues(table, filter, |listed|, limit);
      PageSize(all[|listed|..], limit);
      var page := ListInstances(table, filter, token, limit);
      listed := listed + page.instances;
      token, more, pages := page.nextPageToken, page.hasMore, pages + 1;
    }
    RowsAreNewestFirst(table, filter);
  }

  lemma FirstPage()
    ensures CursorFor("") == None
  {
  }

  lemma PageSize(rows: seq<Instance>, limit: int)
    ensures PageOf(rows, limit).hasMore ==> |PageOf(rows, limit).instances| == Effective(limit)
    ensures |PageOf(rows, limit).instances| <= |rows|
  {
  }
}
