/** Session lists page by page: `AgentStore.listSessions` and its cursor in src/agents/store.ts. */
module SessionPaging {
  import opened Options
  import opened Utf16
  import opened JsonValues

  /** The columns that the query filters, orders or pages by. */
  datatype Session = Session(id: Text, project: Text, agent: Text, status: Text, source: Text, updatedAt: Text)

  datatype Key = Key(at: Text, id: Text)

  /** `hits` are the ids that the search text finds; an empty status or source does not filter. */
  datatype Query = Query(project: Text, agent: Option<Text>, status: Text, source: Text, hits: Option<set<Text>>,
                         includeEval: bool)

  const EVAL: Text := ['e' as int, 'v' as int, 'a' as int, 'l' as int]

  predicate Matches(q: Query, s: Session) {
    && s.project == q.project
    && (q.includeEval || s.source != EVAL)
    && (q.agent.Some? ==> s.agent == q.agent.value)
    && (q.status != [] ==> s.status == q.status)
    && (q.source != [] ==> s.source == q.source)
    && (q.hits.Some? ==> s.id in q.hits.value)
  }

  // ---------- the order of a list ----------

  function KeyOf(s: Session): Key { Key(s.updatedAt, s.id) }

  /** The row comparison of the cursor's WHERE clause. */
  predicate Before(k: Key, l: Key) {
    Less(k.at, l.at) || (k.at == l.at && Less(k.id, l.id))
  }

  lemma BeforeOrders(k: Key, l: Key)
    ensures k == l || Before(k, l) || Before(l, k)
    ensures !(Before(k, l) && Before(l, k)) && !Before(k, k)
  {
    LessTotal(k.at, l.at);
    LessTotal(k.id, l.id);
  }

  lemma BeforeTrans(k: Key, l: Key, m: Key)
    requires Before(k, l) && Before(l, m)
    ensures Before(k, m)
  {
    if Less(k.at, l.at) && Less(l.at, m.at) { LessTrans(k.at, l.at, m.at); }
    if Less(k.id, l.id) && Less(l.id, m.id) { LessTrans(k.id, l.id, m.id); }
  }

  /** ORDER BY updated_at DESC, session_id DESC. */
  ghost predicate Descending(list: seq<Session>) {
    forall i, j :: 0 <= i < j < |list| ==> Before(KeyOf(list[j]), KeyOf(list[i]))
  }

  ghost predicate IsListing(list: seq<Session>, rows: set<Session>) {
    Descending(list) && forall s :: s in list <==> s in rows
  }

  /** The session id is the primary key of the table. */
  ghost predicate IsTable(rows: set<Session>) {
    forall s <- rows, t <- rows :: s.id == t.id ==> s == t
  }

  lemma {:induction false} ListingUnique(list: seq<Session>, other: seq<Session>)
    requires Descending(list) && Descending(other)
    requires forall s :: s in list <==> s in other
    ensures list == other
  {
    assert list != [] ==> list[0] in other;
    assert other != [] ==> other[0] in list;
    if list != [] {
      HeadOnce(list);
      HeadOnce(other);
      assert list[0] in other && other[0] in list;
      BeforeOrders(KeyOf(list[0]), KeyOf(other[0]));
      ListingUnique(list[1..], other[1..]);
      assert list == [list[0]] + list[1..] && other == [other[0]] + other[1..];
    }
  }

  lemma HeadOnce(list: seq<Session>)
    requires Descending(list) && list != []
    ensures Descending(list[1..]) && list[0] !in list[1..]
    ensures forall s :: s in list <==> s == list[0] || s in list[1..]
    ensures forall s <- list[1..] :: Before(KeyOf(s), KeyOf(list[0]))
  {
    BeforeOrders(KeyOf(list[0]), KeyOf(list[0]));
    assert list == [list[0]] + list[1..];
  }

  lemma DescendingAppend(list: seq<Session>, more: seq<Session>)
    requires Descending(list) && Descending(more)
    requires forall s <- list, t <- more :: Before(KeyOf(t), KeyOf(s))
    ensures Descending(list + more)
  {
    var all := list + more;
    forall i, j | 0 <= i < j < |all| ensures Before(KeyOf(all[j]), KeyOf(all[i])) {
      if i < |list| <= j {
        assert list[i] in list && more[j - |list|] in more;
      }
    }
  }

  /** One more row has a place in a list. */
  lemma {:induction false} Insert(list: seq<Session>, s: Session) returns (out: seq<Session>)
    requires Descending(list)
    requires forall t <- list :: t.id != s.id
    ensures Descending(out) && forall t :: t in out <==> t in list || t == s
  {
    if list == [] {
      out := [s];
    } else {
      HeadOnce(list);
      var k, head := KeyOf(s), KeyOf(list[0]);
      BeforeOrders(k, head);
      assert list[0] in list;
      if Before(k, head) {
        var rest := Insert(list[1..], s);
        out := [list[0]] + rest;
        DescendingAppend([list[0]], rest);
      } else {
        forall t <- list ensures Before(KeyOf(t), k) {
          if t != list[0] { BeforeTrans(KeyOf(t), head, k); }
        }
        out := [s] + list;
        DescendingAppend([s], list);
      }
    }
  }

  lemma {:induction false} ListingExists(rows: set<Session>)
    requires IsTable(rows)
    ensures exists list :: IsListing(list, rows)
  {
    if rows == {} {
      assert IsListing([], rows);
    } else {
      var s :| s in rows;
      ListingExists(rows - {s});
      var rest :| IsListing(rest, rows - {s});
      var list := Insert(rest, s);
      assert IsListing(list, rows);
    }
  }

  ghost function Listing(rows: set<Session>): (list: seq<Session>)
    requires IsTable(rows)
    ensures IsListing(list, rows)
  {
    ListingExists(rows);
    var list :| IsListing(list, rows);
    list
  }

  // ---------- one page ----------

  datatype Page = Page(sessions: seq<Session>, next: Option<Key>)

  function First(list: seq<Session>, n: nat): seq<Session> {
    if |list| <= n then list else list[..n]
  }

  /** The rows a page may show: those that match and, after a first page, are below the cursor. A
      cursor that does not decode counts as none. */
  ghost function Rest(rows: set<Session>, q: Query, cursor: Option<Key>): set<Session> {
    set s | s in rows && Matches(q, s) && (cursor.Some? ==> Before(KeyOf(s), cursor.value))
  }

  ghost function ListSessions(rows: set<Session>, q: Query, limit: nat, cursor: Option<Key>): Page
    requires IsTable(rows)
  {
    var found := First(Listing(Rest(rows, q, cursor)), limit + 1);
    var sessions := First(found, limit);
    Page(sessions, if |found| > limit && sessions != [] then Some(KeyOf(sessions[|sessions| - 1])) else None)
  }

  /** A page shows the topmost rows of the rest, at most `limit` of them; with a limit of at least 1
      it has a next page exactly when rows are left, and those are the ones below its cursor. */
  lemma PageMeans(rows: set<Session>, q: Query, limit: nat, cursor: Option<Key>)
    requires IsTable(rows)
    ensures var page := ListSessions(rows, q, limit, cursor);
            var rest := Rest(rows, q, cursor);
            && Descending(page.sessions) && |page.sessions| <= limit
            && (forall s <- page.sessions :: s in rest)
            && (forall s <- page.sessions, t <- rest :: t !in page.sessions ==> Before(KeyOf(t), KeyOf(s)))
            && (page.next.Some? ==> |page.sessions| == limit && page.sessions != [])
            && (page.next.Some? ==> forall s <- rest :: s !in page.sessions <==> s in Rest(rows, q, page.next))
            && (page.next.None? && limit > 0 ==> forall s <- rest :: s in page.sessions)
  {
    var page := ListSessions(rows, q, limit, cursor);
    var rest := Rest(rows, q, cursor);
    var all := Listing(rest);
    var n := |page.sessions|;
    assert page.sessions == all[..n];
    FrontAbove(all, n);
    if page.next.Some? {
      var last := page.sessions[n - 1];
      assert last in page.sessions;
      forall s <- rest ensures s !in page.sessions <==> s in Rest(rows, q, page.next) {
        if s in page.sessions {
          var i := IndexOf(page.sessions, s);
          BeforeOrders(KeyOf(last), KeyOf(s));
        }
      }
    }
  }

  function IndexOf(list: seq<Session>, s: Session): (i: nat)
    requires s in list
    ensures i < |list| && list[i] == s
  {
    if list[0] == s then 0 else 1 + IndexOf(list[1..], s)
  }

  /** What is not in the front of a list is below it. */
  lemma FrontAbove(list: seq<Session>, n: nat)
    requires Descending(list) && n <= |list|
    ensures forall s <- list[..n], t <- list :: t !in list[..n] ==> Before(KeyOf(t), KeyOf(s))
  {
    forall s <- list[..n], t <- list | t !in list[..n] ensures Before(KeyOf(t), KeyOf(s)) {
      var i, j := IndexOf(list[..n], s), IndexOf(list, t);
      assert list[i] == s && (forall k :: 0 <= k < n ==> list[k] in list[..n]);
    }
  }

  // ---------- following the cursors ----------

  /** The pages a reader sees who starts at `from` and follows the cursors to the end, over the
      states the table has when each page is read. */
  ghost predicate Followed(tables: seq<set<Session>>, q: Query, limit: nat, from: Option<Key>, pages: seq<Page>)
    requires forall rows <- tables :: IsTable(rows)
    decreases |tables|
  {
    && |tables| == |pages| > 0
    && pages[0] == ListSessions(tables[0], q, limit, from)
    && (if pages[0].next.None? then |pages| == 1
        else |pages| > 1 && Followed(tables[1..], q, limit, pages[0].next, pages[1..]))
  }

  ghost function Listed(pages: seq<Page>): seq<Session> {
    if pages == [] then [] else pages[0].sessions + Listed(pages[1..])
  }

  ghost predicate Shows(tables: seq<set<Session>>, q: Query, from: Option<Key>, list: seq<Session>) {
    && Descending(list)
    && (forall s <- list :: exists i :: 0 <= i < |tables| && s in Rest(tables[i], q, from))
    && (forall s :: |tables| > 0 && (forall i :: 0 <= i < |tables| ==> s in Rest(tables[i], q, from)) ==> s in list)
  }

  lemma RestShrinks(rows: set<Session>, q: Query, from: Option<Key>, to: Key, s: Session)
    requires from.Some? ==> to == from.value || Before(to, from.value)
    requires s in Rest(rows, q, Some(to))
    ensures s in Rest(rows, q, from)
  {
    if from.Some? && to != from.value { BeforeTrans(KeyOf(s), to, from.value); }
  }

  /** The next cursor is below the last. */
  lemma CursorFalls(rows: set<Session>, q: Query, limit: nat, from: Option<Key>)
    requires IsTable(rows)
    ensures var next := ListSessions(rows, q, limit, from).next;
            next.Some? && from.Some? ==> Before(next.value, from.value)
  {
    PageMeans(rows, q, limit, from);
    var page := ListSessions(rows, q, limit, from);
    if page.next.Some? {
      var last := page.sessions[|page.sessions| - 1];
      assert last in page.sessions;
    }
  }

  /** Even when rows change between the pages, no row is listed twice or out of order, every listed
      row was there, and a row that stays as it is all the while is listed. */
  lemma {:induction false} PagesShow(tables: seq<set<Session>>, q: Query, limit: nat, from: Option<Key>,
                                     pages: seq<Page>)
    requires limit > 0 && forall rows <- tables :: IsTable(rows)
    requires Followed(tables, q, limit, from, pages)
    ensures Shows(tables, q, from, Listed(pages))
    decreases |tables|
  {
    var rows, page := tables[0], pages[0];
    PageMeans(rows, q, limit, from);
    if page.next.None? {
      assert pages[1..] == [];
      assert Listed(pages) == page.sessions;
    } else {
      PagesShow(tables[1..], q, limit, page.next, pages[1..]);
      CursorFalls(rows, q, limit, from);
      Prepend(tables, q, limit, from, page, Listed(pages[1..]));
    }
  }

  /** Rows below a page's cursor are below the page. */
  lemma BelowPage(rows: set<Session>, q: Query, limit: nat, from: Option<Key>, s: Session, t: Session)
    requires IsTable(rows)
    requires var page := ListSessions(rows, q, limit, from);
             s in page.sessions && page.next.Some? && Before(KeyOf(t), page.next.value)
    ensures Before(KeyOf(t), KeyOf(s))
  {
    PageMeans(rows, q, limit, from);
    var page := ListSessions(rows, q, limit, from);
    LastIsLowest(page.sessions, s);
    var last := page.sessions[|page.sessions| - 1];
    if s != last { BeforeTrans(KeyOf(t), KeyOf(last), KeyOf(s)); }
  }

  lemma LastIsLowest(list: seq<Session>, s: Session)
    requires Descending(list) && s in list
    ensures s == list[|list| - 1] || Before(KeyOf(list[|list| - 1]), KeyOf(s))
  {
    var i := IndexOf(list, s);
  }

  lemma Prepend(tables: seq<set<Session>>, q: Query, limit: nat, from: Option<Key>, page: Page, tail: seq<Session>)
    requires |tables| > 1 && limit > 0 && IsTable(tables[0])
    requires page == ListSessions(tables[0], q, limit, from) && page.next.Some?
    requires from.Some? ==> Before(page.next.value, from.value)
    requires Shows(tables[1..], q, page.next, tail)
    ensures Shows(tables, q, from, page.sessions + tail)
  {
    var rows, later, list := tables[0], tables[1..], page.sessions + tail;
    PageMeans(rows, q, limit, from);
    forall s <- tail
      ensures Before(KeyOf(s), page.next.value) && exists i :: 0 <= i < |tables| && s in Rest(tables[i], q, from)
    {
      var i :| 0 <= i < |later| && s in Rest(later[i], q, page.next);
      RestShrinks(later[i], q, from, page.next.value, s);
      assert tables[i + 1] == later[i];
    }
    forall s <- page.sessions, t <- tail ensures Before(KeyOf(t), KeyOf(s)) {
      BelowPage(rows, q, limit, from, s, t);
    }
    DescendingAppend(page.sessions, tail);
    forall s | forall i :: 0 <= i < |tables| ==> s in Rest(tables[i], q, from) ensures s in list {
      assert s in Rest(rows, q, from);
      if s !in page.sessions {
        assert s in Rest(rows, q, page.next);
        assert forall i :: 0 <= i < |later| ==> later[i] == tables[i + 1];
        assert forall i :: 0 <= i < |later| ==> s in Rest(later[i], q, page.next);
      }
    }
  }

  /** Sessions only move up the list, as every update stamps the row with the present time. */
  ghost predicate NeverBack(tables: seq<set<Session>>) {
    forall i, j :: 0 <= i <= j < |tables| ==> NotBefore(tables[i], tables[j])
  }

  ghost predicate NotBefore(rows: set<Session>, later: set<Session>) {
    forall s: Session, t: Session :: s in rows && t in later && s.id == t.id ==> !Less(t.updatedAt, s.updatedAt)
  }

  ghost predicate Apart(list: seq<Session>) {
    forall i, j :: 0 <= i < j < |list| ==> list[i].id != list[j].id
  }

  /** Then no session is listed twice, not even with another time. */
  lemma {:induction false} NoSessionTwice(tables: seq<set<Session>>, q: Query, limit: nat, from: Option<Key>,
                                          pages: seq<Page>)
    requires limit > 0 && forall rows <- tables :: IsTable(rows)
    requires Followed(tables, q, limit, from, pages) && NeverBack(tables)
    ensures Apart(Listed(pages))
    decreases |tables|
  {
    var page := pages[0];
    PageIds(tables[0], q, limit, from);
    if page.next.None? {
      assert pages[1..] == [];
      assert Listed(pages) == page.sessions;
    } else {
      NeverBackLater(tables);
      NoSessionTwice(tables[1..], q, limit, page.next, pages[1..]);
      PagesShow(tables[1..], q, limit, page.next, pages[1..]);
      LaterApart(tables, q, limit, from, page, Listed(pages[1..]));
    }
  }

  lemma LaterApart(tables: seq<set<Session>>, q: Query, limit: nat, from: Option<Key>, page: Page, tail: seq<Session>)
    requires |tables| > 1 && NeverBack(tables) && IsTable(tables[0])
    requires page == ListSessions(tables[0], q, limit, from) && page.next.Some?
    requires Apart(page.sessions) && Apart(tail)
    requires forall s <- tail :: exists i :: 0 <= i < |tables[1..]| && s in Rest(tables[1..][i], q, page.next)
    ensures Apart(page.sessions + tail)
  {
    PageMeans(tables[0], q, limit, from);
    forall s <- page.sessions, t <- tail ensures s.id != t.id {
      var i :| 0 <= i < |tables[1..]| && t in Rest(tables[1..][i], q, page.next);
      BelowPage(tables[0], q, limit, from, s, t);
      NotAgain(tables, i + 1, s, t);
    }
    ApartAppend(page.sessions, tail);
  }

  lemma NeverBackLater(tables: seq<set<Session>>)
    requires |tables| > 0 && NeverBack(tables)
    ensures NeverBack(tables[1..])
  {
    var later := tables[1..];
    forall i, j | 0 <= i <= j < |later| ensures NotBefore(later[i], later[j]) {
      assert later[i] == tables[i + 1] && later[j] == tables[j + 1];
    }
  }

  /** A row of a later table that is below a row of the first is another session. */
  lemma NotAgain(tables: seq<set<Session>>, i: nat, s: Session, t: Session)
    requires i < |tables| && NeverBack(tables)
    requires s in tables[0] && t in tables[i] && Before(KeyOf(t), KeyOf(s))
    ensures s.id != t.id
  {
    assert NotBefore(tables[0], tables[i]);
    LessTotal(s.id, t.id);
  }

  lemma PageIds(rows: set<Session>, q: Query, limit: nat, from: Option<Key>)
    requires IsTable(rows)
    ensures Apart(ListSessions(rows, q, limit, from).sessions)
  {
    PageMeans(rows, q, limit, from);
    var list := ListSessions(rows, q, limit, from).sessions;
    forall i, j | 0 <= i < j < |list| ensures list[i].id != list[j].id {
      BeforeOrders(KeyOf(list[i]), KeyOf(list[j]));
      assert list[i] in list && list[j] in list;
      BeforeOrders(KeyOf(list[i]), KeyOf(list[i]));
    }
  }

  lemma ApartAppend(list: seq<Session>, tail: seq<Session>)
    requires Apart(list) && Apart(tail)
    requires forall s <- list, t <- tail :: s.id != t.id
    ensures Apart(list + tail)
  {
    var all := list + tail;
    forall i, j | 0 <= i < j < |all| ensures all[i].id != all[j].id {
      if i < |list| <= j {
        assert list[i] in list && tail[j - |list|] in tail;
      }
    }
  }

  // ---------- a table at rest ----------

  /** Following the cursors over a table that stays as it is; the rest gets smaller each time. */
  ghost function Follow(rows: set<Session>, q: Query, limit: nat, from: Option<Key>): (pages: seq<Page>)
    requires IsTable(rows) && limit > 0
    decreases |Rest(rows, q, from)|
  {
    var page := ListSessions(rows, q, limit, from);
    if page.next.None? then [page]
    else
      RestFalls(rows, q, limit, from);
      [page] + Follow(rows, q, limit, page.next)
  }

  lemma RestFalls(rows: set<Session>, q: Query, limit: nat, from: Option<Key>)
    requires IsTable(rows) && ListSessions(rows, q, limit, from).next.Some?
    ensures |Rest(rows, q, ListSessions(rows, q, limit, from).next)| < |Rest(rows, q, from)|
  {
    var page := ListSessions(rows, q, limit, from);
    var rest, after := Rest(rows, q, from), Rest(rows, q, page.next);
    PageMeans(rows, q, limit, from);
    CursorFalls(rows, q, limit, from);
    forall s <- after ensures s in rest {
      RestShrinks(rows, q, from, page.next.value, s);
    }
    assert page.sessions[0] in page.sessions;
    assert after <= rest - {page.sessions[0]};
    SmallerSet(after, rest - {page.sessions[0]});
  }

  lemma {:induction false} SmallerSet(a: set<Session>, b: set<Session>)
    requires a <= b
    ensures |a| <= |b|
  {
    if a != {} {
      var s :| s in a;
      SmallerSet(a - {s}, b - {s});
    }
  }

  function Same(rows: set<Session>, n: nat): seq<set<Session>> {
    seq(n, (i: nat) => rows)
  }

  lemma {:induction false} FollowIsFollowed(rows: set<Session>, q: Query, limit: nat, from: Option<Key>)
    requires IsTable(rows) && limit > 0
    ensures Followed(Same(rows, |Follow(rows, q, limit, from)|), q, limit, from, Follow(rows, q, limit, from))
    decreases |Rest(rows, q, from)|
  {
    var page := ListSessions(rows, q, limit, from);
    if page.next.Some? {
      RestFalls(rows, q, limit, from);
      FollowIsFollowed(rows, q, limit, page.next);
      var pages := Follow(rows, q, limit, from);
      var later := Follow(rows, q, limit, page.next);
      assert pages == [page] + later && pages[1..] == later;
      assert Same(rows, |later| + 1)[1..] == Same(rows, |later|);
    }
  }

  /** From the first page to the end, any page size of at least 1 lists every matching session
      exactly once, latest first. */
  lemma PagesListAll(rows: set<Session>, q: Query, limit: nat)
    requires IsTable(rows) && limit > 0
    ensures IsListing(Listed(Follow(rows, q, limit, None)), set s | s in rows && Matches(q, s))
  {
    var pages := Follow(rows, q, limit, None);
    var tables := Same(rows, |pages|);
    FollowIsFollowed(rows, q, limit, None);
    PagesShow(tables, q, limit, None, pages);
    var list := Listed(pages);
    forall s ensures s in list <==> s in rows && Matches(q, s) {
      if s in list {
        assert exists i :: 0 <= i < |tables| && s in Rest(tables[i], q, None);
      }
      if s in rows && Matches(q, s) {
        assert forall i :: 0 <= i < |tables| ==> s in Rest(tables[i], q, None);
      }
    }
  }

  /** So the page size does not matter. */
  lemma AnyPageSize(rows: set<Session>, q: Query, limit: nat, other: nat)
    requires IsTable(rows) && limit > 0 && other > 0
    ensures Listed(Follow(rows, q, limit, None)) == Listed(Follow(rows, q, other, None))
  {
    PagesListAll(rows, q, limit);
    PagesListAll(rows, q, other);
    ListingUnique(Listed(Follow(rows, q, limit, None)), Listed(Follow(rows, q, other, None)));
  }

  /** What the pages list, filter by filter, and in what order: by the time of the last update, and by
      session id where that is the same, both falling. */
  lemma ListedMeans(rows: set<Session>, q: Query, limit: nat)
    requires IsTable(rows) && limit > 0
    ensures var list := Listed(Follow(rows, q, limit, None));
            && (forall s :: s in list <==>
                  s in rows && s.project == q.project && (s.source == [101, 118, 97, 108] ==> q.includeEval) &&
                  (q.agent == None || q.agent == Some(s.agent)) && (q.status == [] || q.status == s.status) &&
                  (q.source == [] || q.source == s.source) && (q.hits == None || s.id in q.hits.value))
            && (forall i, j :: 0 <= i < j < |list| ==>
                  Less(list[j].updatedAt, list[i].updatedAt) ||
                  (list[j].updatedAt == list[i].updatedAt && Less(list[j].id, list[i].id)))
  {
    PagesListAll(rows, q, limit);
    var list := Listed(Follow(rows, q, limit, None));
    forall i, j | 0 <= i < j < |list|
      ensures Less(list[j].updatedAt, list[i].updatedAt) ||
              (list[j].updatedAt == list[i].updatedAt && Less(list[j].id, list[i].id))
    {
      assert Before(KeyOf(list[j]), KeyOf(list[i]));
    }
  }

  /** A page of the list: its first `limit` rows below the cursor, and a cursor at its last row exactly when
      more rows follow. */
  lemma PageIs(rows: set<Session>, q: Query, limit: nat, cursor: Option<Key>)
    requires IsTable(rows) && limit > 0
    ensures var page, rest := ListSessions(rows, q, limit, cursor), Rest(rows, q, cursor);
            && |page.sessions| == (if |rest| < limit then |rest| else limit)
            && page.next == if |rest| <= limit then None
                            else Some(Key(page.sessions[limit - 1].updatedAt, page.sessions[limit - 1].id))
  {
    var all := Listing(Rest(rows, q, cursor));
    ListingLength(all, Rest(rows, q, cursor));
  }

  lemma {:induction false} ListingLength(list: seq<Session>, rows: set<Session>)
    requires IsListing(list, rows)
    ensures |list| == |rows|
    decreases |list|
  {
    if list == [] {
      assert rows == {};
    } else {
      HeadOnce(list);
      ListingLength(list[1..], rows - {list[0]});
    }
  }
}
