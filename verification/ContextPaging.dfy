/** Keyset pages of the Context Hub: what following them to the end collects, for every family. */
module ContextPaging {
  import opened Wrappers

  const MAX_FAMILY_WORK := 200

  datatype Family = LocalSource | GitHub | GoogleCalendar

  const FAMILY_ORDER: seq<Family> := [LocalSource, GitHub, GoogleCalendar]

  datatype ContextState = Extracted | Current | Stale | Deleted

  /** The position a page ends at, one shape per family. */
  datatype Position =
    | LocalPosition(createdAt: int, source: nat, chunkIndex: nat, chunk: nat)
    | RevisionPosition(revision: nat, id: nat)

  /** One row of a family's query; a calendar row carries its derived state. */
  datatype Row = Row(position: Position, state: ContextState, payload: nat)

  datatype Request = Request(families: set<Family>, states: set<ContextState>, pageSize: nat)

  datatype Page = Page(items: seq<Row>, exhausted: bool, position: Option<Position>)

  // ----- orders -----

  /** The ORDER BY of each family: mixed directions for local chunks, both keys descending elsewhere. */
  predicate Before(p: Position, q: Position) {
    match p
    case LocalPosition(createdAt, source, chunkIndex, chunk) =>
      q.LocalPosition?
      && (if createdAt != q.createdAt then createdAt > q.createdAt
          else if source != q.source then source < q.source
          else if chunkIndex != q.chunkIndex then chunkIndex < q.chunkIndex
          else chunk < q.chunk)
    case RevisionPosition(revision, id) =>
      q.RevisionPosition? && (if revision != q.revision then revision > q.revision else id > q.id)
  }

  /** The WHERE of `_local_items` for rows after a position. */
  predicate LocalAfter(row: Position, after: Position)
    requires row.LocalPosition? && after.LocalPosition?
  {
    || row.createdAt < after.createdAt
    || (row.createdAt == after.createdAt && row.source > after.source)
    || (row.createdAt == after.createdAt && row.source == after.source && row.chunkIndex > after.chunkIndex)
    || (row.createdAt == after.createdAt && row.source == after.source && row.chunkIndex == after.chunkIndex
        && row.chunk > after.chunk)
  }

  /** The WHERE of `_github_items` and `_calendar_items`. */
  predicate RevisionAfter(row: Position, after: Position)
    requires row.RevisionPosition? && after.RevisionPosition?
  {
    row.revision < after.revision || (row.revision == after.revision && row.id < after.id)
  }

  predicate OfFamily(f: Family, p: Position) {
    if f.LocalSource? then p.LocalPosition? else p.RevisionPosition?
  }

  predicate KeysetAfter(f: Family, row: Position, after: Option<Position>)
    requires OfFamily(f, row) && (after.Some? ==> OfFamily(f, after.value))
  {
    after.Some? ==> if f.LocalSource? then LocalAfter(row, after.value) else RevisionAfter(row, after.value)
  }

  /** The keyset conditions say exactly "later in the ORDER BY", and that order is a strict total one. */
  lemma KeysetIsOrder(f: Family, row: Position, after: Position)
    requires OfFamily(f, row) && OfFamily(f, after)
    ensures KeysetAfter(f, row, Some(after)) <==> Before(after, row)
    ensures !Before(row, row)
    ensures Before(row, after) || row == after || Before(after, row)
    ensures !(Before(row, after) && Before(after, row))
  {
  }

  lemma BeforeTransitive(a: Position, b: Position, c: Position)
    requires Before(a, b) && Before(b, c)
    ensures Before(a, c)
  {
  }

  /** The family's full result in query order. */
  predicate Ordered(f: Family, rows: seq<Row>) {
    && (forall i :: 0 <= i < |rows| ==> OfFamily(f, rows[i].position))
    && forall i, j :: 0 <= i < j < |rows| ==> Before(rows[i].position, rows[j].position)
  }

  predicate PositionOk(f: Family, after: Option<Position>) {
    after.Some? ==> OfFamily(f, after.value)
  }

  // ----- pages -----

  /** WHERE after the position, in ORDER BY order. */
  function Select(f: Family, rows: seq<Row>, after: Option<Position>): (r: seq<Row>)
    requires Ordered(f, rows) && PositionOk(f, after)
  {
    if rows == [] then []
    else
      var rest := Select(f, rows[1..], after);
      if KeysetAfter(f, rows[0].position, after) then [rows[0]] + rest else rest
  }

  function Wanted(states: set<ContextState>, s: ContextState): bool {
    states == {} || s in states
  }

  function Filter(rows: seq<Row>, states: set<ContextState>): seq<Row> {
    if rows == [] then []
    else (if Wanted(states, rows[0].state) then [rows[0]] else []) + Filter(rows[1..], states)
  }

  function Prefix(rows: seq<Row>, n: nat): seq<Row> {
    if |rows| <= n then rows else rows[..n]
  }

  function LastPosition(items: seq<Row>, after: Option<Position>): Option<Position> {
    if items == [] then after else Some(items[|items| - 1].position)
  }

  /** A page of a family whose filters are all in the query: `limit(page_size + 1)`. */
  function KeysetPage(f: Family, rows: seq<Row>, pageSize: nat, after: Option<Position>): Page
    requires Ordered(f, rows) && PositionOk(f, after)
  {
    var fetched := Prefix(Select(f, rows, after), pageSize + 1);
    var items := Prefix(fetched, pageSize);
    Page(items, |fetched| <= pageSize, LastPosition(items, after))
  }

  /** The rows a calendar page looks at: it stops once the page is full. */
  function Scanned(rows: seq<Row>, states: set<ContextState>, room: nat): (n: nat)
    requires room > 0
    ensures n <= |rows|
    ensures |Filter(rows[..n], states)| <= room
    ensures n < |rows| ==> n > 0 && |Filter(rows[..n], states)| == room
  {
    if rows == [] then 0
    else
      var hit := Wanted(states, rows[0].state);
      if hit && room == 1 then
        (assert rows[..1] == [rows[0]]; 1)
      else
        var n := Scanned(rows[1..], states, if hit then room - 1 else room);
        assert rows[..n + 1][1..] == rows[1..][..n];
        n + 1
  }

  /** `_calendar_items`: derived states are filtered inside a window of 200 rows. */
  function CalendarPage(rows: seq<Row>, states: set<ContextState>, pageSize: nat, after: Option<Position>): Page
    requires Ordered(GoogleCalendar, rows) && PositionOk(GoogleCalendar, after) && pageSize > 0
  {
    var fetched := Prefix(Select(GoogleCalendar, rows, after), MAX_FAMILY_WORK + 1);
    var window := Prefix(fetched, MAX_FAMILY_WORK);
    var n := Scanned(window, states, pageSize);
    var items := Filter(window[..n], states);
    Page(items, |fetched| <= MAX_FAMILY_WORK && |items| < pageSize, LastPosition(window[..n], after))
  }

  datatype Tables = Tables(local: seq<Row>, github: seq<Row>, calendar: seq<Row>)

  predicate TablesOk(t: Tables) {
    && Ordered(LocalSource, t.local) && Ordered(GitHub, t.github) && Ordered(GoogleCalendar, t.calendar)
    && forall i :: 0 <= i < |t.local| ==> t.local[i].state.Extracted?
  }

  function RowsOf(t: Tables, f: Family): seq<Row> {
    match f case LocalSource => t.local case GitHub => t.github case GoogleCalendar => t.calendar
  }

  lemma FilterOrdered(f: Family, rows: seq<Row>, states: set<ContextState>)
    requires Ordered(f, rows)
    ensures Ordered(f, Filter(rows, states))
    ensures forall r :: r in Filter(rows, states) ==> r in rows
  {
    if rows != [] {
      FilterOrdered(f, rows[1..], states);
      var rest := Filter(rows[1..], states);
      forall i | 0 <= i < |rest| ensures OfFamily(f, rest[i].position) && Before(rows[0].position, rest[i].position) {
        assert rest[i] in rows[1..];
      }
    }
  }

  lemma {:induction false} FilterMembers(rows: seq<Row>, states: set<ContextState>, r: Row)
    ensures r in Filter(rows, states) <==> r in rows && (states == {} || r.state in states)
  {
    if rows != [] { FilterMembers(rows[1..], states, r); }
  }

  /** One family's part of `query_context_page`. */
  function FamilyPage(t: Tables, f: Family, request: Request, after: Option<Position>): Page
    requires TablesOk(t) && PositionOk(f, after) && request.pageSize > 0
  {
    match f
    case LocalSource =>
      if request.states != {} && Extracted !in request.states then Page([], true, after)
      else KeysetPage(f, t.local, request.pageSize, after)
    case GitHub =>
      FilterOrdered(f, t.github, request.states);
      KeysetPage(f, Filter(t.github, request.states), request.pageSize, after)
    case GoogleCalendar => CalendarPage(t.calendar, request.states, request.pageSize, after)
  }

  // ----- following pages of one family -----

  /** What a family still has to show after a position. */
  function Remaining(t: Tables, f: Family, request: Request, after: Option<Position>): seq<Row>
    requires TablesOk(t) && PositionOk(f, after)
  {
    Filter(Select(f, RowsOf(t, f), after), request.states)
  }

  /** What makes every page but the last smaller: rows to show, or for calendar rows to look at. */
  function Ahead(t: Tables, f: Family, request: Request, after: Option<Position>): nat
    requires TablesOk(t) && PositionOk(f, after)
  {
    if f.GoogleCalendar? then |Select(f, t.calendar, after)| else |Remaining(t, f, request, after)|
  }

  predicate AllAfter(f: Family, rows: seq<Row>, after: Option<Position>)
    requires Ordered(f, rows) && PositionOk(f, after)
  {
    forall i :: 0 <= i < |rows| ==> KeysetAfter(f, rows[i].position, after)
  }

  lemma {:induction false} SelectAll(f: Family, rows: seq<Row>, after: Option<Position>)
    requires Ordered(f, rows) && PositionOk(f, after) && AllAfter(f, rows, after)
    ensures Select(f, rows, after) == rows
  {
    if rows != [] { SelectAll(f, rows[1..], after); }
  }

  /** The rows after a position are a suffix. */
  lemma {:induction false} SelectIsSuffix(f: Family, rows: seq<Row>, after: Option<Position>) returns (m: nat)
    requires Ordered(f, rows) && PositionOk(f, after)
    ensures m <= |rows| && Select(f, rows, after) == rows[m..]
    ensures forall i :: m <= i < |rows| ==> KeysetAfter(f, rows[i].position, after)
  {
    if rows == [] {
      m := 0;
    } else if KeysetAfter(f, rows[0].position, after) {
      m := 0;
      forall i | 0 <= i < |rows| ensures KeysetAfter(f, rows[i].position, after) {
        if after.Some? {
          KeysetIsOrder(f, rows[0].position, after.value);
          KeysetIsOrder(f, rows[i].position, after.value);
          if i > 0 { BeforeTransitive(after.value, rows[0].position, rows[i].position); }
        }
      }
      SelectAll(f, rows, after);
    } else {
      m := SelectIsSuffix(f, rows[1..], after);
      m := m + 1;
    }
  }

  lemma {:induction false} SelectAfterRow(f: Family, rows: seq<Row>, k: nat)
    requires Ordered(f, rows) && k < |rows|
    ensures Select(f, rows, Some(rows[k].position)) == rows[k + 1..]
  {
    var after := Some(rows[k].position);
    KeysetIsOrder(f, rows[0].position, rows[k].position);
    if k == 0 {
      forall i | 0 <= i < |rows[1..]| ensures KeysetAfter(f, rows[1..][i].position, after) {
        KeysetIsOrder(f, rows[1..][i].position, rows[0].position);
      }
      SelectAll(f, rows[1..], after);
    } else {
      SelectAfterRow(f, rows[1..], k - 1);
    }
  }

  /** Selecting past the last of the first `n` selected rows drops exactly those `n`, and moves forward. */
  lemma SelectPast(f: Family, rows: seq<Row>, after: Option<Position>, n: nat)
    requires Ordered(f, rows) && PositionOk(f, after)
    requires 0 < n <= |Select(f, rows, after)|
    ensures
      var last := Select(f, rows, after)[n - 1].position;
      && OfFamily(f, last)
      && Select(f, rows, Some(last)) == Select(f, rows, after)[n..]
      && (after.Some? ==> Before(after.value, last))
  {
    var m := SelectIsSuffix(f, rows, after);
    assert Select(f, rows, after)[n - 1] == rows[m + n - 1];
    SelectAfterRow(f, rows, m + n - 1);
    if after.Some? { KeysetIsOrder(f, rows[m + n - 1].position, after.value); }
  }

  lemma {:induction false} FilterAppend(a: seq<Row>, b: seq<Row>, states: set<ContextState>)
    ensures Filter(a + b, states) == Filter(a, states) + Filter(b, states)
  {
    if a == [] {
      assert a + b == b;
    } else {
      FilterAppend(a[1..], b, states);
      assert a + b == [a[0]] + (a[1..] + b) && a == [a[0]] + a[1..];
      FilterCons(a[0], a[1..] + b, states);
      FilterCons(a[0], a[1..], states);
      hide Filter;
    }
  }

  lemma FilterCons(r: Row, rest: seq<Row>, states: set<ContextState>)
    ensures Filter([r] + rest, states) == (if Wanted(states, r.state) then [r] else []) + Filter(rest, states)
  {
    assert ([r] + rest)[1..] == rest;
  }

  lemma SelectCons(f: Family, r: Row, rest: seq<Row>, after: Option<Position>)
    requires Ordered(f, [r] + rest) && Ordered(f, rest) && PositionOk(f, after) && OfFamily(f, r.position)
    ensures Select(f, [r] + rest, after)
            == (if KeysetAfter(f, r.position, after) then [r] else []) + Select(f, rest, after)
  {
    assert ([r] + rest)[1..] == rest;
  }

  /** Filtering in the query or after selecting gives the same rows. */
  lemma {:induction false} FilterSelect(f: Family, rows: seq<Row>, states: set<ContextState>, after: Option<Position>)
    requires Ordered(f, rows) && PositionOk(f, after)
    ensures Ordered(f, Filter(rows, states))
    ensures Filter(Select(f, rows, after), states) == Select(f, Filter(rows, states), after)
  {
    FilterOrdered(f, rows, states);
    if rows != [] {
      var first, rest := rows[0], rows[1..];
      assert rows == [first] + rest;
      FilterOrdered(f, rest, states);
      FilterSelect(f, rest, states, after);
      FilterCons(first, rest, states);
      SelectCons(f, first, rest, after);
      hide Before, KeysetAfter, Filter, Select;
      if KeysetAfter(f, first.position, after) { FilterCons(first, Select(f, rest, after), states); }
      if Wanted(states, first.state) { SelectCons(f, first, Filter(rest, states), after); }
      assert Filter(rows, states) == if Wanted(states, first.state) then [first] + Filter(rest, states) else Filter(rest, states);
      assert Select(f, rows, after) == if KeysetAfter(f, first.position, after) then [first] + Select(f, rest, after) else Select(f, rest, after);
    }
  }

  predicate Forward(after: Option<Position>, next: Option<Position>) {
    next.Some? && (after.Some? ==> Before(after.value, next.value))
  }

  /** One page of a keyset family: its items come off the front, and only the last page is short. */
  lemma KeysetPageSplits(f: Family, rows: seq<Row>, pageSize: nat, after: Option<Position>)
    requires Ordered(f, rows) && PositionOk(f, after) && pageSize > 0
    ensures
      var p := KeysetPage(f, rows, pageSize, after);
      && PositionOk(f, p.position)
      && p.items + Select(f, rows, p.position) == Select(f, rows, after)
      && |p.items| <= pageSize
      && (p.exhausted <==> Select(f, rows, p.position) == [])
      && (p.items != [] ==> Forward(after, p.position))
      && (!p.exhausted ==> p.items != [])
  {
    var selected := Select(f, rows, after);
    var p := KeysetPage(f, rows, pageSize, after);
    if p.items != [] {
      SelectPast(f, rows, after, |p.items|);
    }
  }

  lemma {:induction false} FilterAll(rows: seq<Row>, states: set<ContextState>)
    requires forall i :: 0 <= i < |rows| ==> Wanted(states, rows[i].state)
    ensures Filter(rows, states) == rows
  {
    if rows != [] { FilterAll(rows[1..], states); }
  }

  lemma {:induction false} FilterNone(rows: seq<Row>, states: set<ContextState>)
    requires forall i :: 0 <= i < |rows| ==> !Wanted(states, rows[i].state)
    ensures Filter(rows, states) == []
  {
    if rows != [] { FilterNone(rows[1..], states); }
  }

  lemma CalendarPageSplits(rows: seq<Row>, states: set<ContextState>, pageSize: nat, after: Option<Position>)
    requires Ordered(GoogleCalendar, rows) && PositionOk(GoogleCalendar, after) && pageSize > 0
    ensures
      var p := CalendarPage(rows, states, pageSize, after);
      && PositionOk(GoogleCalendar, p.position)
      && p.items + Filter(Select(GoogleCalendar, rows, p.position), states) == Filter(Select(GoogleCalendar, rows, after), states)
      && |p.items| <= pageSize
      && (p.exhausted ==> Select(GoogleCalendar, rows, p.position) == [])
      && (!p.exhausted ==>
            Forward(after, p.position)
            && |Select(GoogleCalendar, rows, p.position)| < |Select(GoogleCalendar, rows, after)|)
      && |Select(GoogleCalendar, rows, after)| - |Select(GoogleCalendar, rows, p.position)| <= 200
      && (!p.exhausted && |p.items| < pageSize ==>
            |Select(GoogleCalendar, rows, after)| - |Select(GoogleCalendar, rows, p.position)| == 200)
  {
    var f := GoogleCalendar;
    var selected := Select(f, rows, after);
    var window := Prefix(Prefix(selected, MAX_FAMILY_WORK + 1), MAX_FAMILY_WORK);
    assert window == Prefix(selected, MAX_FAMILY_WORK);
    var n := Scanned(window, states, pageSize);
    var scanned := window[..n];
    assert scanned == selected[..n];
    assert selected == scanned + selected[n..];
    FilterAppend(scanned, selected[n..], states);
    if n > 0 { SelectPast(f, rows, after, n); }
  }

  /** One page of any family: nothing lost, nothing repeated, in order, and always forward. */
  lemma FamilyPageSplits(t: Tables, f: Family, request: Request, after: Option<Position>)
    requires TablesOk(t) && PositionOk(f, after) && request.pageSize > 0
    ensures
      var p := FamilyPage(t, f, request, after);
      && PositionOk(f, p.position)
      && p.items + Remaining(t, f, request, p.position) == Remaining(t, f, request, after)
      && |p.items| <= request.pageSize
      && (p.exhausted ==> Remaining(t, f, request, p.position) == [])
      && (!p.exhausted ==>
            Forward(after, p.position) && Ahead(t, f, request, p.position) < Ahead(t, f, request, after))
  {
    match f
    case LocalSource => LocalPageSplits(t, request, after);
    case GitHub =>
      FilterOrdered(f, t.github, request.states);
      KeysetPageSplits(f, Filter(t.github, request.states), request.pageSize, after);
      FilterSelect(f, t.github, request.states, after);
      FilterSelect(f, t.github, request.states, FamilyPage(t, f, request, after).position);
      hide Select, Filter, KeysetPage;
    case GoogleCalendar =>
      CalendarPageSplits(t.calendar, request.states, request.pageSize, after);
      hide Select, Filter, CalendarPage;
  }

  lemma LocalPageSplits(t: Tables, request: Request, after: Option<Position>)
    requires TablesOk(t) && PositionOk(LocalSource, after) && request.pageSize > 0
    ensures
      var p := FamilyPage(t, LocalSource, request, after);
      && PositionOk(LocalSource, p.position)
      && p.items + Remaining(t, LocalSource, request, p.position) == Remaining(t, LocalSource, request, after)
      && |p.items| <= request.pageSize
      && (p.exhausted ==> Remaining(t, LocalSource, request, p.position) == [])
      && (!p.exhausted ==>
            Forward(after, p.position)
            && |Remaining(t, LocalSource, request, p.position)| < |Remaining(t, LocalSource, request, after)|)
  {
    var p := FamilyPage(t, LocalSource, request, after);
    LocalRemaining(t, request, after);
    if request.states == {} || Extracted in request.states {
      KeysetPageSplits(LocalSource, t.local, request.pageSize, after);
      LocalRemaining(t, request, p.position);
    }
    hide Select, Filter, KeysetPage, TablesOk, Remaining;
  }

  /** Local rows are all extracted, so the state filter keeps all of them or none. */
  lemma LocalRemaining(t: Tables, request: Request, after: Option<Position>)
    requires TablesOk(t) && PositionOk(LocalSource, after)
    ensures Remaining(t, LocalSource, request, after)
            == if Wanted(request.states, Extracted) then Select(LocalSource, t.local, after) else []
  {
    var m := SelectIsSuffix(LocalSource, t.local, after);
    if Wanted(request.states, Extracted) {
      FilterAll(t.local[m..], request.states);
    } else {
      FilterNone(t.local[m..], request.states);
    }
  }

  // ----- the federated query -----

  /** Where a client is: per family the position, whether it is exhausted, and what it was shown. */
  datatype Reading = Reading(position: Option<Position>, exhausted: bool, shown: seq<Row>)

  type Client = map<Family, Reading>

  predicate ClientOk(request: Request, c: Client) {
    c.Keys == request.families && forall f :: f in c ==> PositionOk(f, c[f].position)
  }

  function Begin(request: Request): Client {
    map f | f in request.families :: Reading(None, false, [])
  }

  function ReadFamily(t: Tables, f: Family, request: Request, r: Reading): Reading
    requires TablesOk(t) && PositionOk(f, r.position) && request.pageSize > 0
  {
    if r.exhausted then r
    else
      var p := FamilyPage(t, f, request, r.position);
      Reading(p.position, p.exhausted, r.shown + p.items)
  }

  /** One call of `query_context_page` with the positions and flags of the call before. */
  function ReadPage(t: Tables, request: Request, c: Client): Client
    requires TablesOk(t) && ClientOk(request, c) && request.pageSize > 0
  {
    map f | f in c :: ReadFamily(t, f, request, c[f])
  }

  /** Shown so far plus what remains is the whole filtered list. */
  predicate Conserved(t: Tables, request: Request, c: Client)
    requires TablesOk(t) && ClientOk(request, c)
  {
    forall f :: f in c ==> ReadingConserved(t, f, request, c[f])
  }

  predicate ReadingConserved(t: Tables, f: Family, request: Request, r: Reading)
    requires TablesOk(t) && PositionOk(f, r.position)
  {
    && r.shown + Remaining(t, f, request, r.position) == Filter(RowsOf(t, f), request.states)
    && (r.exhausted ==> Remaining(t, f, request, r.position) == [])
  }

  lemma BeginConserved(t: Tables, request: Request)
    requires TablesOk(t)
    ensures ClientOk(request, Begin(request)) && Conserved(t, request, Begin(request))
  {
    forall f | f in request.families ensures Select(f, RowsOf(t, f), None) == RowsOf(t, f) {
      SelectAll(f, RowsOf(t, f), None);
    }
  }

  lemma PageConserves(t: Tables, request: Request, c: Client)
    requires TablesOk(t) && ClientOk(request, c) && request.pageSize > 0
    requires Conserved(t, request, c)
    ensures ClientOk(request, ReadPage(t, request, c)) && Conserved(t, request, ReadPage(t, request, c))
  {
    var next := ReadPage(t, request, c);
    forall f | f in c
      ensures PositionOk(f, next[f].position) && ReadingConserved(t, f, request, next[f])
    {
      assert ReadingConserved(t, f, request, c[f]);
      ReadingConserves(t, f, request, c[f]);
    }
  }

  lemma ReadingConserves(t: Tables, f: Family, request: Request, r: Reading)
    requires TablesOk(t) && PositionOk(f, r.position) && request.pageSize > 0
    requires ReadingConserved(t, f, request, r)
    ensures PositionOk(f, ReadFamily(t, f, request, r).position)
    ensures ReadingConserved(t, f, request, ReadFamily(t, f, request, r))
  {
    hide FamilyPage, Remaining, Filter, TablesOk, RowsOf;
    FamilyPageSplits(t, f, request, r.position);
    var p := FamilyPage(t, f, request, r.position);
    assert r.shown + (p.items + Remaining(t, f, request, p.position))
        == (r.shown + p.items) + Remaining(t, f, request, p.position);
  }

  function ReadingWork(t: Tables, f: Family, request: Request, r: Reading): nat
    requires TablesOk(t) && PositionOk(f, r.position)
  {
    if r.exhausted then 0 else Ahead(t, f, request, r.position) + 1
  }

  function Work(t: Tables, request: Request, c: Client): nat
    requires TablesOk(t) && ClientOk(request, c)
  {
    (if LocalSource in c then ReadingWork(t, LocalSource, request, c[LocalSource]) else 0)
    + (if GitHub in c then ReadingWork(t, GitHub, request, c[GitHub]) else 0)
    + (if GoogleCalendar in c then ReadingWork(t, GoogleCalendar, request, c[GoogleCalendar]) else 0)
  }

  predicate AllExhausted(c: Client) {
    forall f :: f in c ==> c[f].exhausted
  }

  lemma ReadingAdvances(t: Tables, f: Family, request: Request, r: Reading)
    requires TablesOk(t) && PositionOk(f, r.position) && request.pageSize > 0
    ensures PositionOk(f, ReadFamily(t, f, request, r).position)
    ensures ReadingWork(t, f, request, ReadFamily(t, f, request, r)) <= ReadingWork(t, f, request, r)
    ensures !r.exhausted ==> ReadingWork(t, f, request, ReadFamily(t, f, request, r)) < ReadingWork(t, f, request, r)
  {
    FamilyPageSplits(t, f, request, r.position);
    hide FamilyPage, Ahead;
  }

  lemma PageAdvances(t: Tables, request: Request, c: Client)
    requires TablesOk(t) && ClientOk(request, c) && request.pageSize > 0
    requires !AllExhausted(c)
    ensures ClientOk(request, ReadPage(t, request, c))
    ensures Work(t, request, ReadPage(t, request, c)) < Work(t, request, c)
  {
    forall f | f in c
      ensures PositionOk(f, ReadFamily(t, f, request, c[f]).position)
      ensures ReadingWork(t, f, request, ReadFamily(t, f, request, c[f])) <= ReadingWork(t, f, request, c[f])
      ensures !c[f].exhausted ==> ReadingWork(t, f, request, ReadFamily(t, f, request, c[f])) < ReadingWork(t, f, request, c[f])
    {
      ReadingAdvances(t, f, request, c[f]);
    }
    var f :| f in c && !c[f].exhausted;
    hide ReadFamily, ReadingWork;
    assert f == LocalSource || f == GitHub || f == GoogleCalendar;
  }

  /**
   Following the pages of a fixed snapshot to the end shows, for each family, exactly its full filtered
   list in order; `pages` calls suffice, and it never takes more than the work ahead at the start.
   */
  lemma {:induction false} FollowingShowsEverything(t: Tables, request: Request, c: Client) returns (last: Client, pages: nat)
    requires TablesOk(t) && ClientOk(request, c) && request.pageSize > 0
    requires Conserved(t, request, c)
    ensures last == ReadPages(t, request, c, pages)
    ensures AllExhausted(last) && last.Keys == c.Keys
    ensures forall f :: f in last ==> last[f].shown == Filter(RowsOf(t, f), request.states)
    ensures pages <= Work(t, request, c)
    decreases Work(t, request, c)
  {
    hide Work, Remaining, Filter, TablesOk, ReadFamily;
    if AllExhausted(c) {
      last, pages := c, 0;
      assert forall f :: f in c ==> ReadingConserved(t, f, request, c[f]);
    } else {
      PageConserves(t, request, c);
      PageAdvances(t, request, c);
      hide Conserved, ReadingConserved;
      last, pages := FollowingShowsEverything(t, request, ReadPage(t, request, c));
      pages := pages + 1;
    }
  }

  /** In query order, hence each once: the rows of the family in one of the states asked for. */
  ghost predicate ShownIs(t: Tables, f: Family, request: Request, shown: seq<Row>) {
    && Ordered(f, shown)
    && forall r :: r in shown <==> r in RowsOf(t, f) && (request.states == {} || r.state in request.states)
  }

  lemma FilterIs(t: Tables, f: Family, request: Request)
    requires TablesOk(t)
    ensures ShownIs(t, f, request, Filter(RowsOf(t, f), request.states))
  {
    FilterOrdered(f, RowsOf(t, f), request.states);
    hide TablesOk, Ordered, Filter;
    forall r ensures r in Filter(RowsOf(t, f), request.states) <==> r in RowsOf(t, f) && (request.states == {} || r.state in request.states) {
      FilterMembers(RowsOf(t, f), request.states, r);
    }
  }

  /** In particular from the first page: every family of the request is shown in full, exactly once. */
  lemma FollowingFromTheStart(t: Tables, request: Request) returns (last: Client, pages: nat)
    requires TablesOk(t) && request.pageSize > 0
    ensures ClientOk(request, Begin(request)) && last == ReadPages(t, request, Begin(request), pages)
    ensures AllExhausted(last) && last.Keys == request.families
    ensures forall f :: f in request.families ==> ShownIs(t, f, request, last[f].shown)
    ensures pages <= |t.local| + |t.github| + |t.calendar| + 3
  {
    hide TablesOk, ShownIs, Filter, Conserved, Work, ReadPages;
    BeginConserved(t, request);
    last, pages := FollowingShowsEverything(t, request, Begin(request));
    WorkAtStart(t, request);
    forall f | f in request.families ensures ShownIs(t, f, request, last[f].shown) {
      FilterIs(t, f, request);
    }
  }

  lemma WorkAtStart(t: Tables, request: Request)
    requires TablesOk(t) && ClientOk(request, Begin(request))
    ensures Work(t, request, Begin(request)) <= |t.local| + |t.github| + |t.calendar| + 3
  {
    forall f: Family ensures Ahead(t, f, request, None) <= |RowsOf(t, f)| {
      SelectAll(f, RowsOf(t, f), None);
      FilterShrinks(RowsOf(t, f), request.states);
    }
    hide Ahead;
  }

  lemma {:induction false} FilterShrinks(rows: seq<Row>, states: set<ContextState>)
    ensures |Filter(rows, states)| <= |rows|
  {
    if rows != [] { FilterShrinks(rows[1..], states); }
  }

  function ReadPages(t: Tables, request: Request, c: Client, pages: nat): Client
    requires TablesOk(t) && ClientOk(request, c) && request.pageSize > 0
  {
    if pages == 0 then c
    else
      ReadPageOk(t, request, c);
      ReadPages(t, request, ReadPage(t, request, c), pages - 1)
  }

  lemma ReadPageOk(t: Tables, request: Request, c: Client)
    requires TablesOk(t) && ClientOk(request, c) && request.pageSize > 0
    ensures ClientOk(request, ReadPage(t, request, c))
  {
    forall f | f in c ensures PositionOk(f, ReadPage(t, request, c)[f].position) {
      FamilyPageSplits(t, f, request, c[f].position);
    }
  }

  // ----- the loops -----

  /** The loop of `_calendar_items`. */
  method ScanWindow(window: seq<Row>, states: set<ContextState>, pageSize: nat, after: Option<Position>)
    returns (items: seq<Row>, lastScanned: Option<Position>)
    requires pageSize > 0
    ensures
      var n := Scanned(window, states, pageSize);
      items == Filter(window[..n], states) && lastScanned == LastPosition(window[..n], after)
  {
    items, lastScanned := [], after;
    var k := 0;
    ScanFromIs(window, states, pageSize, 0, after);
    assert window[..0] == [] && window[0..] == window;
    hide Scanned;
    while k < |window| && |items| < pageSize
      invariant 0 <= k <= |window|
      invariant ScanFrom(window, states, pageSize, k, ScanEnd(items, lastScanned))
             == ScanFrom(window, states, pageSize, 0, ScanEnd([], after))
    {
      lastScanned := Some(window[k].position);
      if states == {} || window[k].state in states {
        items := items + [window[k]];
      }
      k := k + 1;
    }
  }

  datatype ScanEnd = ScanEnd(items: seq<Row>, last: Option<Position>)

  /** The scan from row `k` on, with what it has so far. */
  function ScanFrom(window: seq<Row>, states: set<ContextState>, pageSize: nat, k: nat, sofar: ScanEnd): ScanEnd
    requires k <= |window|
    decreases |window| - k
  {
    if k == |window| || |sofar.items| >= pageSize then sofar
    else
      ScanFrom(window, states, pageSize, k + 1,
               ScanEnd(if Wanted(states, window[k].state) then sofar.items + [window[k]] else sofar.items, Some(window[k].position)))
  }

  lemma {:induction false} ScanFromIs(window: seq<Row>, states: set<ContextState>, pageSize: nat, k: nat, after: Option<Position>)
    requires k <= |window| && |Filter(window[..k], states)| <= pageSize
    ensures
      var items := Filter(window[..k], states);
      var n := k + if |items| == pageSize then 0 else Scanned(window[k..], states, pageSize - |items|);
      n <= |window|
      && ScanFrom(window, states, pageSize, k, ScanEnd(items, LastPosition(window[..k], after)))
         == ScanEnd(Filter(window[..n], states), LastPosition(window[..n], after))
    decreases |window| - k
  {
    hide Filter, Scanned;
    var items := Filter(window[..k], states);
    if k == |window| {
      NothingToScan(window[k..], states, pageSize);
    } else if |items| < pageSize {
      ScanStep(window, states, k, pageSize - |items|);
      LastOfPrefix(window, k + 1, after);
      hide LastPosition;
      ScanFromIs(window, states, pageSize, k + 1, after);
    }
  }

  lemma NothingToScan(rows: seq<Row>, states: set<ContextState>, pageSize: nat)
    requires rows == []
    ensures forall room: nat :: room > 0 ==> Scanned(rows, states, room) == 0
  {
  }

  lemma LastOfPrefix(window: seq<Row>, n: nat, after: Option<Position>)
    requires 0 < n <= |window|
    ensures LastPosition(window[..n], after) == Some(window[n - 1].position)
  {
  }

  lemma ScanStep(window: seq<Row>, states: set<ContextState>, k: nat, room: nat)
    requires k < |window| && room > 0
    ensures Filter(window[..k + 1], states)
            == if Wanted(states, window[k].state) then Filter(window[..k], states) + [window[k]] else Filter(window[..k], states)
    ensures Scanned(window[k..], states, room)
            == if Wanted(states, window[k].state) && room == 1 then 1
               else 1 + Scanned(window[k + 1..], states, if Wanted(states, window[k].state) then room - 1 else room)
  {
    var row := window[k];
    assert window[..k + 1] == window[..k] + [row];
    FilterAppend(window[..k], [row], states);
    assert Filter([row], states) == if Wanted(states, row.state) then [row] else [];
    assert window[k..][0] == row && window[k..][1..] == window[k + 1..];
  }

  /** `_calendar_items` around that loop. */
  method CalendarItems(rows: seq<Row>, states: set<ContextState>, pageSize: nat, after: Option<Position>) returns (page: Page)
    requires Ordered(GoogleCalendar, rows) && PositionOk(GoogleCalendar, after) && pageSize > 0
    ensures page == CalendarPage(rows, states, pageSize, after)
  {
    var fetched := Prefix(Select(GoogleCalendar, rows, after), MAX_FAMILY_WORK + 1);
    var window := Prefix(fetched, MAX_FAMILY_WORK);
    var items, lastScanned := ScanWindow(window, states, pageSize, after);
    page := Page(items, |fetched| <= MAX_FAMILY_WORK && |items| < pageSize, lastScanned);
  }

  datatype Group = Group(family: Family, page: Page)

  /** One family's group: empty once the family is exhausted. */
  function GroupFor(t: Tables, f: Family, request: Request, r: Reading): Group
    requires TablesOk(t) && PositionOk(f, r.position) && request.pageSize > 0
  {
    Group(f, if r.exhausted then Page([], true, r.position) else FamilyPage(t, f, request, r.position))
  }

  function GroupIn(t: Tables, f: Family, request: Request, c: Client): seq<Group>
    requires TablesOk(t) && ClientOk(request, c) && request.pageSize > 0
  {
    if f in c then [GroupFor(t, f, request, c[f])] else []
  }

  /** The groups of the first `n` families. */
  function Groups(t: Tables, request: Request, c: Client, n: nat): seq<Group>
    requires TablesOk(t) && ClientOk(request, c) && request.pageSize > 0 && n <= |FAMILY_ORDER|
  {
    if n == 0 then [] else Groups(t, request, c, n - 1) + GroupIn(t, FAMILY_ORDER[n - 1], request, c)
  }

  /** One group per family of the request, in the fixed order. */
  lemma GroupsInOrder(t: Tables, request: Request, c: Client)
    requires TablesOk(t) && ClientOk(request, c) && request.pageSize > 0
    ensures Groups(t, request, c, |FAMILY_ORDER|)
            == GroupIn(t, LocalSource, request, c) + GroupIn(t, GitHub, request, c) + GroupIn(t, GoogleCalendar, request, c)
  {
    hide GroupIn, TablesOk, ClientOk;
    var none := Groups(t, request, c, 0);
    assert Groups(t, request, c, 1) == none + GroupIn(t, LocalSource, request, c) == GroupIn(t, LocalSource, request, c);
    assert Groups(t, request, c, 2) == Groups(t, request, c, 1) + GroupIn(t, GitHub, request, c);
  }

  /** The readings of the first `n` families. */
  function Readings(t: Tables, request: Request, c: Client, n: nat): Client
    requires TablesOk(t) && ClientOk(request, c) && request.pageSize > 0 && n <= |FAMILY_ORDER|
  {
    if n == 0 then map[]
    else
      var f, before := FAMILY_ORDER[n - 1], Readings(t, request, c, n - 1);
      if f in c then before[f := ReadFamily(t, f, request, c[f])] else before
  }

  lemma {:induction false} ReadingsOf(t: Tables, request: Request, c: Client, n: nat)
    requires TablesOk(t) && ClientOk(request, c) && request.pageSize > 0 && n <= |FAMILY_ORDER|
    ensures forall f :: f in Readings(t, request, c, n) <==> f in c && f in FAMILY_ORDER[..n]
    ensures forall f :: f in Readings(t, request, c, n) ==> Readings(t, request, c, n)[f] == ReadFamily(t, f, request, c[f])
  {
    hide ReadFamily;
    if n > 0 {
      ReadingsOf(t, request, c, n - 1);
      assert FAMILY_ORDER[..n] == FAMILY_ORDER[..n - 1] + [FAMILY_ORDER[n - 1]];
    }
  }

  lemma ReadingsAreAll(t: Tables, request: Request, c: Client)
    requires TablesOk(t) && ClientOk(request, c) && request.pageSize > 0
    ensures Readings(t, request, c, |FAMILY_ORDER|) == ReadPage(t, request, c)
  {
    ReadingsOf(t, request, c, |FAMILY_ORDER|);
    assert FAMILY_ORDER[..|FAMILY_ORDER|] == FAMILY_ORDER;
    AllFamilies();
    hide ReadFamily;
  }

  /** The loop of `query_context_page`. */
  method QueryContextPage(t: Tables, request: Request, c: Client) returns (groups: seq<Group>, next: Client)
    requires TablesOk(t) && ClientOk(request, c) && request.pageSize > 0
    ensures next == ReadPage(t, request, c)
    ensures groups == GroupIn(t, LocalSource, request, c) + GroupIn(t, GitHub, request, c) + GroupIn(t, GoogleCalendar, request, c)
  {
    groups := [];
    next := map[];
    GroupsInOrder(t, request, c);
    ReadingsAreAll(t, request, c);
    hide TablesOk, PositionOk, FamilyPage, ReadPage;
    for i := 0 to |FAMILY_ORDER|
      invariant next == Readings(t, request, c, i)
      invariant groups == Groups(t, request, c, i)
    {
      var f := FAMILY_ORDER[i];
      if f in request.families {
        var page := if c[f].exhausted then Page([], true, c[f].position) else FamilyPage(t, f, request, c[f].position);
        groups := groups + [Group(f, page)];
        next := next[f := if c[f].exhausted then c[f] else Reading(page.position, page.exhausted, c[f].shown + page.items)];
      }
    }
  }

  lemma AllFamilies()
    ensures forall f: Family :: f in FAMILY_ORDER
  {
    forall f: Family ensures f in FAMILY_ORDER {
      match f
      case LocalSource => assert f == FAMILY_ORDER[0];
      case GitHub => assert f == FAMILY_ORDER[1];
      case GoogleCalendar => assert f == FAMILY_ORDER[2];
    }
  }
}
