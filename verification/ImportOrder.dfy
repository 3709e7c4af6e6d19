/** Project import: reference checks, the supersession cycle walk and the insertion order. */
module ImportOrder {
  import opened Wrappers

  type Id = nat

  datatype File =
    | ProjectFile | MemoriesFile | EmbeddingsFile | SourcesFile | MemorySourcesFile
    | DocumentsFile | ChunksFile | RunsFile | ProposalsFile

  datatype Field = SupersedesId | MemoryId | SourceId | DocumentId | RunId | SourceChunkId

  datatype Row = Row(id: Id, project: Option<Id>, fields: map<Field, Option<Id>>)

  /** A bundle has every file; a missing one counts as empty. */
  type Bundle = map<File, seq<Row>>

  datatype ImportError = ProjectInconsistent | OutsideProject | ReferenceOutside | SupersessionCycle | DuplicateIds

  datatype Reference = Reference(source: File, field: Field, target: File, optional: bool)

  const REFERENCES: seq<Reference> := [
    Reference(EmbeddingsFile, MemoryId, MemoriesFile, false),
    Reference(MemorySourcesFile, MemoryId, MemoriesFile, false),
    Reference(MemorySourcesFile, SourceId, SourcesFile, false),
    Reference(DocumentsFile, SourceId, SourcesFile, false),
    Reference(ChunksFile, DocumentId, DocumentsFile, false),
    Reference(RunsFile, DocumentId, DocumentsFile, false),
    Reference(ProposalsFile, RunId, RunsFile, false),
    Reference(ProposalsFile, SourceChunkId, ChunksFile, true),
    Reference(ProposalsFile, MemoryId, MemoriesFile, true)]

  const INSERT_ORDER: seq<File> := [
    ProjectFile, SourcesFile, DocumentsFile, ChunksFile, MemoriesFile,
    EmbeddingsFile, MemorySourcesFile, RunsFile, ProposalsFile]

  function RowsOf(data: Bundle, f: File): seq<Row> {
    if f in data then data[f] else []
  }

  function Get(row: Row, field: Field): Option<Id> {
    if field in row.fields then row.fields[field] else None
  }

  function Ids(rows: seq<Row>): set<Id> {
    set k | 0 <= k < |rows| :: rows[k].id
  }

  predicate DistinctIds(rows: seq<Row>) {
    forall i, j :: 0 <= i < j < |rows| ==> rows[i].id != rows[j].id
  }

  // ----- the supersession graph -----

  /** `row["id"] -> row["supersedes_id"]` where it is not null; the last row of an id counts. */
  function Links(rows: seq<Row>): map<Id, Id> {
    if rows == [] then map[]
    else
      var last := rows[|rows| - 1];
      var before := Links(rows[..|rows| - 1]);
      if Get(last, SupersedesId).Some? then before[last.id := Get(last, SupersedesId).value] else before
  }

  /** A closed path of supersession links. */
  predicate Cycle(links: map<Id, Id>, c: seq<Id>) {
    && |c| > 0
    && (forall i :: 0 <= i < |c| ==> c[i] in links)
    && (forall i :: 0 <= i < |c| - 1 ==> links[c[i]] == c[i + 1])
    && links[c[|c| - 1]] == c[0]
  }

  ghost predicate HasCycle(links: map<Id, Id>) {
    exists c :: Cycle(links, c)
  }

  /** A path of links from its first element; `current` is where it leads. */
  predicate Path(links: map<Id, Id>, p: seq<Id>, current: Id) {
    && (forall i :: 0 <= i < |p| ==> p[i] in links)
    && (forall i :: 0 <= i < |p| - 1 ==> links[p[i]] == p[i + 1])
    && (|p| > 0 ==> links[p[|p| - 1]] == current)
  }

  /** The inner loop of the walk in `_require_refs`. */
  method WalkFrom(links: map<Id, Id>, start: Id) returns (found: bool, ghost path: seq<Id>, current: Id)
    ensures Path(links, path, current) && (if path == [] then current == start else path[0] == start)
    ensures found ==> HasCycle(links)
    ensures !found ==> current !in links
  {
    var seen: set<Id> := {};
    path, current, found := [], start, false;
    while current in links
      invariant Path(links, path, current) && (if path == [] then current == start else path[0] == start)
      invariant forall x :: x in seen <==> x in path
      invariant seen <= links.Keys
      decreases links.Keys - seen
    {
      if current in seen {
        ghost var j :| 0 <= j < |path| && path[j] == current;
        assert Cycle(links, path[j..]);
        found := true;
        return;
      }
      seen := seen + {current};
      path := path + [current];
      current := links[current];
    }
  }

  /** A path that leaves the links did not start on a cycle. */
  lemma {:induction false} LeavingPathAvoidsCycle(links: map<Id, Id>, path: seq<Id>, current: Id, c: seq<Id>, k: nat)
    requires Path(links, path, current) && Cycle(links, c) && k < |c|
    requires if path == [] then current == c[k] else path[0] == c[k]
    ensures current in links
    decreases |path|
  {
    if path != [] {
      var rest := path[1..];
      var next := if k == |c| - 1 then 0 else k + 1;
      assert rest == [] ==> links[path[0]] == current;
      assert rest != [] ==> links[path[0]] == rest[0];
      LeavingPathAvoidsCycle(links, rest, current, c, next);
    }
  }

  /** The outer loop: raises exactly when the links have a cycle. */
  method FindCycle(links: map<Id, Id>) returns (found: bool)
    ensures found <==> HasCycle(links)
  {
    var todo := links.Keys;
    while todo != {}
      invariant todo <= links.Keys
      invariant forall c :: Cycle(links, c) ==> c[0] in todo
      decreases todo
    {
      var start :| start in todo;
      ghost var path;
      var current;
      found, path, current := WalkFrom(links, start);
      if found { return; }
      forall c | Cycle(links, c) ensures c[0] != start {
        if c[0] == start { LeavingPathAvoidsCycle(links, path, current, c, 0); }
      }
      todo := todo - {start};
    }
    found := false;
  }

  // ----- the reference checks -----

  predicate MemoriesOk(data: Bundle, projectId: Id) {
    forall k :: 0 <= k < |RowsOf(data, MemoriesFile)| ==>
      var row := RowsOf(data, MemoriesFile)[k];
      row.project == Some(projectId)
      && (Get(row, SupersedesId).Some? ==> Get(row, SupersedesId).value in Ids(RowsOf(data, MemoriesFile)))
  }

  predicate ReferenceOk(data: Bundle, r: Reference) {
    forall k :: 0 <= k < |RowsOf(data, r.source)| ==>
      var value := Get(RowsOf(data, r.source)[k], r.field);
      if value.None? then r.optional else value.value in Ids(RowsOf(data, r.target))
  }

  predicate ReferencesOk(data: Bundle) {
    forall i :: 0 <= i < |REFERENCES| ==> ReferenceOk(data, REFERENCES[i])
  }

  predicate InProject(rows: seq<Row>, projectId: Id) {
    forall k :: 0 <= k < |rows| ==> rows[k].project == Some(projectId)
  }

  predicate ReferencesHold(data: Bundle, projectId: Id) {
    && Ids(RowsOf(data, ProjectFile)) == {projectId}
    && MemoriesOk(data, projectId)
    && ReferencesOk(data)
    && InProject(RowsOf(data, RunsFile), projectId) && InProject(RowsOf(data, ProposalsFile), projectId)
  }

  /** What `_require_refs` accepts. */
  ghost predicate RefsOk(data: Bundle, projectId: Id) {
    ReferencesHold(data, projectId) && !HasCycle(Links(RowsOf(data, MemoriesFile)))
  }

  predicate Refers(row: Row, field: Field, targets: set<Id>) {
    Get(row, field).Some? && Get(row, field).value in targets
  }

  predicate MayRefer(row: Row, field: Field, targets: set<Id>) {
    Get(row, field).Some? ==> Get(row, field).value in targets
  }

  /** A bundle on its own: one Project, every reference answered within the bundle, file by file. */
  predicate Closed(data: Bundle, projectId: Id) {
    var memories, sources, documents := Ids(RowsOf(data, MemoriesFile)), Ids(RowsOf(data, SourcesFile)), Ids(RowsOf(data, DocumentsFile));
    var chunks, runs := Ids(RowsOf(data, ChunksFile)), Ids(RowsOf(data, RunsFile));
    && Ids(RowsOf(data, ProjectFile)) == {projectId}
    && (forall r :: r in RowsOf(data, MemoriesFile) ==> r.project == Some(projectId) && MayRefer(r, SupersedesId, memories))
    && (forall r :: r in RowsOf(data, EmbeddingsFile) ==> Refers(r, MemoryId, memories))
    && (forall r :: r in RowsOf(data, MemorySourcesFile) ==> Refers(r, MemoryId, memories) && Refers(r, SourceId, sources))
    && (forall r :: r in RowsOf(data, DocumentsFile) ==> Refers(r, SourceId, sources))
    && (forall r :: r in RowsOf(data, ChunksFile) ==> Refers(r, DocumentId, documents))
    && (forall r :: r in RowsOf(data, RunsFile) ==> r.project == Some(projectId) && Refers(r, DocumentId, documents))
    && (forall r :: r in RowsOf(data, ProposalsFile) ==>
          r.project == Some(projectId) && Refers(r, RunId, runs) && MayRefer(r, SourceChunkId, chunks) && MayRefer(r, MemoryId, memories))
  }

  lemma ReferenceIs(data: Bundle, r: Reference)
    ensures ReferenceOk(data, r)
            <==> forall row :: row in RowsOf(data, r.source) ==>
                   if r.optional then MayRefer(row, r.field, Ids(RowsOf(data, r.target)))
                   else Refers(row, r.field, Ids(RowsOf(data, r.target)))
  {
    hide RowsOf, Ids, Get;
    if ReferenceOk(data, r) {
      forall row | row in RowsOf(data, r.source)
        ensures if r.optional then MayRefer(row, r.field, Ids(RowsOf(data, r.target))) else Refers(row, r.field, Ids(RowsOf(data, r.target)))
      {
        var k :| 0 <= k < |RowsOf(data, r.source)| && RowsOf(data, r.source)[k] == row;
      }
    } else {
      var k :| 0 <= k < |RowsOf(data, r.source)|
               && var value := Get(RowsOf(data, r.source)[k], r.field);
                  !(if value.None? then r.optional else value.value in Ids(RowsOf(data, r.target)));
      assert RowsOf(data, r.source)[k] in RowsOf(data, r.source);
    }
  }

  lemma ReferencesAre(data: Bundle)
    ensures ReferencesOk(data)
            <==> && ReferenceOk(data, REFERENCES[0]) && ReferenceOk(data, REFERENCES[1]) && ReferenceOk(data, REFERENCES[2])
                 && ReferenceOk(data, REFERENCES[3]) && ReferenceOk(data, REFERENCES[4]) && ReferenceOk(data, REFERENCES[5])
                 && ReferenceOk(data, REFERENCES[6]) && ReferenceOk(data, REFERENCES[7]) && ReferenceOk(data, REFERENCES[8])
    ensures |REFERENCES| == 9
  {
    hide ReferenceOk;
  }

  /** The table of references and the Project checks together accept exactly the closed bundles. */
  lemma HoldsIffClosed(data: Bundle, projectId: Id)
    ensures ReferencesHold(data, projectId) <==> Closed(data, projectId)
  {
    hide ReferencesOk, ReferenceOk, Refers, MayRefer, RowsOf, Ids;
    ReferencesAre(data);
    ReferenceIs(data, REFERENCES[0]);
    ReferenceIs(data, REFERENCES[1]);
    ReferenceIs(data, REFERENCES[2]);
    ReferenceIs(data, REFERENCES[3]);
    ReferenceIs(data, REFERENCES[4]);
    ReferenceIs(data, REFERENCES[5]);
    ReferenceIs(data, REFERENCES[6]);
    ReferenceIs(data, REFERENCES[7]);
    ReferenceIs(data, REFERENCES[8]);
    MemoriesAre(data, projectId);
    RowsInProject(RowsOf(data, RunsFile), projectId);
    RowsInProject(RowsOf(data, ProposalsFile), projectId);
    hide MemoriesOk, InProject;
  }

  lemma RowsInProject(rows: seq<Row>, projectId: Id)
    ensures InProject(rows, projectId) <==> forall r :: r in rows ==> r.project == Some(projectId)
  {
  }

  lemma MemoriesAre(data: Bundle, projectId: Id)
    ensures MemoriesOk(data, projectId)
            <==> forall r :: r in RowsOf(data, MemoriesFile) ==>
                   r.project == Some(projectId) && MayRefer(r, SupersedesId, Ids(RowsOf(data, MemoriesFile)))
  {
    hide RowsOf, Ids, Get;
    if MemoriesOk(data, projectId) {
      forall r | r in RowsOf(data, MemoriesFile)
        ensures r.project == Some(projectId) && MayRefer(r, SupersedesId, Ids(RowsOf(data, MemoriesFile)))
      {
        var k :| 0 <= k < |RowsOf(data, MemoriesFile)| && RowsOf(data, MemoriesFile)[k] == r;
      }
    }
  }

  /** `_require_refs`. */
  method RequireRefs(data: Bundle, projectId: Id) returns (error: Option<ImportError>)
    ensures error.None? <==> RefsOk(data, projectId)
    ensures error.None? <==> Closed(data, projectId) && !HasCycle(Links(RowsOf(data, MemoriesFile)))
    ensures error == Some(SupersessionCycle) ==> HasCycle(Links(RowsOf(data, MemoriesFile)))
  {
    HoldsIffClosed(data, projectId);
    hide Closed;
    if Ids(RowsOf(data, ProjectFile)) != {projectId} { return Some(ProjectInconsistent); }
    var memories := RowsOf(data, MemoriesFile);
    for k := 0 to |memories|
      invariant forall j :: 0 <= j < k ==>
                  memories[j].project == Some(projectId)
                  && (Get(memories[j], SupersedesId).Some? ==> Get(memories[j], SupersedesId).value in Ids(memories))
    {
      if memories[k].project != Some(projectId) { return Some(OutsideProject); }
      if Get(memories[k], SupersedesId).Some? && Get(memories[k], SupersedesId).value !in Ids(memories) {
        return Some(ReferenceOutside);
      }
    }
    for i := 0 to |REFERENCES|
      invariant forall j :: 0 <= j < i ==> ReferenceOk(data, REFERENCES[j])
    {
      var ok := CheckReference(data, REFERENCES[i]);
      if !ok { return Some(ReferenceOutside); }
    }
    if exists k :: 0 <= k < |RowsOf(data, RunsFile)| && RowsOf(data, RunsFile)[k].project != Some(projectId) {
      return Some(OutsideProject);
    }
    if exists k :: 0 <= k < |RowsOf(data, ProposalsFile)| && RowsOf(data, ProposalsFile)[k].project != Some(projectId) {
      return Some(OutsideProject);
    }
    var cycle := FindCycle(Links(memories));
    error := if cycle then Some(SupersessionCycle) else None;
  }

  method CheckReference(data: Bundle, r: Reference) returns (ok: bool)
    ensures ok <==> ReferenceOk(data, r)
  {
    var rows := RowsOf(data, r.source);
    for k := 0 to |rows|
      invariant forall j :: 0 <= j < k ==>
                  var value := Get(rows[j], r.field);
                  if value.None? then r.optional else value.value in Ids(RowsOf(data, r.target))
    {
      var value := Get(rows[k], r.field);
      if !(r.optional && value.None?) && (value.None? || value.value !in Ids(RowsOf(data, r.target))) { return false; }
    }
    ok := true;
  }

  // ----- the memory order -----

  /** Every row comes after the row it supersedes. */
  predicate PredecessorsFirst(rows: seq<Row>) {
    forall k :: 0 <= k < |rows| && Get(rows[k], SupersedesId).Some? ==>
      exists j :: 0 <= j < k && rows[j].id == Get(rows[k], SupersedesId).value
  }

  predicate ClosedRefs(rows: seq<Row>) {
    forall k :: 0 <= k < |rows| && Get(rows[k], SupersedesId).Some? ==> Get(rows[k], SupersedesId).value in Ids(rows)
  }

  lemma {:induction false} LinksOf(rows: seq<Row>)
    requires DistinctIds(rows)
    ensures forall x :: x in Links(rows) <==> exists k :: 0 <= k < |rows| && rows[k].id == x && Get(rows[k], SupersedesId).Some?
    ensures forall k :: 0 <= k < |rows| && Get(rows[k], SupersedesId).Some? ==>
              rows[k].id in Links(rows) && Links(rows)[rows[k].id] == Get(rows[k], SupersedesId).value
  {
    if rows != [] {
      var n := |rows| - 1;
      var front := rows[..n];
      LinksOf(front);
      forall k | 0 <= k < |rows| && Get(rows[k], SupersedesId).Some?
        ensures rows[k].id in Links(rows) && Links(rows)[rows[k].id] == Get(rows[k], SupersedesId).value
      {
        if k < n { assert front[k] == rows[k]; }
      }
      forall x | x in Links(rows) ensures exists k :: 0 <= k < |rows| && rows[k].id == x && Get(rows[k], SupersedesId).Some? {
        if x in Links(front) {
          var k :| 0 <= k < |front| && front[k].id == x && Get(front[k], SupersedesId).Some?;
          assert rows[k] == front[k];
        }
      }
    }
  }

  function Least(s: set<Id>): (m: Id)
    requires s != {}
    ensures m in s && forall x :: x in s ==> m <= x
  {
    LeastExists(s);
    var m :| IsLeast(s, m);
    m
  }

  predicate IsLeast(s: set<Id>, m: Id) {
    m in s && forall x :: x in s ==> m <= x
  }

  /** Ids in ascending order, as `sorted` puts them. */
  function SortedIds(s: set<Id>): seq<Id>
    decreases |s|
  {
    if s == {} then [] else [Least(s)] + SortedIds(s - {Least(s)})
  }

  lemma {:induction false} LeastExists(s: set<Id>)
    requires s != {}
    ensures exists m :: IsLeast(s, m)
    decreases |s|
  {
    var x :| x in s;
    var rest := s - {x};
    if rest == {} {
      assert s == {x};
      assert IsLeast(s, x);
    } else {
      LeastExists(rest);
      var m :| IsLeast(rest, m);
      LeastOfTwo(s, x, m);
    }
  }

  lemma LeastOfTwo(s: set<Id>, x: Id, m: Id)
    requires x in s && IsLeast(s - {x}, m)
    ensures exists b :: IsLeast(s, b)
  {
    var best := if m <= x then m else x;
    forall y | y in s ensures best <= y {
      assert y == x || y in s - {x};
    }
    assert IsLeast(s, best);
  }

  lemma {:induction false} SortedIdsAscend(s: set<Id>)
    ensures forall x :: x in SortedIds(s) <==> x in s
    ensures forall i, j :: 0 <= i < j < |SortedIds(s)| ==> SortedIds(s)[i] < SortedIds(s)[j]
    decreases |s|
  {
    if s != {} {
      var m := Least(s);
      var rest := SortedIds(s - {m});
      SortedIdsAscend(s - {m});
      forall i, j | 0 <= i < j < |SortedIds(s)| ensures SortedIds(s)[i] < SortedIds(s)[j] {
        assert SortedIds(s)[j] == rest[j - 1] && rest[j - 1] in rest;
      }
    }
  }

  /** The rows of a round: those whose predecessor is already inserted. */
  function Ready(remaining: map<Id, Row>, inserted: set<Id>): set<Id> {
    set id | id in remaining && var sup := Get(remaining[id], SupersedesId); sup.None? || sup.value in inserted
  }

  /** `remaining = {row["id"]: row for row in rows}`. */
  function ById(rows: seq<Row>): map<Id, Row> {
    if rows == [] then map[] else ById(rows[..|rows| - 1])[rows[|rows| - 1].id := rows[|rows| - 1]]
  }

  lemma {:induction false} ByIdOf(rows: seq<Row>)
    requires DistinctIds(rows)
    ensures ById(rows).Keys == Ids(rows)
    ensures forall k :: 0 <= k < |rows| ==> rows[k].id in ById(rows) && ById(rows)[rows[k].id] == rows[k]
    ensures forall id :: id in ById(rows) ==> ById(rows)[id] in rows && ById(rows)[id].id == id
  {
    if rows != [] {
      hide Ids;
      var n := |rows| - 1;
      var front := rows[..n];
      assert ById(rows) == ById(front)[rows[n].id := rows[n]];
      hide ById;
      ByIdOf(front);
      IdsOfFront(rows, n);
      OneRowMore(rows, ById(front), ById(rows));
    }
  }

  lemma {:induction false} OneRowMore(rows: seq<Row>, before: map<Id, Row>, after: map<Id, Row>)
    requires rows != [] && DistinctIds(rows)
    requires var n := |rows| - 1;
             && after == before[rows[n].id := rows[n]]
             && (forall k :: 0 <= k < n ==> rows[..n][k].id in before && before[rows[..n][k].id] == rows[..n][k])
             && (forall id :: id in before ==> before[id] in rows[..n] && before[id].id == id)
    ensures forall k :: 0 <= k < |rows| ==> rows[k].id in after && after[rows[k].id] == rows[k]
    ensures forall id :: id in after ==> after[id] in rows && after[id].id == id
  {
    var n := |rows| - 1;
    forall k | 0 <= k < |rows| ensures rows[k].id in after && after[rows[k].id] == rows[k] {
      if k < n { assert rows[..n][k] == rows[k]; }
    }
    forall id | id in after ensures after[id] in rows && after[id].id == id {
      if id != rows[n].id { assert before[id] in rows[..n]; }
    }
  }

  lemma IdsOfFront(rows: seq<Row>, n: nat)
    requires n < |rows|
    ensures Ids(rows[..n + 1]) == Ids(rows[..n]) + {rows[n].id}
    ensures n == |rows| - 1 ==> Ids(rows) == Ids(rows[..n]) + {rows[n].id}
  {
    var before, after := rows[..n], rows[..n + 1];
    forall id ensures id in Ids(after) <==> id in Ids(before) + {rows[n].id} {
      if id in Ids(before) {
        var k :| 0 <= k < |before| && before[k].id == id;
        assert after[k].id == id;
      }
      if id in Ids(after) {
        var k :| 0 <= k < |after| && after[k].id == id;
        assert k < n ==> before[k].id == id;
      }
      assert after[n].id == rows[n].id;
    }
    assert n == |rows| - 1 ==> after == rows;
  }

  /** What the rounds so far have done. */
  ghost predicate Progress(rows: seq<Row>, ordered: seq<Row>, remaining: map<Id, Row>, inserted: set<Id>) {
    && (forall x :: x in inserted <==> exists k :: 0 <= k < |ordered| && ordered[k].id == x)
    && (forall k :: 0 <= k < |ordered| ==> ordered[k] in rows)
    && DistinctIds(ordered) && PredecessorsFirst(ordered)
    && inserted !! remaining.Keys && inserted + remaining.Keys == Ids(rows)
    && (forall id :: id in remaining ==> remaining[id] in rows && remaining[id].id == id)
  }

  lemma AppendRow(rows: seq<Row>, ordered: seq<Row>, remaining: map<Id, Row>, inserted: set<Id>, row: Row)
    requires Progress(rows, ordered, remaining, inserted)
    requires row.id in remaining && remaining[row.id] == row
    requires Get(row, SupersedesId).Some? ==> Get(row, SupersedesId).value in inserted
    ensures Progress(rows, ordered + [row], remaining - {row.id}, inserted + {row.id})
  {
    var after := ordered + [row];
    assert after[|ordered|] == row;
    forall k | 0 <= k < |after| && Get(after[k], SupersedesId).Some?
      ensures exists j :: 0 <= j < k && after[j].id == Get(after[k], SupersedesId).value
    {
      if k < |ordered| {
        var j :| 0 <= j < k && ordered[j].id == Get(ordered[k], SupersedesId).value;
        assert after[j] == ordered[j];
      } else {
        var j :| 0 <= j < |ordered| && ordered[j].id == Get(row, SupersedesId).value;
        assert after[j] == ordered[j];
      }
    }
    forall x ensures x in inserted + {row.id} <==> exists k :: 0 <= k < |after| && after[k].id == x {
      if x in inserted {
        var k :| 0 <= k < |ordered| && ordered[k].id == x;
        assert after[k].id == x;
      }
      if k :| 0 <= k < |after| && after[k].id == x {
        assert k < |ordered| ==> ordered[k].id == x;
      }
    }
  }

  /** A set of ids that only supersede one another; none of them can ever be inserted first. */
  predicate Stuck(links: map<Id, Id>, s: set<Id>) {
    s != {} && forall x :: x in s ==> x in links && links[x] in s
  }

  /** Following links inside such a set must come round. */
  lemma {:induction false} StuckHasCycle(links: map<Id, Id>, s: set<Id>, path: seq<Id>, current: Id)
    requires Stuck(links, s) && current in s && Path(links, path, current)
    requires forall i :: 0 <= i < |path| ==> path[i] in s
    requires forall i, j :: 0 <= i < j < |path| ==> path[i] != path[j]
    ensures HasCycle(links)
    decreases |s| - |path|
  {
    PathFits(s, path);
    if current in path {
      var j :| 0 <= j < |path| && path[j] == current;
      assert Cycle(links, path[j..]);
    } else {
      PathFits(s, path + [current]);
      StuckHasCycle(links, s, path + [current], links[current]);
    }
  }

  lemma {:induction false} PathFits(s: set<Id>, path: seq<Id>)
    requires forall i :: 0 <= i < |path| ==> path[i] in s
    requires forall i, j :: 0 <= i < j < |path| ==> path[i] != path[j]
    ensures |path| <= |s|
  {
    if path != [] {
      var n := |path| - 1;
      PathFits(s - {path[n]}, path[..n]);
    }
  }

  lemma NothingReadyMeansCycle(rows: seq<Row>, ordered: seq<Row>, remaining: map<Id, Row>, inserted: set<Id>)
    requires DistinctIds(rows) && ClosedRefs(rows) && Progress(rows, ordered, remaining, inserted)
    requires remaining != map[] && Ready(remaining, inserted) == {}
    ensures HasCycle(Links(rows))
  {
    hide Progress, Ready, HasCycle, Links, ClosedRefs, DistinctIds, Stuck;
    var s, links := remaining.Keys, Links(rows);
    forall x | x in s ensures x in links && links[x] in s {
      WaitingLink(rows, ordered, remaining, inserted, x);
    }
    assert s != {};
    var x :| x in s;
    StuckStart(links, s, x);
  }

  lemma StuckStart(links: map<Id, Id>, s: set<Id>, x: Id)
    requires x in s && forall y :: y in s ==> y in links && links[y] in s
    ensures HasCycle(links)
  {
    StuckHasCycle(links, s, [], x);
  }

  /** A row that is not ready waits for another remaining row. */
  lemma WaitingLink(rows: seq<Row>, ordered: seq<Row>, remaining: map<Id, Row>, inserted: set<Id>, x: Id)
    requires DistinctIds(rows) && ClosedRefs(rows) && Progress(rows, ordered, remaining, inserted)
    requires x in remaining && x !in Ready(remaining, inserted)
    ensures x in Links(rows) && Links(rows)[x] in remaining
  {
    LinksOf(rows);
    hide Links;
    var k :| 0 <= k < |rows| && rows[k] == remaining[x];
    assert Get(rows[k], SupersedesId).Some? && Links(rows)[x] == Get(rows[k], SupersedesId).value;
    assert Links(rows)[x] in inserted + remaining.Keys;
  }

  /** An order with every predecessor first leaves no room for a cycle. */
  lemma OrderedHasNoCycle(rows: seq<Row>, ordered: seq<Row>)
    requires DistinctIds(rows) && DistinctIds(ordered) && PredecessorsFirst(ordered)
    requires Ids(ordered) == Ids(rows) && forall k :: 0 <= k < |ordered| ==> ordered[k] in rows
    ensures !HasCycle(Links(rows))
  {
    LinksOf(rows);
    if HasCycle(Links(rows)) {
      var c :| Cycle(Links(rows), c);
      assert c[0] in Ids(ordered);
      var k :| 0 <= k < |ordered| && ordered[k].id == c[0];
      NoDescent(rows, ordered, c, 0, k);
    }
  }

  /** Along a cycle the positions would fall for ever. */
  lemma {:induction false} NoDescent(rows: seq<Row>, ordered: seq<Row>, c: seq<Id>, i: nat, k: nat)
    requires DistinctIds(rows) && DistinctIds(ordered) && PredecessorsFirst(ordered)
    requires forall k :: 0 <= k < |ordered| ==> ordered[k] in rows
    requires Cycle(Links(rows), c) && i < |c| && k < |ordered| && ordered[k].id == c[i]
    ensures false
    decreases k
  {
    LinksOf(rows);
    assert c[i] in Links(rows);
    var r :| 0 <= r < |rows| && rows[r].id == c[i] && Get(rows[r], SupersedesId).Some?;
    var q :| 0 <= q < |rows| && rows[q] == ordered[k];
    assert q == r;
    var j :| 0 <= j < k && ordered[j].id == Get(ordered[k], SupersedesId).value;
    NoDescent(rows, ordered, c, if i == |c| - 1 then 0 else i + 1, j);
  }

  lemma {:induction false} SameRows(rows: seq<Row>, ordered: seq<Row>)
    requires DistinctIds(rows) && DistinctIds(ordered) && Ids(ordered) == Ids(rows)
    requires forall k :: 0 <= k < |ordered| ==> ordered[k] in rows
    ensures multiset(ordered) == multiset(rows)
  {
    forall row ensures multiset(ordered)[row] == multiset(rows)[row] {
      AtMostOnce(rows, row);
      AtMostOnce(ordered, row);
      if row in rows {
        var k :| 0 <= k < |rows| && rows[k] == row;
        assert row.id in Ids(ordered);
        var j :| 0 <= j < |ordered| && ordered[j].id == row.id;
        var q :| 0 <= q < |rows| && rows[q] == ordered[j];
        assert q == k;
      }
    }
  }

  lemma {:induction false} AtMostOnce(rows: seq<Row>, row: Row)
    requires DistinctIds(rows)
    ensures multiset(rows)[row] == if row in rows then 1 else 0
  {
    if rows != [] {
      var n := |rows| - 1;
      assert rows == rows[..n] + [rows[n]];
      AtMostOnce(rows[..n], row);
    }
  }

  /**
   `_memory_order`: on rows with distinct ids and closed references it raises exactly when the
   supersession links have a cycle; otherwise it gives a permutation with predecessors first.
   */
  method MemoryOrder(rows: seq<Row>) returns (r: Result<seq<Row>, ImportError>)
    requires DistinctIds(rows)
    ensures r.Ok? ==> multiset(r.value) == multiset(rows) && DistinctIds(r.value) && PredecessorsFirst(r.value)
    ensures r.Ok? ==> !HasCycle(Links(rows))
    ensures r.Err? ==> r.error == SupersessionCycle
    ensures ClosedRefs(rows) ==> (r.Err? <==> HasCycle(Links(rows)))
  {
    ByIdOf(rows);
    var remaining := ById(rows);
    var ordered: seq<Row> := [];
    StartOk(rows, remaining);
    hide HasCycle, Links, ClosedRefs, PredecessorsFirst, Progress, Ready, DistinctIds, ById;
    var inserted: set<Id> := {};
    while remaining != map[]
      invariant Progress(rows, ordered, remaining, inserted)
      decreases |remaining|
    {
      var stuck;
      stuck, ordered, remaining, inserted := OneRound(rows, ordered, remaining, inserted);
      if stuck {
        if ClosedRefs(rows) { NothingReadyMeansCycle(rows, ordered, remaining, inserted); }
        return Err(SupersessionCycle);
      }
    }
    AllInserted(rows, ordered, inserted);
    r := Ok(ordered);
  }

  lemma StartOk(rows: seq<Row>, remaining: map<Id, Row>)
    requires DistinctIds(rows) && remaining.Keys == Ids(rows)
    requires forall id :: id in remaining ==> remaining[id] in rows && remaining[id].id == id
    ensures Progress(rows, [], remaining, {})
  {
  }

  lemma AllInserted(rows: seq<Row>, ordered: seq<Row>, inserted: set<Id>)
    requires DistinctIds(rows) && Progress(rows, ordered, map[], inserted)
    ensures multiset(ordered) == multiset(rows) && DistinctIds(ordered) && PredecessorsFirst(ordered)
    ensures !HasCycle(Links(rows))
  {
    assert Ids(ordered) == inserted;
    SameRows(rows, ordered);
    OrderedHasNoCycle(rows, ordered);
  }

  /** One round of `_memory_order`: every ready row, in ascending order. */
  method OneRound(rows: seq<Row>, before: seq<Row>, left: map<Id, Row>, done: set<Id>)
    returns (stuck: bool, ordered: seq<Row>, remaining: map<Id, Row>, inserted: set<Id>)
    requires Progress(rows, before, left, done)
    ensures Progress(rows, ordered, remaining, inserted)
    ensures stuck <==> Ready(left, done) == {}
    ensures if stuck then ordered == before && remaining == left && inserted == done else |remaining| < |left|
  {
    var ready := SortedIds(Ready(left, done));
    SortedIdsAscend(Ready(left, done));
    assert forall k :: 0 <= k < |ready| ==> ready[k] in ready;
    ordered, remaining, inserted := before, left, done;
    hide Progress, SortedIds;
    for i := 0 to |ready|
      invariant Progress(rows, ordered, remaining, inserted)
      invariant done <= inserted && |remaining| == |left| - i
      invariant i == 0 ==> ordered == before && remaining == left && inserted == done
      invariant forall k :: i <= k < |ready| ==> ready[k] in remaining && remaining[ready[k]] == left[ready[k]]
    {
      var row := remaining[ready[i]];
      RemainingIds(rows, ordered, remaining, inserted);
      AppendRow(rows, ordered, remaining, inserted, row);
      ordered := ordered + [row];
      inserted := inserted + {row.id};
      remaining := remaining - {row.id};
    }
    stuck := ready == [];
  }

  lemma RemainingIds(rows: seq<Row>, ordered: seq<Row>, remaining: map<Id, Row>, inserted: set<Id>)
    requires Progress(rows, ordered, remaining, inserted)
    ensures forall id :: id in remaining ==> remaining[id].id == id
  {
  }

  // ----- foreign keys at insertion -----

  /** Ids already in the database when row `k` of the `i`-th file is inserted. */
  predicate InsertedBefore(data: Bundle, i: nat, k: nat, target: File, id: Id)
    requires i < |INSERT_ORDER|
  {
    || (exists j :: 0 <= j < i && INSERT_ORDER[j] == target && id in Ids(RowsOf(data, target)))
    || (INSERT_ORDER[i] == target && exists j :: 0 <= j < k && j < |RowsOf(data, target)| && RowsOf(data, target)[j].id == id)
  }

  /** Every foreign key of a row: the listed references, the supersession and the owning Project. */
  predicate ForeignKeysHold(data: Bundle, i: nat, k: nat)
    requires i < |INSERT_ORDER| && k < |RowsOf(data, INSERT_ORDER[i])|
  {
    var row := RowsOf(data, INSERT_ORDER[i])[k];
    && (forall n :: 0 <= n < |REFERENCES| && REFERENCES[n].source == INSERT_ORDER[i] ==>
          var value := Get(row, REFERENCES[n].field);
          if value.None? then REFERENCES[n].optional else InsertedBefore(data, i, k, REFERENCES[n].target, value.value))
    && (INSERT_ORDER[i].MemoriesFile? && Get(row, SupersedesId).Some? ==>
          InsertedBefore(data, i, k, MemoriesFile, Get(row, SupersedesId).value))
    && (INSERT_ORDER[i] in {MemoriesFile, RunsFile, ProposalsFile} ==>
          row.project.Some? && InsertedBefore(data, i, k, ProjectFile, row.project.value))
  }

  /** The order names every file once, each file after the files its references point to. */
  lemma InsertOrderIsTopological(n: nat, i: nat)
    requires n < |REFERENCES| && i < |INSERT_ORDER| && REFERENCES[n].source == INSERT_ORDER[i]
    ensures exists j :: 0 <= j < i && INSERT_ORDER[j] == REFERENCES[n].target
  {
    var t := REFERENCES[n].target;
    if t == SourcesFile { assert INSERT_ORDER[1] == t; }
    if t == DocumentsFile { assert INSERT_ORDER[2] == t; }
    if t == ChunksFile { assert INSERT_ORDER[3] == t; }
    if t == MemoriesFile { assert INSERT_ORDER[4] == t; }
    if t == RunsFile { assert INSERT_ORDER[7] == t; }
  }

  lemma InsertionMeetsForeignKeys(data: Bundle, projectId: Id, i: nat, k: nat)
    requires ReferencesHold(data, projectId) && PredecessorsFirst(RowsOf(data, MemoriesFile))
    requires i < |INSERT_ORDER| && k < |RowsOf(data, INSERT_ORDER[i])|
    ensures ForeignKeysHold(data, i, k)
  {
    var row := RowsOf(data, INSERT_ORDER[i])[k];
    forall n | 0 <= n < |REFERENCES| && REFERENCES[n].source == INSERT_ORDER[i]
      ensures
        var value := Get(row, REFERENCES[n].field);
        if value.None? then REFERENCES[n].optional else InsertedBefore(data, i, k, REFERENCES[n].target, value.value)
    {
      InsertOrderIsTopological(n, i);
      assert ReferenceOk(data, REFERENCES[n]);
    }
    assert INSERT_ORDER[0] == ProjectFile;
  }

  /** `import_project`: accepted bundles insert, in this order, without a dangling reference. */
  method ImportProject(data: Bundle, projectId: Id) returns (r: Result<Bundle, ImportError>)
    ensures r.Ok? <==> RefsOk(data, projectId) && forall f :: f in data ==> DistinctIds(data[f])
    ensures r.Ok? ==>
              && r.value == data[MemoriesFile := RowsOf(r.value, MemoriesFile)]
              && multiset(RowsOf(r.value, MemoriesFile)) == multiset(RowsOf(data, MemoriesFile))
              && forall i, k | 0 <= i < |INSERT_ORDER| && 0 <= k < |RowsOf(r.value, INSERT_ORDER[i])| :: ForeignKeysHold(r.value, i, k)
  {
    var error := RequireRefs(data, projectId);
    if error.Some? { return Err(error.value); }
    if exists f :: f in data && !DistinctIds(data[f]) { return Err(DuplicateIds); }
    var memories := RowsOf(data, MemoriesFile);
    assert ClosedRefs(memories);
    var ordered := MemoryOrder(memories);
    var sorted := data[MemoriesFile := ordered.value];
    ReorderKeepsRefs(data, sorted, projectId);
    forall i: nat, k: nat | i < |INSERT_ORDER| && k < |RowsOf(sorted, INSERT_ORDER[i])| ensures ForeignKeysHold(sorted, i, k) {
      InsertionMeetsForeignKeys(sorted, projectId, i, k);
    }
    r := Ok(sorted);
  }

  /** The reference checks look at rows and ids, not at the order of the Memories. */
  lemma ReorderKeepsRefs(data: Bundle, sorted: Bundle, projectId: Id)
    requires RefsOk(data, projectId) && MemoriesFile in sorted
    requires sorted == data[MemoriesFile := sorted[MemoriesFile]]
    requires multiset(sorted[MemoriesFile]) == multiset(RowsOf(data, MemoriesFile))
    ensures ReferencesHold(sorted, projectId)
  {
    var before, after := RowsOf(data, MemoriesFile), sorted[MemoriesFile];
    SameMembers(before, after);
    forall i | 0 <= i < |REFERENCES| ensures ReferenceOk(sorted, REFERENCES[i]) {
      assert ReferenceOk(data, REFERENCES[i]);
      ReferenceKept(data, sorted, REFERENCES[i]);
    }
    forall k | 0 <= k < |after|
      ensures after[k].project == Some(projectId)
      ensures Get(after[k], SupersedesId).Some? ==> Get(after[k], SupersedesId).value in Ids(after)
    {
      assert after[k] in before;
    }
  }

  lemma ReferenceKept(data: Bundle, sorted: Bundle, r: Reference)
    requires ReferenceOk(data, r) && r.source != MemoriesFile && MemoriesFile in sorted
    requires sorted == data[MemoriesFile := sorted[MemoriesFile]]
    requires Ids(sorted[MemoriesFile]) == Ids(RowsOf(data, MemoriesFile))
    ensures ReferenceOk(sorted, r)
  {
    assert RowsOf(sorted, r.source) == RowsOf(data, r.source);
    assert Ids(RowsOf(sorted, r.target)) == Ids(RowsOf(data, r.target));
  }

  lemma SameMembers(before: seq<Row>, after: seq<Row>)
    requires multiset(before) == multiset(after)
    ensures forall row :: row in before <==> row in after
    ensures Ids(before) == Ids(after)
  {
    forall row ensures row in before <==> row in after {
      assert row in multiset(before) <==> row in multiset(after);
    }
    forall id ensures id in Ids(before) <==> id in Ids(after) {
      if id in Ids(before) {
        var k :| 0 <= k < |before| && before[k].id == id;
        assert before[k] in after;
      }
      if id in Ids(after) {
        var k :| 0 <= k < |after| && after[k].id == id;
        assert after[k] in before;
      }
    }
  }
}
