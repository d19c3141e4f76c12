/** The rows of test_results, the statements that change them, and the store built on them. */
module Persistent {
  import opened Models
  import opened Listing

  /** A JSONB column: SQL NULL, the JSON value null, or an object. */
  datatype Json = SqlNull | JsonNull | JsonObject(fields: Fields)

  datatype Row = Row(
    project: string, status: Status, details: Json, priority: Option<UInt8>,
    enqueuedAt: Option<Time>, logs: Option<string>, messages: Option<seq<string>>,
    duration: Option<real>, startedAt: Option<Time>, endedAt: Option<Time>,
    passrate: Option<string>, progress: Option<string>, screenshots: Option<seq<string>>,
    videos: Option<seq<string>>, metadata: Json)

  type Rows = map<JobId, Row>

  // ---- The SQL statements, each an atomic function on the rows ----

  function Coalesce<T>(a: Option<T>, b: Option<T>): Option<T> {
    if a.Some? then a else b
  }

  function CoalesceJson(a: Json, b: Json): Json {
    if a == SqlNull then b else a
  }

  function SqlUpsert(rows: Rows, id: JobId, excluded: Row): Rows {
    if id !in rows then rows[id := excluded]
    else rows[id := excluded.(
           details := CoalesceJson(excluded.details, rows[id].details),
           priority := Coalesce(excluded.priority, rows[id].priority),
           enqueuedAt := Coalesce(excluded.enqueuedAt, rows[id].enqueuedAt))]
  }

  function SqlUpdateStatus(rows: Rows, id: JobId, status: Status, startedAt: Option<Time>, details: Json): Rows {
    if id !in rows then rows
    else rows[id := rows[id].(
           status := status,
           startedAt := Coalesce(startedAt, rows[id].startedAt),
           details := CoalesceJson(details, rows[id].details))]
  }

  function SqlUpdateProgress(rows: Rows, id: JobId, u: ProgressUpdate): Rows {
    if id !in rows then rows
    else rows[id := rows[id].(
           status := u.status.GetOr(rows[id].status),
           logs := if u.logsChunk.Some? then Some(rows[id].logs.GetOr("") + u.logsChunk.value)
                   else rows[id].logs,
           messages := if u.messagesChunk.Some? then Some(rows[id].messages.GetOr([]) + u.messagesChunk.value)
                       else rows[id].messages,
           passrate := Coalesce(u.passrate, rows[id].passrate),
           progress := Coalesce(u.progress, rows[id].progress))]
  }

  // ---- What each store operation does to the rows ----

  function Encode(details: Option<Fields>): Json {
    if details.Some? then JsonObject(details.value) else JsonNull
  }

  function Decode(j: Json): Option<Fields> {
    if j.JsonObject? then Some(j.fields) else None
  }

  function PendingRow(project: string, details: Option<Fields>, priority: UInt8, at: Time): Row {
    Row(project, Pending, Encode(details), Some(priority), Some(at),
        None, None, None, None, None, None, None, None, None, JsonNull)
  }

  function InsertPending(rows: Rows, id: JobId, project: string, details: Option<Fields>,
                         priority: UInt8, at: Time): Rows
  {
    SqlUpsert(rows, id, PendingRow(project, details, priority, at))
  }

  function WriteStatus(rows: Rows, id: JobId, status: Status, details: Option<Fields>, now: Time): Rows {
    SqlUpdateStatus(rows, id, status, if status == Running then Some(now) else None,
                    if details.Some? then JsonObject(details.value) else SqlNull)
  }

  /** A nil and an empty chunk of messages are both sent as NULL. */
  function ChunkArg(chunk: Option<seq<string>>): Option<seq<string>> {
    if chunk.Some? && |chunk.value| > 0 then chunk else None
  }

  function WriteProgress(rows: Rows, id: JobId, u: ProgressUpdate): Rows {
    SqlUpdateProgress(rows, id, u.(messagesChunk := ChunkArg(u.messagesChunk)))
  }

  function NonEmpty(s: string): Option<string> {
    if s == "" then None else Some(s)
  }

  function NonZero(t: Time): Option<Time> {
    if t == 0 then None else Some(t)
  }

  const UNKNOWN_PROJECT := "unknown_project"

  function ResultRow(r: TestResult): Row {
    Row(if r.project == "" then UNKNOWN_PROJECT else r.project, r.status, SqlNull, None, None,
        NonEmpty(r.logs), r.messages, if r.duration > 0.0 then Some(r.duration) else None,
        NonZero(r.startedAt), NonZero(r.endedAt), NonEmpty(r.passrate), NonEmpty(r.progress),
        r.screenshots, r.videos,
        if r.metadata.Some? && r.metadata.value != map[] then JsonObject(r.metadata.value) else JsonNull)
  }

  function Save(rows: Rows, r: TestResult): Rows {
    SqlUpsert(rows, r.jobId, ResultRow(r))
  }

  function Read(id: JobId, row: Row): TestResult {
    TestResult(id, row.status, row.project, Decode(row.details), row.priority.GetOr(0),
               row.enqueuedAt.GetOr(0), row.logs.GetOr(""), row.messages, row.duration.GetOr(0.0),
               row.startedAt.GetOr(0), row.endedAt.GetOr(0), row.screenshots, row.videos,
               row.passrate.GetOr(""), row.progress.GetOr(""), Decode(row.metadata))
  }

  // ---- The overview aggregate ----

  function WithStatus(rows: Rows, project: string, status: Status): set<JobId> {
    set id | id in rows && rows[id].project == project && rows[id].status == status
  }

  /** The jobs among `ids` whose priority MIN() sees. */
  function Prioritised(rows: Rows, ids: set<JobId>): set<JobId> {
    set id | id in ids && id in rows && rows[id].priority.Some?
  }

  predicate IsLeast(rows: Rows, ids: set<JobId>, p: UInt8) {
    && (exists id | id in ids && id in rows :: rows[id].priority == Some(p))
    && (forall id | id in ids && id in rows && rows[id].priority.Some? :: p <= rows[id].priority.value)
  }

  lemma LeastOf(rows: Rows, ids: set<JobId>) returns (p: UInt8)
    requires Prioritised(rows, ids) == ids && |ids| > 0
    ensures IsLeast(rows, ids, p)
    decreases |ids|
  {
    var id :| id in ids;
    p := rows[id].priority.value;
    var rest := ids - {id};
    if |rest| > 0 {
      assert Prioritised(rows, rest) == rest;
      var q := LeastOf(rows, rest);
      p := if p <= q then p else q;
    }
    assert forall j | j in ids :: j == id || j in rest;
  }

  function Least(rows: Rows, ids: set<JobId>): (p: UInt8)
    requires Prioritised(rows, ids) == ids && |ids| > 0
    ensures IsLeast(rows, ids, p)
  {
    LeastExists(rows, ids);
    var p: UInt8 :| IsLeast(rows, ids, p);
    p
  }

  lemma LeastExists(rows: Rows, ids: set<JobId>)
    requires Prioritised(rows, ids) == ids && |ids| > 0
    ensures exists p: UInt8 :: IsLeast(rows, ids, p)
  {
    var p := LeastOf(rows, ids);
  }

  function Overview(rows: Rows, project: string): (o: ProjectQueueOverview)
    ensures o.project == project
    ensures o.pendingJobs == |set id | id in rows && rows[id].project == project && rows[id].status == Pending|
    ensures o.runningSuites == |set id | id in rows && rows[id].project == project && rows[id].status == Running|
    ensures match o.highestPriority
            case None => Prioritised(rows, WithStatus(rows, project, Pending)) == {}
            case Some(p) => IsLeast(rows, WithStatus(rows, project, Pending), p)
  {
    var pending := WithStatus(rows, project, Pending);
    var prioritised := Prioritised(rows, pending);
    assert Prioritised(rows, prioritised) == prioritised;
    ProjectQueueOverview(project, |pending|, |WithStatus(rows, project, Running)|,
                         if |prioritised| == 0 then None else Some(Least(rows, prioritised)))
  }

  /** The overview's best priority is that of some pending job, and no pending job has a smaller one. */
  lemma BestIsPending(rows: Rows, project: string) returns (j: JobId)
    requires Overview(rows, project).highestPriority.Some?
    ensures j in rows && rows[j].project == project && rows[j].status == Pending
    ensures rows[j].priority == Overview(rows, project).highestPriority
  {
    var p := Overview(rows, project).highestPriority.value;
    assert IsLeast(rows, WithStatus(rows, project, Pending), p);
    j :| j in WithStatus(rows, project, Pending) && j in rows && rows[j].priority == Some(p);
  }

  lemma BestIsLeast(rows: Rows, project: string, j: JobId)
    requires j in rows && rows[j].project == project && rows[j].status == Pending && rows[j].priority.Some?
    ensures var o := Overview(rows, project);
            o.pendingJobs != 0 && o.highestPriority.Some? && o.highestPriority.value <= rows[j].priority.value
  {
    assert j in WithStatus(rows, project, Pending);
    assert j in Prioritised(rows, WithStatus(rows, project, Pending));
  }

  /** The overviews of a list of projects, in its order. */
  function Overviews(rows: Rows, names: seq<string>): (os: seq<ProjectQueueOverview>)
    ensures |os| == |names| && forall i | 0 <= i < |os| :: os[i] == Overview(rows, names[i])
  {
    seq(|names|, i requires 0 <= i < |names| => Overview(rows, names[i]))
  }

  // ---- The store ----

  datatype StoreError = InvalidArgument | QueryFailed | NotFound

  class Store {
    var rows: Rows
    var projects: set<string>
    /** The names of the stored artifacts. */
    var objects: set<string>

    constructor ()
      ensures rows == map[] && projects == {} && objects == {}
    {
      rows, projects, objects := map[], {}, {};
    }

    method CreatePendingJob(id: JobId, project: string, details: Option<Fields>, priority: UInt8,
                            enqueuedAt: Time, now: Time, outcome: Outcome)
      returns (err: Option<StoreError>)
      modifies this`rows
      ensures id == "" || project == "" ==> err == Some(InvalidArgument) && rows == old(rows)
      ensures id != "" && project != "" ==>
                && err == (if outcome == Succeeds then None else Some(QueryFailed))
                && rows == if outcome == FailsBefore then old(rows)
                           else InsertPending(old(rows), id, project, details, priority,
                                              if enqueuedAt == 0 then now else enqueuedAt)
    {
      if id == "" || project == "" {
        return Some(InvalidArgument);
      }
      var detailsJson := Encode(details);
      var enqueuedAtToStore := enqueuedAt;
      if enqueuedAtToStore == 0 {
        enqueuedAtToStore := now;
      }
      if outcome != FailsBefore {
        rows := SqlUpsert(rows, id, Row(project, Pending, detailsJson, Some(priority),
                                        Some(enqueuedAtToStore), None, None, None, None, None,
                                        None, None, None, None, JsonNull));
      }
      err := if outcome == Succeeds then None else Some(QueryFailed);
    }

    method SaveResult(r: TestResult, outcome: Outcome) returns (err: Option<StoreError>)
      modifies this`rows
      ensures r.jobId == "" ==> err == Some(InvalidArgument) && rows == old(rows)
      ensures r.jobId != "" ==>
                && err == (if outcome == Succeeds then None else Some(QueryFailed))
                && rows == if outcome == FailsBefore then old(rows) else Save(old(rows), r)
    {
      var metadata := JsonNull;
      if r.metadata.Some? && |r.metadata.value| > 0 {
        metadata := JsonObject(r.metadata.value);
      }
      if r.jobId == "" {
        return Some(InvalidArgument);
      }
      var projectName := r.project;
      if projectName == "" {
        projectName := UNKNOWN_PROJECT;
      }
      if outcome != FailsBefore {
        assert metadata == ResultRow(r).metadata;
        rows := SqlUpsert(rows, r.jobId,
                          Row(projectName, r.status, SqlNull, None, None, NonEmpty(r.logs), r.messages,
                              if r.duration > 0.0 then Some(r.duration) else None,
                              NonZero(r.startedAt), NonZero(r.endedAt), NonEmpty(r.passrate),
                              NonEmpty(r.progress), r.screenshots, r.videos, metadata));
      }
      err := if outcome == Succeeds then None else Some(QueryFailed);
    }

    method GetResult(id: JobId, fails: bool) returns (result: Option<TestResult>, err: Option<StoreError>)
      ensures err == if fails then Some(QueryFailed) else None
      ensures result == if !fails && id in rows then Some(Read(id, rows[id])) else None
    {
      if fails {
        return None, Some(QueryFailed);
      }
      if id !in rows {
        return None, None;
      }
      var row := rows[id];
      var r := TestResult(id, row.status, row.project, None, 0, row.enqueuedAt.GetOr(0), "", row.messages,
                          0.0, row.startedAt.GetOr(0), row.endedAt.GetOr(0), row.screenshots, row.videos,
                          "", "", None);
      if row.logs.Some? {
        r := r.(logs := row.logs.value);
      }
      if row.duration.Some? {
        r := r.(duration := row.duration.value);
      }
      if row.priority.Some? {
        r := r.(priority := row.priority.value);
      }
      if row.details != SqlNull && row.details != JsonNull {
        r := r.(details := Some(row.details.fields));
      }
      if row.metadata != SqlNull && row.metadata != JsonNull {
        r := r.(metadata := Some(row.metadata.fields));
      }
      if row.passrate.Some? {
        r := r.(passrate := row.passrate.value);
      }
      if row.progress.Some? {
        r := r.(progress := row.progress.value);
      }
      return Some(r), None;
    }

    /** No row for the job is not an error here. */
    method UpdateJobStatus(id: JobId, status: Status, details: Option<Fields>, now: Time, outcome: Outcome)
      returns (err: Option<StoreError>)
      modifies this`rows
      ensures id == "" ==> err == Some(InvalidArgument) && rows == old(rows)
      ensures id != "" ==>
                && err == (if outcome == Succeeds then None else Some(QueryFailed))
                && rows == if outcome == FailsBefore then old(rows)
                           else WriteStatus(old(rows), id, status, details, now)
    {
      if id == "" {
        return Some(InvalidArgument);
      }
      var startedAt := None;
      if status == Running {
        startedAt := Some(now);
      }
      var detailsJson := SqlNull;
      if details.Some? {
        detailsJson := JsonObject(details.value);
      }
      if outcome != FailsBefore {
        rows := SqlUpdateStatus(rows, id, status, startedAt, detailsJson);
      }
      err := if outcome == Succeeds then None else Some(QueryFailed);
    }

    /** Unlike `UpdateJobStatus`, reports a missing row as an error. */
    method UpdateJobProgress(id: JobId, update: Option<ProgressUpdate>, outcome: Outcome)
      returns (err: Option<StoreError>)
      modifies this`rows
      ensures id == "" || update == None ==> err == Some(InvalidArgument) && rows == old(rows)
      ensures id != "" && update.Some? ==>
                && err == (if outcome != Succeeds then Some(QueryFailed)
                           else if id !in old(rows) then Some(NotFound) else None)
                && rows == if outcome == FailsBefore then old(rows)
                           else WriteProgress(old(rows), id, update.value)
    {
      if id == "" || update == None {
        return Some(InvalidArgument);
      }
      var messagesArg := None;
      if update.value.messagesChunk.Some? && |update.value.messagesChunk.value| > 0 {
        messagesArg := update.value.messagesChunk;
      }
      if outcome != FailsBefore {
        rows := SqlUpdateProgress(rows, id, update.value.(messagesChunk := messagesArg));
      }
      if outcome != Succeeds {
        return Some(QueryFailed);
      }
      err := if id !in rows then Some(NotFound) else None;
    }

    method AddProject(name: string, outcome: Outcome) returns (err: Option<StoreError>)
      modifies this`projects
      ensures err == if name == "" then Some(InvalidArgument)
                     else if outcome == Succeeds then None else Some(QueryFailed)
      ensures projects == if name == "" || outcome == FailsBefore then old(projects) else old(projects) + {name}
    {
      if name == "" {
        return Some(InvalidArgument);
      }
      if outcome != FailsBefore {
        projects := projects + {name};
      }
      err := if outcome == Succeeds then None else Some(QueryFailed);
    }

    method DeleteProject(name: string, outcome: Outcome) returns (err: Option<StoreError>)
      modifies this`projects
      ensures err == if name == "" then Some(InvalidArgument)
                     else if outcome == Succeeds then None else Some(QueryFailed)
      ensures projects == if name == "" || outcome == FailsBefore then old(projects) else old(projects) - {name}
    {
      if name == "" {
        return Some(InvalidArgument);
      }
      if outcome != FailsBefore {
        projects := projects - {name};
      }
      err := if outcome == Succeeds then None else Some(QueryFailed);
    }

    /** The ordered listing of the table; the query may fail, and so may scanning one of its rows. */
    method GetProjects(fails: bool, scanFails: set<nat>) returns (names: Option<seq<string>>)
      ensures names == None <==> fails || exists i: nat | i < |Listed(projects)| :: i in scanFails
      ensures names.Some? ==> Lists(names.value, projects)
    {
      if fails {
        return None;
      }
      var answer := Listed(projects);
      var found: seq<string> := [];
      for i := 0 to |answer|
        invariant found == answer[..i]
        invariant forall k: nat | k < i :: k !in scanFails
      {
        if i in scanFails {
          return None;
        }
        found := found + [answer[i]];
      }
      assert answer[..|answer|] == answer;
      return Some(found);
    }

    method StoreArtifact(objectName: string, fails: bool) returns (err: bool)
      modifies this`objects
      ensures err == fails
      ensures objects == if fails then old(objects) else old(objects) + {objectName}
    {
      if !fails {
        objects := objects + {objectName};
      }
      err := fails;
    }

    method GetProjectQueueOverview(project: string, fails: bool)
      returns (overview: Option<ProjectQueueOverview>)
      ensures overview == if fails then None else Some(Overview(rows, project))
    {
      if fails {
        return None;
      }
      var pending := WithStatus(rows, project, Pending);
      var prioritised := Prioritised(rows, pending);
      assert Prioritised(rows, prioritised) == prioritised;
      var o := ProjectQueueOverview(project, |pending|, |WithStatus(rows, project, Running)|, None);
      if |prioritised| > 0 {
        o := o.(highestPriority := Some(Least(rows, prioritised)));
      }
      return Some(o);
    }
  }
}
