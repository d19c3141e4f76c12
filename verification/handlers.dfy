/** The request handlers, statement by statement, against the functions of `Dispatch`. */
module Handlers {
  import opened Models
  import opened Persistent
  import opened Amqp
  import opened RabbitMQ
  import opened Dispatch
  import opened Effects
  import opened Listing
  import opened Uploads

  ghost predicate NamedRows(rows: Rows) {
    "" !in rows && forall id | id in rows :: rows[id].project != ""
  }

  lemma SaveKeepsNames(rows: Rows, r: TestResult)
    requires NamedRows(rows) && r.jobId != ""
    ensures NamedRows(Save(rows, r))
  {
    assert UNKNOWN_PROJECT[0] == 'u';
  }

  /** The query for the projects fails, or the scan of one of the rows it returns. */
  ghost predicate RefreshFails(table: set<string>, fails: bool, scanFails: set<nat>) {
    fails || exists i: nat | i < |Listed(table)| :: i in scanFails
  }

  class API {
    const queueManager: RabbitMQManager
    const resultStore: Store
    const objectNaming: Naming
    var projectsCache: seq<string>
    /** The jobs sent to runners so far. */
    ghost var handed: seq<JobId>

    /** Job ids and project names are never empty. */
    ghost predicate Valid()
      reads this, queueManager, resultStore
    {
      && queueManager.Valid()
      && "" !in queueManager.broker.msgs
      && NamedRows(resultStore.rows)
    }

    ghost function World(): World
      reads this, queueManager, resultStore
    {
      Dispatch.World(queueManager.broker, resultStore.rows, handed)
    }

    constructor (queueManager: RabbitMQManager, resultStore: Store, base: string -> string)
      requires queueManager.Valid() && queueManager.broker == EMPTY && resultStore.rows == map[]
      ensures this.queueManager == queueManager && this.resultStore == resultStore
      ensures objectNaming == ArtifactNaming(base)
      ensures Valid() && World() == START && projectsCache == []
    {
      this.queueManager, this.resultStore, objectNaming := queueManager, resultStore, ArtifactNaming(base);
      projectsCache, handed := [], [];
    }

    // ---- Handing out jobs ----

    /** A declaration that fails must be one that is made. */
    method HandleGetNextTest(project: string, e: PollEnv) returns (reply: Reply)
      requires Valid() && e.Possible()
      requires e.pull == DeclareFails ==> project !in queueManager.declaredQueues
      modifies queueManager, resultStore`rows, this`handed
      ensures Valid()
      ensures project == "" ==> reply == BadRequest && World() == old(World())
      ensures project != "" ==> (World(), reply) == GetNext(old(World()), project, e)
      ensures queueManager.settlements
              == old(queueManager.settlements)
                 + (if project != "" && e.pull == PullOk && Head(old(queueManager.broker), project).Some? then 1 else 0)
    {
      if project == "" {
        return BadRequest;
      }
      var job, ack, err := queueManager.GetNextJob(project, if e.pull == DeclareFails then OpenFails else NoFault,
                                                   e.pull == PullFails, true, Succeeds);
      if err {
        return ServerError;
      }
      if job == None || ack == null {
        return NoContent;
      }
      var id := job.value;
      assert id in old(queueManager.broker.msgs);
      var state, dbErr := resultStore.GetResult(id, e.readFails);
      if dbErr.Some? {
        var nackErr := ack.Nack(true, e.settle);
        return ServerError;
      }
      if state == None {
        var nackErr := ack.Nack(false, e.settle);
        return ServerError;
      }
      var status := state.value.status;
      if IsTerminal(status) {
        var ackErr := ack.Ack(e.settle);
        return NoContent;
      }
      if status == Running {
        var nackErr := ack.Nack(true, e.settle);
        return NoContent;
      } else if status == AbortRequested {
        var ackErr := ack.Ack(e.settle);
        return NoContent;
      }
      reply := GiveJob(id, state.value.details, ack, e);
    }

    /** The rest of HandleGetNextTest once the job may be given: claim the row, reply, settle. */
    method GiveJob(id: JobId, details: Option<Fields>, ack: DeliveryAckNacker, e: PollEnv) returns (reply: Reply)
      requires Valid() && e.Possible() && id != "" && id in resultStore.rows
      requires ack.manager == queueManager && ack.deliveryTag == id && !ack.closed
      modifies ack, queueManager`broker, queueManager`settlements, resultStore`rows, this`handed
      ensures Valid()
      ensures (World(), reply) == Give(old(World()), id, details, e)
      ensures queueManager.settlements == old(queueManager.settlements) + 1
    {
      var updatedDetails: Fields := if details.Some? then details.value else map[];
      var runnerID := e.runner;
      if runnerID == "" {
        runnerID := "unknown";
      }
      updatedDetails := updatedDetails["runner_id" := runnerID];
      var updateErr := resultStore.UpdateJobStatus(id, Running, Some(updatedDetails), e.now, e.claim);
      if updateErr.Some? {
        var nackErr := ack.Nack(true, e.settle);
        return ServerError;
      }
      if e.sent {
        handed := handed + [id];
      }
      reply := Job(id, Some(updatedDetails));
      if !e.encoded {
        var nackErr := ack.Nack(true, e.settle);
        return;
      }
      var ackErr := ack.Ack(e.settle);
    }

    // ---- Creating jobs ----

    /** `id` is the UUID the queue manager draws. */
    method HandleEnqueueTest(project: string, details: Option<Fields>, priority: UInt8, id: JobId, e: PublishEnv,
                             insert: Outcome, now: Time) returns (reply: Reply)
      requires Valid() && id !in queueManager.broker.msgs && id != ""
      modifies queueManager, resultStore`rows
      ensures Valid()
      ensures project == "" || project !in projectsCache ==> reply == BadRequest && World() == old(World())
      ensures project != "" && project in projectsCache ==>
                var publish := old(queueManager.Effect(project, e));
                && World() == Enqueue(old(World()), id, project, details, priority, publish, insert, now)
                && reply == if publish == Succeeds && insert == Succeeds then Accepted(id) else ServerError
    {
      if project == "" {
        return BadRequest;
      }
      var valid := IsProjectValid(project);
      if !valid {
        return BadRequest;
      }
      var jobID := queueManager.EnqueueJob(project, details, priority, id, e);
      if jobID == None {
        return ServerError;
      }
      var err := resultStore.CreatePendingJob(jobID.value, project, details, priority, now, now, insert);
      if err.Some? {
        return ServerError;
      }
      return Accepted(jobID.value);
    }

    method HandlePrioritizeJob(orig: JobId, id: JobId, readFails: bool, supersede: Outcome, e: PublishEnv,
                               insert: Outcome, now: Time) returns (reply: Reply)
      requires Valid() && id !in queueManager.broker.msgs && id != ""
      modifies queueManager, resultStore`rows
      ensures Valid()
      ensures readFails ==> reply == ServerError && World() == old(World())
      ensures !readFails ==>
                World() == Prioritize(old(World()), orig, id, supersede,
                                      if orig in old(resultStore.rows)
                                      then old(queueManager.Effect(resultStore.rows[orig].project, e)) else Succeeds,
                                      insert, now)
      ensures !readFails ==>
                (reply == Reply.NotFound <==> orig !in old(resultStore.rows))
                && (reply == BadRequest <==>
                      orig in old(resultStore.rows) && old(resultStore.rows)[orig].status != Pending)
                && (reply == Accepted(id) <==>
                      && orig in old(resultStore.rows) && old(resultStore.rows)[orig].status == Pending
                      && supersede == Succeeds
                      && old(queueManager.Effect(resultStore.rows[orig].project, e)) == Succeeds)
    {
      var original, err := resultStore.GetResult(orig, readFails);
      if err.Some? {
        return ServerError;
      }
      if original == None {
        return Reply.NotFound;
      }
      if original.value.status != Pending {
        return BadRequest;
      }
      reply := ReplaceJob(orig, original.value, id, supersede, e, insert, now);
    }

    /** The rest of HandlePrioritizeJob for a job found PENDING: supersede it, publish, insert. */
    method ReplaceJob(orig: JobId, original: TestResult, id: JobId, supersede: Outcome, e: PublishEnv,
                      insert: Outcome, now: Time) returns (reply: Reply)
      requires Valid() && id !in queueManager.broker.msgs && id != "" && orig in resultStore.rows
      requires resultStore.rows[orig].status == Pending && original == Read(orig, resultStore.rows[orig])
      modifies queueManager, resultStore`rows
      ensures Valid()
      ensures var publish := old(queueManager.Effect(original.project, e));
              && World() == Prioritize(old(World()), orig, id, supersede, publish, insert, now)
              && reply == if supersede == Succeeds && publish == Succeeds then Accepted(id) else ServerError
    {
      var supersedeErr := resultStore.UpdateJobStatus(orig, Cancelled, Some(SUPERSEDED), now, supersede);
      if supersedeErr.Some? {
        return ServerError;
      }
      var newJobID := queueManager.EnqueueJob(original.project, original.details, TOP_PRIORITY, id, e);
      if newJobID == None {
        return ServerError;
      }
      // A failed insert is only logged.
      var insertErr := resultStore.CreatePendingJob(newJobID.value, original.project, original.details, TOP_PRIORITY,
                                                    now, now, insert);
      return Accepted(newJobID.value);
    }

    method HandleRerunJob(orig: JobId, id: JobId, readFails: bool, e: PublishEnv) returns (reply: Reply)
      requires Valid() && id !in queueManager.broker.msgs && id != ""
      modifies queueManager
      ensures Valid()
      ensures readFails ==> reply == ServerError && World() == old(World())
      ensures !readFails ==>
                World() == Rerun(old(World()), orig, id,
                                 if orig in resultStore.rows
                                 then old(queueManager.Effect(resultStore.rows[orig].project, e)) else Succeeds)
                && (reply == Reply.NotFound <==> orig !in resultStore.rows)
                && (reply == Accepted(id) <==>
                      orig in resultStore.rows
                      && old(queueManager.Effect(resultStore.rows[orig].project, e)) == Succeeds)
    {
      var original, err := resultStore.GetResult(orig, readFails);
      if err.Some? {
        return ServerError;
      }
      if original == None {
        return Reply.NotFound;
      }
      var newJobID := queueManager.EnqueueJob(original.value.project, original.value.details, RERUN_PRIORITY, id, e);
      if newJobID == None {
        return ServerError;
      }
      return Accepted(newJobID.value);
    }

    // ---- Stopping jobs ----

    method HandleCancelJob(id: JobId, now: Time, outcome: Outcome) returns (reply: Reply)
      requires Valid()
      modifies resultStore`rows
      ensures Valid() && World() == Stop(old(World()), id, Cancelled, outcome, now)
      ensures reply == if id != "" && outcome == Succeeds then Done else ServerError
    {
      var err := resultStore.UpdateJobStatus(id, Cancelled, None, now, outcome);
      return if err.Some? then ServerError else Done;
    }

    method HandleSkipJob(id: JobId, now: Time, outcome: Outcome) returns (reply: Reply)
      requires Valid()
      modifies resultStore`rows
      ensures Valid() && World() == Stop(old(World()), id, Skipped, outcome, now)
      ensures reply == if id != "" && outcome == Succeeds then Done else ServerError
    {
      var err := resultStore.UpdateJobStatus(id, Skipped, None, now, outcome);
      return if err.Some? then ServerError else Done;
    }

    method HandleAbortJob(id: JobId, now: Time, outcome: Outcome) returns (reply: Reply)
      requires Valid()
      modifies resultStore`rows
      ensures Valid() && World() == Stop(old(World()), id, AbortRequested, outcome, now)
      ensures reply == if id != "" && outcome == Succeeds then Done else ServerError
    {
      var err := resultStore.UpdateJobStatus(id, AbortRequested, None, now, outcome);
      return if err.Some? then ServerError else Done;
    }

    // ---- Reports of the runner ----

    method HandleUpdateJobProgress(id: JobId, update: ProgressUpdate, outcome: Outcome) returns (reply: Reply)
      requires Valid()
      modifies resultStore`rows
      ensures Valid()
      ensures World() == if id == "" then old(World()) else Progress(old(World()), id, update, outcome)
      ensures reply == if id == "" then BadRequest
                       else if outcome != Succeeds then ServerError
                       else if id !in old(resultStore.rows) then Reply.NotFound else Done
    {
      if id == "" {
        return BadRequest;
      }
      var err := resultStore.UpdateJobProgress(id, Some(update), outcome);
      if err.Some? {
        return if err.value == StoreError.NotFound then Reply.NotFound else ServerError;
      }
      return Done;
    }

    /** The upload loop: visits the fields in `order` and stops at the first upload that fails. */
    method StoreUploads(jobId: JobId, form: Form, order: seq<Field>, faults: set<(Field, nat)>, inlineLogs: string)
      returns (screenshots: seq<string>, videos: seq<string>, logs: string, failed: bool)
      requires Visits(order, form)
      modifies resultStore`objects
      ensures failed <==> SomeFails(form, faults)
      ensures !failed ==>
                && screenshots == ObjectNames(objectNaming, jobId, FilesOf(form, Screenshots))
                && videos == ObjectNames(objectNaming, jobId, FilesOf(form, Videos))
                && logs == LastLog(objectNaming, jobId, FilesOf(form, LogFile), inlineLogs)
                && (forall f | f in form :: Stored(ObjectNames(objectNaming, jobId, form[f]), resultStore.objects))
      ensures old(resultStore.objects) <= resultStore.objects
    {
      screenshots, videos, logs := [], [], inlineLogs;
      var k := 0;
      while k < |order|
        invariant 0 <= k <= |order|
        invariant Collected(objectNaming, jobId, form, order, k, inlineLogs, screenshots, videos, logs)
        invariant old(resultStore.objects) <= resultStore.objects
        invariant FieldsDone(objectNaming, jobId, form, order[..k], faults, resultStore.objects)
      {
        assert order[k] in order;
        ghost var before := resultStore.objects;
        CollectedField(objectNaming, jobId, form, order, k, inlineLogs, screenshots, videos, logs);
        screenshots, videos, logs, failed :=
          StoreField(jobId, order[k], form[order[k]], faults, screenshots, videos, logs);
        if failed {
          return;
        }
        OneMoreDone(objectNaming, jobId, form, order, k, faults, before, resultStore.objects);
        k := k + 1;
      }
      CollectedAll(objectNaming, jobId, form, order, inlineLogs, screenshots, videos, logs);
      assert order[..|order|] == order;
      AllDone(objectNaming, jobId, form, order, faults, resultStore.objects);
      failed := false;
    }

    /** The uploads of one field, in order. */
    method StoreField(jobId: JobId, field: Field, files: seq<string>, faults: set<(Field, nat)>,
                      screenshots0: seq<string>, videos0: seq<string>, logs0: string)
      returns (screenshots: seq<string>, videos: seq<string>, logs: string, failed: bool)
      modifies resultStore`objects
      ensures failed <==> exists i: nat :: i < |files| && (field, i) in faults
      ensures !failed ==>
                && screenshots == (if field == Screenshots
                    then screenshots0 + ObjectNames(objectNaming, jobId, files) else screenshots0)
                && videos == (if field == Videos then videos0 + ObjectNames(objectNaming, jobId, files) else videos0)
                && logs == (if field == LogFile then LastLog(objectNaming, jobId, files, logs0) else logs0)
                && Stored(ObjectNames(objectNaming, jobId, files), resultStore.objects)
      ensures old(resultStore.objects) <= resultStore.objects
    {
      screenshots, videos, logs := screenshots0, videos0, logs0;
      ghost var names := ObjectNames(objectNaming, jobId, files);
      for i := 0 to |files|
        invariant screenshots == (if field == Screenshots then screenshots0 + names[..i] else screenshots0)
        invariant videos == (if field == Videos then videos0 + names[..i] else videos0)
        invariant logs == (if field == LogFile && i > 0 then names[i - 1] else logs0)
        invariant forall n: nat | n < i :: (field, n) !in faults
        invariant Stored(names[..i], resultStore.objects)
        invariant old(resultStore.objects) <= resultStore.objects
      {
        var objectName := objectNaming(jobId, files[i]);
        assert names[..i + 1] == names[..i] + [objectName];
        var err := resultStore.StoreArtifact(objectName, (field, i) in faults);
        if err {
          failed := true;
          return;
        }
        if field == Screenshots {
          screenshots := screenshots + [objectName];
        }
        if field == Videos {
          videos := videos + [objectName];
        }
        if field == LogFile {
          logs := objectName;
        }
      }
      assert names[..|files|] == names;
      failed := false;
    }

    /** `order` is the order in which the form's fields happen to be visited; the result does not
        depend on it. `faults` are the uploads that fail to be stored. */
    method HandleSubmitResult(jobId: JobId, submitted: TestResult, form: Form, order: seq<Field>,
                              faults: set<(Field, nat)>, now: Time, outcome: Outcome)
      returns (reply: Reply)
      requires Valid() && Visits(order, form)
      modifies resultStore
      ensures Valid()
      ensures jobId == "" || submitted.status == Unset ==> reply == BadRequest && World() == old(World())
      ensures jobId != "" && submitted.status != Unset ==>
                if SomeFails(form, faults)
                then reply == ServerError && World() == old(World())
                else && World() == Submit(old(World()), Recorded(objectNaming, submitted, jobId, form, now), outcome)
                     && reply == (if outcome == Succeeds then Done else ServerError)
                     && (forall f | f in form :: Stored(ObjectNames(objectNaming, jobId, form[f]), resultStore.objects))
      ensures reply == Done ==>
                jobId in resultStore.rows
                && ReadsBack(Read(jobId, resultStore.rows[jobId]), objectNaming, submitted, jobId, form, now)
    {
      if jobId == "" || submitted.status == Unset {
        return BadRequest;
      }
      var result := submitted.(jobId := jobId);
      if result.endedAt == 0 {
        result := result.(endedAt := now);
      }
      if result.duration == 0.0 && result.startedAt != 0 {
        result := result.(duration := Seconds(result.startedAt, result.endedAt));
      }
      var screenshots, videos, logs, failed := StoreUploads(jobId, form, order, faults, result.logs);
      if failed {
        return ServerError;
      }
      result := result.(logs := logs, screenshots := Some(screenshots), videos := Some(videos));
      assert result == Recorded(objectNaming, submitted, jobId, form, now);
      reply := SaveSubmitted(result, submitted, jobId, form, now, outcome);
    }

    /** The end of HandleSubmitResult: save the completed result and reply. */
    method SaveSubmitted(result: TestResult, submitted: TestResult, jobId: JobId, form: Form, now: Time,
                         outcome: Outcome) returns (reply: Reply)
      requires Valid() && jobId != "" && result == Recorded(objectNaming, submitted, jobId, form, now)
      modifies resultStore`rows
      ensures Valid() && World() == Submit(old(World()), result, outcome)
      ensures reply == if outcome == Succeeds then Done else ServerError
      ensures outcome == Succeeds ==>
                jobId in resultStore.rows
                && ReadsBack(Read(jobId, resultStore.rows[jobId]), objectNaming, submitted, jobId, form, now)
    {
      SaveKeepsNames(resultStore.rows, result);
      SavedReadsBack(resultStore.rows, submitted, objectNaming, jobId, form, now);
      var err := resultStore.SaveResult(result, outcome);
      return if err.Some? then ServerError else Done;
    }

    // ---- Projects ----

    method RefreshProjectsCache(fails: bool, scanFails: set<nat>) returns (err: bool)
      modifies this`projectsCache
      ensures if err then projectsCache == old(projectsCache) else Lists(projectsCache, resultStore.projects)
      ensures err <==> RefreshFails(resultStore.projects, fails, scanFails)
    {
      var projects := resultStore.GetProjects(fails, scanFails);
      if projects == None {
        return true;
      }
      projectsCache := projects.value;
      return false;
    }

    method IsProjectValid(projectName: string) returns (valid: bool)
      ensures valid <==> projectName in projectsCache
    {
      for i := 0 to |projectsCache|
        invariant projectName !in projectsCache[..i]
      {
        if projectsCache[i] == projectName {
          return true;
        }
      }
      return false;
    }

    /** Whatever the reply, the table has the name exactly when it had it before or the insert took
        effect; the cache changes only with success. */
    method HandleAddProject(name: string, outcome: Outcome, fails: bool, scanFails: set<nat>) returns (reply: Reply)
      modifies resultStore`projects, this`projectsCache
      ensures reply == Done <==> name != "" && name !in old(projectsCache) && outcome == Succeeds
                                 && !RefreshFails(resultStore.projects, fails, scanFails)
      ensures reply == BadRequest <==> name == ""
      ensures reply == Done || reply == BadRequest || reply == ServerError
      ensures resultStore.projects == old(resultStore.projects)
                                      + (if name == "" || name in old(projectsCache) || outcome == FailsBefore
                                         then {} else {name})
      ensures if reply == Done then Lists(projectsCache, resultStore.projects) else projectsCache == old(projectsCache)
    {
      if name == "" {
        return BadRequest;
      }
      var known := IsProjectValid(name);
      if known {
        return ServerError;
      }
      var err := resultStore.AddProject(name, outcome);
      if err.Some? {
        return ServerError;
      }
      var stale := RefreshProjectsCache(fails, scanFails);
      return if stale then ServerError else Done;
    }

    /** A configured protection key must be sent along; an empty one protects nothing. */
    method HandleDeleteProject(name: string, protectionKey: string, headerKey: string, outcome: Outcome, fails: bool,
                               scanFails: set<nat>) returns (reply: Reply)
      modifies resultStore`projects, this`projectsCache
      ensures var allowed := name != "" && (protectionKey == "" || headerKey == protectionKey);
              && (reply == Done <==>
                    allowed && outcome == Succeeds && !RefreshFails(resultStore.projects, fails, scanFails))
              && (reply == BadRequest <==> !allowed)
              && resultStore.projects
                 == old(resultStore.projects) - (if !allowed || outcome == FailsBefore then {} else {name})
      ensures reply == Done || reply == BadRequest || reply == ServerError
      ensures if reply == Done then Lists(projectsCache, resultStore.projects) else projectsCache == old(projectsCache)
    {
      if name == "" {
        return BadRequest;
      }
      if protectionKey != "" {
        if headerKey == "" {
          return BadRequest;
        }
        if headerKey != protectionKey {
          return BadRequest;
        }
      }
      var err := resultStore.DeleteProject(name, outcome);
      if err.Some? {
        return ServerError;
      }
      var stale := RefreshProjectsCache(fails, scanFails);
      return if stale then ServerError else Done;
    }

    /** One failing overview fails the whole request. */
    method HandleGetAllQueueStatuses(failing: set<string>) returns (overviews: Option<seq<ProjectQueueOverview>>)
      ensures overviews == if exists p :: p in projectsCache && p in failing then None
                           else Some(Overviews(resultStore.rows, projectsCache))
    {
      var response: seq<ProjectQueueOverview> := [];
      var failed := false;
      for i := 0 to |projectsCache|
        invariant failed <==> exists p :: p in projectsCache[..i] && p in failing
        invariant !failed ==> response == Overviews(resultStore.rows, projectsCache[..i])
      {
        var overview := resultStore.GetProjectQueueOverview(projectsCache[i], projectsCache[i] in failing);
        assert projectsCache[..i + 1] == projectsCache[..i] + [projectsCache[i]];
        if overview == None {
          failed := true;
        } else {
          response := response + [overview.value];
        }
      }
      assert projectsCache[..|projectsCache|] == projectsCache;
      return if failed then None else Some(response);
    }
  }
}
