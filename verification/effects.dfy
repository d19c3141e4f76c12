/** What the handlers do to rows, messages and runners, said in plain values: statuses by name, fields
    one by one, results as the store reads them back. */
module Effects {
  import opened Models
  import opened Persistent
  import opened Amqp
  import opened Dispatch
  import opened Uploads

  // ---- Get-next ----

  /** The broker with the message of `id` settled, unless the settlement failed without effect. */
  function Without(b: Broker, id: JobId, settle: Outcome): Broker {
    if settle == FailsBefore then b else b.(ready := b.ready - {id}, settled := b.settled + {id})
  }

  /** The head of the queue by the status of its row: a finished or stopped job is settled unseen, a
      RUNNING one goes back, and any other is claimed, sent and settled; a failed claim or a reply that
      does not encode puts it back. */
  lemma GetNextByStatus(w: World, project: string, e: PollEnv, id: JobId)
    requires Conserved(w.b) && e.pull == PullOk && Head(w.b, project) == Some(id) && !e.readFails && id in w.rows
    ensures var (t, reply) := GetNext(w, project, e);
            match w.rows[id].status
            case Passed | Failed | Error | Skipped | Cancelled | Aborted | SystemError | AbortRequested =>
              reply == NoContent && t == w.(b := Without(w.b, id, e.settle))
            case Running => reply == NoContent && t == w
            case Pending | Unset | Completed | Other(_) =>
              if e.claim != Succeeds
              then && reply == ServerError && t.b == w.b && t.handed == w.handed
                   && (if e.claim == FailsBefore then t.rows == w.rows
                       else id in t.rows && t.rows[id].status == Running)
              else && reply.Job? && reply.job == id
                   && t.b == (if e.encoded then Without(w.b, id, e.settle) else w.b)
                   && t.handed == w.handed + (if e.sent then [id] else [])
  {
    PutBack(w.b, id);
  }

  lemma PutBack(b: Broker, id: JobId)
    requires Conserved(b) && id in b.ready
    ensures b.(ready := b.ready - {id} + {id}, unacked := b.unacked + {id} - {id}) == b
    ensures b.unacked + {id} - {id} == b.unacked
  {
  }

  /** Get-next without a row to judge: a queue that cannot be declared counts as empty, a failed pull or
      read changes nothing, and a message without a row is dropped. */
  lemma GetNextWithoutRow(w: World, project: string, e: PollEnv)
    requires Conserved(w.b)
    ensures e.pull == PullFails ==> GetNext(w, project, e) == (w, ServerError)
    ensures e.pull == DeclareFails ==> GetNext(w, project, e) == (w, NoContent)
    ensures e.pull == PullOk ==>
              match Head(w.b, project)
              case None => GetNext(w, project, e) == (w, NoContent)
              case Some(id) =>
                && (e.readFails ==> GetNext(w, project, e) == (w, ServerError))
                && (!e.readFails && id !in w.rows ==>
                      GetNext(w, project, e) == (w.(b := Without(w.b, id, e.settle)), ServerError))
  {
    if Head(w.b, project).Some? {
      PutBack(w.b, Head(w.b, project).value);
    }
  }

  /** The claim keeps the job: the runner is sent, and the row has from then on, every detail the row had,
      with only the runner's id added or replaced; the row is RUNNING since now, and nothing else of it and
      no other row changes. */
  lemma ClaimKeepsDetails(w: World, project: string, e: PollEnv) returns (id: JobId, sent: Fields)
    requires GetNext(w, project, e).0.handed != w.handed
    ensures id in w.rows && id in GetNext(w, project, e).0.rows
    ensures GetNext(w, project, e).1 == Job(id, Some(sent))
    ensures var before := Read(id, w.rows[id]);
            && Read(id, GetNext(w, project, e).0.rows[id])
               == before.(status := Running, startedAt := e.now, details := Some(sent))
            && (forall key | key != "runner_id" ::
                  key in sent <==> before.details.Some? && key in before.details.value)
            && (forall key | key in sent && key != "runner_id" :: sent[key] == before.details.value[key])
    ensures "runner_id" in sent && sent["runner_id"] == if e.runner == "" then "unknown" else e.runner
    ensures GetNext(w, project, e).0.rows.Keys == w.rows.Keys
    ensures forall j | j in w.rows && j != id :: GetNext(w, project, e).0.rows[j] == w.rows[j]
  {
    id := Head(w.b, project).value;
    sent := GetNext(w, project, e).1.details.value;
  }

  // ---- Stops ----

  /** Cancel, skip and abort change the status of one existing row and nothing else. */
  lemma StopWritesStatus(w: World, id: JobId, status: Status, now: Time)
    requires status == Cancelled || status == Skipped || status == AbortRequested
    ensures var t := Stop(w, id, status, Succeeds, now);
            && t.b == w.b && t.handed == w.handed
            && t.rows == if id in w.rows then w.rows[id := w.rows[id].(status := status)] else w.rows
  {
  }

  // ---- New jobs ----

  /** The message of a new job: last in publish order, with the priority clamped to 10 and inverted. */
  ghost predicate IsPublished(b: Broker, t: Broker, id: JobId, project: string, details: Option<Fields>,
                              priority: UInt8)
  {
    && t.msgs == b.msgs[id := Message(project, details, priority, if priority < 10 then 10 - priority else 0, b.next)]
    && t.ready == b.ready + {id} && t.next == b.next + 1 && t.unacked == b.unacked && t.settled == b.settled
  }

  /** What is read back of a job that waits. */
  function WaitingResult(id: JobId, project: string, details: Option<Fields>, priority: UInt8, now: Time): TestResult {
    TestResult(id, Pending, project, details, priority, now, "", None, 0.0, 0, 0, None, None, "", "", None)
  }

  /** Enqueuing publishes the job as requested and then makes it readable as PENDING since now; nothing
      else changes, and what fails does nothing. */
  lemma EnqueueFiles(w: World, id: JobId, project: string, details: Option<Fields>, priority: UInt8,
                     publish: Outcome, insert: Outcome, now: Time)
    requires id !in w.rows
    ensures var t := Enqueue(w, id, project, details, priority, publish, insert, now);
            && t.handed == w.handed
            && (if publish == FailsBefore then t.b == w.b else IsPublished(w.b, t.b, id, project, details, priority))
            && (if publish != Succeeds || insert == FailsBefore then t.rows == w.rows
                else && t.rows.Keys == w.rows.Keys + {id}
                     && Read(id, t.rows[id]) == WaitingResult(id, project, details, priority, now)
                     && forall j | j in w.rows :: t.rows[j] == w.rows[j])
  {
  }

  /** Prioritizing a pending job cancels it with the reason as its only detail, and files its project and
      details anew at priority 0. Of any other job it changes nothing. */
  lemma PrioritizeFiles(w: World, orig: JobId, id: JobId, now: Time)
    requires id !in w.rows && id != orig
    ensures var t := Prioritize(w, orig, id, Succeeds, Succeeds, Succeeds, now);
            if orig !in w.rows || w.rows[orig].status != Pending then t == w
            else
              var before := Read(orig, w.rows[orig]);
              && t.handed == w.handed && t.rows.Keys == w.rows.Keys + {id}
              && IsPublished(w.b, t.b, id, before.project, before.details, 0)
              && Read(id, t.rows[id]) == WaitingResult(id, before.project, before.details, 0, now)
              && Read(orig, t.rows[orig])
                 == before.(status := Cancelled,
                            details := Some(map["reason" := "Superseded by priority request for new job"]))
              && forall j | j in w.rows && j != orig :: t.rows[j] == w.rows[j]
  {
  }

  /** Rerunning publishes project and details of the original at priority 5 and touches no row. */
  lemma RerunPublishes(w: World, orig: JobId, id: JobId, publish: Outcome)
    ensures var t := Rerun(w, orig, id, publish);
            && t.rows == w.rows && t.handed == w.handed
            && if orig !in w.rows || publish == FailsBefore then t.b == w.b
               else var original := Read(orig, w.rows[orig]);
                    IsPublished(w.b, t.b, id, original.project, original.details, 5)
  {
  }

  // ---- Results ----

  lemma RecordReadsBack(r: TestResult, name: Naming, jobId: JobId, form: Form, now: Time)
    ensures ReadsBack(Read(jobId, ResultRow(Recorded(name, r, jobId, form, now))), name, r, jobId, form, now)
  {
  }

  /** What saving does to the rows: the job's row is the result's, but for what it knew of the job's
      creation, and no other row changes. */
  lemma SavedRow(rows: Rows, r: TestResult)
    ensures Save(rows, r).Keys == rows.Keys + {r.jobId}
    ensures forall j | j in rows && j != r.jobId :: Save(rows, r)[j] == rows[j]
    ensures var row := Save(rows, r)[r.jobId];
            && row == ResultRow(r).(details := row.details, priority := row.priority, enqueuedAt := row.enqueuedAt)
            && (r.jobId in rows ==>
                  row.details == rows[r.jobId].details && row.priority == rows[r.jobId].priority
                  && row.enqueuedAt == rows[r.jobId].enqueuedAt)
  {
  }

  lemma CreationPlaysNoPart(t: TestResult, u: TestResult, name: Naming, r: TestResult, jobId: JobId, form: Form,
                            now: Time)
    requires ReadsBack(t, name, r, jobId, form, now)
    requires u == t.(details := u.details, priority := u.priority, enqueuedAt := u.enqueuedAt)
    ensures ReadsBack(u, name, r, jobId, form, now)
  {
  }

  lemma SavedReadsBack(rows: Rows, r: TestResult, name: Naming, jobId: JobId, form: Form, now: Time)
    ensures jobId in Save(rows, Recorded(name, r, jobId, form, now))
    ensures ReadsBack(Read(jobId, Save(rows, Recorded(name, r, jobId, form, now))[jobId]), name, r, jobId, form, now)
  {
    var record := Recorded(name, r, jobId, form, now);
    SavedRow(rows, record);
    RecordReadsBack(r, name, jobId, form, now);
    CreationPlaysNoPart(Read(jobId, ResultRow(record)), Read(jobId, Save(rows, record)[jobId]), name, r, jobId,
                        form, now);
  }

  /** A submitted result is read back as it was sent: its record, saved, keeps status, messages, times,
      pass rate and progress, and what the job's row knew of its creation. */
  lemma SubmitReadsBack(w: World, r: TestResult, name: Naming, jobId: JobId, form: Form, now: Time)
    ensures var t := Submit(w, Recorded(name, r, jobId, form, now), Succeeds);
            && t.b == w.b && t.handed == w.handed && t.rows.Keys == w.rows.Keys + {jobId}
            && ReadsBack(Read(jobId, t.rows[jobId]), name, r, jobId, form, now)
            && (forall j | j in w.rows && j != jobId :: t.rows[j] == w.rows[j])
            && (jobId in w.rows ==>
                  var before, after := Read(jobId, w.rows[jobId]), Read(jobId, t.rows[jobId]);
                  && after.details == before.details && after.priority == before.priority
                  && after.enqueuedAt == before.enqueuedAt)
  {
    SavedRow(w.rows, Recorded(name, r, jobId, form, now));
    SavedReadsBack(w.rows, r, name, jobId, form, now);
  }

  /** An update changes of its job's row what it carries, and of the others nothing: chunks are appended,
      other values replaced, and nulls leave the old value. */
  lemma ProgressUpdatesRow(w: World, id: JobId, u: ProgressUpdate)
    ensures var t := Progress(w, id, u, Succeeds);
            && t.b == w.b && t.handed == w.handed && t.rows.Keys == w.rows.Keys
            && (forall j | j in w.rows && j != id :: t.rows[j] == w.rows[j])
            && (id in w.rows ==>
                  var before, after := Read(id, w.rows[id]), Read(id, t.rows[id]);
                  && after.messages.GetOr([]) == before.messages.GetOr([]) + u.messagesChunk.GetOr([])
                  && after == before.(
                       status := u.status.GetOr(before.status),
                       logs := before.logs + u.logsChunk.GetOr(""),
                       messages := after.messages,
                       passrate := u.passrate.GetOr(before.passrate),
                       progress := u.progress.GetOr(before.progress)))
  {
  }
}
