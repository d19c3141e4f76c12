/** The two stores of the dispatch protocol side by side, and the request handlers as functions on
    them. Each function runs one handler alone; the protocol module interleaves their steps. */
module Dispatch {
  import opened Models
  import opened Persistent
  import opened Amqp

  /** `handed` lists the jobs sent to runners, in order. */
  datatype World = World(b: Broker, rows: Rows, handed: seq<JobId>)

  const START := World(EMPTY, map[], [])

  const RERUN_PRIORITY: UInt8 := 5
  const TOP_PRIORITY: UInt8 := 0

  datatype Settlement = Ack | Requeue | Drop

  datatype Reply = NoContent | BadRequest | NotFound | ServerError | Accepted(id: JobId) | Done
                 | Job(job: JobId, details: Option<Fields>)

  /** What get-next decides once it has looked up the delivered job. */
  datatype Verdict = Accept(details: Option<Fields>) | Refuse(how: Settlement, reply: Reply)

  function Judge(rows: Rows, id: JobId, readFails: bool): Verdict {
    if readFails then Refuse(Requeue, ServerError)
    else if id !in rows then Refuse(Drop, ServerError)
    else if IsTerminal(rows[id].status) then Refuse(Ack, NoContent)
    else if rows[id].status == Running then Refuse(Requeue, NoContent)
    else if rows[id].status == AbortRequested then Refuse(Ack, NoContent)
    else Accept(Decode(rows[id].details))
  }

  function WithRunner(details: Option<Fields>, runner: string): Fields {
    details.GetOr(map[])["runner_id" := if runner == "" then "unknown" else runner]
  }

  /** A settlement takes the message out of the broker unless it requeues or fails. */
  predicate ToReady(how: Settlement, outcome: Outcome) {
    how == Requeue || outcome == FailsBefore
  }

  function Finish(w: World, id: JobId, how: Settlement, outcome: Outcome): World {
    w.(b := Settle(w.b, id, ToReady(how, outcome)))
  }

  /** How the broker's basic.get goes: declaring the queue may fail (reported as no job), and so
      may opening the channel or the pull itself. */
  datatype Pull = PullOk | DeclareFails | PullFails

  /** Everything get-next does not control. `sent` says whether a failed encoding still reached the
      runner. */
  datatype PollEnv = PollEnv(pull: Pull, readFails: bool, claim: Outcome, encoded: bool, sent: bool,
                             settle: Outcome, runner: string, now: Time)
  {
    ghost predicate Possible() { encoded ==> sent }
  }

  /** HandleGetNextTest from the claim on. */
  function Give(w: World, id: JobId, details: Option<Fields>, e: PollEnv): (World, Reply) {
    var updated := WithRunner(details, e.runner);
    var w' := if e.claim == FailsBefore then w
              else w.(rows := WriteStatus(w.rows, id, Running, Some(updated), e.now));
    if e.claim != Succeeds then (Finish(w', id, Requeue, e.settle), ServerError)
    else
      var w'' := if e.sent then w'.(handed := w'.handed + [id]) else w';
      (Finish(w'', id, if e.encoded then Ack else Requeue, e.settle), Job(id, Some(updated)))
  }

  /** HandleGetNextTest from the delivery of `id` on. */
  function Handle(w: World, id: JobId, e: PollEnv): (World, Reply) {
    match Judge(w.rows, id, e.readFails)
    case Refuse(how, reply) => (Finish(w, id, how, e.settle), reply)
    case Accept(details) => Give(w, id, details, e)
  }

  function GetNext(w: World, project: string, e: PollEnv): (World, Reply) {
    if e.pull == PullFails then (w, ServerError)
    else if e.pull == DeclareFails || Head(w.b, project) == None then (w, NoContent)
    else
      var id := Head(w.b, project).value;
      Handle(w.(b := Deliver(w.b, id)), id, e)
  }

  /** Exactly when get-next sends a job to a runner: it pulled one, read its row, found a status other
      than the nine that bar it, claimed it, and the reply got through. Whether the job was handed out before
      plays no part. */
  lemma GivesExactlyWhen(w: World, project: string, e: PollEnv)
    ensures var head := Head(w.b, project);
            GetNext(w, project, e).0.handed != w.handed
            <==> && e.pull == PullOk && head.Some? && !e.readFails
                 && head.value in w.rows
                 && w.rows[head.value].status !in {Running, AbortRequested, Passed, Failed, Error, Skipped, Cancelled,
                                                   Aborted, SystemError}
                 && e.claim == Succeeds && e.sent
    ensures GetNext(w, project, e).0.handed != w.handed ==>
              GetNext(w, project, e).0.handed == w.handed + [Head(w.b, project).value]
  {
  }

  /** HandleCancelJob, HandleSkipJob and HandleAbortJob differ in the status they write. */
  function Stop(w: World, id: JobId, status: Status, outcome: Outcome, now: Time): World {
    if outcome == FailsBefore then w else w.(rows := WriteStatus(w.rows, id, status, None, now))
  }

  predicate IsStop(status: Status) {
    status == Cancelled || status == Skipped || status == AbortRequested
  }

  function Enqueue(w: World, id: JobId, project: string, details: Option<Fields>, priority: UInt8,
                   publish: Outcome, insert: Outcome, now: Time): World
  {
    var w' := if publish == FailsBefore then w else w.(b := Publish(w.b, id, project, details, priority));
    if publish != Succeeds || insert == FailsBefore then w'
    else w'.(rows := InsertPending(w'.rows, id, project, details, priority, now))
  }

  const SUPERSEDED: Fields := map["reason" := "Superseded by priority request for new job"]

  function Prioritize(w: World, orig: JobId, id: JobId, supersede: Outcome, publish: Outcome,
                      insert: Outcome, now: Time): World
  {
    if orig !in w.rows || w.rows[orig].status != Pending then w
    else
      var w' := if supersede == FailsBefore then w
                else w.(rows := WriteStatus(w.rows, orig, Cancelled, Some(SUPERSEDED), now));
      if supersede != Succeeds then w'
      else Enqueue(w', id, w.rows[orig].project, Decode(w.rows[orig].details), TOP_PRIORITY, publish, insert, now)
  }

  /** HandleRerunJob publishes and writes no row. */
  function Rerun(w: World, orig: JobId, id: JobId, publish: Outcome): World {
    if orig !in w.rows || publish == FailsBefore then w
    else w.(b := Publish(w.b, id, w.rows[orig].project, Decode(w.rows[orig].details), RERUN_PRIORITY))
  }

  function Progress(w: World, id: JobId, u: ProgressUpdate, outcome: Outcome): World {
    if outcome == FailsBefore then w else w.(rows := WriteProgress(w.rows, id, u))
  }

  function Submit(w: World, r: TestResult, outcome: Outcome): World {
    if outcome == FailsBefore then w else w.(rows := Save(w.rows, r))
  }
}
