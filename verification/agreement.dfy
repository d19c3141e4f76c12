/** Whole handlers without failures: the queue and the rows agree after every one of them. */
module Agreement {
  import opened Models
  import opened Persistent
  import opened Amqp
  import opened Dispatch

  datatype Op =
    | OpEnqueue(id: JobId, project: string, details: Option<Fields>, priority: UInt8, now: Time)
    | OpPoll(project: string, runner: string, now: Time)
    | OpStop(id: JobId, status: Status, now: Time)
    | OpPrioritize(orig: JobId, id: JobId, now: Time)
    | OpRerun(orig: JobId, id: JobId)
    | OpProgress(id: JobId, update: ProgressUpdate)
    | OpSubmit(result: TestResult)

  predicate OpEnabled(w: World, op: Op) {
    match op
    case OpEnqueue(id, project, _, _, _) => id !in w.b.msgs && id != "" && project != ""
    case OpPoll(_, _, _) => true
    case OpStop(_, status, _) => IsStop(status)
    case OpPrioritize(_, id, _) => id !in w.b.msgs && id != ""
    case OpRerun(_, id) => id !in w.b.msgs && id != ""
    case OpProgress(id, u) => id in w.handed && u.status != Some(Pending)
    case OpSubmit(r) => r.jobId in w.handed && r.status != Pending
  }

  function Smooth(runner: string, now: Time): PollEnv {
    PollEnv(PullOk, false, Succeeds, true, true, Succeeds, runner, now)
  }

  function Poll(w: World, project: string, runner: string, now: Time): World {
    GetNext(w, project, Smooth(runner, now)).0
  }

  function Step(w: World, op: Op): World {
    match op
    case OpEnqueue(id, project, details, priority, now) =>
      Enqueue(w, id, project, details, priority, Succeeds, Succeeds, now)
    case OpPoll(project, runner, now) => Poll(w, project, runner, now)
    case OpStop(id, status, now) => Stop(w, id, status, Succeeds, now)
    case OpPrioritize(orig, id, now) => Prioritize(w, orig, id, Succeeds, Succeeds, Succeeds, now)
    case OpRerun(orig, id) => Rerun(w, orig, id, Succeeds)
    case OpProgress(id, u) => Progress(w, id, u, Succeeds)
    case OpSubmit(r) => Submit(w, r, Succeeds)
  }

  function RunOps(w: World, ops: seq<Op>): Option<World>
    decreases |ops|
  {
    if ops == [] then Some(w)
    else if OpEnabled(w, ops[0]) then RunOps(Step(w, ops[0]), ops[1..])
    else None
  }

  // ---- The agreement of the two stores ----

  predicate IsPending(w: World, id: JobId) {
    id in w.rows && w.rows[id].status == Pending
  }

  /** The row of a waiting job says what its message says. */
  ghost predicate Mirrors(row: Row, m: Message) {
    row.project == m.project && row.priority == Some(m.priority) && row.details == Encode(m.details)
  }

  ghost predicate QueueAgrees(b: Broker) {
    && Conserved(b)
    && b.unacked == {}
    && (forall id | id in b.msgs :: b.msgs[id].amqpPriority == AmqpPriority(b.msgs[id].priority))
  }

  ghost predicate RowsAgree(w: World) {
    && w.rows.Keys <= w.b.msgs.Keys
    && (forall id | IsPending(w, id) :: id in w.b.ready && Mirrors(w.rows[id], w.b.msgs[id]))
    && (forall id | id in w.b.ready && id in w.rows :: w.rows[id].status == Pending || IsStop(w.rows[id].status))
  }

  ghost predicate HandoutsAgree(w: World) {
    && (forall id | id in w.handed :: id in w.b.settled && id in w.rows && w.rows[id].status != Pending)
    && (forall i, j | 0 <= i < j < |w.handed| :: w.handed[i] != w.handed[j])
  }

  ghost predicate Agreed(w: World) {
    QueueAgrees(w.b) && RowsAgree(w) && HandoutsAgree(w)
  }

  lemma PublishAgrees(w: World, id: JobId, project: string, details: Option<Fields>, priority: UInt8)
    requires Agreed(w) && id !in w.b.msgs
    ensures Agreed(w.(b := Publish(w.b, id, project, details, priority)))
  {
    var b := Publish(w.b, id, project, details, priority);
    assert b.msgs.Keys == w.b.msgs.Keys + {id};
  }

  lemma InsertAgrees(w: World, id: JobId, now: Time)
    requires Agreed(w) && id in w.b.ready && id !in w.rows
    ensures var m := w.b.msgs[id];
            Agreed(w.(rows := InsertPending(w.rows, id, m.project, m.details, m.priority, now)))
  {
  }

  lemma StopAgrees(w: World, id: JobId, status: Status, details: Option<Fields>, now: Time)
    requires Agreed(w) && IsStop(status)
    ensures Agreed(w.(rows := WriteStatus(w.rows, id, status, details, now)))
  {
  }

  /** What a smooth poll does: nothing on an empty queue, else it consumes the head, and hands it out
      exactly when it is pending. */
  lemma PollEffect(w: World, project: string, runner: string, now: Time)
    requires Agreed(w)
    ensures Head(w.b, project) == None <==> ReadyIn(w.b, project) == {}
    ensures var w' := Poll(w, project, runner, now);
            match Head(w.b, project)
            case None => w' == w
            case Some(id) =>
              && IsHead(w.b, project, id)
              && w'.b == Settle(Deliver(w.b, id), id, false)
              && (if IsPending(w, id)
                  then w'.handed == w.handed + [id]
                       && w'.rows ==
                           WriteStatus(w.rows, id, Running, Some(WithRunner(Decode(w.rows[id].details), runner)), now)
                  else w'.handed == w.handed && w'.rows == w.rows)
  {
    if ReadyIn(w.b, project) != {} {
      HeadExists(w.b, project);
    }
  }

  lemma ConsumedQueueAgrees(b: Broker, id: JobId)
    requires QueueAgrees(b) && id in b.ready
    ensures QueueAgrees(Settle(Deliver(b, id), id, false))
  {
  }

  lemma ConsumeAgrees(w: World, id: JobId)
    requires Agreed(w) && id in w.b.ready && !IsPending(w, id)
    ensures Agreed(w.(b := Settle(Deliver(w.b, id), id, false)))
  {
    ConsumedQueueAgrees(w.b, id);
  }

  lemma HandOutAgrees(w: World, id: JobId, details: Option<Fields>, now: Time)
    requires Agreed(w) && id in w.b.ready && IsPending(w, id)
    ensures Agreed(World(Settle(Deliver(w.b, id), id, false), WriteStatus(w.rows, id, Running, details, now),
                         w.handed + [id]))
  {
    var t := World(Settle(Deliver(w.b, id), id, false), WriteStatus(w.rows, id, Running, details, now),
                   w.handed + [id]);
    ConsumedQueueAgrees(w.b, id);
    assert RowsAgree(t);
    assert id !in w.handed;
  }

  lemma PollAgrees(w: World, project: string, runner: string, now: Time)
    requires Agreed(w)
    ensures Agreed(Poll(w, project, runner, now))
  {
    PollEffect(w, project, runner, now);
    if Head(w.b, project).Some? {
      var id := Head(w.b, project).value;
      if IsPending(w, id) {
        HandOutAgrees(w, id, Some(WithRunner(Decode(w.rows[id].details), runner)), now);
      } else {
        ConsumeAgrees(w, id);
      }
    }
  }

  lemma ReportAgrees(w: World, op: Op)
    requires Agreed(w) && OpEnabled(w, op) && (op.OpProgress? || op.OpSubmit?)
    ensures Agreed(Step(w, op))
  {
  }

  lemma EnqueueAgrees(w: World, id: JobId, project: string, details: Option<Fields>, priority: UInt8, now: Time)
    requires Agreed(w) && id !in w.b.msgs
    ensures Agreed(Enqueue(w, id, project, details, priority, Succeeds, Succeeds, now))
  {
    PublishAgrees(w, id, project, details, priority);
    InsertAgrees(w.(b := Publish(w.b, id, project, details, priority)), id, now);
  }

  lemma PrioritizeAgrees(w: World, orig: JobId, id: JobId, now: Time)
    requires Agreed(w) && id !in w.b.msgs && IsPending(w, orig)
    ensures Agreed(Prioritize(w, orig, id, Succeeds, Succeeds, Succeeds, now))
  {
    StopAgrees(w, orig, Cancelled, Some(SUPERSEDED), now);
    EnqueueAgrees(w.(rows := WriteStatus(w.rows, orig, Cancelled, Some(SUPERSEDED), now)), id,
                  w.rows[orig].project, Decode(w.rows[orig].details), TOP_PRIORITY, now);
  }

  lemma StepAgrees(w: World, op: Op)
    requires Agreed(w) && OpEnabled(w, op)
    ensures Agreed(Step(w, op))
  {
    match op
    case OpEnqueue(id, project, details, priority, now) => EnqueueAgrees(w, id, project, details, priority, now);
    case OpPoll(project, runner, now) => PollAgrees(w, project, runner, now);
    case OpStop(id, status, now) => StopAgrees(w, id, status, None, now);
    case OpPrioritize(orig, id, now) =>
      if IsPending(w, orig) {
        PrioritizeAgrees(w, orig, id, now);
      }
    case OpRerun(orig, id) =>
      if orig in w.rows {
        PublishAgrees(w, id, w.rows[orig].project, Decode(w.rows[orig].details), RERUN_PRIORITY);
      }
    case OpProgress(_, _) => ReportAgrees(w, op);
    case OpSubmit(_) => ReportAgrees(w, op);
  }

  lemma {:induction false} RunAgrees(w: World, ops: seq<Op>, t: World)
    requires Agreed(w) && RunOps(w, ops) == Some(t)
    ensures Agreed(t)
    decreases |ops|
  {
    if ops != [] {
      StepAgrees(w, ops[0]);
      RunAgrees(Step(w, ops[0]), ops[1..], t);
    }
  }

  /** In every world that handlers reach from the empty system, queue and rows agree. */
  lemma ReachableWorldsAgree(ops: seq<Op>, t: World)
    requires RunOps(START, ops) == Some(t)
    ensures Agreed(t)
  {
    RunAgrees(START, ops, t);
  }
}
