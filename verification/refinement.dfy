/** The lazily cleaned broker queue refines an eager priority queue per project. */
module Refinement {
  import opened Models
  import opened Persistent
  import opened Amqp
  import opened Dispatch
  import opened Agreement

  /** A waiting job as the users see it: rank is min(priority, 10), arrival the publish order. */
  datatype Entry = Entry(project: string, rank: nat, arrival: nat, details: Option<Fields>)

  type Pool = map<JobId, Entry>

  predicate Before(e: Entry, f: Entry) {
    e.rank < f.rank || (e.rank == f.rank && e.arrival < f.arrival)
  }

  predicate IsFirst(pool: Pool, project: string, id: JobId) {
    && id in pool && pool[id].project == project
    && forall j | j in pool && pool[j].project == project && j != id :: Before(pool[id], pool[j])
  }

  datatype PoolOp =
    | Add(id: JobId, entry: Entry)
    | Remove(id: JobId)
    | TakeFirst(project: string, id: JobId)
    | Promote(orig: JobId, id: JobId, entry: Entry)
    | Stutter

  predicate NewestIn(pool: Pool, e: Entry) {
    forall j | j in pool :: pool[j].arrival < e.arrival
  }

  /** What the eager queue allows: new entries arrive last, a handout takes the first entry of its
      project, and a promotion moves project and details to an entry of rank 0. */
  predicate PoolEnabled(pool: Pool, op: PoolOp) {
    match op
    case Add(id, e) => id !in pool && NewestIn(pool, e)
    case Remove(id) => true
    case TakeFirst(project, id) => IsFirst(pool, project, id)
    case Promote(orig, id, e) =>
      && orig in pool && id !in pool && NewestIn(pool, e)
      && e.project == pool[orig].project && e.details == pool[orig].details && e.rank == 0
    case Stutter => true
  }

  function PoolStep(pool: Pool, op: PoolOp): Pool {
    match op
    case Add(id, e) => pool[id := e]
    case Remove(id) => pool - {id}
    case TakeFirst(_, id) => pool - {id}
    case Promote(orig, id, e) => (pool - {orig})[id := e]
    case Stutter => pool
  }

  /** The concrete state seen as an eager queue: its pending rows, with their messages. */
  function EntryOf(m: Message): Entry {
    Entry(m.project, Min(m.priority, MAX_PRIORITY), m.seqNo, m.details)
  }

  function PoolOf(w: World): Pool {
    map id | id in w.rows && IsPending(w, id) && id in w.b.msgs :: EntryOf(w.b.msgs[id])
  }

  function NewEntry(w: World, project: string, details: Option<Fields>, priority: UInt8): Entry {
    Entry(project, Min(priority, MAX_PRIORITY), w.b.next, details)
  }

  /** What each handler is to the eager queue. A poll that meets a stale message stutters, and so do
      rerun and the runner's reports. */
  function Abstract(w: World, op: Op): PoolOp {
    match op
    case OpEnqueue(id, project, details, priority, _) => Add(id, NewEntry(w, project, details, priority))
    case OpPoll(project, runner, now) =>
      var w' := Poll(w, project, runner, now);
      if |w'.handed| > |w.handed| then TakeFirst(project, w'.handed[|w.handed|]) else Stutter
    case OpStop(id, _, _) => Remove(id)
    case OpPrioritize(orig, id, _) =>
      if IsPending(w, orig)
      then Promote(orig, id, NewEntry(w, w.rows[orig].project, Decode(w.rows[orig].details), TOP_PRIORITY))
      else Stutter
    case OpRerun(_, _) => Stutter
    case OpProgress(_, _) => Stutter
    case OpSubmit(_) => Stutter
  }

  lemma PoolOfMembers(w: World)
    requires Agreed(w)
    ensures forall id :: id in PoolOf(w) <==> IsPending(w, id)
    ensures forall id | IsPending(w, id) :: id in w.b.msgs && PoolOf(w)[id] == EntryOf(w.b.msgs[id])
    ensures NewestIn(PoolOf(w), Entry("", 0, w.b.next, None))
  {
  }

  lemma OneMorePending(w: World, w': World, id: JobId, m: Message)
    requires id !in w.b.msgs && w'.b.msgs == w.b.msgs[id := m]
    requires forall j :: IsPending(w', j) <==> IsPending(w, j) || j == id
    ensures PoolOf(w') == PoolOf(w)[id := EntryOf(m)]
  {
    assert forall j :: j in PoolOf(w') <==> IsPending(w', j) && j in w'.b.msgs;
    assert forall j :: j in PoolOf(w) <==> IsPending(w, j) && j in w.b.msgs;
  }

  lemma PendingAfterEnqueue(w: World, id: JobId, project: string, details: Option<Fields>, priority: UInt8, now: Time)
    requires id !in w.rows
    ensures var w' := Enqueue(w, id, project, details, priority, Succeeds, Succeeds, now);
            forall j :: IsPending(w', j) <==> IsPending(w, j) || j == id
  {
  }

  lemma EnqueueRefines(w: World, id: JobId, project: string, details: Option<Fields>, priority: UInt8, now: Time)
    requires Agreed(w) && id !in w.b.msgs
    ensures NewestIn(PoolOf(w), NewEntry(w, project, details, priority)) && id !in PoolOf(w)
    ensures PoolOf(Enqueue(w, id, project, details, priority, Succeeds, Succeeds, now))
            == PoolOf(w)[id := NewEntry(w, project, details, priority)]
  {
    PoolOfMembers(w);
    PendingAfterEnqueue(w, id, project, details, priority, now);
    OneMorePending(w, Enqueue(w, id, project, details, priority, Succeeds, Succeeds, now), id,
                   Message(project, details, priority, AmqpPriority(priority), w.b.next));
  }

  lemma SamePool(w: World, w': World, gone: set<JobId>)
    requires w'.b.msgs == w.b.msgs
    requires forall j :: IsPending(w', j) <==> IsPending(w, j) && j !in gone
    ensures PoolOf(w') == PoolOf(w) - gone
  {
  }

  lemma HeadIsFirst(w: World, project: string, id: JobId)
    requires Agreed(w) && IsHead(w.b, project, id) && IsPending(w, id)
    ensures IsFirst(PoolOf(w), project, id)
  {
    PoolOfMembers(w);
    forall j | j in PoolOf(w) && PoolOf(w)[j].project == project && j != id
      ensures Before(PoolOf(w)[id], PoolOf(w)[j])
    {
      assert j in ReadyIn(w.b, project);
      InversionKeepsOrder(w.b, id, j);
    }
  }

  lemma ClaimRefines(w: World, w': World, id: JobId, details: Option<Fields>, now: Time)
    requires w'.b.msgs == w.b.msgs && w'.rows == WriteStatus(w.rows, id, Running, details, now)
    ensures PoolOf(w') == PoolOf(w) - {id}
  {
    SamePool(w, w', {id});
  }

  lemma PollRefines(w: World, project: string, runner: string, now: Time)
    requires Agreed(w)
    ensures PoolEnabled(PoolOf(w), Abstract(w, OpPoll(project, runner, now)))
    ensures PoolOf(Poll(w, project, runner, now)) == PoolStep(PoolOf(w), Abstract(w, OpPoll(project, runner, now)))
  {
    var w' := Poll(w, project, runner, now);
    PollEffect(w, project, runner, now);
    if Head(w.b, project).Some? {
      var id := Head(w.b, project).value;
      if IsPending(w, id) {
        HeadIsFirst(w, project, id);
        ClaimRefines(w, w', id, Some(WithRunner(Decode(w.rows[id].details), runner)), now);
      } else {
        assert PoolOf(w') == PoolOf(w);
      }
    }
  }

  lemma StopRefines(w: World, id: JobId, status: Status, details: Option<Fields>, now: Time)
    requires IsStop(status)
    ensures PoolOf(w.(rows := WriteStatus(w.rows, id, status, details, now))) == PoolOf(w) - {id}
  {
    SamePool(w, w.(rows := WriteStatus(w.rows, id, status, details, now)), {id});
  }

  lemma PromoteEnabled(w: World, orig: JobId, id: JobId)
    requires Agreed(w) && id !in w.b.msgs && IsPending(w, orig)
    ensures var e := NewEntry(w, w.rows[orig].project, Decode(w.rows[orig].details), TOP_PRIORITY);
            PoolEnabled(PoolOf(w), Promote(orig, id, e))
  {
    PoolOfMembers(w);
  }

  function AfterSupersede(w: World, id: JobId, now: Time): World {
    w.(rows := WriteStatus(w.rows, id, Cancelled, Some(SUPERSEDED), now))
  }

  /** Prioritizing is stopping the original and enqueuing a successor. */
  lemma PrioritizeStopsAndEnqueues(w: World, orig: JobId, id: JobId, now: Time)
    requires IsPending(w, orig)
    ensures Prioritize(w, orig, id, Succeeds, Succeeds, Succeeds, now)
            == Enqueue(AfterSupersede(w, orig, now), id, w.rows[orig].project, Decode(w.rows[orig].details),
                       TOP_PRIORITY, Succeeds, Succeeds, now)
  {
  }

  lemma PrioritizeRefines(w: World, orig: JobId, id: JobId, now: Time)
    requires Agreed(w) && id !in w.b.msgs && IsPending(w, orig)
    ensures PoolOf(Prioritize(w, orig, id, Succeeds, Succeeds, Succeeds, now))
            == (PoolOf(w) - {orig})[id := NewEntry(w, w.rows[orig].project, Decode(w.rows[orig].details), TOP_PRIORITY)]
  {
    PrioritizeStopsAndEnqueues(w, orig, id, now);
    StopRefines(w, orig, Cancelled, Some(SUPERSEDED), now);
    StopAgrees(w, orig, Cancelled, Some(SUPERSEDED), now);
    EnqueueRefines(AfterSupersede(w, orig, now), id, w.rows[orig].project, Decode(w.rows[orig].details),
                   TOP_PRIORITY, now);
  }

  lemma ReportKeepsPending(w: World, op: Op, j: JobId)
    requires Agreed(w) && OpEnabled(w, op) && (op.OpProgress? || op.OpSubmit?)
    ensures IsPending(Step(w, op), j) <==> IsPending(w, j)
  {
  }

  lemma ReportRefines(w: World, op: Op)
    requires Agreed(w) && OpEnabled(w, op) && (op.OpProgress? || op.OpSubmit?)
    ensures PoolOf(Step(w, op)) == PoolOf(w)
  {
    forall j ensures IsPending(Step(w, op), j) <==> IsPending(w, j) {
      ReportKeepsPending(w, op, j);
    }
    SamePool(w, Step(w, op), {});
  }

  lemma RerunRefines(w: World, orig: JobId, id: JobId)
    requires Agreed(w) && id !in w.b.msgs
    ensures PoolOf(Rerun(w, orig, id, Succeeds)) == PoolOf(w)
  {
  }

  /** The refinement: every handler is one step of the eager queue, or a stutter. */
  lemma StepRefines(w: World, op: Op)
    requires Agreed(w) && OpEnabled(w, op)
    ensures PoolEnabled(PoolOf(w), Abstract(w, op))
    ensures PoolOf(Step(w, op)) == PoolStep(PoolOf(w), Abstract(w, op))
  {
    match op
    case OpEnqueue(id, project, details, priority, now) => EnqueueRefines(w, id, project, details, priority, now);
    case OpPoll(project, runner, now) => PollRefines(w, project, runner, now);
    case OpStop(id, status, now) => StopRefines(w, id, status, None, now);
    case OpPrioritize(orig, id, now) =>
      if IsPending(w, orig) {
        PromoteEnabled(w, orig, id);
        PrioritizeRefines(w, orig, id, now);
      }
    case OpRerun(orig, id) => RerunRefines(w, orig, id);
    case OpProgress(_, _) => ReportRefines(w, op);
    case OpSubmit(_) => ReportRefines(w, op);
  }

  function PoolRun(pool: Pool, ops: seq<PoolOp>): Option<Pool>
    decreases |ops|
  {
    if ops == [] then Some(pool)
    else if PoolEnabled(pool, ops[0]) then PoolRun(PoolStep(pool, ops[0]), ops[1..])
    else None
  }

  function AbstractTrace(w: World, ops: seq<Op>): seq<PoolOp>
    decreases |ops|
  {
    if ops == [] then [] else [Abstract(w, ops[0])] + AbstractTrace(Step(w, ops[0]), ops[1..])
  }

  /** Every run of handlers from the empty system is, seen through `PoolOf`, a run of the eager
      queue. */
  lemma {:induction false} RunRefines(w: World, ops: seq<Op>, t: World)
    requires Agreed(w) && RunOps(w, ops) == Some(t)
    ensures PoolRun(PoolOf(w), AbstractTrace(w, ops)) == Some(PoolOf(t))
    decreases |ops|
  {
    if ops != [] {
      var trace := AbstractTrace(w, ops);
      StepAgrees(w, ops[0]);
      StepRefines(w, ops[0]);
      RunRefines(Step(w, ops[0]), ops[1..], t);
      assert trace[1..] == AbstractTrace(Step(w, ops[0]), ops[1..]);
    }
  }
}
