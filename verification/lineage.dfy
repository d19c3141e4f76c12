/** Prioritizing a pending job moves its work to a successor, and a lineage of successors is worked
    on at most once. */
module Lineage {
  import opened Models
  import opened Persistent
  import opened Amqp
  import opened Dispatch
  import opened Agreement
  import opened Progress

  /** `t` is `w` with pending job `orig` superseded by `id`: the project has as many pending jobs as
      before, the successor carries project and details of the original, and it precedes every
      pending job of priority above 0. */
  ghost predicate Superseded(w: World, t: World, orig: JobId, id: JobId)
    requires orig in w.rows
  {
    var project := w.rows[orig].project;
    && !IsPending(t, orig) && IsPending(t, id)
    && PendingIn(t, project) == PendingIn(w, project) - {orig} + {id}
    && |PendingIn(t, project)| == |PendingIn(w, project)|
    && Read(id, t.rows[id]).project == project && Read(id, t.rows[id]).priority == 0
    && Read(id, t.rows[id]).details == Read(orig, w.rows[orig]).details
    && (forall j | j in PendingIn(t, project) && Read(j, t.rows[j]).priority > 0 ::
          id in t.b.msgs && j in t.b.msgs && Precedes(t.b.msgs[id], t.b.msgs[j]))
  }

  lemma PrioritizeConservesWork(w: World, orig: JobId, id: JobId, now: Time)
    requires Agreed(w) && IsPending(w, orig) && id !in w.b.msgs
    ensures Superseded(w, Prioritize(w, orig, id, Succeeds, Succeeds, Succeeds, now), orig, id)
  {
    PendingMoves(w, orig, id, now);
    PrioritizeAgrees(w, orig, id, now);
    Supersedes(w, Prioritize(w, orig, id, Succeeds, Succeeds, Succeeds, now), orig, id, now);
  }

  lemma Supersedes(w: World, t: World, orig: JobId, id: JobId, now: Time)
    requires Agreed(t) && IsPending(w, orig) && id !in w.rows && !IsPending(t, orig) && IsPending(t, id)
    requires var project := w.rows[orig].project;
             && PendingIn(t, project) == PendingIn(w, project) - {orig} + {id}
             && t.rows[id] == PendingRow(project, Decode(w.rows[orig].details), TOP_PRIORITY, now)
    ensures Superseded(w, t, orig, id)
  {
    SwapSize(PendingIn(w, w.rows[orig].project), orig, id);
    TopComesFirst(t, w.rows[orig].project, id);
  }

  lemma SwapSize(ids: set<JobId>, a: JobId, b: JobId)
    requires a in ids && b !in ids
    ensures |ids - {a} + {b}| == |ids|
  {
  }

  lemma TopComesFirst(t: World, project: string, id: JobId)
    requires Agreed(t) && id in PendingIn(t, project) && t.rows[id].priority == Some(TOP_PRIORITY)
    ensures forall j | j in PendingIn(t, project) && Read(j, t.rows[j]).priority > 0 ::
              id in t.b.msgs && j in t.b.msgs && Precedes(t.b.msgs[id], t.b.msgs[j])
  {
    forall j | j in PendingIn(t, project) && Read(j, t.rows[j]).priority > 0
      ensures id in t.b.msgs && j in t.b.msgs && Precedes(t.b.msgs[id], t.b.msgs[j])
    {
      assert IsPending(t, j) && IsPending(t, id);
    }
  }

  lemma PendingMoves(w: World, orig: JobId, id: JobId, now: Time)
    requires Agreed(w) && IsPending(w, orig) && id !in w.b.msgs
    ensures var t := Prioritize(w, orig, id, Succeeds, Succeeds, Succeeds, now);
            var project := w.rows[orig].project;
            && PendingIn(t, project) == PendingIn(w, project) - {orig} + {id}
            && !IsPending(t, orig) && IsPending(t, id)
            && t.rows[id] == PendingRow(project, Decode(w.rows[orig].details), TOP_PRIORITY, now)
  {
  }

  /** Of two pending jobs of a project, the one that precedes comes out first when the queue is
      drained; so a successor is handed out before every pending job of priority above 0. */
  lemma ComesOutFirst(t: World, project: string, id: JobId, j: JobId, runner: string, now: Time, n: nat)
    returns (out: seq<JobId>, i: nat, k: nat)
    requires Agreed(t) && n >= |ReadyIn(t.b, project)|
    requires id in PendingIn(t, project) && j in PendingIn(t, project)
    requires id in t.b.msgs && j in t.b.msgs && Precedes(t.b.msgs[id], t.b.msgs[j])
    ensures Polls(t, project, runner, now, n)[n].handed == t.handed + out
    ensures i < k < |out| && out[i] == id && out[k] == j
  {
    out := DrainInOrder(t, project, runner, now, n);
    i := Position(out, id);
    k := Position(out, j);
    OrderDecides(t.b.msgs, PendingIn(t, project), out, i, k);
  }

  lemma OrderDecides(msgs: map<JobId, Message>, ids: set<JobId>, out: seq<JobId>, i: nat, k: nat)
    requires i < |out| && k < |out| && ListsInOrder(msgs, ids, out)
    requires out[i] in msgs && out[k] in msgs && Precedes(msgs[out[i]], msgs[out[k]])
    ensures i < k
  {
  }

  lemma Position(ids: seq<JobId>, id: JobId) returns (i: nat)
    requires id in ids
    ensures i < |ids| && ids[i] == id
  {
    i :| 0 <= i < |ids| && ids[i] == id;
  }

  // ---- Lineages ----

  /** The lineage of every published job, named by the publish number of its first member: prioritizing
      continues a lineage, enqueuing and rerunning start one. */
  type Lines = map<JobId, nat>

  /** The job a handler publishes, if it does. */
  function Born(w: World, op: Op): Option<JobId> {
    match op
    case OpEnqueue(id, _, _, _, _) => Some(id)
    case OpRerun(orig, id) => if orig in w.rows then Some(id) else None
    case OpPrioritize(orig, id, _) => if IsPending(w, orig) then Some(id) else None
    case _ => None
  }

  function Track(w: World, lines: Lines, op: Op): Lines {
    if Born(w, op) == None then lines
    else if op.OpPrioritize? && op.orig in lines then lines[op.id := lines[op.orig]]
    else lines[Born(w, op).value := w.b.next]
  }

  /** A job that is waiting or was handed out. */
  predicate Working(w: World, id: JobId) {
    IsPending(w, id) || id in w.handed
  }

  function Workers(w: World): (ids: set<JobId>)
    ensures forall i :: i in ids <==> Working(w, i)
  {
    (set i | i in w.rows && IsPending(w, i)) + (set i | i in w.handed)
  }

  /** Of the jobs of one lineage at most one is working; `next` is the next lineage's name. */
  ghost predicate OneEach(lines: Lines, next: nat, workers: set<JobId>) {
    && (forall i | i in lines :: lines[i] < next)
    && (forall i, j | i in lines && j in lines && i in workers && j in workers && lines[i] == lines[j] :: i == j)
  }

  lemma Begins(lines: Lines, next: nat, before: set<JobId>, after: set<JobId>, id: JobId)
    requires OneEach(lines, next, before) && id !in lines && after <= before + {id}
    ensures OneEach(lines[id := next], next + 1, after)
  {
  }

  /** Adding one member to a lineage whose working member stops. */
  lemma Continues(lines: Lines, next: nat, before: set<JobId>, after: set<JobId>, id: JobId, stopped: JobId)
    requires OneEach(lines, next, before) && id !in lines && stopped in lines && stopped in before
    requires after <= before - {stopped} + {id}
    ensures OneEach(lines[id := lines[stopped]], next + 1, after)
  {
  }

  lemma Shrinks(lines: Lines, next: nat, next': nat, before: set<JobId>, after: set<JobId>)
    requires OneEach(lines, next, before) && after <= before && next <= next'
    ensures OneEach(lines, next', after)
  {
  }

  /** The jobs an operation adds to those working, and those it takes away. */
  function Starters(w: World, op: Op): set<JobId> {
    if Born(w, op).Some? then {Born(w, op).value} else {}
  }

  function Leavers(w: World, op: Op): set<JobId> {
    if op.OpPrioritize? && IsPending(w, op.orig) then {op.orig} else {}
  }

  lemma PublishedMoves(w: World, op: Op)
    requires Agreed(w) && OpEnabled(w, op)
    ensures Step(w, op).b.msgs.Keys == w.b.msgs.Keys + Starters(w, op)
    ensures Starters(w, op) !! w.b.msgs.Keys
  {
    if op.OpPoll? {
      PollEffect(w, op.project, op.runner, op.now);
    }
  }

  lemma NextMoves(w: World, op: Op)
    requires Agreed(w) && OpEnabled(w, op)
    ensures Step(w, op).b.next == w.b.next + (if Born(w, op).Some? then 1 else 0)
  {
    if op.OpPoll? {
      PollEffect(w, op.project, op.runner, op.now);
    }
  }

  lemma PollWorking(w: World, project: string, runner: string, now: Time, i: JobId)
    requires Agreed(w) && Working(Poll(w, project, runner, now), i)
    ensures Working(w, i)
  {
    PollEffect(w, project, runner, now);
  }

  lemma WorkingMoves(w: World, op: Op, i: JobId)
    requires Agreed(w) && OpEnabled(w, op) && Working(Step(w, op), i) && !op.OpPoll?
    ensures i in Workers(w) - Leavers(w, op) + Starters(w, op)
  {
  }

  /** An operation sets no job to work but the one it publishes; a prioritized job stops working. */
  lemma WorkersMove(w: World, op: Op)
    requires Agreed(w) && OpEnabled(w, op)
    ensures Workers(Step(w, op)) <= Workers(w) - Leavers(w, op) + Starters(w, op)
  {
    forall i | i in Workers(Step(w, op))
      ensures i in Workers(w) - Leavers(w, op) + Starters(w, op)
    {
      if op.OpPoll? {
        PollWorking(w, op.project, op.runner, op.now, i);
      } else {
        WorkingMoves(w, op, i);
      }
    }
  }

  ghost predicate OneWorker(w: World, lines: Lines) {
    lines.Keys == w.b.msgs.Keys && OneEach(lines, w.b.next, Workers(w))
  }

  lemma OneEachStep(w: World, lines: Lines, op: Op, t: World)
    requires OneWorker(w, lines) && w.rows.Keys <= w.b.msgs.Keys
    requires Workers(t) <= Workers(w) - Leavers(w, op) + Starters(w, op)
    requires t.b.msgs.Keys == w.b.msgs.Keys + Starters(w, op) && Starters(w, op) !! w.b.msgs.Keys
    requires t.b.next == w.b.next + (if Born(w, op).Some? then 1 else 0)
    ensures OneWorker(t, Track(w, lines, op))
  {
    if Leavers(w, op) != {} {
      Continues(lines, w.b.next, Workers(w), Workers(t), op.id, op.orig);
    } else if Starters(w, op) != {} {
      Begins(lines, w.b.next, Workers(w), Workers(t), Born(w, op).value);
    } else {
      Shrinks(lines, w.b.next, t.b.next, Workers(w), Workers(t));
    }
  }

  lemma OneWorkerStep(w: World, lines: Lines, op: Op)
    requires Agreed(w) && OpEnabled(w, op) && OneWorker(w, lines)
    ensures OneWorker(Step(w, op), Track(w, lines, op))
  {
    PublishedMoves(w, op);
    NextMoves(w, op);
    WorkersMove(w, op);
    OneEachStep(w, lines, op, Step(w, op));
  }

  function TrackAll(w: World, lines: Lines, ops: seq<Op>): Lines
    decreases |ops|
  {
    if ops == [] then lines else TrackAll(Step(w, ops[0]), Track(w, lines, ops[0]), ops[1..])
  }

  lemma {:induction false} OneWorkerRun(w: World, lines: Lines, ops: seq<Op>, t: World)
    requires Agreed(w) && OneWorker(w, lines) && RunOps(w, ops) == Some(t)
    ensures Agreed(t) && OneWorker(t, TrackAll(w, lines, ops))
    decreases |ops|
  {
    if ops != [] {
      StepAgrees(w, ops[0]);
      OneWorkerStep(w, lines, ops[0]);
      OneWorkerRun(Step(w, ops[0]), Track(w, lines, ops[0]), ops[1..], t);
    }
  }

  /** Over every run of whole handlers, of all jobs of one lineage at most one is waiting or was handed
      out, and that one was handed out at most once. */
  lemma LineageIsWorkedOnce(ops: seq<Op>, t: World, i: JobId, j: JobId)
    requires RunOps(START, ops) == Some(t)
    requires var lines := TrackAll(START, map[], ops); i in lines && j in lines && lines[i] == lines[j]
    ensures Working(t, i) && Working(t, j) ==> i == j
    ensures multiset(t.handed)[i] <= 1
  {
    OneWorkerRun(START, map[], ops, t);
    AtMostOneOf(t.handed, i);
  }

  lemma {:induction false} AtMostOneOf(ids: seq<JobId>, i: JobId)
    requires forall a, b | 0 <= a < b < |ids| :: ids[a] != ids[b]
    ensures multiset(ids)[i] <= 1
    decreases |ids|
  {
    if ids != [] {
      var n := |ids| - 1;
      assert ids == ids[..n] + [ids[n]];
      AtMostOneOf(ids[..n], i);
      if ids[n] == i {
        assert i !in ids[..n];
      }
    }
  }
}
