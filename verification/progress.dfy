/** Polling a queue: in which order jobs come out, how soon, and when it is empty. */
module Progress {
  import opened Models
  import opened Persistent
  import opened Amqp
  import opened Dispatch
  import opened Agreement

  function PendingIn(w: World, project: string): set<JobId> {
    WithStatus(w.rows, project, Pending)
  }

  function StaleIn(w: World, project: string): set<JobId> {
    set id | id in ReadyIn(w.b, project) && !IsPending(w, id)
  }

  /** The live messages of a queue are its project's pending jobs; the others are stale. */
  lemma LiveArePending(w: World, project: string)
    requires Agreed(w)
    ensures PendingIn(w, project) == ReadyIn(w.b, project) - StaleIn(w, project)
    ensures PendingIn(w, project) <= ReadyIn(w.b, project) <= w.b.msgs.Keys
  {
  }

  // ---- One project's queue by itself ----

  datatype View = View(msgs: map<JobId, Message>, ready: set<JobId>, pending: set<JobId>, handed: seq<JobId>)

  function ViewOf(w: World, project: string): View {
    View(w.b.msgs, ReadyIn(w.b, project), PendingIn(w, project), w.handed)
  }

  ghost predicate Sound(v: View) {
    v.pending <= v.ready <= v.msgs.Keys
  }

  ghost predicate IsNext(v: View, ids: set<JobId>, id: JobId) {
    id in ids && id in v.msgs && forall j | j in ids && j in v.msgs && j != id :: Precedes(v.msgs[id], v.msgs[j])
  }

  /** Consume a message; its job is handed out if it is pending. */
  function Take(v: View, id: JobId): View {
    v.(ready := v.ready - {id}, pending := v.pending - {id},
       handed := v.handed + (if id in v.pending then [id] else []))
  }

  ghost predicate Advances(v: View, v': View) {
    (v.ready == {} && v' == v) || exists id :: IsNext(v, v.ready, id) && v' == Take(v, id)
  }

  lemma TakesHead(w: World, w': World, project: string, id: JobId, details: Option<Fields>, now: Time)
    requires Agreed(w) && IsHead(w.b, project, id) && w'.b == Settle(Deliver(w.b, id), id, false)
    requires if IsPending(w, id)
             then w'.handed == w.handed + [id] && w'.rows == WriteStatus(w.rows, id, Running, details, now)
             else w'.handed == w.handed && w'.rows == w.rows
    ensures Advances(ViewOf(w, project), ViewOf(w', project))
  {
    var v, v' := ViewOf(w, project), ViewOf(w', project);
    assert v'.ready == v.ready - {id};
    assert v'.pending == v.pending - {id};
    assert IsPending(w, id) <==> id in v.pending by {
      assert id in v.ready;
    }
    assert IsNext(v, v.ready, id) && v' == Take(v, id);
  }

  lemma PollAdvances(w: World, project: string, runner: string, now: Time)
    requires Agreed(w)
    ensures Advances(ViewOf(w, project), ViewOf(Poll(w, project, runner, now), project))
  {
    PollEffect(w, project, runner, now);
    if Head(w.b, project).Some? {
      var id := Head(w.b, project).value;
      var details := if id in w.rows then Decode(w.rows[id].details) else None;
      TakesHead(w, Poll(w, project, runner, now), project, id, Some(WithRunner(details, runner)), now);
    }
  }

  ghost predicate Chain(vs: seq<View>) {
    && |vs| > 0
    && (forall i | 0 <= i < |vs| :: Sound(vs[i]))
    && (forall i | 0 < i < |vs| :: Advances(vs[i - 1], vs[i]))
  }

  // ---- Draining ----

  /** `out` lists exactly `ids`, in the broker's order (hence each once). */
  ghost predicate ListsInOrder(msgs: map<JobId, Message>, ids: set<JobId>, out: seq<JobId>) {
    && ids <= msgs.Keys
    && (forall id :: id in out <==> id in ids)
    && (forall i, j | 0 <= i < j < |out| :: out[i] in msgs && out[j] in msgs && Precedes(msgs[out[i]], msgs[out[j]]))
  }

  lemma ListsCons(msgs: map<JobId, Message>, ids: set<JobId>, first: JobId, rest: seq<JobId>)
    requires first in ids && ids <= msgs.Keys && ListsInOrder(msgs, ids - {first}, rest)
    requires forall j | j in ids && j != first :: Precedes(msgs[first], msgs[j])
    ensures ListsInOrder(msgs, ids, [first] + rest)
  {
    var out := [first] + rest;
    forall i, j | 0 <= i < j < |out|
      ensures out[i] in msgs && out[j] in msgs && Precedes(msgs[out[i]], msgs[out[j]])
    {
      assert out[j] == rest[j - 1] && rest[j - 1] in rest;
      if i > 0 {
        assert out[i] == rest[i - 1];
      }
    }
  }

  lemma {:induction false} ChainDrains(vs: seq<View>) returns (out: seq<JobId>)
    requires Chain(vs) && |vs| > |vs[0].ready|
    ensures var t := vs[|vs| - 1]; t.handed == vs[0].handed + out && t.ready == t.pending == {}
    ensures ListsInOrder(vs[0].msgs, vs[0].pending, out)
    decreases |vs|
  {
    var v := vs[0];
    if v.ready == {} {
      out := [];
      if |vs| > 1 {
        assert Advances(v, vs[1]) && vs[1] == v;
        out := ChainDrains(vs[1..]);
      }
    } else {
      assert |vs| > 1 && Advances(v, vs[1]);
      var id :| IsNext(v, v.ready, id) && vs[1] == Take(v, id);
      out := ChainDrains(vs[1..]);
      if id in v.pending {
        ListsCons(v.msgs, v.pending, id, out);
        out := [id] + out;
      } else {
        assert v.pending - {id} == v.pending;
      }
    }
  }

  /** The worlds met while polling `n` times. */
  function Polls(w: World, project: string, runner: string, now: Time, n: nat): (ws: seq<World>)
    ensures |ws| == n + 1 && ws[0] == w
    decreases n
  {
    if n == 0 then [w] else [w] + Polls(Poll(w, project, runner, now), project, runner, now, n - 1)
  }

  function Views(ws: seq<World>, project: string): (vs: seq<View>)
    ensures |vs| == |ws| && forall i | 0 <= i < |ws| :: vs[i] == ViewOf(ws[i], project)
  {
    seq(|ws|, i requires 0 <= i < |ws| => ViewOf(ws[i], project))
  }

  lemma ChainCons(w: World, ws: seq<World>, project: string)
    requires |ws| > 0 && Chain(Views(ws, project))
    requires Sound(ViewOf(w, project)) && Advances(ViewOf(w, project), ViewOf(ws[0], project))
    ensures Chain(Views([w] + ws, project))
  {
    var vs, vs' := Views(ws, project), Views([w] + ws, project);
    assert vs' == [ViewOf(w, project)] + vs;
  }

  lemma {:induction false} PollsChain(w: World, project: string, runner: string, now: Time, n: nat)
    requires Agreed(w)
    ensures Chain(Views(Polls(w, project, runner, now, n), project))
    decreases n
  {
    LiveArePending(w, project);
    if n > 0 {
      var w' := Poll(w, project, runner, now);
      PollAgrees(w, project, runner, now);
      PollAdvances(w, project, runner, now);
      PollsChain(w', project, runner, now, n - 1);
      ChainCons(w, Polls(w', project, runner, now, n - 1), project);
    }
  }

  /** Drain: as many polls as there are ready messages empty the queue and its pending set, and hand
      out exactly the pending jobs, each once, in the broker's order. */
  lemma DrainInOrder(w: World, project: string, runner: string, now: Time, n: nat) returns (out: seq<JobId>)
    requires Agreed(w) && n >= |ReadyIn(w.b, project)|
    ensures var t := Polls(w, project, runner, now, n)[n];
            t.handed == w.handed + out && ReadyIn(t.b, project) == {} && PendingIn(t, project) == {}
    ensures ListsInOrder(w.b.msgs, PendingIn(w, project), out)
  {
    PollsChain(w, project, runner, now, n);
    out := ChainDrains(Views(Polls(w, project, runner, now, n), project));
  }

  // ---- Reaching the next pending job ----

  /** The ready messages that come out before `id`. */
  function Ahead(v: View, id: JobId): set<JobId>
    requires id in v.msgs
  {
    set j | j in v.ready && j in v.msgs && Precedes(v.msgs[j], v.msgs[id])
  }

  lemma TakeAhead(v: View, id: JobId, next: JobId)
    requires Sound(v) && IsNext(v, v.pending, id) && IsNext(v, v.ready, next)
    ensures Ahead(v, id) !! v.pending
    ensures next == id <==> Ahead(v, id) == {}
    ensures next != id ==> next in Ahead(v, id) && next !in v.pending
                           && IsNext(Take(v, next), Take(v, next).pending, id)
                           && Ahead(Take(v, next), id) == Ahead(v, id) - {next}
  {
    if next != id {
      assert next in Ahead(v, id);
    }
  }

  lemma {:induction false} ChainReaches(vs: seq<View>, id: JobId, k: nat)
    requires Chain(vs) && IsNext(vs[0], vs[0].pending, id)
    requires k == |Ahead(vs[0], id)| && k + 1 < |vs|
    ensures vs[k].handed == vs[0].handed && vs[k + 1].handed == vs[0].handed + [id]
    decreases k
  {
    assert Advances(vs[0], vs[1]);
    var next :| IsNext(vs[0], vs[0].ready, next) && vs[1] == Take(vs[0], next);
    TakeAhead(vs[0], id, next);
    if k > 0 {
      ChainReaches(vs[1..], id, k - 1);
    }
  }

  lemma AheadIsNotPending(v: View, id: JobId)
    requires Sound(v) && IsNext(v, v.pending, id)
    ensures Ahead(v, id) <= v.ready - v.pending
  {
  }

  lemma AheadIsStale(w: World, project: string, id: JobId)
    requires Agreed(w) && IsNext(ViewOf(w, project), PendingIn(w, project), id)
    ensures Ahead(ViewOf(w, project), id) <= StaleIn(w, project)
  {
    LiveArePending(w, project);
    AheadIsNotPending(ViewOf(w, project), id);
  }

  /** The first pending job comes out at exactly the poll after the stale messages ahead of it. */
  lemma ReachesFirstPending(w: World, project: string, runner: string, now: Time, id: JobId)
    requires Agreed(w) && IsNext(ViewOf(w, project), PendingIn(w, project), id)
    ensures var ahead := Ahead(ViewOf(w, project), id);
            var ws := Polls(w, project, runner, now, |ahead| + 1);
            && ahead <= StaleIn(w, project)
            && ws[|ahead|].handed == w.handed && ws[|ahead| + 1].handed == w.handed + [id]
  {
    var k := |Ahead(ViewOf(w, project), id)|;
    AheadIsStale(w, project, id);
    PollsChain(w, project, runner, now, k + 1);
    ChainReaches(Views(Polls(w, project, runner, now, k + 1), project), id, k);
  }

  /** Some pending job is first whenever there is one. */
  lemma FirstPendingExists(w: World, project: string) returns (id: JobId)
    requires Agreed(w) && |PendingIn(w, project)| > 0
    ensures IsNext(ViewOf(w, project), PendingIn(w, project), id)
  {
    LiveArePending(w, project);
    id := FirstOf(w.b, PendingIn(w, project));
  }

  // ---- The overview and the queue ----

  lemma BestPriority(w: World, project: string, id: JobId)
    requires Agreed(w) && IsNext(ViewOf(w, project), PendingIn(w, project), id)
    ensures var best := Overview(w.rows, project).highestPriority;
            best.Some? && Min(best.value, MAX_PRIORITY) == Min(w.b.msgs[id].priority, MAX_PRIORITY)
  {
    assert Mirrors(w.rows[id], w.b.msgs[id]);
    BestIsLeast(w.rows, project, id);
    var j := BestIsPending(w.rows, project);
    assert IsPending(w, j) && Mirrors(w.rows[j], w.b.msgs[j]);
    assert j in PendingIn(w, project) && (j == id || Precedes(w.b.msgs[id], w.b.msgs[j]));
  }

  ghost predicate NoneRunning(w: World) {
    forall id | id in w.b.ready && id in w.rows :: w.rows[id].status != Running
  }

  lemma ReadyNeverRuns(w: World)
    requires Agreed(w)
    ensures NoneRunning(w)
  {
  }

  /** The database overview and the broker tell the same story: the queue's size is the pending jobs
      plus the stale messages, no ready message has a RUNNING row, and the overview's best priority,
      clamped, is that of the first live message. */
  lemma TwoViewsAgree(w: World, project: string, first: JobId)
    requires Agreed(w)
    ensures var o := Overview(w.rows, project);
            && o.pendingJobs == |ReadyIn(w.b, project) - StaleIn(w, project)|
            && |ReadyIn(w.b, project)| == o.pendingJobs + |StaleIn(w, project)|
            && (o.highestPriority == None <==> ReadyIn(w.b, project) == StaleIn(w, project))
            && (IsNext(ViewOf(w, project), PendingIn(w, project), first) ==>
                  o.highestPriority.Some?
                  && Min(o.highestPriority.value, MAX_PRIORITY) == Min(w.b.msgs[first].priority, MAX_PRIORITY))
    ensures NoneRunning(w)
  {
    OverviewCounts(w, project);
    ReadyNeverRuns(w);
    if IsNext(ViewOf(w, project), PendingIn(w, project), first) {
      BestPriority(w, project, first);
    }
  }

  lemma OverviewCounts(w: World, project: string)
    requires Agreed(w)
    ensures var o := Overview(w.rows, project);
            && o.pendingJobs == |ReadyIn(w.b, project) - StaleIn(w, project)|
            && |ReadyIn(w.b, project)| == o.pendingJobs + |StaleIn(w, project)|
            && (o.highestPriority == None <==> ReadyIn(w.b, project) == StaleIn(w, project))
  {
    Counts(w, project);
    var o := Overview(w.rows, project);
    assert o.pendingJobs == |PendingIn(w, project)|;
    if o.highestPriority.Some? {
      assert PendingIn(w, project) != {};
    }
  }

  lemma SizeOfParts<T>(whole: set<T>, part: set<T>, rest: set<T>)
    requires part == whole - rest && rest <= whole
    ensures |whole| == |part| + |rest|
  {
    assert whole == part + rest;
  }

  lemma AllPrioritised(w: World, project: string)
    requires Agreed(w)
    ensures Prioritised(w.rows, PendingIn(w, project)) == PendingIn(w, project)
  {
    forall id | id in PendingIn(w, project) ensures w.rows[id].priority.Some? {
      assert IsPending(w, id);
    }
  }

  lemma Counts(w: World, project: string)
    requires Agreed(w)
    ensures PendingIn(w, project) == ReadyIn(w.b, project) - StaleIn(w, project)
    ensures |ReadyIn(w.b, project)| == |PendingIn(w, project)| + |StaleIn(w, project)|
    ensures Prioritised(w.rows, PendingIn(w, project)) == PendingIn(w, project)
    ensures ReadyIn(w.b, project) == StaleIn(w, project) <==> PendingIn(w, project) == {}
  {
    LiveArePending(w, project);
    AllPrioritised(w, project);
    SizeOfParts(ReadyIn(w.b, project), PendingIn(w, project), StaleIn(w, project));
  }
}
