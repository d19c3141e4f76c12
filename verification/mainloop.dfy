/** The runner's main loop while nobody else moves: overview, choice, poll, result, and again. */
module MainLoop {
  import opened Models
  import opened Persistent
  import opened Amqp
  import opened Dispatch
  import opened Agreement
  import opened Progress
  import opened EndToEnd

  /** The listed projects, the runner's assigned ones, and the result it posts for each job. */
  datatype Setup = Setup(names: seq<string>, mine: set<string>, trim: string -> string, runner: string, now: Time,
                         result: JobId -> TestResult)
  {
    /** Project names carry no blanks around them, "" is never assigned, and a result is for its job. */
    ghost predicate Valid() {
      && (forall n | n in names :: trim(n) == n)
      && "" !in mine
      && (forall j :: result(j).jobId == j && result(j).status != Pending)
    }
  }

  // ---- One round ----

  /** The index of the overview selectBestProject picks, if it picks one. */
  ghost function Choice(w: World, c: Setup): (k: Option<nat>)
    ensures k.Some? ==> k.value < |c.names| && Runner.IsBest(Overviews(w.rows, c.names), c.mine, c.trim, k.value)
    ensures k == None ==> forall i: nat :: !Runner.IsBest(Overviews(w.rows, c.names), c.mine, c.trim, i)
  {
    if i: nat :| Runner.IsBest(Overviews(w.rows, c.names), c.mine, c.trim, i) then Some(i) else None
  }

  /** The result of a job that was handed out is posted; it changes nothing when no job was. */
  function Report(w: World, handed: World, c: Setup): World {
    if |handed.handed| > |w.handed|
    then Submit(handed, c.result(handed.handed[|w.handed|]), Succeeds)
    else handed
  }

  ghost function Round(w: World, c: Setup): World {
    match Choice(w, c)
    case None => w
    case Some(k) => Report(w, Poll(w, c.trim(c.names[k]), c.runner, c.now), c)
  }

  /** The worlds met in `n` rounds. */
  ghost function Rounds(w: World, c: Setup, n: nat): (ws: seq<World>)
    ensures |ws| == n + 1 && ws[0] == w
    decreases n
  {
    if n == 0 then [w] else [w] + Rounds(Round(w, c), c, n - 1)
  }

  // ---- A choice is made exactly when something is urgent ----

  lemma {:induction false} BestExists(os: seq<ProjectQueueOverview>, c: Setup) returns (k: nat)
    requires !Runner.NoneUrgent(os, c.mine, c.trim)
    ensures Runner.IsBest(os, c.mine, c.trim, k)
    decreases |os|
  {
    var n := |os| - 1;
    var last, rest := os[n], os[..n];
    assert os == rest + [last];
    if Runner.NoneUrgent(rest, c.mine, c.trim) {
      k := n;
      assert forall i | 0 <= i < n :: os[i] in rest;
    } else {
      k := BestExists(rest, c);
      if Runner.Eligible(last, c.mine, c.trim) && Runner.Value(last) < Runner.Value(rest[k]) {
        k := n;
      }
    }
  }

  /** A job offered to the runner with a priority it can select. */
  ghost predicate Urgent(w: World, c: Setup, j: JobId) {
    Offered(w, c.names, c.mine, c.trim, j) && PriorityOf(w, j) < 10
  }

  ghost predicate Idle(w: World, c: Setup) {
    forall j :: !Urgent(w, c, j)
  }

  lemma ChoosesExactlyWhen(w: World, c: Setup)
    requires Agreed(w)
    ensures Choice(w, c) == None <==> Idle(w, c)
  {
    NothingUrgentNothingSelected(w, c.names, c.mine, c.trim);
    if Choice(w, c) == None {
      if !Runner.NoneUrgent(Overviews(w.rows, c.names), c.mine, c.trim) {
        var k := BestExists(Overviews(w.rows, c.names), c);
        assert false;
      }
    } else {
      var j := SelectedIsUrgent(w, c.names, c.mine, c.trim, Choice(w, c).value);
      assert Urgent(w, c, j);
    }
  }

  // ---- What a round consumes ----

  predicate Serves(c: Setup, project: string) {
    project in c.names && c.trim(project) in c.mine
  }

  /** The messages rounds get rid of: stale ones and urgent ones, in the queues of the served projects. */
  ghost function Work(w: World, c: Setup): set<JobId> {
    set id | id in w.b.ready && id in w.b.msgs && Serves(c, w.b.msgs[id].project)
             && (IsPending(w, id) ==> PriorityOf(w, id) < 10)
  }

  lemma UrgentIsWork(w: World, c: Setup, j: JobId)
    requires Agreed(w) && Urgent(w, c, j)
    ensures j in Work(w, c) && j in w.b.msgs
    ensures w.b.msgs[j].priority == PriorityOf(w, j) && w.b.msgs[j].project == w.rows[j].project
  {
    assert Mirrors(w.rows[j], w.b.msgs[j]);
  }

  /** `id` is the head of the queue the runner chose to poll. */
  ghost predicate Polled(w: World, c: Setup, k: nat, id: JobId) {
    && k < |c.names| && Runner.IsBest(Overviews(w.rows, c.names), c.mine, c.trim, k)
    && IsHead(w.b, c.names[k], id)
  }

  lemma PendingHeadIsNext(w: World, project: string, id: JobId)
    requires Agreed(w) && IsHead(w.b, project, id) && IsPending(w, id)
    ensures IsNext(ViewOf(w, project), PendingIn(w, project), id)
  {
    LiveArePending(w, project);
    assert id in PendingIn(w, project);
  }

  /** The pending head of the chosen queue has the priority its overview shows. */
  lemma PolledPriority(w: World, c: Setup, k: nat, id: JobId)
    requires Agreed(w) && Polled(w, c, k, id) && IsPending(w, id)
    ensures PriorityOf(w, id) < 10
    ensures Overview(w.rows, c.names[k]).highestPriority == Some(PriorityOf(w, id))
  {
    assert Overviews(w.rows, c.names)[k] == Overview(w.rows, c.names[k]);
    assert Mirrors(w.rows[id], w.b.msgs[id]);
    PendingHeadIsNext(w, c.names[k], id);
    BestPriority(w, c.names[k], id);
  }

  lemma PolledIsUrgent(w: World, c: Setup, k: nat, id: JobId)
    requires Agreed(w) && Polled(w, c, k, id) && IsPending(w, id)
    ensures Urgent(w, c, id)
  {
    PolledPriority(w, c, k, id);
    assert Mirrors(w.rows[id], w.b.msgs[id]);
  }

  lemma PolledIsLeast(w: World, c: Setup, k: nat, id: JobId, j: JobId)
    requires Agreed(w) && Polled(w, c, k, id) && IsPending(w, id) && Urgent(w, c, j)
    ensures PriorityOf(w, id) <= PriorityOf(w, j)
  {
    PolledPriority(w, c, k, id);
    var os := Overviews(w.rows, c.names);
    var i := OfferedIsCounted(w, c.names, c.mine, c.trim, j);
    assert os[k] == Overview(w.rows, c.names[k]);
  }

  lemma PolledIsWork(w: World, c: Setup, k: nat, id: JobId)
    requires Agreed(w) && Polled(w, c, k, id)
    ensures id in Work(w, c)
  {
    if IsPending(w, id) {
      PolledPriority(w, c, k, id);
    }
  }

  lemma HeadPrecedesUrgent(w: World, c: Setup, k: nat, id: JobId, j: JobId)
    requires Agreed(w) && Polled(w, c, k, id) && Urgent(w, c, j) && j != id
    requires j in w.b.msgs && w.b.msgs[j].project == c.names[k]
    ensures Precedes(w.b.msgs[id], w.b.msgs[j])
  {
    assert IsPending(w, j);
    assert j in ReadyIn(w.b, c.names[k]);
  }

  /** `t` is `w` after a round that consumed `id`: nothing else is consumed, no other row starts or
      stops being pending, and pending rows keep project and priority. */
  ghost predicate Consumed(w: World, t: World, id: JobId) {
    && t.b.msgs == w.b.msgs && t.b.ready == w.b.ready - {id}
    && t.handed == (if IsPending(w, id) then w.handed + [id] else w.handed)
    && (forall j :: IsPending(t, j) <==> IsPending(w, j) && j != id)
    && (forall j | IsPending(t, j) :: t.rows[j] == w.rows[j])
  }

  lemma ConsumedWork(w: World, t: World, c: Setup, id: JobId)
    requires Agreed(w) && Consumed(w, t, id)
    ensures Work(t, c) == Work(w, c) - {id}
    ensures forall j :: Urgent(t, c, j) <==> Urgent(w, c, j) && j != id
  {
    forall j ensures j in Work(t, c) <==> j in Work(w, c) && j != id {
      assert IsPending(t, j) <==> IsPending(w, j) && j != id;
    }
    forall j ensures Urgent(t, c, j) <==> Urgent(w, c, j) && j != id {
      assert IsPending(t, j) <==> IsPending(w, j) && j != id;
    }
  }

  lemma PollConsumes(w: World, project: string, runner: string, now: Time, id: JobId)
    requires Agreed(w) && IsHead(w.b, project, id)
    ensures Consumed(w, Poll(w, project, runner, now), id)
  {
    PollEffect(w, project, runner, now);
    HeadIs(w.b, project, id);
  }

  lemma ReportConsumes(w: World, m: World, c: Setup, id: JobId)
    requires Agreed(m) && Consumed(w, m, id) && c.Valid()
    ensures Consumed(w, Report(w, m, c), id) && Agreed(Report(w, m, c))
  {
    if IsPending(w, id) {
      assert m.handed[|w.handed|] == id && id in m.handed;
      ReportAgrees(m, OpSubmit(c.result(id)));
      SubmitKeeps(w, m, c.result(id), id);
    }
  }

  lemma SubmitKeeps(w: World, m: World, r: TestResult, id: JobId)
    requires Consumed(w, m, id) && r.jobId == id && r.status != Pending
    ensures Consumed(w, Submit(m, r, Succeeds), id)
  {
    var t := Submit(m, r, Succeeds);
    forall j ensures IsPending(t, j) <==> IsPending(m, j) {
    }
  }

  lemma RoundConsumes(w: World, c: Setup) returns (k: nat, id: JobId)
    requires Agreed(w) && c.Valid() && Choice(w, c).Some?
    ensures Polled(w, c, k, id) && Consumed(w, Round(w, c), id) && Agreed(Round(w, c))
  {
    k := Choice(w, c).value;
    var project := c.names[k];
    assert Overviews(w.rows, c.names)[k] == Overview(w.rows, project);
    ChosenQueueIsReady(w, project);
    HeadExists(w.b, project);
    id := Head(w.b, project).value;
    PollConsumes(w, project, c.runner, c.now, id);
    PollAgrees(w, project, c.runner, c.now);
    ReportConsumes(w, Poll(w, project, c.runner, c.now), c, id);
  }

  lemma ChosenQueueIsReady(w: World, project: string)
    requires Agreed(w) && Overview(w.rows, project).pendingJobs != 0
    ensures ReadyIn(w.b, project) != {}
  {
    LiveArePending(w, project);
    assert |PendingIn(w, project)| != 0;
  }

  // ---- Rounds seen from the served queues ----

  datatype Backlog = Backlog(msgs: map<JobId, Message>, work: set<JobId>, urgent: set<JobId>, handed: seq<JobId>)

  ghost function UrgentIn(w: World, c: Setup): set<JobId> {
    set j | j in w.rows && Urgent(w, c, j)
  }

  ghost function BacklogOf(w: World, c: Setup): Backlog {
    Backlog(w.b.msgs, Work(w, c), UrgentIn(w, c), w.handed)
  }

  ghost predicate Before(msgs: map<JobId, Message>, i: JobId, j: JobId) {
    && i in msgs && j in msgs && i != j && msgs[i].priority <= msgs[j].priority
    && (msgs[i].project == msgs[j].project ==> Precedes(msgs[i], msgs[j]))
  }

  /** An urgent message is consumed only before every other urgent one. */
  ghost predicate MayRelieve(v: Backlog, id: JobId) {
    id in v.work && (id in v.urgent ==> id in v.msgs && forall j | j in v.urgent && j != id :: Before(v.msgs, id, j))
  }

  function Relieve(v: Backlog, id: JobId): Backlog {
    v.(work := v.work - {id}, urgent := v.urgent - {id},
       handed := v.handed + (if id in v.urgent then [id] else []))
  }

  ghost predicate Eases(v: Backlog, v': Backlog) {
    if v.urgent == {} then v' == v else exists id :: MayRelieve(v, id) && v' == Relieve(v, id)
  }

  lemma PolledMayRelieve(w: World, c: Setup, k: nat, id: JobId)
    requires Agreed(w) && Polled(w, c, k, id)
    ensures MayRelieve(BacklogOf(w, c), id) && (id in UrgentIn(w, c) <==> IsPending(w, id))
  {
    PolledIsWork(w, c, k, id);
    if IsPending(w, id) {
      PolledIsUrgent(w, c, k, id);
      UrgentIsWork(w, c, id);
      forall j | j in UrgentIn(w, c) && j != id ensures Before(w.b.msgs, id, j) {
        UrgentIsWork(w, c, j);
        PolledIsLeast(w, c, k, id, j);
        if w.b.msgs[j].project == c.names[k] {
          HeadPrecedesUrgent(w, c, k, id, j);
        }
      }
    }
  }

  lemma ConsumedRelieves(w: World, t: World, c: Setup, id: JobId)
    requires Agreed(w) && Consumed(w, t, id) && (id in UrgentIn(w, c) <==> IsPending(w, id))
    ensures BacklogOf(t, c) == Relieve(BacklogOf(w, c), id)
  {
    ConsumedWork(w, t, c, id);
    assert UrgentIn(t, c) == UrgentIn(w, c) - {id};
  }

  lemma RoundEases(w: World, c: Setup)
    requires Agreed(w) && c.Valid()
    ensures Agreed(Round(w, c)) && Eases(BacklogOf(w, c), BacklogOf(Round(w, c), c))
  {
    ChoosesExactlyWhen(w, c);
    if Choice(w, c).Some? {
      var k, id := RoundConsumes(w, c);
      PolledMayRelieve(w, c, k, id);
      ConsumedRelieves(w, Round(w, c), c, id);
      var j :| Urgent(w, c, j);
      assert j in UrgentIn(w, c);
    }
  }

  ghost predicate Covers(v: Backlog) {
    v.urgent <= v.work
  }

  ghost predicate Falling(vs: seq<Backlog>) {
    && |vs| > 0
    && (forall i | 0 <= i < |vs| :: Covers(vs[i]))
    && (forall i | 0 < i < |vs| :: Eases(vs[i - 1], vs[i]))
  }

  ghost function Backlogs(ws: seq<World>, c: Setup): (vs: seq<Backlog>)
    ensures |vs| == |ws| && forall i | 0 <= i < |ws| :: vs[i] == BacklogOf(ws[i], c)
  {
    seq(|ws|, i requires 0 <= i < |ws| => BacklogOf(ws[i], c))
  }

  lemma UrgentIsCovered(w: World, c: Setup)
    requires Agreed(w)
    ensures Covers(BacklogOf(w, c))
  {
    forall j | j in UrgentIn(w, c) ensures j in Work(w, c) {
      UrgentIsWork(w, c, j);
    }
  }

  /** `ws` are worlds met in consecutive rounds. */
  ghost predicate Consecutive(ws: seq<World>, c: Setup) {
    |ws| > 0 && forall i | 0 < i < |ws| :: ws[i] == Round(ws[i - 1], c)
  }

  lemma {:induction false} RoundsAreConsecutive(w: World, c: Setup, n: nat)
    ensures Consecutive(Rounds(w, c, n), c)
    decreases n
  {
    if n > 0 {
      RoundsAreConsecutive(Round(w, c), c, n - 1);
      ConsecutiveCons(w, Rounds(Round(w, c), c, n - 1), c);
    }
  }

  lemma ConsecutiveCons(w: World, ws: seq<World>, c: Setup)
    requires Consecutive(ws, c) && ws[0] == Round(w, c)
    ensures Consecutive([w] + ws, c)
  {
  }

  lemma {:induction false} RoundsAgree(ws: seq<World>, c: Setup, i: nat)
    requires Consecutive(ws, c) && Agreed(ws[0]) && c.Valid() && i < |ws|
    ensures Agreed(ws[i])
    decreases i
  {
    if i > 0 {
      RoundsAgree(ws, c, i - 1);
      RoundEases(ws[i - 1], c);
    }
  }

  lemma RoundsFall(ws: seq<World>, c: Setup)
    requires Consecutive(ws, c) && Agreed(ws[0]) && c.Valid()
    ensures Falling(Backlogs(ws, c))
  {
    forall i | 0 <= i < |ws| ensures Covers(BacklogOf(ws[i], c)) {
      RoundsAgree(ws, c, i);
      UrgentIsCovered(ws[i], c);
    }
    forall i | 0 < i < |ws| ensures Eases(BacklogOf(ws[i - 1], c), BacklogOf(ws[i], c)) {
      RoundsAgree(ws, c, i - 1);
      RoundEases(ws[i - 1], c);
    }
  }

  // ---- What the rounds hand out ----

  /** `out` lists exactly `ids`, each once, by priority and within a project in the broker's order. */
  ghost predicate ByUrgency(msgs: map<JobId, Message>, ids: set<JobId>, out: seq<JobId>) {
    && (forall j :: j in out <==> j in ids)
    && (forall a, b | 0 <= a < b < |out| :: Before(msgs, out[a], out[b]))
  }

  lemma FirstByUrgency(msgs: map<JobId, Message>, ids: set<JobId>, id: JobId, rest: seq<JobId>)
    requires id in ids && ByUrgency(msgs, ids - {id}, rest) && forall j | j in ids && j != id :: Before(msgs, id, j)
    ensures ByUrgency(msgs, ids, [id] + rest)
  {
    var out := [id] + rest;
    forall a, b | 0 <= a < b < |out| ensures Before(msgs, out[a], out[b]) {
      assert out[b] == rest[b - 1] && rest[b - 1] in rest;
      if a > 0 {
        assert out[a] == rest[a - 1];
      }
    }
  }

  lemma {:induction false} FallingServes(vs: seq<Backlog>) returns (out: seq<JobId>)
    requires Falling(vs) && |vs| > |vs[0].work|
    ensures var t := vs[|vs| - 1]; t.handed == vs[0].handed + out && t.urgent == {}
    ensures ByUrgency(vs[0].msgs, vs[0].urgent, out)
    decreases |vs|
  {
    var v := vs[0];
    if v.urgent == {} {
      FallingStays(vs);
      out := [];
    } else {
      assert v.work != {};
      assert Eases(v, vs[1]);
      var id :| MayRelieve(v, id) && vs[1] == Relieve(v, id);
      out := FallingServes(vs[1..]);
      if id in v.urgent {
        FirstByUrgency(v.msgs, v.urgent, id, out);
        out := [id] + out;
      } else {
        assert v.urgent - {id} == v.urgent;
      }
    }
  }

  lemma {:induction false} FallingStays(vs: seq<Backlog>)
    requires Falling(vs) && vs[0].urgent == {}
    ensures vs[|vs| - 1] == vs[0]
    decreases |vs|
  {
    if |vs| > 1 {
      assert Eases(vs[0], vs[1]);
      FallingStays(vs[1..]);
    }
  }

  /** The loop gets everything urgent done, most urgent first: after as many rounds as there are stale
      messages and jobs of priority below 10 in the served queues, exactly the latter have been handed
      out, each once, by priority and within a project in the broker's order, and from then on nothing
      is selected. */
  lemma LoopServesUrgent(w: World, c: Setup, n: nat) returns (out: seq<JobId>)
    requires Agreed(w) && c.Valid() && n >= |Work(w, c)|
    ensures var t := Rounds(w, c, n)[n]; t.handed == w.handed + out && Choice(t, c) == None
    ensures ByUrgency(w.b.msgs, UrgentIn(w, c), out)
  {
    var ws := Rounds(w, c, n);
    RoundsAreConsecutive(w, c, n);
    RoundsFall(ws, c);
    out := FallingServes(Backlogs(ws, c));
    RoundsAgree(ws, c, n);
    NothingLeft(ws[n], c);
  }

  lemma NothingLeft(w: World, c: Setup)
    requires Agreed(w) && UrgentIn(w, c) == {}
    ensures Choice(w, c) == None
  {
    ChoosesExactlyWhen(w, c);
    forall j ensures !Urgent(w, c, j) {
      assert j !in UrgentIn(w, c);
    }
  }
}
