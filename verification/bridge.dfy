/** A whole handler is one run of the interleaved protocol in which nobody else moves, so everything
    proved of all runs holds of sequences of whole handlers too. */
module Bridge {
  import opened Models
  import opened Persistent
  import opened Amqp
  import opened Dispatch
  import opened Protocol
  import opened Agreement

  /** `ls` takes `s` to a state with world `w` and the same handlers in flight. */
  ghost predicate Runs(s: State, ls: seq<Label>, w: World) {
    match Run(s, ls)
    case None => false
    case Some(t) => t.w == w && t.handlers == s.handlers
  }

  lemma Nothing(s: State) returns (ls: seq<Label>)
    ensures ls == [] && Runs(s, ls, s.w)
  {
    ls := [];
  }

  lemma Cons(s: State, l: Label, ls: seq<Label>)
    requires Enabled(s, l)
    ensures Run(s, [l] + ls) == Run(Apply(s, l), ls)
  {
    assert ([l] + ls)[1..] == ls;
  }

  lemma SettleRuns(s: State, h: HandlerId, before: map<HandlerId, Stage>, id: JobId, how: Settlement, outcome: Outcome)
    returns (t: State)
    requires h !in before && s.handlers == before[h := Settling(id, how)]
    ensures Run(s, [DoSettle(h, id, how, outcome)]) == Some(t)
    ensures t.w == Finish(s.w, id, how, outcome) && t.handlers == before
  {
    var l := DoSettle(h, id, how, outcome);
    t := Apply(s, l);
    Cons(s, l, []);
    assert [l] + [] == [l];
    assert s.handlers - {h} == before;
  }

  /** From the delivery on, get-next makes exactly one settlement attempt, and makes it last. */
  ghost predicate SettlesOnce(ls: seq<Label>) {
    |ls| > 0 && ls[|ls| - 1].DoSettle? && forall i | 0 <= i < |ls| - 1 :: !ls[i].DoSettle?
  }

  lemma GiveRuns(s: State, h: HandlerId, before: map<HandlerId, Stage>, id: JobId, readAt: nat,
                 details: Option<Fields>, e: PollEnv)
    returns (ls: seq<Label>, t: State)
    requires h !in before && s.handlers == before[h := Claiming(id, readAt, details)] && e.Possible()
    ensures Run(s, ls) == Some(t) && SettlesOnce(ls)
    ensures t.w == Give(s.w, id, details, e).0 && t.handlers == before
  {
    var l1 := DoClaim(h, e.claim, e.runner, e.now);
    var s1 := Apply(s, l1);
    if e.claim != Succeeds {
      t := SettleRuns(s1, h, before, id, Requeue, e.settle);
      ls := [l1] + [DoSettle(h, id, Requeue, e.settle)];
    } else {
      var l2 := DoReply(h, id, e.encoded, e.sent);
      var how := if e.encoded then Ack else Requeue;
      t := SettleRuns(Apply(s1, l2), h, before, id, how, e.settle);
      ls := [l1] + ([l2] + [DoSettle(h, id, how, e.settle)]);
      Cons(s1, l2, ls[2..]);
    }
    Cons(s, l1, ls[1..]);
  }

  lemma HandleRuns(s: State, h: HandlerId, before: map<HandlerId, Stage>, id: JobId, e: PollEnv)
    returns (ls: seq<Label>, t: State)
    requires h !in before && s.handlers == before[h := Reading(id)] && e.Possible()
    ensures Run(s, ls) == Some(t) && SettlesOnce(ls)
    ensures t.w == Handle(s.w, id, e).0 && t.handlers == before
  {
    var l := DoRead(h, e.readFails);
    var s1 := Apply(s, l);
    match Judge(s.w.rows, id, e.readFails) {
      case Refuse(how, _) =>
        t := SettleRuns(s1, h, before, id, how, e.settle);
        ls := [l] + [DoSettle(h, id, how, e.settle)];
      case Accept(details) =>
        var rest;
        rest, t := GiveRuns(s1, h, before, id, |s.log|, details, e);
        ls := [l] + rest;
    }
    Cons(s, l, ls[1..]);
  }

  /** HandleGetNextTest, whatever fails, is a run of its own steps; every delivery ends in exactly one
      settlement attempt. */
  lemma GetNextRuns(s: State, h: HandlerId, project: string, e: PollEnv) returns (ls: seq<Label>)
    requires h !in s.handlers && e.Possible()
    ensures Runs(s, ls, GetNext(s.w, project, e).0)
    ensures ls == [] || (ls[0].DoDeliver? && SettlesOnce(ls))
  {
    if e.pull != PullOk || Head(s.w.b, project) == None {
      ls := Nothing(s);
    } else {
      var id := Head(s.w.b, project).value;
      var l := DoDeliver(h, id);
      var s1 := Apply(s, l);
      var rest, t := HandleRuns(s1, h, s.handlers, id, e);
      ls := [l] + rest;
      Cons(s, l, rest);
    }
  }

  lemma PublishRuns(s: State, h: HandlerId, before: map<HandlerId, Stage>, id: JobId, project: string,
                    details: Option<Fields>, priority: UInt8, inserts: bool, publish: Outcome, insert: Outcome,
                    now: Time)
    returns (ls: seq<Label>, t: State)
    requires h !in before && s.handlers == before[h := Publishing(project, details, priority, inserts)]
    requires id !in s.w.b.msgs && id != ""
    ensures Run(s, ls) == Some(t) && t.handlers == before
    ensures t.w == if inserts then Enqueue(s.w, id, project, details, priority, publish, insert, now)
                   else if publish == FailsBefore then s.w
                   else s.w.(b := Publish(s.w.b, id, project, details, priority))
  {
    var l1 := DoPublish(h, id, publish);
    var s1 := Apply(s, l1);
    Cons(s, l1, []);
    ls, t := [l1] + [], s1;
    if publish == Succeeds && inserts {
      assert s1.handlers == before[h := Inserting(id)];
      var l2 := DoInsert(h, insert, now);
      t := Apply(s1, l2);
      Cons(s1, l2, []);
      ls := [l1] + ([l2] + []);
      Cons(s, l1, ls[1..]);
      assert s1.handlers - {h} == before;
    } else {
      assert s.handlers - {h} == before;
    }
  }

  lemma EnqueueRuns(s: State, h: HandlerId, id: JobId, project: string, details: Option<Fields>, priority: UInt8,
                    publish: Outcome, insert: Outcome, now: Time) returns (ls: seq<Label>)
    requires h !in s.handlers && id !in s.w.b.msgs && id != "" && project != ""
    ensures Runs(s, ls, Enqueue(s.w, id, project, details, priority, publish, insert, now))
  {
    var l := BeginEnqueue(h, project, details, priority);
    var rest, t := PublishRuns(Apply(s, l), h, s.handlers, id, project, details, priority, true, publish, insert, now);
    ls := [l] + rest;
    Cons(s, l, rest);
  }

  lemma PrioritizeRuns(s: State, h: HandlerId, orig: JobId, id: JobId, supersede: Outcome, publish: Outcome,
                       insert: Outcome, now: Time) returns (ls: seq<Label>)
    requires h !in s.handlers && id !in s.w.b.msgs && id != ""
    ensures Runs(s, ls, Prioritize(s.w, orig, id, supersede, publish, insert, now))
  {
    if !IsPending(s.w, orig) {
      ls := Nothing(s);
    } else {
      var project, details := s.w.rows[orig].project, Decode(s.w.rows[orig].details);
      var l1, l2 := BeginPrioritize(h, orig), DoSupersede(h, supersede, now);
      var s1 := Apply(s, l1);
      var s2 := Apply(s1, l2);
      if supersede == Succeeds {
        assert s2.handlers == s.handlers[h := Publishing(project, details, TOP_PRIORITY, true)];
        var rest, t := PublishRuns(s2, h, s.handlers, id, project, details, TOP_PRIORITY, true, publish, insert, now);
        ls := [l1] + ([l2] + rest);
        Cons(s1, l2, rest);
      } else {
        ls := [l1] + ([l2] + []);
        Cons(s1, l2, []);
        assert s1.handlers - {h} == s.handlers;
      }
      Cons(s, l1, ls[1..]);
    }
  }

  lemma RerunRuns(s: State, h: HandlerId, orig: JobId, id: JobId, publish: Outcome) returns (ls: seq<Label>)
    requires h !in s.handlers && id !in s.w.b.msgs && id != ""
    ensures Runs(s, ls, Rerun(s.w, orig, id, publish))
  {
    if orig !in s.w.rows {
      ls := Nothing(s);
    } else {
      var project, details := s.w.rows[orig].project, Decode(s.w.rows[orig].details);
      var l := BeginRerun(h, orig);
      var rest, t := PublishRuns(Apply(s, l), h, s.handlers, id, project, details,
          RERUN_PRIORITY, false, publish, Succeeds, 0);
      ls := [l] + rest;
      Cons(s, l, rest);
    }
  }

  /** Cancel, skip and abort are steps of the protocol, at any moment and with any failure. */
  lemma StopRuns(s: State, id: JobId, status: Status, outcome: Outcome, now: Time) returns (ls: seq<Label>)
    requires status == Cancelled || status == Skipped || status == AbortRequested
    ensures Runs(s, ls, Stop(s.w, id, status, outcome, now))
  {
    ls := [DoStop(id, status, outcome, now)] + [];
    Cons(s, DoStop(id, status, outcome, now), []);
  }

  /** Every whole handler, run alone from any state, is a run of the interleaved protocol. */
  lemma OpRuns(s: State, h: HandlerId, op: Op) returns (ls: seq<Label>)
    requires h !in s.handlers && OpEnabled(s.w, op)
    ensures Runs(s, ls, Step(s.w, op))
  {
    match op
    case OpEnqueue(id, project, details, priority, now) =>
      ls := EnqueueRuns(s, h, id, project, details, priority, Succeeds, Succeeds, now);
    case OpPoll(project, runner, now) => ls := GetNextRuns(s, h, project, Smooth(runner, now));
    case OpStop(id, status, now) =>
      ls := [DoStop(id, status, Succeeds, now)] + [];
      Cons(s, DoStop(id, status, Succeeds, now), []);
    case OpPrioritize(orig, id, now) => ls := PrioritizeRuns(s, h, orig, id, Succeeds, Succeeds, Succeeds, now);
    case OpRerun(orig, id) => ls := RerunRuns(s, h, orig, id, Succeeds);
    case OpProgress(id, u) =>
      ls := [DoProgress(id, u, Succeeds)] + [];
      Cons(s, DoProgress(id, u, Succeeds), []);
    case OpSubmit(r) =>
      ls := [DoSubmit(r, Succeeds)] + [];
      Cons(s, DoSubmit(r, Succeeds), []);
  }

  /** Hence every sequence of whole handlers from the empty system reaches a world that some
      interleaved run reaches with no handler in flight. */
  lemma {:induction false} OpsRun(s: State, ops: seq<Op>, w: World) returns (ls: seq<Label>)
    requires s.handlers == map[] && RunOps(s.w, ops) == Some(w)
    ensures Runs(s, ls, w)
    decreases |ops|
  {
    if ops == [] {
      ls := Nothing(s);
    } else {
      var first := OpRuns(s, 0, ops[0]);
      var m := Run(s, first).value;
      var rest := OpsRun(m, ops[1..], w);
      RunConcat(s, first, m, rest);
      ls := first + rest;
    }
  }
}
