/** A queue whose first message belongs to a RUNNING job is blocked: every poll puts the message back. */
module Blocking {
  import opened Models
  import opened Amqp
  import opened Dispatch
  import opened Protocol
  import opened Safety
  import opened Agreement
  import opened Progress

  /** The first ready message of the project belongs to a job whose row says RUNNING. */
  predicate Blocked(w: World, project: string) {
    && Head(w.b, project).Some?
    && Head(w.b, project).value in w.rows
    && w.rows[Head(w.b, project).value].status == Running
  }

  /** With nobody in flight, a failure-free poll of a queue with ready messages changes something exactly
      when the queue is not blocked. */
  lemma PollMovesExactlyWhen(ls: seq<Label>, s: State, project: string, runner: string, now: Time)
    requires Reaches(ls, s) && s.handlers == map[] && ReadyIn(s.w.b, project) != {}
    ensures Poll(s.w, project, runner, now) != s.w <==> !Blocked(s.w, project)
  {
    ReachedIsBasic(ls, s);
    HeadExists(s.w.b, project);
    var id := Head(s.w.b, project).value;
    assert s.w.b.unacked == {};
    if Blocked(s.w, project) {
      PutBack(s.w.b, id);
    } else {
      assert id in Poll(s.w, project, runner, now).b.settled;
    }
  }

  lemma PutBack(b: Broker, id: JobId)
    requires id in b.ready && id !in b.unacked
    ensures Settle(Deliver(b, id), id, true) == b
  {
  }

  /** While it is blocked, any number of polls changes nothing and hands out nothing, however many jobs
      wait behind the first message. */
  lemma {:induction false} BlockedStaysBlocked(w: World, project: string, runner: string, now: Time, n: nat)
    requires Conserved(w.b) && Blocked(w, project)
    ensures Polls(w, project, runner, now, n)[n] == w
    decreases n
  {
    if n > 0 {
      PutBack(w.b, Head(w.b, project).value);
      assert Poll(w, project, runner, now) == w;
      BlockedStaysBlocked(w, project, runner, now, n - 1);
    }
  }

  /** A stop that meets the job unblocks its queue: the next poll takes the message out. */
  lemma StopUnblocks(w: World, project: string, status: Status, runner: string, now: Time)
    requires Blocked(w, project) && IsStop(status)
    ensures var id := Head(w.b, project).value;
            var w' := Poll(Stop(w, id, status, Succeeds, now), project, runner, now);
            id !in w'.b.ready && id in w'.b.settled && w'.handed == w.handed
  {
    var id := Head(w.b, project).value;
    var m := Stop(w, id, status, Succeeds, now);
    assert m.rows[id].status == status;
  }
}
