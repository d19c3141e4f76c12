/** When no job is handed to a runner twice: two conditions on a run, each of which is enough. */
module Handout {
  import opened Models
  import opened Dispatch
  import opened Protocol
  import opened Safety

  /** Which step can change the status of a row that exists, and to what. */
  lemma StatusMoves(s: State, l: Label, j: JobId)
    requires Rooted(s) && Enabled(s, l) && j in s.w.rows
    ensures j in Apply(s, l).w.rows
    ensures var before, after := s.w.rows[j].status, Apply(s, l).w.rows[j].status;
            || after == before
            || (l.DoClaim? && s.handlers[l.h].job == j && after == Running)
            || (l.DoStop? && l.id == j && after == l.status)
            || (l.DoSupersede? && s.handlers[l.h].job == j && after == Cancelled)
            || (l.DoProgress? && l.id == j && l.update.status == Some(after))
            || (l.DoSubmit? && l.result.jobId == j && after == l.result.status)
  {
    RowsMove(s, l);
  }

  /** A report of the runner of job `j` that takes effect leaves a status that bars another handout. */
  predicate ReportsBar(l: Label, j: JobId) {
    && (l.DoProgress? && l.id == j && l.outcome != FailsBefore && l.update.status.Some? ==>
          Bars(l.update.status.value))
    && (l.DoSubmit? && l.result.jobId == j && l.outcome != FailsBefore ==> Bars(l.result.status))
  }

  /** The replies and acks for job `j` succeed. */
  predicate RepliesStick(l: Label, j: JobId) {
    && (l.DoReply? && l.id == j ==> l.encoded)
    && (l.DoSettle? && l.id == j && l.how == Ack ==> l.outcome != FailsBefore)
  }

  function Handouts(s: State, j: JobId): nat {
    multiset(s.w.handed)[j]
  }

  /** Kept when reports bar: a job that was handed out, or is about to be, has a row that bars it. */
  ghost predicate Barred(s: State, j: JobId) {
    && Handouts(s, j) <= 1
    && (j in s.w.handed ==> j in s.w.rows && Bars(s.w.rows[j].status))
    && (forall h | h in s.handlers && WillGive(s.handlers[h], j) :: j !in s.w.handed)
    && (forall h | h in s.handlers && s.handlers[h].Replying? && s.handlers[h].job == j ::
          j in s.w.rows && Bars(s.w.rows[j].status))
  }

  /** Kept when replies stick: a job that was handed out will never be ready again. */
  ghost predicate Spent(s: State, j: JobId) {
    && Handouts(s, j) <= 1
    && (j in s.w.handed ==> j in s.w.b.settled || exists h :: h in s.handlers && s.handlers[h] == Settling(j, Ack))
  }

  lemma HandoutStep(s: State, l: Label, j: JobId)
    requires Basic(s) && Enabled(s, l)
    requires forall h | h in s.handlers && WillGive(s.handlers[h], j) :: j !in s.w.handed
    requires Handouts(s, j) <= 1
    ensures Handouts(Apply(s, l), j) <= 1
    ensures j in Apply(s, l).w.handed && j !in s.w.handed ==> l.DoReply? && l.id == j && WillGive(s.handlers[l.h], j)
  {
    HandedMoves(s, l);
    if l.DoReply? {
      assert WillGive(s.handlers[l.h], l.id);
    }
  }

  lemma BarsStay(s: State, l: Label, j: JobId)
    requires Basic(s) && Enabled(s, l) && ReportsBar(l, j)
    requires j in s.w.rows && Bars(s.w.rows[j].status)
    ensures j in Apply(s, l).w.rows && Bars(Apply(s, l).w.rows[j].status)
  {
    StatusMoves(s, l, j);
  }

  lemma ReplyingMoves(s: State, l: Label, h: HandlerId, j: JobId)
    requires Basic(s) && Enabled(s, l)
    requires h in Apply(s, l).handlers && Apply(s, l).handlers[h].Replying? && Apply(s, l).handlers[h].job == j
    ensures (h in s.handlers && s.handlers[h] == Apply(s, l).handlers[h])
            || (j in Apply(s, l).w.rows && Apply(s, l).w.rows[j].status == Running)
  {
    if l.DoClaim? && l.h == h {
      assert WillGive(s.handlers[h], j);
    }
  }

  lemma BarredStep(s: State, l: Label, j: JobId)
    requires Basic(s) && Barred(s, j) && Enabled(s, l) && ReportsBar(l, j)
    ensures Barred(Apply(s, l), j)
  {
    var t := Apply(s, l);
    HandedMoves(s, l);
    HandoutStep(s, l, j);
    if j in s.w.rows && Bars(s.w.rows[j].status) {
      BarsStay(s, l, j);
    }
    forall h | h in t.handlers && WillGive(t.handlers[h], j)
      ensures j !in t.w.handed
    {
      GivingMoves(s, l, h, j);
      if l.DoReply? && l.id == j {
        assert Holds(s.handlers[l.h], j);
      }
    }
    forall h | h in t.handlers && t.handlers[h].Replying? && t.handlers[h].job == j
      ensures j in t.w.rows && Bars(t.w.rows[j].status)
    {
      ReplyingMoves(s, l, h, j);
    }
  }

  lemma SpentStep(s: State, l: Label, j: JobId)
    requires Basic(s) && Spent(s, j) && Enabled(s, l) && RepliesStick(l, j)
    ensures Spent(Apply(s, l), j)
  {
    var t := Apply(s, l);
    HandedMoves(s, l);
    forall h | h in s.handlers && WillGive(s.handlers[h], j)
      ensures j !in s.w.handed
    {
      assert Holds(s.handlers[h], j);
      if g :| g in s.handlers && s.handlers[g] == Settling(j, Ack) {
        assert Holds(s.handlers[g], j);
      }
    }
    HandoutStep(s, l, j);
    if j in t.w.handed && j !in s.w.handed {
      assert t.handlers[l.h] == Settling(j, Ack);
    } else if j in t.w.handed && j !in s.w.b.settled {
      var h :| h in s.handlers && s.handlers[h] == Settling(j, Ack);
      assert Holds(s.handlers[h], j);
      SettlingMoves(s, l, h, j);
    } else if j in t.w.handed {
      SettledStay(s, l, j);
    }
  }

  lemma SettledStay(s: State, l: Label, j: JobId)
    requires Basic(s) && Enabled(s, l) && j in s.w.b.settled
    ensures j in Apply(s, l).w.b.settled
  {
    if l.DoSettle? {
      assert Holds(s.handlers[l.h], l.id);
    }
  }

  lemma SettlingMoves(s: State, l: Label, h: HandlerId, j: JobId)
    requires Basic(s) && Enabled(s, l) && RepliesStick(l, j)
    requires h in s.handlers && s.handlers[h] == Settling(j, Ack)
    ensures j in Apply(s, l).w.b.settled
            || (h in Apply(s, l).handlers && Apply(s, l).handlers[h] == Settling(j, Ack))
  {
  }

  /** At-most-once handout, over every run with any number of handlers and failures: enough is that
      the job's runner reports only statuses that bar it, or that its replies and acks succeed. */
  lemma AtMostOnce(ls: seq<Label>, s: State, j: JobId)
    requires Reaches(ls, s)
    requires (forall l | l in ls :: ReportsBar(l, j)) || (forall l | l in ls :: RepliesStick(l, j))
    ensures Handouts(s, j) <= 1
  {
    InitIsBasic();
    if forall l | l in ls :: ReportsBar(l, j) {
      BarredRun(INIT, ls, s, j);
    } else {
      SpentRun(INIT, ls, s, j);
    }
  }

  lemma {:induction false} BarredRun(s: State, ls: seq<Label>, t: State, j: JobId)
    requires Basic(s) && Barred(s, j) && Run(s, ls) == Some(t)
    requires forall l | l in ls :: ReportsBar(l, j)
    ensures Basic(t) && Barred(t, j)
    decreases |ls|
  {
    if ls != [] {
      BasicStep(s, ls[0]);
      BarredStep(s, ls[0], j);
      BarredRun(Apply(s, ls[0]), ls[1..], t, j);
    }
  }

  lemma {:induction false} SpentRun(s: State, ls: seq<Label>, t: State, j: JobId)
    requires Basic(s) && Spent(s, j) && Run(s, ls) == Some(t)
    requires forall l | l in ls :: RepliesStick(l, j)
    ensures Basic(t) && Spent(t, j)
    decreases |ls|
  {
    if ls != [] {
      BasicStep(s, ls[0]);
      SpentStep(s, ls[0], j);
      SpentRun(Apply(s, ls[0]), ls[1..], t, j);
    }
  }
}
