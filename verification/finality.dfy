/** Jobs that no continuation of a run can hand out (again): those stopped before anyone was about to
    give them, those published without a row, and those whose message is settled. */
module Finality {
  import opened Models
  import opened Dispatch
  import opened Protocol
  import opened Safety
  import opened Handout

  ghost predicate NobodyGives(s: State, j: JobId) {
    forall h | h in s.handlers :: !WillGive(s.handlers[h], j)
  }

  // ---- Stops ----

  /** The row of `j` bars it, and nobody is about to give it. */
  ghost predicate Shut(s: State, j: JobId) {
    j in s.w.rows && Bars(s.w.rows[j].status) && NobodyGives(s, j)
  }

  /** ... and it was never handed out. */
  ghost predicate Final(s: State, j: JobId) {
    Shut(s, j) && j !in s.w.handed
  }

  lemma NobodyStarts(s: State, l: Label, j: JobId)
    requires Enabled(s, l) && NobodyGives(s, j)
    requires l.DoRead? && s.handlers[l.h].job == j ==> Judge(s.w.rows, j, false).Refuse?
    ensures NobodyGives(Apply(s, l), j)
    ensures Handouts(Apply(s, l), j) == Handouts(s, j)
  {
    var t := Apply(s, l);
    HandedMoves(s, l);
    forall h | h in t.handlers
      ensures !WillGive(t.handlers[h], j)
    {
      if WillGive(t.handlers[h], j) {
        GivingMoves(s, l, h, j);
      }
    }
  }

  lemma ShutStep(s: State, l: Label, j: JobId)
    requires Basic(s) && Enabled(s, l) && Shut(s, j) && ReportsBar(l, j)
    ensures Shut(Apply(s, l), j) && Handouts(Apply(s, l), j) == Handouts(s, j)
  {
    NobodyStarts(s, l, j);
    BarsStay(s, l, j);
  }

  /** As long as no report opens the row, a shut job stays shut and is not handed out again. */
  lemma {:induction false} ShutRun(s: State, ls: seq<Label>, t: State, j: JobId)
    requires Basic(s) && Shut(s, j) && Run(s, ls) == Some(t) && forall l | l in ls :: ReportsBar(l, j)
    ensures Shut(t, j) && Handouts(t, j) == Handouts(s, j)
    decreases |ls|
  {
    if ls != [] {
      BasicStep(s, ls[0]);
      ShutStep(s, ls[0], j);
      ShutRun(Apply(s, ls[0]), ls[1..], t, j);
    }
  }

  /** Only a runner that was handed the job reports on it, so a final job stays final. */
  lemma FinalStep(s: State, l: Label, j: JobId)
    requires Basic(s) && Enabled(s, l) && Final(s, j)
    ensures Final(Apply(s, l), j)
  {
    ShutStep(s, l, j);
  }

  lemma {:induction false} FinalRun(s: State, ls: seq<Label>, t: State, j: JobId)
    requires Basic(s) && Final(s, j) && Run(s, ls) == Some(t)
    ensures Final(t, j)
    decreases |ls|
  {
    if ls != [] {
      BasicStep(s, ls[0]);
      FinalStep(s, ls[0], j);
      FinalRun(Apply(s, ls[0]), ls[1..], t, j);
    }
  }

  lemma StaysShut(s: State, ls: seq<Label>, t: State, j: JobId)
    requires Basic(s) && Shut(s, j) && Run(s, ls) == Some(t)
    requires Handouts(s, j) > 0 ==> forall l | l in ls :: ReportsBar(l, j)
    ensures Shut(t, j) && Handouts(t, j) == Handouts(s, j)
  {
    if Handouts(s, j) > 0 {
      ShutRun(s, ls, t, j);
    } else {
      FinalRun(s, ls, t, j);
    }
  }

  /** A cancel, skip, abort or supersede write of `j` that meets its row. */
  ghost predicate Stops(s: State, l: Label, j: JobId) {
    && Enabled(s, l) && j in s.w.rows
    && ((l.DoStop? && l.id == j && l.outcome != FailsBefore)
        || (l.DoSupersede? && s.handlers[l.h].job == j && l.outcome != FailsBefore))
  }

  lemma StopShuts(s: State, l: Label, j: JobId)
    requires Stops(s, l, j) && NobodyGives(s, j)
    ensures Shut(Apply(s, l), j) && Handouts(Apply(s, l), j) == Handouts(s, j)
  {
    NobodyStarts(s, l, j);
  }

  /** A stop that meets a job nobody is about to give is final: no continuation hands the job out again,
      and its row bars it for good. A job that was handed out before may have a runner; then this holds as
      long as that runner makes no report that opens the row. */
  lemma StopIsFinal(ls: seq<Label>, s: State, l: Label, j: JobId, more: seq<Label>, t: State)
    requires Reaches(ls, s) && Stops(s, l, j) && NobodyGives(s, j) && Run(Apply(s, l), more) == Some(t)
    requires j in s.w.handed ==> forall k | k in more :: ReportsBar(k, j)
    ensures Handouts(t, j) == Handouts(s, j) && j in t.w.rows && Bars(t.w.rows[j].status)
  {
    ReachedIsBasic(ls, s);
    BasicStep(s, l);
    StopShuts(s, l, j);
    StaysShut(Apply(s, l), more, t, j);
  }

  // ---- Rows of jobs never handed out ----

  /** Before its first handout a job's row is PENDING, or stopped or claimed. */
  ghost predicate Untouched(s: State, j: JobId) {
    j in s.w.rows && j !in s.w.handed ==> s.w.rows[j].status == Pending || Bars(s.w.rows[j].status)
  }

  lemma UntouchedStep(s: State, l: Label, j: JobId)
    requires Basic(s) && Enabled(s, l) && Untouched(s, j)
    ensures Untouched(Apply(s, l), j)
  {
    HandedMoves(s, l);
    RowsMove(s, l);
    if j in s.w.rows {
      StatusMoves(s, l, j);
    }
  }

  lemma {:induction false} UntouchedRun(s: State, ls: seq<Label>, t: State, j: JobId)
    requires Basic(s) && Untouched(s, j) && Run(s, ls) == Some(t)
    ensures Untouched(t, j)
    decreases |ls|
  {
    if ls != [] {
      BasicStep(s, ls[0]);
      UntouchedStep(s, ls[0], j);
      UntouchedRun(Apply(s, ls[0]), ls[1..], t, j);
    }
  }

  // ---- Messages without a row ----

  /** `j` was published, has no row, and nobody is about to insert one. */
  ghost predicate Rowless(s: State, j: JobId) {
    && j in s.w.b.msgs && j !in s.w.rows
    && forall h | h in s.handlers :: s.handlers[h] != Inserting(j)
  }

  lemma RowlessStep(s: State, l: Label, j: JobId)
    requires Basic(s) && Enabled(s, l) && Rowless(s, j)
    ensures Rowless(Apply(s, l), j)
  {
    var t := Apply(s, l);
    RowsMove(s, l);
    MsgsMove(s, l);
    forall h | h in t.handlers
      ensures t.handlers[h] != Inserting(j)
    {
      if t.handlers[h] == Inserting(j) {
        InsertingMoves(s, l, h);
      }
    }
  }

  lemma {:induction false} RowlessRun(s: State, ls: seq<Label>, t: State, j: JobId)
    requires Basic(s) && Rowless(s, j) && Run(s, ls) == Some(t)
    ensures Basic(t) && Rowless(t, j)
    decreases |ls|
  {
    if ls != [] {
      BasicStep(s, ls[0]);
      RowlessStep(s, ls[0], j);
      RowlessRun(Apply(s, ls[0]), ls[1..], t, j);
    }
  }

  /** A publisher that inserts no row, or takes its publish for failed, leaves the message without one. */
  lemma PublishLeavesRowless(s: State, h: HandlerId, j: JobId, outcome: Outcome)
    requires Basic(s) && Enabled(s, DoPublish(h, j, outcome)) && outcome != FailsBefore
    requires !(s.handlers[h].inserts && outcome == Succeeds)
    ensures Rowless(Apply(s, DoPublish(h, j, outcome)), j)
  {
    forall g | g in s.handlers
      ensures s.handlers[g] != Inserting(j)
    {
      assert s.handlers[g].Inserting? ==> s.handlers[g].job in s.w.b.msgs;
    }
  }

  /** The copy a rerun publishes never gets a row and is never handed out, whatever happens next. */
  lemma RerunNeverRuns(ls: seq<Label>, s: State, h: HandlerId, j: JobId, outcome: Outcome, more: seq<Label>, t: State)
    requires Reaches(ls, s) && Enabled(s, DoPublish(h, j, outcome)) && outcome != FailsBefore
    requires !s.handlers[h].inserts
    requires Run(Apply(s, DoPublish(h, j, outcome)), more) == Some(t)
    ensures j !in t.w.rows && j !in t.w.handed
  {
    ReachedIsBasic(ls, s);
    BasicStep(s, DoPublish(h, j, outcome));
    PublishLeavesRowless(s, h, j, outcome);
    RowlessRun(Apply(s, DoPublish(h, j, outcome)), more, t, j);
  }

  // ---- Settled messages ----

  lemma SettledIsNotGiven(s: State, l: Label, j: JobId)
    requires Basic(s) && Enabled(s, l) && j in s.w.b.settled
    ensures Handouts(Apply(s, l), j) == Handouts(s, j)
  {
    HandedMoves(s, l);
    if l.DoReply? {
      assert Holds(s.handlers[l.h], l.id);
    }
  }

  lemma {:induction false} SettledRun(s: State, ls: seq<Label>, t: State, j: JobId)
    requires Basic(s) && j in s.w.b.settled && Run(s, ls) == Some(t)
    ensures Handouts(t, j) == Handouts(s, j)
    decreases |ls|
  {
    if ls != [] {
      BasicStep(s, ls[0]);
      SettledStay(s, ls[0], j);
      SettledIsNotGiven(s, ls[0], j);
      SettledRun(Apply(s, ls[0]), ls[1..], t, j);
    }
  }

  // ---- Superseding handlers have read a row ----

  ghost predicate Known(s: State) {
    forall h | h in s.handlers && s.handlers[h].Superseding? :: s.handlers[h].job in s.w.rows
  }

  lemma KnownStep(s: State, l: Label)
    requires Basic(s) && Enabled(s, l) && Known(s)
    ensures Known(Apply(s, l))
  {
    RowsMove(s, l);
  }

  lemma {:induction false} KnownRun(s: State, ls: seq<Label>, t: State)
    requires Basic(s) && Known(s) && Run(s, ls) == Some(t)
    ensures Known(t)
    decreases |ls|
  {
    if ls != [] {
      BasicStep(s, ls[0]);
      KnownStep(s, ls[0]);
      KnownRun(Apply(s, ls[0]), ls[1..], t);
    }
  }
}
