/** A cancel, skip, abort or supersede write that lands before the row read prevents the handout,
    unless the job's own runner reopens the row in between. */
module Precedence {
  import opened Models
  import opened Dispatch
  import opened Protocol
  import opened Safety
  import opened Handout

  ghost predicate GivesOf(s: State, j: JobId, k: nat)
    requires k < |s.log|
  {
    s.log[k].HandedOut? && s.log[k].job == j
  }

  ghost predicate FirstGive(s: State, j: JobId, k: nat)
    requires k < |s.log|
  {
    forall i: nat | i < k :: !GivesOf(s, j, i)
  }

  // ---- The reports that reopen a row ----

  /** The lengths of the log at which the runner of `j` made a report that does not bar it. */
  ghost function Reopened(s: State, ls: seq<Label>, j: JobId): set<nat>
    decreases |ls|
  {
    if ls == [] || !Enabled(s, ls[0]) then {}
    else ReopenedBy(s, ls[0], j) + Reopened(Apply(s, ls[0]), ls[1..], j)
  }

  ghost function ReopenedBy(s: State, l: Label, j: JobId): set<nat> {
    if ReportsBar(l, j) then {} else {|s.log|}
  }

  lemma {:induction false} ReopenedMeans(s: State, ls: seq<Label>, j: JobId, at: nat)
    returns (n: nat, m: State)
    requires at in Reopened(s, ls, j)
    ensures n < |ls| && Run(s, ls[..n]) == Some(m) && Enabled(m, ls[n])
    ensures |m.log| == at && !ReportsBar(ls[n], j)
    decreases |ls|
  {
    if at in ReopenedBy(s, ls[0], j) {
      n, m := 0, s;
    } else {
      n, m := ReopenedMeans(Apply(s, ls[0]), ls[1..], j, at);
      assert ls[..n + 1][1..] == ls[1..][..n];
      n := n + 1;
    }
  }

  // ---- The invariant ----

  /** A report reopened the row of a job stopped at log index `i`, no later than log index `until`. */
  ghost predicate Excused(reopened: set<nat>, i: nat, until: nat) {
    exists at :: at in reopened && i < at <= until
  }

  /** The read at `readAt` comes before every stop in the log up to `until` that is not excused. */
  ghost predicate Justified(s: State, j: JobId, h: HandlerId, readAt: nat, until: nat, reopened: set<nat>) {
    && readAt < until <= |s.log|
    && s.log[readAt] == RowRead(h, j)
    && forall i: nat | i < until && s.log[i] == Stopped(j) :: readAt < i || Excused(reopened, i, readAt)
  }

  ghost predicate Barring(s: State, j: JobId) {
    j in s.w.rows && Bars(s.w.rows[j].status)
  }

  /** Every stop so far is excused by a report, or its job's row still bars. */
  ghost predicate Stands(s: State, j: JobId, reopened: set<nat>) {
    forall i: nat | i < |s.log| && s.log[i] == Stopped(j) :: Barring(s, j) || Excused(reopened, i, |s.log|)
  }

  ghost predicate Ordered(s: State, j: JobId, reopened: set<nat>) {
    && Stands(s, j, reopened)
    && (forall h | h in s.handlers && WillGive(s.handlers[h], j) ::
          Justified(s, j, h, s.handlers[h].readAt, |s.log|, reopened))
    && (forall k: nat | k < |s.log| && GivesOf(s, j, k) ::
          Justified(s, j, s.log[k].h, s.log[k].readAt, k, reopened))
    && (j in s.w.handed ==> exists k: nat :: k < |s.log| && GivesOf(s, j, k))
  }

  // ---- What one step does to the log ----

  /** A step appends at most one event. */
  lemma LogMoves(s: State, l: Label)
    requires Enabled(s, l)
    ensures s.log <= Apply(s, l).log && |Apply(s, l).log| <= |s.log| + 1
    ensures |Apply(s, l).log| > |s.log| ==>
              match Apply(s, l).log[|s.log|]
              case RowRead(h, id) => l.DoRead? && h == l.h && id == s.handlers[h].job
              case HandedOut(h, id, r) =>
                l.DoReply? && h == l.h && id == l.id && l.sent && s.handlers[h] == Replying(id, r)
              case Stopped(id) => Barring(Apply(s, l), id)
    ensures l.DoRead? || (l.DoReply? && l.sent) ==> |Apply(s, l).log| == |s.log| + 1
  {
  }

  lemma ReadAtMoves(s: State, l: Label, h: HandlerId, j: JobId)
    requires Enabled(s, l) && h in Apply(s, l).handlers && WillGive(Apply(s, l).handlers[h], j)
    ensures || (h in s.handlers && WillGive(s.handlers[h], j) && s.handlers[h].readAt == Apply(s, l).handlers[h].readAt)
            || (l == DoRead(h, false) && s.handlers[h].job == j && Apply(s, l).handlers[h].readAt == |s.log|
                && Judge(s.w.rows, j, false).Accept?)
  {
  }

  /** The step from `s` to `t` as the order of the log sees it. */
  ghost predicate LogStep(s: State, t: State, j: JobId, quiet: bool) {
    && s.log <= t.log && |t.log| <= |s.log| + 1
    && (|t.log| > |s.log| && t.log[|s.log|] == Stopped(j) ==> Barring(t, j))
    && (|t.log| > |s.log| && GivesOf(t, j, |s.log|) ==>
          var e := t.log[|s.log|];
          e.h in s.handlers && WillGive(s.handlers[e.h], j) && s.handlers[e.h].readAt == e.readAt)
    && (quiet && Barring(s, j) ==> Barring(t, j))
    && (j in t.w.handed && j !in s.w.handed ==> |t.log| > |s.log| && GivesOf(t, j, |s.log|))
    && forall h | h in t.handlers && WillGive(t.handlers[h], j) :: WaitStep(s, t, j, h)
  }

  /** Handler `h` was about to give `j` before, or has just read a row that does not bar it. */
  ghost predicate WaitStep(s: State, t: State, j: JobId, h: HandlerId)
    requires h in t.handlers && WillGive(t.handlers[h], j)
  {
    || (h in s.handlers && WillGive(s.handlers[h], j) && s.handlers[h].readAt == t.handlers[h].readAt)
    || (!Barring(s, j) && t.handlers[h].readAt == |s.log| && t.log == s.log + [RowRead(h, j)])
  }

  lemma StepsLog(s: State, l: Label, j: JobId)
    requires Basic(s) && Enabled(s, l)
    ensures LogStep(s, Apply(s, l), j, ReportsBar(l, j))
  {
    var t := Apply(s, l);
    LogMoves(s, l);
    HandedMoves(s, l);
    if ReportsBar(l, j) && Barring(s, j) {
      BarsStay(s, l, j);
    }
    forall h | h in t.handlers && WillGive(t.handlers[h], j)
      ensures WaitStep(s, t, j, h)
    {
      ReadAtMoves(s, l, h, j);
    }
  }

  // ---- The invariant is kept ----

  lemma ExcusedStays(reopened: set<nat>, more: set<nat>, i: nat, until: nat, until': nat)
    requires Excused(reopened, i, until) && until <= until'
    ensures Excused(reopened + more, i, until')
  {
    var at :| at in reopened && i < at <= until;
    assert at in reopened + more;
  }

  lemma JustifiedStays(s: State, t: State, j: JobId, h: HandlerId, readAt: nat, until: nat, until': nat,
                       reopened: set<nat>, more: set<nat>)
    requires Justified(s, j, h, readAt, until, reopened) && s.log <= t.log && until <= until' <= |t.log|
    requires until' == until || (until == |s.log| && until' == until + 1)
    ensures Justified(t, j, h, readAt, until', reopened + more)
  {
    forall i: nat | i < until' && t.log[i] == Stopped(j)
      ensures readAt < i || Excused(reopened + more, i, readAt)
    {
      if i < until && !(readAt < i) {
        assert s.log[i] == Stopped(j);
        ExcusedStays(reopened, more, i, readAt, readAt);
      }
    }
  }

  lemma StandsStays(s: State, t: State, j: JobId, quiet: bool, reopened: set<nat>, more: set<nat>)
    requires Stands(s, j, reopened) && LogStep(s, t, j, quiet) && (quiet || |s.log| in more)
    ensures Stands(t, j, reopened + more)
  {
    forall i: nat | i < |t.log| && t.log[i] == Stopped(j)
      ensures Barring(t, j) || Excused(reopened + more, i, |t.log|)
    {
      if i < |s.log| {
        assert s.log[i] == Stopped(j);
        if Excused(reopened, i, |s.log|) {
          ExcusedStays(reopened, more, i, |s.log|, |t.log|);
        } else if !quiet {
          assert |s.log| in reopened + more;
        }
      }
    }
  }

  lemma FreshRead(s: State, t: State, j: JobId, h: HandlerId, reopened: set<nat>, more: set<nat>)
    requires Stands(s, j, reopened) && !Barring(s, j) && t.log == s.log + [RowRead(h, j)]
    ensures Justified(t, j, h, |s.log|, |t.log|, reopened + more)
  {
    forall i: nat | i < |t.log| && t.log[i] == Stopped(j)
      ensures Excused(reopened + more, i, |s.log|)
    {
      assert s.log[i] == Stopped(j);
      ExcusedStays(reopened, more, i, |s.log|, |s.log|);
    }
  }

  lemma WaitingStays(s: State, t: State, j: JobId, quiet: bool, h: HandlerId, reopened: set<nat>, more: set<nat>)
    requires Ordered(s, j, reopened) && LogStep(s, t, j, quiet)
    requires h in t.handlers && WillGive(t.handlers[h], j)
    ensures Justified(t, j, h, t.handlers[h].readAt, |t.log|, reopened + more)
  {
    assert WaitStep(s, t, j, h);
    if h in s.handlers && WillGive(s.handlers[h], j) && s.handlers[h].readAt == t.handlers[h].readAt {
      JustifiedStays(s, t, j, h, t.handlers[h].readAt, |s.log|, |t.log|, reopened, more);
    } else {
      FreshRead(s, t, j, h, reopened, more);
    }
  }

  lemma GivenStays(s: State, t: State, j: JobId, quiet: bool, k: nat, reopened: set<nat>, more: set<nat>)
    requires Ordered(s, j, reopened) && LogStep(s, t, j, quiet) && k < |t.log| && GivesOf(t, j, k)
    ensures Justified(t, j, t.log[k].h, t.log[k].readAt, k, reopened + more)
  {
    if k < |s.log| {
      assert GivesOf(s, j, k);
    } else {
      assert k == |s.log|;
    }
    JustifiedStays(s, t, j, t.log[k].h, t.log[k].readAt, k, k, reopened, more);
  }

  lemma HandedIsLogged(s: State, t: State, j: JobId, quiet: bool, reopened: set<nat>)
    requires Ordered(s, j, reopened) && LogStep(s, t, j, quiet) && j in t.w.handed
    ensures exists k: nat :: k < |t.log| && GivesOf(t, j, k)
  {
    if j in s.w.handed {
      var k: nat :| k < |s.log| && GivesOf(s, j, k);
      assert GivesOf(t, j, k);
    }
  }

  lemma OrderedStays(s: State, t: State, j: JobId, quiet: bool, reopened: set<nat>, more: set<nat>)
    requires Ordered(s, j, reopened) && LogStep(s, t, j, quiet) && (quiet || |s.log| in more)
    ensures Ordered(t, j, reopened + more)
  {
    StandsStays(s, t, j, quiet, reopened, more);
    forall h | h in t.handlers && WillGive(t.handlers[h], j)
      ensures Justified(t, j, h, t.handlers[h].readAt, |t.log|, reopened + more)
    {
      WaitingStays(s, t, j, quiet, h, reopened, more);
    }
    forall k: nat | k < |t.log| && GivesOf(t, j, k)
      ensures Justified(t, j, t.log[k].h, t.log[k].readAt, k, reopened + more)
    {
      GivenStays(s, t, j, quiet, k, reopened, more);
    }
    if j in t.w.handed {
      HandedIsLogged(s, t, j, quiet, reopened);
    }
  }

  lemma OrderedStep(s: State, l: Label, j: JobId, reopened: set<nat>)
    requires Basic(s) && Ordered(s, j, reopened) && Enabled(s, l)
    ensures Ordered(Apply(s, l), j, reopened + ReopenedBy(s, l, j))
  {
    StepsLog(s, l, j);
    OrderedStays(s, Apply(s, l), j, ReportsBar(l, j), reopened, ReopenedBy(s, l, j));
  }

  lemma ReopenedSplits(s: State, ls: seq<Label>, j: JobId, reopened: set<nat>)
    requires ls != [] && Enabled(s, ls[0])
    ensures reopened + Reopened(s, ls, j)
            == reopened + ReopenedBy(s, ls[0], j) + Reopened(Apply(s, ls[0]), ls[1..], j)
  {
  }

  lemma {:induction false} OrderedRun(s: State, ls: seq<Label>, t: State, j: JobId, reopened: set<nat>)
    requires Basic(s) && Ordered(s, j, reopened) && Run(s, ls) == Some(t)
    ensures Ordered(t, j, reopened + Reopened(s, ls, j))
    decreases |ls|
  {
    if ls == [] {
      assert reopened + {} == reopened;
    } else {
      BasicStep(s, ls[0]);
      OrderedStep(s, ls[0], j, reopened);
      OrderedRun(Apply(s, ls[0]), ls[1..], t, j, reopened + ReopenedBy(s, ls[0], j));
      ReopenedSplits(s, ls, j, reopened);
    }
  }

  // ---- The theorems ----

  lemma ReachedIsOrdered(ls: seq<Label>, s: State, j: JobId)
    requires Reaches(ls, s)
    ensures Ordered(s, j, Reopened(INIT, ls, j))
  {
    InitIsBasic();
    OrderedRun(INIT, ls, s, j, {});
    assert {} + Reopened(INIT, ls, j) == Reopened(INIT, ls, j);
  }

  /** Over every run, with any reports and failures: a stop that met the row of a job can precede the
      row read of a later handout only if in between, after the stop and no later than that read, the
      job's own runner reported a status that does not bar it. */
  lemma OnlyReportsReopen(ls: seq<Label>, s: State, k: nat, i: nat) returns (n: nat, m: State)
    requires Reaches(ls, s) && i < k < |s.log| && s.log[k].HandedOut? && s.log[i] == Stopped(s.log[k].job)
    ensures s.log[k].readAt < k && s.log[s.log[k].readAt] == RowRead(s.log[k].h, s.log[k].job)
    ensures i <= s.log[k].readAt ==>
              && n < |ls| && Run(INIT, ls[..n]) == Some(m) && Enabled(m, ls[n])
              && i < |m.log| <= s.log[k].readAt && !ReportsBar(ls[n], s.log[k].job)
  {
    var j := s.log[k].job;
    ReachedIsOrdered(ls, s, j);
    assert GivesOf(s, j, k);
    n, m := 0, INIT;
    if i <= s.log[k].readAt {
      var at :| at in Reopened(INIT, ls, j) && i < at <= s.log[k].readAt;
      n, m := ReopenedMeans(INIT, ls, j, at);
    }
  }

  lemma {:induction false} LogGrows(s: State, ls: seq<Label>, t: State)
    requires Run(s, ls) == Some(t)
    ensures s.log <= t.log
    decreases |ls|
  {
    if ls != [] {
      LogMoves(s, ls[0]);
      LogGrows(Apply(s, ls[0]), ls[1..], t);
    }
  }

  lemma HandoutsAreLogged(ls: seq<Label>, s: State, j: JobId)
    requires Reaches(ls, s) && j in s.w.handed
    ensures exists i: nat :: i < |s.log| && GivesOf(s, j, i)
  {
    ReachedIsOrdered(ls, s, j);
  }

  /** Nobody reports on a job before its first handout. */
  lemma NoReportBeforeGive(ls: seq<Label>, s: State, j: JobId, k: nat, n: nat, m: State)
    requires Reaches(ls, s) && k < |s.log| && FirstGive(s, j, k)
    requires n < |ls| && Run(INIT, ls[..n]) == Some(m) && Enabled(m, ls[n]) && |m.log| <= k
    ensures ReportsBar(ls[n], j)
  {
    assert ls[..n] + ls[n..] == ls;
    RunConcat(INIT, ls[..n], m, ls[n..]);
    LogGrows(m, ls[n..], s);
    if j in m.w.handed {
      HandoutsAreLogged(ls[..n], m, j);
      var i: nat :| i < |m.log| && GivesOf(m, j, i);
      assert GivesOf(s, j, i);
    }
  }

  /** Cancel wins if it is first: whenever a job is handed out for the first time, or no report of its
      runner reopens its row, the read of the handing handler precedes every stop write that met the
      row. */
  lemma CancelWinsIfFirst(ls: seq<Label>, s: State, k: nat, i: nat)
    requires Reaches(ls, s) && i < k < |s.log| && s.log[k].HandedOut? && s.log[i] == Stopped(s.log[k].job)
    requires FirstGive(s, s.log[k].job, k) || forall l | l in ls :: ReportsBar(l, s.log[k].job)
    ensures s.log[k].readAt < i && s.log[s.log[k].readAt] == RowRead(s.log[k].h, s.log[k].job)
  {
    var n, m := OnlyReportsReopen(ls, s, k, i);
    if i <= s.log[k].readAt {
      assert ls[n] in ls;
      NoReportBeforeGive(ls, s, s.log[k].job, k, n, m);
      assert false;
    }
  }
}
