/** What a run never does to a row. */
module History {
  import opened Models
  import opened Persistent
  import opened Protocol
  import opened Safety
  import opened Handout

  /** `after` is a later version of `before`. */
  ghost predicate Follows(before: Row, after: Row) {
    && after.priority == before.priority
    && after.enqueuedAt == before.enqueuedAt
    && (before.status != Pending ==> after.status != Pending)
  }

  lemma RowFollows(s: State, l: Label, j: JobId)
    requires Basic(s) && Enabled(s, l) && j in s.w.rows
    ensures j in Apply(s, l).w.rows && Follows(s.w.rows[j], Apply(s, l).w.rows[j])
  {
    StatusMoves(s, l, j);
  }

  /** From any reachable state on, a row is never removed, its priority and enqueue time never
      change, and PENDING is never re-entered. */
  lemma {:induction false} RowsOnlyAdvance(pre: seq<Label>, s: State, ls: seq<Label>, t: State, j: JobId)
    requires Reaches(pre, s) && Run(s, ls) == Some(t) && j in s.w.rows
    ensures j in t.w.rows && Follows(s.w.rows[j], t.w.rows[j])
    decreases |ls|
  {
    if ls != [] {
      ReachedIsBasic(pre, s);
      RowFollows(s, ls[0], j);
      Extend(INIT, pre, s, ls[0]);
      RowsOnlyAdvance(pre + [ls[0]], Apply(s, ls[0]), ls[1..], t, j);
    }
  }

  /** A row is born PENDING, with the priority its message was published with. */
  lemma RowsAreBornPending(ls: seq<Label>, s: State, l: Label, j: JobId)
    requires Reaches(ls, s) && Enabled(s, l) && j !in s.w.rows && j in Apply(s, l).w.rows
    ensures l.DoInsert? && Apply(s, l).w.rows[j].status == Pending
    ensures j in s.w.b.msgs && Apply(s, l).w.rows[j].priority == Some(s.w.b.msgs[j].priority)
  {
    ReachedIsBasic(ls, s);
    RowsMove(s, l);
  }

  /** Among the server's own steps only get-next's claim turns a row RUNNING; otherwise the runner
      asked for it. */
  lemma OnlyGetNextChoosesRunning(ls: seq<Label>, s: State, l: Label, j: JobId)
    requires Reaches(ls, s) && Enabled(s, l) && j in Apply(s, l).w.rows
    requires Apply(s, l).w.rows[j].status == Running && !(j in s.w.rows && s.w.rows[j].status == Running)
    ensures || (l.DoClaim? && s.handlers[l.h].job == j)
            || (l.DoProgress? && l.id == j && l.update.status == Some(Running))
            || (l.DoSubmit? && l.result.jobId == j && l.result.status == Running)
  {
    ReachedIsBasic(ls, s);
    if j in s.w.rows {
      StatusMoves(s, l, j);
    } else {
      RowsAreBornPending(ls, s, l, j);
    }
  }
}
