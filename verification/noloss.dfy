/** A PENDING job is never lost, with one exception: the row-not-found branch dropped its message
    while its own publisher stood between publishing and inserting. */
module NoLoss {
  import opened Models
  import opened Dispatch
  import opened Protocol
  import opened Safety
  import opened Handout

  ghost predicate Started(s: State, j: JobId) {
    j in s.w.rows && s.w.rows[j].status != Pending
  }

  /** Whether the row-not-found branch has decided to drop, or has dropped, the message of `j`. */
  ghost predicate Doomed(s: State, j: JobId) {
    j in s.dropped || exists h :: h in s.handlers && s.handlers[h] == Settling(j, Drop)
  }

  ghost predicate Traced(s: State, j: JobId) {
    && (j in s.w.b.settled ==> Started(s, j) || j in s.dropped)
    && (forall h | h in s.handlers && s.handlers[h] == Settling(j, Ack) :: Started(s, j))
    && (forall h | h in s.handlers && s.handlers[h].Replying? && s.handlers[h].job == j :: Started(s, j))
    && (j in s.w.handed ==> Started(s, j))
    && (Doomed(s, j) && (j in s.w.rows || BeingInserted(s, j)) ==> j in s.raced)
    && (j in s.dropped ==> j in s.w.b.settled)
  }

  /** PENDING is never re-entered. */
  lemma StartedStays(s: State, l: Label, j: JobId)
    requires Rooted(s) && Enabled(s, l) && Started(s, j)
    ensures Started(Apply(s, l), j)
  {
    StatusMoves(s, l, j);
  }

  lemma DoomMoves(s: State, l: Label, j: JobId)
    requires Basic(s) && Enabled(s, l) && Doomed(Apply(s, l), j)
    ensures Doomed(s, j) || (l.DoRead? && s.handlers[l.h].job == j && j !in s.w.rows)
    ensures s.raced <= Apply(s, l).raced
    ensures !Doomed(s, j) && BeingInserted(s, j) ==> j in Apply(s, l).raced
  {
    var t := Apply(s, l);
    if j !in t.dropped {
      var h :| h in t.handlers && t.handlers[h] == Settling(j, Drop);
      if h in s.handlers && s.handlers[h] == t.handlers[h] {
        assert Doomed(s, j);
      } else {
        assert l.DoRead? && l.h == h;
      }
    } else if j !in s.dropped {
      assert l.DoSettle? && s.handlers[l.h] == Settling(j, Drop);
    }
  }

  /** A row that exists or is about to exist was so before the step, unless the step publishes it. */
  lemma ComingMoves(s: State, l: Label, j: JobId)
    requires Basic(s) && Enabled(s, l)
    requires j in Apply(s, l).w.rows || BeingInserted(Apply(s, l), j)
    ensures j in s.w.rows || BeingInserted(s, j) || (l.DoPublish? && l.id == j)
  {
    var t := Apply(s, l);
    RowsMove(s, l);
    if j !in t.w.rows {
      var g :| g in t.handlers && t.handlers[g] == Inserting(j);
      InsertingMoves(s, l, g);
    }
  }

  lemma DropsAreSettled(s: State, l: Label, j: JobId)
    requires Basic(s) && Traced(s, j) && Enabled(s, l)
    ensures j in Apply(s, l).dropped ==> j in Apply(s, l).w.b.settled
    ensures j in Apply(s, l).w.b.settled ==>
              j in s.w.b.settled || (l.DoSettle? && l.id == j && (l.how == Ack || j in Apply(s, l).dropped))
    ensures s.dropped <= Apply(s, l).dropped
  {
    if j in s.w.b.settled {
      SettledStay(s, l, j);
    }
  }

  lemma AckMoves(s: State, l: Label, h: HandlerId, j: JobId)
    requires Basic(s) && Traced(s, j) && Enabled(s, l)
    requires h in Apply(s, l).handlers && Apply(s, l).handlers[h] == Settling(j, Ack)
    ensures Started(s, j)
  {
    if h !in s.handlers || s.handlers[h] != Apply(s, l).handlers[h] {
      if l.DoReply? {
        assert s.handlers[h].Replying? && s.handlers[h].job == j;
      }
    }
  }

  /** Whatever settles a message, or is about to, has seen its job started. */
  lemma StartedBehind(s: State, l: Label, j: JobId)
    requires Basic(s) && Traced(s, j) && Enabled(s, l)
    ensures var t := Apply(s, l);
            && (forall h | h in t.handlers && t.handlers[h] == Settling(j, Ack) :: Started(t, j))
            && (forall h | h in t.handlers && t.handlers[h].Replying? && t.handlers[h].job == j :: Started(t, j))
            && (j in t.w.handed ==> Started(t, j))
  {
    var t := Apply(s, l);
    HandedMoves(s, l);
    if Started(s, j) {
      StartedStays(s, l, j);
    }
    forall h | h in t.handlers && t.handlers[h] == Settling(j, Ack)
      ensures Started(t, j)
    {
      AckMoves(s, l, h, j);
    }
    forall h | h in t.handlers && t.handlers[h].Replying? && t.handlers[h].job == j
      ensures Started(t, j)
    {
      ReplyingMoves(s, l, h, j);
    }
    if l.DoReply? {
      assert s.handlers[l.h].Replying?;
    }
  }

  lemma SettledBehind(s: State, l: Label, j: JobId)
    requires Basic(s) && Traced(s, j) && Enabled(s, l)
    ensures var t := Apply(s, l);
            && (j in t.w.b.settled ==> Started(t, j) || j in t.dropped)
            && (j in t.dropped ==> j in t.w.b.settled)
  {
    DropsAreSettled(s, l, j);
    if Started(s, j) {
      StartedStays(s, l, j);
    }
    if l.DoSettle? && l.id == j {
      assert s.handlers[l.h] == Settling(j, l.how);
    }
  }

  lemma TracedStep(s: State, l: Label, j: JobId)
    requires Basic(s) && Traced(s, j) && Enabled(s, l)
    ensures Traced(Apply(s, l), j)
  {
    var t := Apply(s, l);
    StartedBehind(s, l, j);
    SettledBehind(s, l, j);
    if Doomed(t, j) && (j in t.w.rows || BeingInserted(t, j)) {
      DoomMoves(s, l, j);
      ComingMoves(s, l, j);
      if l.DoPublish? && l.id == j {
        DoomedKnown(s, j);
      }
    }
  }

  lemma DoomedKnown(s: State, j: JobId)
    requires Basic(s) && Traced(s, j) && Doomed(s, j)
    ensures j in s.w.b.msgs
  {
    if j !in s.dropped {
      var h :| h in s.handlers && s.handlers[h] == Settling(j, Drop);
      assert Holds(s.handlers[h], j);
    }
  }

  lemma {:induction false} TracedRun(s: State, ls: seq<Label>, t: State, j: JobId)
    requires Basic(s) && Traced(s, j) && Run(s, ls) == Some(t)
    ensures Basic(t) && Traced(t, j)
    decreases |ls|
  {
    if ls != [] {
      BasicStep(s, ls[0]);
      TracedStep(s, ls[0], j);
      TracedRun(Apply(s, ls[0]), ls[1..], t, j);
    }
  }

  /** In every reachable state a PENDING job's message is ready, or held by exactly one handler, or
      was dropped by the row-not-found branch at a moment when its own publisher was between
      publishing and inserting. */
  lemma NoSilentLoss(ls: seq<Label>, s: State, j: JobId)
    requires Reaches(ls, s) && j in s.w.rows && s.w.rows[j].status == Pending
    ensures || j in s.w.b.ready
            || (exists h :: h in s.handlers && Holds(s.handlers[h], j)
                            && forall g | g in s.handlers && Holds(s.handlers[g], j) :: g == h)
            || (j in s.w.b.settled && j in s.dropped && j in s.raced)
  {
    InitIsBasic();
    TracedRun(INIT, ls, s, j);
    if j in s.w.b.unacked {
      var h :| h in s.handlers && Holds(s.handlers[h], j);
      assert forall g | g in s.handlers && Holds(s.handlers[g], j) :: g == h;
    }
  }

  /** What being `raced` means: some earlier step of the run was a successful read that found no row
      while a handler stood between publishing that very job and inserting it. */
  lemma {:induction false} RacedMeans(s: State, ls: seq<Label>, t: State, j: JobId)
    returns (k: nat, m: State, h: HandlerId)
    requires Run(s, ls) == Some(t) && j in t.raced && j !in s.raced
    ensures k < |ls| && ls[k] == DoRead(h, false) && Run(s, ls[..k]) == Some(m)
    ensures Enabled(m, ls[k]) && m.handlers[h] == Reading(j) && j !in m.w.rows && BeingInserted(m, j)
    decreases |ls|
  {
    var s' := Apply(s, ls[0]);
    if j in s'.raced {
      k, m, h := 0, s, ls[0].h;
    } else {
      k, m, h := RacedMeans(s', ls[1..], t, j);
      assert ls[..k + 1][1..] == ls[1..][..k];
      k := k + 1;
    }
  }
}
