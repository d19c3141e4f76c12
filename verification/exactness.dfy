/** The exact conditions, at the write that decides, under which a stop is final, a prioritization
    duplicates work, a published copy runs, and a pending job is lost. */
module Exactness {
  import opened Models
  import opened Dispatch
  import opened Protocol
  import opened Safety
  import opened Handout
  import opened NoLoss
  import opened Finality
  import opened Reach

  lemma Continuation(s: State, ids: set<JobId>, j: JobId) returns (ls: seq<Label>, t: State)
    requires CanGive(s, ids) && j in ids
    ensures Run(s, ls) == Some(t) && j in t.w.handed
  {
    ls, t :| Leads(s, ls, t) && AllHanded(t, ids);
  }

  lemma GivesSurvive(s: State, l: Label, j: JobId, h: HandlerId)
    requires Stops(s, l, j) && h in s.handlers && WillGive(s.handlers[h], j)
    ensures h in Apply(s, l).handlers && WillGive(Apply(s, l).handlers[h], j)
  {
  }

  // ---- Prioritizations ----

  /** The supersede write of handler `h` succeeding. */
  function Supersede(h: HandlerId): Label {
    DoSupersede(h, Succeeds, 0)
  }

  lemma SupersedeLeads(ls: seq<Label>, s: State, h: HandlerId)
    requires Reaches(ls, s) && h in s.handlers && s.handlers[h].Superseding?
    ensures Basic(s) && Basic(Apply(s, Supersede(h))) && Stops(s, Supersede(h), s.handlers[h].job)
    ensures Reaches(ls + [Supersede(h)], Apply(s, Supersede(h)))
    ensures var t := Apply(s, Supersede(h));
            && t.w.handed == s.w.handed && t.w.b == s.w.b && h in t.handlers
            && t.handlers == s.handlers[h := t.handlers[h]]
            && t.handlers[h].Publishing? && t.handlers[h].inserts
  {
    ReachedIsBasic(ls, s);
    InitIsBasic();
    KnownRun(INIT, ls, s);
    BasicStep(s, Supersede(h));
    Extend(INIT, ls, s, Supersede(h));
  }

  /** A prioritization whose supersede write succeeds can end with both the job and its successor
      handed out exactly when the write comes after a handout of the job, or while some handler is
      about to give it. */
  lemma PrioritizeDuplicatesExactlyWhen(ls: seq<Label>, s: State, h: HandlerId, id: JobId)
    requires Reaches(ls, s) && h in s.handlers && s.handlers[h].Superseding?
    requires id !in s.w.b.msgs && id != ""
    ensures CanGive(Apply(s, Supersede(h)), {s.handlers[h].job, id})
            <==> s.handlers[h].job in s.w.handed || !NobodyGives(s, s.handlers[h].job)
  {
    SupersedeLeads(ls, s, h);
    if s.handlers[h].job in s.w.handed {
      GivesSuccessor(Apply(s, Supersede(h)), h, s.handlers[h].job, id);
    } else if NobodyGives(s, s.handlers[h].job) {
      SupersededNeverRuns(ls, s, h, id);
    } else {
      GivenThenSuperseded(s, h, id);
    }
  }

  lemma SupersededNeverRuns(ls: seq<Label>, s: State, h: HandlerId, id: JobId)
    requires Reaches(ls, s) && h in s.handlers && s.handlers[h].Superseding? && s.handlers[h].job in s.w.rows
    requires s.handlers[h].job !in s.w.handed && NobodyGives(s, s.handlers[h].job)
    ensures !CanGive(Apply(s, Supersede(h)), {s.handlers[h].job, id})
  {
    var orig, t := s.handlers[h].job, Apply(s, Supersede(h));
    if CanGive(t, {orig, id}) {
      var more, u := Continuation(t, {orig, id}, orig);
      StopIsFinal(ls, s, Supersede(h), orig, more, u);
      assert false;
    }
  }

  lemma GivenThenSuperseded(s: State, h: HandlerId, id: JobId)
    requires h in s.handlers && s.handlers[h].Superseding? && s.handlers[h].job in s.w.rows
    requires !NobodyGives(s, s.handlers[h].job)
    requires Basic(Apply(s, Supersede(h))) && id !in s.w.b.msgs && id != ""
    ensures CanGive(Apply(s, Supersede(h)), {s.handlers[h].job, id})
  {
    var orig, t := s.handlers[h].job, Apply(s, Supersede(h));
    var g :| g in s.handlers && WillGive(s.handlers[g], orig);
    GivesSurvive(s, Supersede(h), orig, g);
    var more, u := GiveClaimed(t, g, orig);
    GivesSuccessor(u, h, orig, id);
    CanGiveVia(t, more, u, {orig, id});
  }

  lemma GivesSuccessor(t: State, h: HandlerId, orig: JobId, id: JobId)
    requires Basic(t) && (orig in t.w.handed || Available(t, orig)) && id !in t.w.b.msgs && id != ""
    requires h in t.handlers && t.handlers[h].Publishing? && t.handlers[h].inserts
    ensures CanGive(t, {orig, id})
  {
    var ls, m := File(t, h, id);
    AllCanBeGiven(m, {orig, id});
    CanGiveVia(t, ls, m, {orig, id});
  }

  /** Two prioritizations of one job that both read it PENDING can both get their successor handed out:
      the supersede write does not look at the status. */
  lemma TwoPrioritizationsGiveTwo(ls: seq<Label>, s: State, g: HandlerId, h: HandlerId, a: JobId, b: JobId)
    requires Reaches(ls, s) && g in s.handlers && h in s.handlers && g != h
    requires s.handlers[g].Superseding? && s.handlers[h].Superseding? && s.handlers[g].job == s.handlers[h].job
    requires a !in s.w.b.msgs && b !in s.w.b.msgs && a != b && a != "" && b != ""
    ensures CanGive(s, {a, b})
  {
    var l1, l2 := Supersede(g), Supersede(h);
    SupersedeLeads(ls, s, g);
    var s1 := Apply(s, l1);
    SupersedeLeads(ls + [l1], s1, h);
    var s2 := Apply(s1, l2);
    Snoc(s, [], s, l1);
    Snoc(s, [] + [l1], s1, l2);
    GivesBoth(s2, g, h, a, b);
    CanGiveVia(s, [] + [l1] + [l2], s2, {a, b});
  }

  lemma GivesBoth(s: State, g: HandlerId, h: HandlerId, a: JobId, b: JobId)
    requires Basic(s) && g in s.handlers && h in s.handlers && g != h
    requires forall f | f in {g, h} :: s.handlers[f].Publishing? && s.handlers[f].inserts
    requires a !in s.w.b.msgs && b !in s.w.b.msgs && a != b && a != "" && b != ""
    ensures CanGive(s, {a, b})
  {
    assert g in {g, h} && h in {g, h};
    var ls, m := File(s, g, a);
    GivesSuccessor(m, h, a, b);
    CanGiveVia(s, ls, m, {a, b});
  }

  // ---- Published copies ----

  /** A message that reached the broker can be handed out exactly when its publisher inserts a row and
      took the publish for a success; so the copy of a rerun never runs. */
  lemma PublishedRunsExactlyWhen(ls: seq<Label>, s: State, h: HandlerId, j: JobId, outcome: Outcome)
    requires Reaches(ls, s) && Enabled(s, DoPublish(h, j, outcome)) && outcome != FailsBefore
    ensures CanGive(Apply(s, DoPublish(h, j, outcome)), {j}) <==> s.handlers[h].inserts && outcome == Succeeds
  {
    var t := Apply(s, DoPublish(h, j, outcome));
    ReachedIsBasic(ls, s);
    BasicStep(s, DoPublish(h, j, outcome));
    if s.handlers[h].inserts && outcome == Succeeds {
      var l := DoInsert(h, Succeeds, 0);
      InsertOpens(t, h, j);
      BasicStep(t, l);
      Snoc(t, [], t, l);
      AllCanBeGiven(Apply(t, l), {j});
      CanGiveVia(t, [] + [l], Apply(t, l), {j});
    } else if CanGive(t, {j}) {
      PublishLeavesRowless(s, h, j, outcome);
      var more, u := Continuation(t, {j}, j);
      RowlessRun(t, more, u, j);
      assert false;
    }
  }

  // ---- The next handout of a job ----

  lemma GiveSettling(s: State, h: HandlerId, j: JobId, how: Settlement)
    requires Basic(s) && h in s.handlers && s.handlers[h] == Settling(j, how) && Open(s, j)
    ensures CanGiveAgain(s, j)
  {
    var l := DoSettle(h, j, how, FailsBefore);
    BasicStep(s, l);
    Snoc(s, [], s, l);
    var ls, t := GiveAvailable(Apply(s, l), j);
    CanGiveAgainVia(s, [] + [l], Apply(s, l), j);
  }

  lemma GiveHeld(s: State, h: HandlerId, j: JobId)
    requires Basic(s) && h in s.handlers && Holds(s.handlers[h], j) && Open(s, j)
    ensures CanGiveAgain(s, j)
  {
    if s.handlers[h].Reading? {
      assert BeingRead(s, j);
      var ls, t := GiveAvailable(s, j);
    } else if s.handlers[h].Settling? {
      GiveSettling(s, h, j, s.handlers[h].how);
    } else {
      var ls, t := GiveClaimed(s, h, j);
    }
  }

  lemma GiveUnsettled(s: State, j: JobId)
    requires Basic(s) && Open(s, j) && j !in s.w.b.settled
    ensures CanGiveAgain(s, j)
  {
    if j in s.w.b.ready {
      var ls, t := GiveAvailable(s, j);
    } else {
      var h :| h in s.handlers && Holds(s.handlers[h], j);
      GiveHeld(s, h, j);
    }
  }

  /** What a runner posts for job `j` when its script exits cleanly without naming a status. */
  function CompletedResult(j: JobId): TestResult {
    TestResult(j, Completed, "p", None, 1, 0, "", None, 0.0, 0, 0, None, None, "", "", None)
  }

  lemma ReportOpens(s: State, j: JobId)
    requires j in s.w.handed && j in s.w.rows
    ensures var l := DoSubmit(CompletedResult(j), Succeeds);
            && Enabled(s, l) && Open(Apply(s, l), j) && Apply(s, l).w.b == s.w.b && Apply(s, l).w.handed == s.w.handed
  {
  }

  lemma GiveReported(s: State, j: JobId)
    requires Basic(s) && j in s.w.handed && j !in s.w.b.settled
    ensures CanGiveAgain(s, j)
  {
    var l := DoSubmit(CompletedResult(j), Succeeds);
    ReportOpens(s, j);
    BasicStep(s, l);
    Snoc(s, [], s, l);
    GiveUnsettled(Apply(s, l), j);
    CanGiveAgainVia(s, [] + [l], Apply(s, l), j);
  }

  lemma GiveSomehow(s: State, j: JobId)
    requires Basic(s) && !NobodyGives(s, j)
    ensures CanGiveAgain(s, j) && CanGiveQuietly(s, j) && j !in s.w.b.settled
  {
    var h :| h in s.handlers && WillGive(s.handlers[h], j);
    assert Holds(s.handlers[h], j);
    var ls, t := GiveClaimed(s, h, j);
    assert forall l | l in ls :: ReportsBar(l, j);
  }

  lemma NotGivenAgain(s: State, j: JobId)
    requires Basic(s) && (j in s.w.b.settled || Final(s, j))
    ensures !CanGiveAgain(s, j)
  {
    if CanGiveAgain(s, j) {
      var ls, t :| Leads(s, ls, t) && Handouts(s, j) < Handouts(t, j);
      if j in s.w.b.settled {
        SettledRun(s, ls, t, j);
      } else {
        FinalRun(s, ls, t, j);
      }
      assert false;
    }
  }

  lemma ShutUnlessPending(ls: seq<Label>, s: State, j: JobId)
    requires Reaches(ls, s) && j in s.w.rows && j !in s.w.handed && s.w.rows[j].status != Pending && NobodyGives(s, j)
    ensures Final(s, j)
  {
    InitIsBasic();
    UntouchedRun(INIT, ls, s, j);
  }

  /** From any reachable state a job with a row can be handed out (again) exactly when its message is not
      settled and it is PENDING, or some handler is about to give it, or it was handed out before: then a
      report that does not bar it is enough. */
  lemma GivenAgainExactlyWhen(ls: seq<Label>, s: State, j: JobId)
    requires Reaches(ls, s) && j in s.w.rows
    ensures CanGiveAgain(s, j)
            <==> && j !in s.w.b.settled
                 && (s.w.rows[j].status == Pending || !NobodyGives(s, j) || j in s.w.handed)
  {
    ReachedIsBasic(ls, s);
    if j in s.w.b.settled {
      NotGivenAgain(s, j);
    } else if !NobodyGives(s, j) {
      GiveSomehow(s, j);
    } else if j in s.w.handed {
      GiveReported(s, j);
    } else if s.w.rows[j].status == Pending {
      GiveUnsettled(s, j);
    } else {
      ShutUnlessPending(ls, s, j);
      NotGivenAgain(s, j);
    }
  }

  /** At-most-once handout, exactly: after its first handout a job can be handed out again exactly as
      long as its message is not settled; until then one report that does not bar it is enough, and from
      then on no report does harm. */
  lemma HandedAgainExactlyWhen(ls: seq<Label>, s: State, j: JobId)
    requires Reaches(ls, s) && j in s.w.handed
    ensures CanGiveAgain(s, j) <==> j !in s.w.b.settled
  {
    ReachedIsBasic(ls, s);
    GivenAgainExactlyWhen(ls, s, j);
  }

  /** A PENDING job is lost, in that no continuation hands it out, exactly when its message is settled. */
  lemma PendingIsLostExactlyWhen(ls: seq<Label>, s: State, j: JobId)
    requires Reaches(ls, s) && j in s.w.rows && s.w.rows[j].status == Pending
    ensures CanGiveAgain(s, j) <==> j !in s.w.b.settled
  {
    GivenAgainExactlyWhen(ls, s, j);
  }

  lemma PendingIsNotHanded(ls: seq<Label>, s: State, j: JobId)
    requires Reaches(ls, s) && j in s.w.rows && s.w.rows[j].status == Pending
    ensures j !in s.w.handed
  {
    InitIsBasic();
    TracedRun(INIT, ls, s, j);
  }

  // ---- Stops ----

  lemma StopLeaves(s: State, l: Label, j: JobId)
    requires Stops(s, l, j)
    ensures var t := Apply(s, l);
            && j in t.w.rows && t.w.rows[j].status != Pending && t.w.handed == s.w.handed && t.w.b == s.w.b
            && (NobodyGives(t, j) <==> NobodyGives(s, j))
  {
    if h :| h in s.handlers && WillGive(s.handlers[h], j) {
      GivesSurvive(s, l, j, h);
    }
  }

  /** Without reports that open the row, a stop is final exactly when no handler has read the row and is
      about to give the job. This holds whether the job was handed out before or not. */
  lemma StopIsFinalExactlyWhen(ls: seq<Label>, s: State, l: Label, j: JobId)
    requires Reaches(ls, s) && Stops(s, l, j)
    ensures CanGiveQuietly(Apply(s, l), j) <==> !NobodyGives(s, j)
  {
    var t := Apply(s, l);
    ReachedIsBasic(ls, s);
    BasicStep(s, l);
    StopLeaves(s, l, j);
    if !NobodyGives(s, j) {
      GiveSomehow(t, j);
    } else if CanGiveQuietly(t, j) {
      var more, u :| Leads(t, more, u) && Handouts(t, j) < Handouts(u, j) && forall k | k in more :: ReportsBar(k, j);
      StopShuts(s, l, j);
      ShutRun(t, more, u, j);
      assert false;
    }
  }

  /** With any reports: a stop of a job not handed out yet is final exactly when no handler is about to
      give it; a stop of a job handed out before, exactly when its message is settled. */
  lemma StopIsFinalForGoodExactlyWhen(ls: seq<Label>, s: State, l: Label, j: JobId)
    requires Reaches(ls, s) && Stops(s, l, j)
    ensures CanGiveAgain(Apply(s, l), j)
            <==> if j in s.w.handed then j !in s.w.b.settled else !NobodyGives(s, j)
  {
    StopLeaves(s, l, j);
    Extend(INIT, ls, s, l);
    GivenAgainExactlyWhen(ls + [l], Apply(s, l), j);
    if !NobodyGives(s, j) {
      ReachedIsBasic(ls, s);
      GiveSomehow(s, j);
    }
  }
}
