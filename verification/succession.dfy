/** Lineages of prioritizations over interleaved runs: when a job and its successors are worked on at
    most once in all. */
module Succession {
  import opened Models
  import opened Protocol
  import opened Safety
  import opened Handout
  import opened Finality
  import opened Exactness

  /** What a run leaves behind about lineages: the lineage of every published job, named by the publish
      number of its first member, the lineages that prioritizing handlers are to continue, and the jobs
      superseded for that. */
  datatype Trail = Trail(lines: map<JobId, nat>, heirs: map<HandlerId, nat>, superseded: set<JobId>)

  const NO_TRAIL := Trail(map[], map[], {})

  ghost function Track(s: State, tr: Trail, l: Label): Trail
    requires Enabled(s, l)
  {
    match l
    case DoSupersede(h, Succeeds, _) =>
      var orig := s.handlers[h].job;
      tr.(heirs := if orig in tr.lines then tr.heirs[h := tr.lines[orig]] else tr.heirs,
          superseded := tr.superseded + {orig})
    case DoPublish(h, id, outcome) =>
      tr.(lines := if outcome == FailsBefore then tr.lines
                   else tr.lines[id := if h in tr.heirs then tr.heirs[h] else s.w.b.next],
          heirs := tr.heirs - {h})
    case _ => tr
  }

  ghost function TrackAll(s: State, tr: Trail, ls: seq<Label>): Trail
    decreases |ls|
  {
    if ls == [] || !Enabled(s, ls[0]) then tr
    else TrackAll(Apply(s, ls[0]), Track(s, tr, ls[0]), ls[1..])
  }

  /** The supersede write comes before anyone was given the job or is about to give it, and no other
      prioritization of the job came first. A row still PENDING excludes all but a handler about to
      give. */
  ghost predicate InTime(s: State, tr: Trail, l: Label)
    requires Enabled(s, l)
  {
    l.DoSupersede? && l.outcome == Succeeds ==>
      var orig := s.handlers[l.h].job;
      orig !in s.w.handed && NobodyGives(s, orig) && orig !in tr.superseded
  }

  ghost predicate AllInTime(s: State, tr: Trail, ls: seq<Label>)
    decreases |ls|
  {
    ls != [] && Enabled(s, ls[0]) ==>
      InTime(s, tr, ls[0]) && AllInTime(Apply(s, ls[0]), Track(s, tr, ls[0]), ls[1..])
  }

  // ---- One member of a lineage is alive ----

  /** `i` is a published member of the lineage that was not superseded. */
  ghost predicate IsTip(tr: Trail, i: JobId, line: nat) {
    i in tr.lines && i !in tr.superseded && tr.lines[i] == line
  }

  /** The trail by itself: a lineage has one leading member, or one handler about to publish it. */
  ghost predicate Single(tr: Trail, next: nat) {
    && (forall i | i in tr.lines :: tr.lines[i] < next)
    && (forall h | h in tr.heirs :: tr.heirs[h] < next)
    && (forall i, j, line | IsTip(tr, i, line) && IsTip(tr, j, line) :: i == j)
    && (forall g, h | g in tr.heirs && h in tr.heirs && tr.heirs[g] == tr.heirs[h] :: g == h)
    && (forall i, h | h in tr.heirs :: !IsTip(tr, i, tr.heirs[h]))
  }

  lemma SupersedeIsSingle(tr: Trail, next: nat, h: HandlerId, orig: JobId)
    requires Single(tr, next) && orig in tr.lines && orig !in tr.superseded && h !in tr.heirs
    ensures Single(tr.(heirs := tr.heirs[h := tr.lines[orig]], superseded := tr.superseded + {orig}), next)
  {
    var t := tr.(heirs := tr.heirs[h := tr.lines[orig]], superseded := tr.superseded + {orig});
    assert IsTip(tr, orig, tr.lines[orig]);
    forall i, line: nat | IsTip(t, i, line)
      ensures IsTip(tr, i, line) && line != tr.lines[orig]
    {
      assert IsTip(tr, i, line) && i != orig;
    }
  }

  lemma PublishIsSingle(tr: Trail, next: nat, h: HandlerId, id: JobId)
    requires Single(tr, next) && id !in tr.lines && id !in tr.superseded
    ensures Single(tr.(heirs := tr.heirs - {h},
                       lines := tr.lines[id := if h in tr.heirs then tr.heirs[h] else next]), next + 1)
  {
    var line := if h in tr.heirs then tr.heirs[h] else next;
    var t := tr.(heirs := tr.heirs - {h}, lines := tr.lines[id := line]);
    forall i, l: nat | IsTip(t, i, l)
      ensures if i == id then l == line else IsTip(tr, i, l) && l != line
    {
      assert i != id ==> IsTip(tr, i, l) && l < next;
    }
  }

  lemma GiveUpIsSingle(tr: Trail, next: nat, h: HandlerId)
    requires Single(tr, next)
    ensures Single(tr.(heirs := tr.heirs - {h}), next)
  {
    var t := tr.(heirs := tr.heirs - {h});
    forall i, line: nat | IsTip(t, i, line) ensures IsTip(tr, i, line) {
    }
  }

  // ---- The trail beside the state ----

  ghost predicate Faithful(s: State, tr: Trail) {
    && tr.lines.Keys == s.w.b.msgs.Keys
    && tr.superseded <= tr.lines.Keys
    && (forall h | h in tr.heirs :: h in s.handlers && s.handlers[h].Publishing?)
    && (forall j | j in tr.superseded :: Final(s, j))
  }

  lemma FaithfulStep(s: State, tr: Trail, l: Label)
    requires Basic(s) && Known(s) && Enabled(s, l) && Faithful(s, tr) && InTime(s, tr, l)
    ensures Faithful(Apply(s, l), Track(s, tr, l))
  {
    FinalsStay(s, tr, l);
    HeirsMove(s, tr, l);
    MsgsMove(s, l);
  }

  lemma FinalsStay(s: State, tr: Trail, l: Label)
    requires Basic(s) && Known(s) && Enabled(s, l) && Faithful(s, tr) && InTime(s, tr, l)
    ensures forall j | j in Track(s, tr, l).superseded :: Final(Apply(s, l), j)
  {
    forall j | j in Track(s, tr, l).superseded
      ensures Final(Apply(s, l), j)
    {
      if j in tr.superseded {
        FinalStep(s, l, j);
      } else {
        StopShuts(s, l, j);
      }
    }
  }

  lemma HeirsMove(s: State, tr: Trail, l: Label)
    requires Enabled(s, l) && Faithful(s, tr)
    ensures var t, u := Apply(s, l), Track(s, tr, l);
            && (forall h | h in u.heirs :: h in t.handlers && t.handlers[h].Publishing?)
            && u.lines.Keys == tr.lines.Keys + (if l.DoPublish? && l.outcome != FailsBefore then {l.id} else {})
            && t.w.b.msgs.Keys == s.w.b.msgs.Keys + (if l.DoPublish? && l.outcome != FailsBefore then {l.id} else {})
  {
  }

  lemma TrailMoves(s: State, tr: Trail, l: Label)
    requires Basic(s) && Known(s) && Enabled(s, l) && Faithful(s, tr)
    ensures l.DoSupersede? ==> l.h !in tr.heirs && s.handlers[l.h].job in tr.lines
    ensures l.DoPublish? ==> l.id !in tr.lines && l.id !in tr.superseded
    ensures !(l.DoPublish? || (l.DoSupersede? && l.outcome == Succeeds)) ==> Track(s, tr, l) == tr
    ensures Apply(s, l).w.b.next == if l.DoPublish? && l.outcome != FailsBefore then s.w.b.next + 1 else s.w.b.next
  {
  }

  lemma TrailSingle(s: State, tr: Trail, l: Label, next': nat)
    requires Enabled(s, l) && Single(tr, s.w.b.next) && InTime(s, tr, l)
    requires l.DoSupersede? ==> l.h !in tr.heirs && s.handlers[l.h].job in tr.lines
    requires l.DoPublish? ==> l.id !in tr.lines && l.id !in tr.superseded
    requires !(l.DoPublish? || (l.DoSupersede? && l.outcome == Succeeds)) ==> Track(s, tr, l) == tr
    requires next' == if l.DoPublish? && l.outcome != FailsBefore then s.w.b.next + 1 else s.w.b.next
    ensures Single(Track(s, tr, l), next')
  {
    if l.DoSupersede? && l.outcome == Succeeds {
      SupersedeIsSingle(tr, next', l.h, s.handlers[l.h].job);
    } else if l.DoPublish? && l.outcome == FailsBefore {
      GiveUpIsSingle(tr, next', l.h);
    } else if l.DoPublish? {
      PublishIsSingle(tr, s.w.b.next, l.h, l.id);
    }
  }

  lemma {:induction false} SingleRun(s: State, tr: Trail, ls: seq<Label>, t: State)
    requires Basic(s) && Known(s) && Faithful(s, tr) && Single(tr, s.w.b.next)
    requires Run(s, ls) == Some(t) && AllInTime(s, tr, ls)
    ensures Faithful(t, TrackAll(s, tr, ls)) && Single(TrackAll(s, tr, ls), t.w.b.next)
    decreases |ls|
  {
    if ls != [] {
      BasicStep(s, ls[0]);
      KnownStep(s, ls[0]);
      FaithfulStep(s, tr, ls[0]);
      TrailMoves(s, tr, ls[0]);
      TrailSingle(s, tr, ls[0], Apply(s, ls[0]).w.b.next);
      SingleRun(Apply(s, ls[0]), Track(s, tr, ls[0]), ls[1..], t);
    }
  }

  lemma HandedIsTip(s: State, tr: Trail, i: JobId)
    requires Basic(s) && Faithful(s, tr) && i in s.w.handed
    ensures i in tr.lines && IsTip(tr, i, tr.lines[i])
  {
    assert i in tr.superseded ==> Final(s, i);
  }

  lemma StartIsTracked()
    ensures Basic(INIT) && Known(INIT) && Faithful(INIT, NO_TRAIL) && Single(NO_TRAIL, INIT.w.b.next)
  {
  }

  lemma TrailIsSingle(ls: seq<Label>, s: State)
    requires Reaches(ls, s) && AllInTime(INIT, NO_TRAIL, ls)
    ensures Single(TrackAll(INIT, NO_TRAIL, ls), s.w.b.next)
  {
    StartIsTracked();
    SingleRun(INIT, NO_TRAIL, ls, s);
  }

  lemma TrailIsFaithful(ls: seq<Label>, s: State)
    requires Reaches(ls, s) && AllInTime(INIT, NO_TRAIL, ls)
    ensures Faithful(s, TrackAll(INIT, NO_TRAIL, ls))
  {
    StartIsTracked();
    SingleRun(INIT, NO_TRAIL, ls, s);
  }

  lemma GivenIsTip(ls: seq<Label>, s: State, i: JobId)
    requires Reaches(ls, s) && AllInTime(INIT, NO_TRAIL, ls) && i in s.w.handed
    ensures var tr := TrackAll(INIT, NO_TRAIL, ls); i in tr.lines && IsTip(tr, i, tr.lines[i])
  {
    TrailIsFaithful(ls, s);
    ReachedIsBasic(ls, s);
    HandedIsTip(s, TrackAll(INIT, NO_TRAIL, ls), i);
  }

  /** Over every interleaved run whose supersede writes come in time, at most one job of a lineage is
      ever handed out. */
  lemma LineageIsGivenOnce(ls: seq<Label>, s: State, i: JobId, j: JobId)
    requires Reaches(ls, s) && AllInTime(INIT, NO_TRAIL, ls) && i in s.w.handed && j in s.w.handed
    ensures var tr := TrackAll(INIT, NO_TRAIL, ls);
            i in tr.lines && j in tr.lines && (tr.lines[i] == tr.lines[j] ==> i == j)
  {
    GivenIsTip(ls, s, i);
    GivenIsTip(ls, s, j);
    TrailIsSingle(ls, s);
  }

  /** ... and that one only once, if its reports all bar it or its replies and acks succeed. */
  lemma LineageIsHandedOutOnce(ls: seq<Label>, s: State, i: JobId)
    requires Reaches(ls, s) && AllInTime(INIT, NO_TRAIL, ls) && i in s.w.handed
    requires (forall l | l in ls :: ReportsBar(l, i)) || (forall l | l in ls :: RepliesStick(l, i))
    ensures var tr := TrackAll(INIT, NO_TRAIL, ls);
            && Handouts(s, i) == 1 && i in tr.lines
            && forall j | j in s.w.handed :: j in tr.lines && (tr.lines[j] == tr.lines[i] ==> j == i)
  {
    AtMostOnce(ls, s, i);
    forall j | j in s.w.handed
      ensures var tr := TrackAll(INIT, NO_TRAIL, ls);
              i in tr.lines && j in tr.lines && (tr.lines[j] == tr.lines[i] ==> j == i)
    {
      LineageIsGivenOnce(ls, s, j, i);
    }
  }

  /** A guard the supersede write could make: a row still PENDING means that nobody was given the job
      and that no prioritization of it succeeded. */
  lemma PendingIsInTime(ls: seq<Label>, s: State, h: HandlerId, now: Time)
    requires Reaches(ls, s) && AllInTime(INIT, NO_TRAIL, ls) && h in s.handlers && s.handlers[h].Superseding?
    requires var orig := s.handlers[h].job;
             orig in s.w.rows && s.w.rows[orig].status == Pending && NobodyGives(s, orig)
    ensures InTime(s, TrackAll(INIT, NO_TRAIL, ls), DoSupersede(h, Succeeds, now))
  {
    PendingIsNotHanded(ls, s, s.handlers[h].job);
    PendingIsNotSuperseded(ls, s, s.handlers[h].job);
  }

  lemma PendingIsNotSuperseded(ls: seq<Label>, s: State, j: JobId)
    requires Reaches(ls, s) && AllInTime(INIT, NO_TRAIL, ls) && j in s.w.rows && s.w.rows[j].status == Pending
    ensures j !in TrackAll(INIT, NO_TRAIL, ls).superseded
  {
    TrailIsFaithful(ls, s);
    FinalIsNotPending(s, TrackAll(INIT, NO_TRAIL, ls), j);
  }

  lemma FinalIsNotPending(s: State, tr: Trail, j: JobId)
    requires Faithful(s, tr) && j in s.w.rows && s.w.rows[j].status == Pending
    ensures j !in tr.superseded
  {
    assert j in tr.superseded ==> Final(s, j);
  }
}
