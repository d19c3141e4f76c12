/** What a reachable state can still lead to: continuations that hand out given jobs, whatever stands
    ahead of them and whoever is in flight. */
module Reach {
  import opened Models
  import opened Amqp
  import opened Protocol
  import opened Safety
  import opened Handout

  /** Some continuation hands out all of `ids`, counting what was handed out already. */
  ghost predicate CanGive(s: State, ids: set<JobId>) {
    exists ls, t :: Leads(s, ls, t) && AllHanded(t, ids)
  }

  /** Some continuation hands out `j` once more. */
  ghost predicate CanGiveAgain(s: State, j: JobId) {
    exists ls, t :: Leads(s, ls, t) && Handouts(s, j) < Handouts(t, j)
  }

  /** The same with the runner of `j` making no report that opens the row. */
  ghost predicate CanGiveQuietly(s: State, j: JobId) {
    exists ls, t :: Leads(s, ls, t) && Handouts(s, j) < Handouts(t, j) && forall l | l in ls :: ReportsBar(l, j)
  }

  /** `ls` leads from `s` to `t`. */
  ghost predicate Leads(s: State, ls: seq<Label>, t: State) {
    Run(s, ls) == Some(t)
  }

  ghost predicate AllHanded(s: State, ids: set<JobId>) {
    forall j | j in ids :: j in s.w.handed
  }

  lemma Then(s: State, ls: seq<Label>, m: State, ms: seq<Label>, t: State)
    requires Leads(s, ls, m) && Leads(m, ms, t)
    ensures Leads(s, ls + ms, t)
  {
    RunConcat(s, ls, m, ms);
  }

  lemma Snoc(s: State, ls: seq<Label>, m: State, l: Label)
    requires Leads(s, ls, m) && Enabled(m, l)
    ensures Leads(s, ls + [l], Apply(m, l))
  {
    Extend(s, ls, m, l);
  }

  lemma CanGiveVia(s: State, ls: seq<Label>, m: State, ids: set<JobId>)
    requires Leads(s, ls, m) && CanGive(m, ids)
    ensures CanGive(s, ids)
  {
    var ms, t :| Leads(m, ms, t) && AllHanded(t, ids);
    Then(s, ls, m, ms, t);
  }

  lemma CanGiveAgainVia(s: State, ls: seq<Label>, m: State, j: JobId)
    requires Leads(s, ls, m) && Handouts(s, j) <= Handouts(m, j) && CanGiveAgain(m, j)
    ensures CanGiveAgain(s, j)
  {
    var ms, t :| Leads(m, ms, t) && Handouts(m, j) < Handouts(t, j);
    Then(s, ls, m, ms, t);
  }

  lemma {:induction false} FreshHandler(hs: set<HandlerId>) returns (h: HandlerId)
    ensures forall g | g in hs :: g < h
    decreases |hs|
  {
    h := 0;
    if |hs| > 0 {
      var g :| g in hs;
      h := FreshHandler(hs - {g});
      h := if g < h then h else g + 1;
      assert forall x | x in hs :: x == g || x in hs - {g};
    } else {
      assert hs == {};
    }
  }

  // ---- Jobs that can be handed out ----

  ghost predicate BeingRead(s: State, j: JobId) {
    exists h :: h in s.handlers && s.handlers[h] == Reading(j)
  }

  /** The message of `j` is ready, or delivered to a handler that has yet to read its row. */
  ghost predicate Waiting(s: State, j: JobId) {
    j in s.w.b.ready || BeingRead(s, j)
  }

  ghost predicate Open(s: State, j: JobId) {
    j in s.w.rows && !Bars(s.w.rows[j].status)
  }

  ghost predicate Available(s: State, j: JobId) {
    Open(s, j) && Waiting(s, j)
  }

  /** From `s` to `t` nothing handed out is forgotten, the handlers that do not hold `j` stand where
      they stood, and every other available job stays available. */
  ghost predicate Spares(s: State, t: State, j: JobId) {
    && Basic(t)
    && multiset(s.w.handed) <= multiset(t.w.handed)
    && t.w.b.msgs == s.w.b.msgs
    && (forall h | h in s.handlers && !Holds(s.handlers[h], j) && !s.handlers[h].Reading? ::
          h in t.handlers && t.handlers[h] == s.handlers[h])
    && (forall i | Available(s, i) && i != j :: Available(t, i))
  }

  lemma SparesTwice(s: State, m: State, t: State, j: JobId)
    requires Spares(s, m, j) && Spares(m, t, j)
    ensures Spares(s, t, j)
  {
  }

  // ---- Taking a message out of its queue ----

  lemma HandSpares(s: State, t: State, f: HandlerId, i: JobId, j: JobId)
    requires Basic(t) && t.w == s.w.(b := Deliver(s.w.b, i)) && f !in s.handlers
    requires t.handlers == s.handlers[f := Reading(i)]
    ensures Spares(s, t, j)
  {
    forall k | Available(s, k) ensures Available(t, k) {
      if k == i {
        assert t.handlers[f] == Reading(k);
      } else if k !in s.w.b.ready {
        var h :| h in s.handlers && s.handlers[h] == Reading(k);
        assert t.handlers[h] == Reading(k);
      }
    }
  }

  lemma DeliverSpares(s: State, f: HandlerId, i: JobId, j: JobId)
    requires Basic(s) && Enabled(s, DoDeliver(f, i))
    ensures var t := Apply(s, DoDeliver(f, i));
            && Spares(s, t, j) && t.w.rows == s.w.rows && t.handlers[f] == Reading(i)
            && t.w.b.ready == s.w.b.ready - {i}
  {
    var t := Apply(s, DoDeliver(f, i));
    BasicStep(s, DoDeliver(f, i));
    HandSpares(s, t, f, i, j);
  }

  /** Whatever stands ahead of it, a ready message can be delivered: other handlers take and hold the
      messages that precede it. */
  lemma {:induction false} TakeOut(s: State, j: JobId) returns (ls: seq<Label>, t: State, f: HandlerId)
    requires Basic(s) && j in s.w.b.ready
    ensures Leads(s, ls, t) && Spares(s, t, j)
    ensures t.w.rows == s.w.rows && f in t.handlers && t.handlers[f] == Reading(j)
    decreases |s.w.b.ready|
  {
    var project := s.w.b.msgs[j].project;
    assert j in ReadyIn(s.w.b, project);
    HeadExists(s.w.b, project);
    var first := Head(s.w.b, project).value;
    f := FreshHandler(s.handlers.Keys);
    var l := DoDeliver(f, first);
    var m := Apply(s, l);
    DeliverSpares(s, f, first, j);
    Snoc(s, [], s, l);
    ls, t := [] + [l], m;
    if first != j {
      var more;
      more, t, f := TakeOut(m, j);
      Then(s, ls, m, more, t);
      ls := ls + more;
      SparesTwice(s, m, t, j);
    }
  }

  // ---- Giving a job ----

  /** A read, claim or reply for `j` touches one handler and at most the row of `j`. */
  lemma OneMoves(s: State, l: Label, j: JobId)
    requires Enabled(s, l) && (l.DoRead? || l.DoClaim? || l.DoReply?) && s.handlers[l.h].job == j
    ensures var t := Apply(s, l);
            && t.w.b == s.w.b && l.h in s.handlers && Holds(s.handlers[l.h], j) && l.h in t.handlers
            && t.handlers == s.handlers[l.h := t.handlers[l.h]]
            && t.w.handed == (if l.DoReply? && l.sent then s.w.handed + [j] else s.w.handed)
            && (forall i | i in s.w.rows && i != j :: i in t.w.rows && t.w.rows[i] == s.w.rows[i])
  {
  }

  lemma OneSpares(s: State, t: State, h: HandlerId, j: JobId)
    requires Basic(t) && t.w.b == s.w.b && h in s.handlers && Holds(s.handlers[h], j)
    requires h in t.handlers && t.handlers == s.handlers[h := t.handlers[h]]
    requires multiset(s.w.handed) <= multiset(t.w.handed)
    requires forall i | i in s.w.rows && i != j :: i in t.w.rows && t.w.rows[i] == s.w.rows[i]
    ensures Spares(s, t, j)
  {
    forall i | Available(s, i) && i != j ensures Available(t, i) {
      if i !in s.w.b.ready {
        var g :| g in s.handlers && s.handlers[g] == Reading(i);
        assert t.handlers[g] == Reading(i);
      }
    }
  }

  lemma MoveSpares(s: State, l: Label, j: JobId)
    requires Basic(s) && Enabled(s, l) && (l.DoRead? || l.DoClaim? || l.DoReply?) && s.handlers[l.h].job == j
    ensures Spares(s, Apply(s, l), j)
  {
    BasicStep(s, l);
    OneMoves(s, l, j);
    OneSpares(s, Apply(s, l), l.h, j);
  }

  lemma ReplyCounts(s: State, h: HandlerId, j: JobId)
    requires Enabled(s, DoReply(h, j, true, true))
    ensures Handouts(Apply(s, DoReply(h, j, true, true)), j) == Handouts(s, j) + 1
  {
    HandedMoves(s, DoReply(h, j, true, true));
  }

  lemma GiveReplying(s: State, h: HandlerId, j: JobId) returns (ls: seq<Label>, t: State)
    requires Basic(s) && h in s.handlers && s.handlers[h].Replying? && s.handlers[h].job == j
    ensures Leads(s, ls, t) && Spares(s, t, j) && Handouts(s, j) < Handouts(t, j)
    ensures forall l | l in ls :: l.DoClaim? || l.DoReply?
  {
    var l := DoReply(h, j, true, true);
    MoveSpares(s, l, j);
    ReplyCounts(s, h, j);
    Snoc(s, [], s, l);
    ls, t := [] + [l], Apply(s, l);
  }

  /** A handler that is about to give a job can give it, whatever its row says by now. */
  lemma GiveClaimed(s: State, h: HandlerId, j: JobId) returns (ls: seq<Label>, t: State)
    requires Basic(s) && h in s.handlers && WillGive(s.handlers[h], j)
    ensures Leads(s, ls, t) && Spares(s, t, j) && Handouts(s, j) < Handouts(t, j)
    ensures forall l | l in ls :: l.DoClaim? || l.DoReply?
  {
    if s.handlers[h].Replying? {
      ls, t := GiveReplying(s, h, j);
    } else {
      var l := DoClaim(h, Succeeds, "", 0);
      var m := Apply(s, l);
      MoveSpares(s, l, j);
      Snoc(s, [], s, l);
      var more;
      more, t := GiveReplying(m, h, j);
      ls := [] + [l] + more;
      Then(s, [] + [l], m, more, t);
      SparesTwice(s, m, t, j);
    }
  }

  lemma GiveRead(s: State, h: HandlerId, j: JobId) returns (ls: seq<Label>, t: State)
    requires Basic(s) && h in s.handlers && s.handlers[h] == Reading(j) && Open(s, j)
    ensures Leads(s, ls, t) && Spares(s, t, j) && Handouts(s, j) < Handouts(t, j)
  {
    var l := DoRead(h, false);
    var m := Apply(s, l);
    MoveSpares(s, l, j);
    Snoc(s, [], s, l);
    var more;
    more, t := GiveClaimed(m, h, j);
    ls := [] + [l] + more;
    Then(s, [] + [l], m, more, t);
    SparesTwice(s, m, t, j);
  }

  lemma GiveAvailable(s: State, j: JobId) returns (ls: seq<Label>, t: State)
    requires Basic(s) && Available(s, j)
    ensures Leads(s, ls, t) && Spares(s, t, j) && Handouts(s, j) < Handouts(t, j)
  {
    if j in s.w.b.ready {
      var first, m, f := TakeOut(s, j);
      var more;
      more, t := GiveRead(m, f, j);
      ls := first + more;
      Then(s, first, m, more, t);
      SparesTwice(s, m, t, j);
    } else {
      var h :| h in s.handlers && s.handlers[h] == Reading(j);
      ls, t := GiveRead(s, h, j);
    }
  }

  function Elements(ids: seq<JobId>): set<JobId> {
    set i | i in ids
  }

  lemma LeftShrinks(ids: set<JobId>, before: seq<JobId>, after: seq<JobId>, j: JobId)
    requires multiset(before) <= multiset(after) && j in ids && j !in before && multiset(after)[j] > 0
    ensures |ids - Elements(after)| < |ids - Elements(before)|
    ensures Elements(before) <= Elements(after)
  {
    assert Elements(before) <= Elements(after) by {
      forall i | i in before ensures i in after {
        assert multiset(before)[i] > 0;
      }
    }
    SubsetSize(ids - Elements(after), ids - Elements(before) - {j});
  }

  /** Any set of jobs that are available, or handed out already, can all be handed out. */
  lemma {:induction false} AllCanBeGiven(s: State, ids: set<JobId>)
    requires Basic(s) && forall j | j in ids :: j in Elements(s.w.handed) || Available(s, j)
    ensures CanGive(s, ids)
    decreases |ids - Elements(s.w.handed)|
  {
    var left := ids - Elements(s.w.handed);
    if left == {} {
      assert forall j | j in ids :: j !in left;
      assert AllHanded(s, ids) && Leads(s, [], s);
    } else {
      var j :| j in left;
      var ls, t := GiveAvailable(s, j);
      LeftShrinks(ids, s.w.handed, t.w.handed, j);
      AllCanBeGiven(t, ids);
      CanGiveVia(s, ls, t, ids);
    }
  }

  // ---- Filing a published job ----

  /** Handlers that leave stages other than `Reading`, and new messages and rows, spare what is
      available. */
  lemma GrowthSpares(s: State, t: State, i: JobId)
    requires Available(s, i) && s.w.b.ready <= t.w.b.ready && i in t.w.rows && t.w.rows[i] == s.w.rows[i]
    requires forall g | g in s.handlers && s.handlers[g].Reading? :: g in t.handlers && t.handlers[g] == s.handlers[g]
    ensures Available(t, i)
  {
    if i !in s.w.b.ready {
      var g :| g in s.handlers && s.handlers[g] == Reading(i);
      assert t.handlers[g] == Reading(i);
    }
  }

  lemma PublishGrows(s: State, h: HandlerId, id: JobId)
    requires Enabled(s, DoPublish(h, id, Succeeds)) && s.handlers[h].inserts
    ensures var t := Apply(s, DoPublish(h, id, Succeeds));
            && t.w.b.ready == s.w.b.ready + {id} && t.w.rows == s.w.rows && t.w.handed == s.w.handed
            && t.w.b.msgs.Keys == s.w.b.msgs.Keys + {id} && t.handlers == s.handlers[h := Inserting(id)]
  {
  }

  lemma InsertOpens(s: State, h: HandlerId, id: JobId)
    requires Basic(s) && h in s.handlers && s.handlers[h] == Inserting(id) && id in s.w.b.ready
    ensures var t := Apply(s, DoInsert(h, Succeeds, 0));
            && Available(t, id) && t.handlers == s.handlers - {h} && t.w.b == s.w.b && t.w.handed == s.w.handed
            && forall i | i in s.w.rows :: i in t.w.rows && t.w.rows[i] == s.w.rows[i]
  {
  }

  lemma FilingSpares(s: State, m: State, t: State, h: HandlerId, id: JobId)
    requires h in s.handlers && !s.handlers[h].Reading?
    requires m.w.b.ready == s.w.b.ready + {id} && m.w.rows == s.w.rows && m.handlers == s.handlers[h := Inserting(id)]
    requires t.w.b == m.w.b && t.handlers == m.handlers - {h}
    requires forall i | i in m.w.rows :: i in t.w.rows && t.w.rows[i] == m.w.rows[i]
    ensures t.handlers == s.handlers - {h}
    ensures forall i | Available(s, i) :: Available(t, i)
  {
    forall i | Available(s, i) ensures Available(t, i) {
      GrowthSpares(s, t, i);
    }
  }

  /** A publisher that inserts makes its job available, whatever others do at that moment. */
  lemma File(s: State, h: HandlerId, id: JobId) returns (ls: seq<Label>, t: State)
    requires Basic(s) && Enabled(s, DoPublish(h, id, Succeeds)) && s.handlers[h].inserts
    ensures Leads(s, ls, t) && Basic(t) && Available(t, id) && t.w.handed == s.w.handed
    ensures t.w.b.msgs.Keys == s.w.b.msgs.Keys + {id}
    ensures t.handlers == s.handlers - {h}
    ensures forall i | Available(s, i) :: Available(t, i)
  {
    var l1, l2 := DoPublish(h, id, Succeeds), DoInsert(h, Succeeds, 0);
    var m := Apply(s, l1);
    BasicStep(s, l1);
    PublishGrows(s, h, id);
    Snoc(s, [], s, l1);
    BasicStep(m, l2);
    Snoc(s, [] + [l1], m, l2);
    InsertOpens(m, h, id);
    ls, t := [] + [l1] + [l2], Apply(m, l2);
    FilingSpares(s, m, t, h, id);
  }
}
