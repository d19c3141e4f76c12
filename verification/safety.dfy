/** What every interleaved run keeps of the broker: each message sits in one place, with one holder;
    and how one step moves the parts of the state, for the theorems built on that. */
module Safety {
  import opened Models
  import opened Amqp
  import opened Dispatch
  import opened Protocol

  // ---- Conservation of messages ----

  lemma PublishConserves(b: Broker, id: JobId, project: string, details: Option<Fields>, priority: UInt8)
    requires Conserved(b) && id !in b.msgs
    ensures Conserved(Publish(b, id, project, details, priority))
  {
  }

  lemma DeliverConserves(b: Broker, id: JobId)
    requires Conserved(b) && id in b.ready
    ensures Conserved(Deliver(b, id))
  {
  }

  lemma SettleConserves(b: Broker, id: JobId, toReady: bool)
    requires Conserved(b) && id in b.unacked
    ensures Conserved(Settle(b, id, toReady))
  {
  }

  type Handlers = map<HandlerId, Stage>

  /** A delivered message belongs to exactly one handler. */
  ghost predicate Owned(hs: Handlers, unacked: set<JobId>) {
    && (forall h, id | h in hs && Holds(hs[h], id) :: id in unacked)
    && (forall g, h, id | g in hs && h in hs && Holds(hs[g], id) && Holds(hs[h], id) :: g == h)
    && (forall id | id in unacked :: exists h :: h in hs && Holds(hs[h], id))
  }

  lemma OwnedMove(hs: Handlers, unacked: set<JobId>, h: HandlerId, p: Stage)
    requires Owned(hs, unacked)
    requires forall id :: Holds(p, id) <==> h in hs && Holds(hs[h], id)
    ensures Owned(hs[h := p], unacked)
  {
    var hs' := hs[h := p];
    forall id | id in unacked ensures exists g :: g in hs' && Holds(hs'[g], id) {
      var g :| g in hs && Holds(hs[g], id);
      assert Holds(hs'[g], id);
    }
  }

  lemma OwnedLeave(hs: Handlers, unacked: set<JobId>, h: HandlerId)
    requires Owned(hs, unacked) && h in hs && forall id :: !Holds(hs[h], id)
    ensures Owned(hs - {h}, unacked)
  {
    forall id | id in unacked ensures exists g :: g in hs - {h} && Holds((hs - {h})[g], id) {
      var g :| g in hs && Holds(hs[g], id);
      assert Holds((hs - {h})[g], id);
    }
  }

  lemma OwnedTake(hs: Handlers, unacked: set<JobId>, h: HandlerId, id: JobId)
    requires Owned(hs, unacked) && h !in hs && id !in unacked
    ensures Owned(hs[h := Reading(id)], unacked + {id})
  {
    var hs' := hs[h := Reading(id)];
    forall j | j in unacked + {id} ensures exists g :: g in hs' && Holds(hs'[g], j) {
      if j == id {
        assert Holds(hs'[h], j);
      } else {
        var g :| g in hs && Holds(hs[g], j);
        assert Holds(hs'[g], j);
      }
    }
  }

  lemma OwnedGive(hs: Handlers, unacked: set<JobId>, h: HandlerId, id: JobId)
    requires Owned(hs, unacked) && h in hs && Holds(hs[h], id)
    ensures Owned(hs - {h}, unacked - {id})
  {
    forall j | j in unacked - {id} ensures exists g :: g in hs - {h} && Holds((hs - {h})[g], j) {
      var g :| g in hs && Holds(hs[g], j);
      assert Holds((hs - {h})[g], j);
    }
  }

  /** Every published job sits in exactly one place, and a delivered one with exactly one handler. */
  ghost predicate Partitioned(s: State) {
    Conserved(s.w.b) && Owned(s.handlers, s.w.b.unacked)
  }

  lemma ConservedStep(s: State, l: Label)
    requires Partitioned(s) && Enabled(s, l)
    ensures Conserved(Apply(s, l).w.b)
  {
    var hs, b := s.handlers, s.w.b;
    if l.DoPublish? {
      PublishConserves(b, l.id, hs[l.h].project, hs[l.h].details, hs[l.h].priority);
    } else if l.DoDeliver? {
      DeliverConserves(b, l.id);
    } else if l.DoSettle? {
      assert Holds(hs[l.h], l.id);
      SettleConserves(b, l.id, ToReady(l.how, l.outcome));
    }
  }

  /** Apart from deliveries and settlements, a step moves at most one handler, which keeps what it holds. */
  ghost predicate KeepsHeld(hs: Handlers, hs': Handlers, h: HandlerId) {
    || (h in hs && hs' == hs - {h} && forall id :: !Holds(hs[h], id))
    || (h in hs' && hs' == hs[h := hs'[h]] && forall id :: Holds(hs'[h], id) <==> h in hs && Holds(hs[h], id))
  }

  lemma OwnedKept(hs: Handlers, hs': Handlers, unacked: set<JobId>, h: HandlerId)
    requires Owned(hs, unacked) && KeepsHeld(hs, hs', h)
    ensures Owned(hs', unacked)
  {
    if h in hs' {
      OwnedMove(hs, unacked, h, hs'[h]);
    } else {
      OwnedLeave(hs, unacked, h);
    }
  }

  predicate OnItsOwn(l: Label) {
    l.DoStop? || l.DoProgress? || l.DoSubmit?
  }

  lemma HandlersMove(s: State, l: Label)
    requires Enabled(s, l) && !l.DoDeliver? && !l.DoSettle?
    ensures Apply(s, l).w.b.unacked == s.w.b.unacked
    ensures if OnItsOwn(l) then Apply(s, l).handlers == s.handlers
            else KeepsHeld(s.handlers, Apply(s, l).handlers, l.h)
  {
  }

  lemma OwnedStep(s: State, l: Label)
    requires Partitioned(s) && Enabled(s, l)
    ensures Owned(Apply(s, l).handlers, Apply(s, l).w.b.unacked)
  {
    if l.DoDeliver? {
      OwnedTake(s.handlers, s.w.b.unacked, l.h, l.id);
    } else if l.DoSettle? {
      assert Holds(s.handlers[l.h], l.id);
      OwnedGive(s.handlers, s.w.b.unacked, l.h, l.id);
    } else {
      HandlersMove(s, l);
      if !OnItsOwn(l) {
        OwnedKept(s.handlers, Apply(s, l).handlers, s.w.b.unacked, l.h);
      }
    }
  }

  /** Every step, whatever fails, keeps the partition. */
  lemma PartitionedStep(s: State, l: Label)
    requires Partitioned(s) && Enabled(s, l)
    ensures Partitioned(Apply(s, l))
  {
    ConservedStep(s, l);
    OwnedStep(s, l);
  }

  // ---- How one step moves the parts of the state ----

  lemma RowsMove(s: State, l: Label)
    requires Enabled(s, l) && forall id | id in s.w.handed :: id in s.w.rows
    ensures s.w.rows.Keys <= Apply(s, l).w.rows.Keys
    ensures forall id | id in Apply(s, l).w.rows && id !in s.w.rows ::
              l.DoInsert? && s.handlers[l.h] == Inserting(id)
  {
  }

  lemma MsgsMove(s: State, l: Label)
    requires Enabled(s, l)
    ensures s.w.b.msgs.Keys <= Apply(s, l).w.b.msgs.Keys
    ensures forall id | id in Apply(s, l).w.b.msgs && id !in s.w.b.msgs :: l.DoPublish? && id == l.id
    ensures forall id | id in s.w.b.msgs :: Apply(s, l).w.b.msgs[id] == s.w.b.msgs[id]
  {
  }

  lemma InsertingMoves(s: State, l: Label, h: HandlerId)
    requires Enabled(s, l) && h in Apply(s, l).handlers && Apply(s, l).handlers[h].Inserting?
    ensures (h in s.handlers && s.handlers[h] == Apply(s, l).handlers[h] && !(l.DoInsert? && l.h == h))
            || (l.DoPublish? && l.h == h && l.outcome == Succeeds && Apply(s, l).handlers[h].job == l.id)
  {
  }

  lemma GivingMoves(s: State, l: Label, h: HandlerId, id: JobId)
    requires Enabled(s, l) && h in Apply(s, l).handlers && WillGive(Apply(s, l).handlers[h], id)
    ensures h in s.handlers && Holds(s.handlers[h], id)
    ensures WillGive(s.handlers[h], id) || (l == DoRead(h, false) && Judge(s.w.rows, id, false).Accept?)
  {
  }

  // ---- Rows belong to published jobs ----

  ghost predicate Rooted(s: State) {
    && s.w.rows.Keys <= s.w.b.msgs.Keys
    && (forall id | id in s.w.handed :: id in s.w.rows)
    && (forall h | h in s.handlers && s.handlers[h].Inserting? ::
          s.handlers[h].job in s.w.b.msgs && s.handlers[h].job !in s.w.rows)
    && (forall g, h | g in s.handlers && h in s.handlers && s.handlers[g].Inserting? && s.handlers[g] == s.handlers[h]
          :: g == h)
    && (forall h, id | h in s.handlers && WillGive(s.handlers[h], id) :: id in s.w.rows)
  }

  ghost predicate Basic(s: State) {
    Partitioned(s) && Rooted(s)
  }

  lemma HandedMoves(s: State, l: Label)
    requires Enabled(s, l)
    ensures Apply(s, l).w.handed
            == if l.DoReply? && l.sent then s.w.handed + [l.id] else s.w.handed
  {
  }

  lemma InsertersRooted(s: State, l: Label)
    requires Basic(s) && Enabled(s, l)
    ensures var t := Apply(s, l);
            && (forall h | h in t.handlers && t.handlers[h].Inserting? ::
                  t.handlers[h].job in t.w.b.msgs && t.handlers[h].job !in t.w.rows)
            && (forall g, h | g in t.handlers && h in t.handlers && t.handlers[g].Inserting?
                              && t.handlers[g] == t.handlers[h] :: g == h)
  {
    var t := Apply(s, l);
    RowsMove(s, l);
    MsgsMove(s, l);
    forall h | h in t.handlers && t.handlers[h].Inserting?
      ensures t.handlers[h].job in t.w.b.msgs && t.handlers[h].job !in t.w.rows
    {
      InsertingMoves(s, l, h);
    }
    forall g, h | g in t.handlers && h in t.handlers && t.handlers[g].Inserting? && t.handlers[g] == t.handlers[h]
      ensures g == h
    {
      InsertingMoves(s, l, g);
      InsertingMoves(s, l, h);
    }
  }

  lemma GiversRooted(s: State, l: Label)
    requires Basic(s) && Enabled(s, l)
    ensures var t := Apply(s, l);
            && (forall id | id in t.w.handed :: id in t.w.rows)
            && (forall h, id | h in t.handlers && WillGive(t.handlers[h], id) :: id in t.w.rows)
  {
    var t := Apply(s, l);
    RowsMove(s, l);
    HandedMoves(s, l);
    if l.DoReply? {
      assert WillGive(s.handlers[l.h], l.id);
    }
    forall h, id | h in t.handlers && WillGive(t.handlers[h], id)
      ensures id in t.w.rows
    {
      GivingMoves(s, l, h, id);
    }
  }

  lemma RootedStep(s: State, l: Label)
    requires Basic(s) && Enabled(s, l)
    ensures Rooted(Apply(s, l))
  {
    RowsMove(s, l);
    MsgsMove(s, l);
    InsertersRooted(s, l);
    GiversRooted(s, l);
  }

  lemma BasicStep(s: State, l: Label)
    requires Basic(s) && Enabled(s, l)
    ensures Basic(Apply(s, l))
  {
    PartitionedStep(s, l);
    RootedStep(s, l);
  }

  lemma {:induction false} BasicRun(s: State, ls: seq<Label>, t: State)
    requires Basic(s) && Run(s, ls) == Some(t)
    ensures Basic(t)
    decreases |ls|
  {
    if ls != [] {
      BasicStep(s, ls[0]);
      BasicRun(Apply(s, ls[0]), ls[1..], t);
    }
  }

  lemma InitIsBasic()
    ensures Basic(INIT)
  {
  }

  lemma ReachedIsBasic(ls: seq<Label>, s: State)
    requires Reaches(ls, s)
    ensures Basic(s)
  {
    InitIsBasic();
    BasicRun(INIT, ls, s);
  }

  /** Message conservation: in every reachable state each published job id is in exactly one of the
      ready, held and settled messages, and each held one has exactly one handler. */
  lemma MessagesConserved(ls: seq<Label>, s: State, id: JobId)
    requires Reaches(ls, s) && id in s.w.b.msgs
    ensures id in s.w.b.ready || id in s.w.b.settled || id in s.w.b.unacked
    ensures !(id in s.w.b.ready && id in s.w.b.settled)
    ensures id in s.w.b.unacked <==> exists h :: h in s.handlers && Holds(s.handlers[h], id)
    ensures id in s.w.b.unacked ==> id !in s.w.b.ready && id !in s.w.b.settled
    ensures forall g, h | g in s.handlers && h in s.handlers && Holds(s.handlers[g], id) && Holds(s.handlers[h], id)
              :: g == h
  {
    ReachedIsBasic(ls, s);
  }
}
