/** Runs that show why the theorems on interleaved runs have the conditions they have. */
module Witnesses {
  import opened Models
  import opened Persistent
  import opened Amqp
  import opened Dispatch
  import opened Protocol
  import opened Handout
  import opened Blocking
  import opened Exactness
  import opened Reach

  /** One job published and waiting to be inserted by handler 0. */
  lemma Published() returns (ls: seq<Label>, s: State)
    ensures Reaches(ls, s)
    ensures s.w == World(Publish(EMPTY, "j", "p", None, 1), map[], [])
    ensures s.handlers == map[0 := Inserting("j")] && s.log == [] && s.dropped == {} && s.raced == {}
  {
    var l0 := BeginEnqueue(0, "p", None, 1);
    var l1 := DoPublish(0, "j", Succeeds);
    var s1 := Apply(INIT, l0);
    Extend(INIT, [], INIT, l0);
    Extend(INIT, [] + [l0], s1, l1);
    ls, s := [] + [l0] + [l1], Apply(s1, l1);
  }

  /** Handler 1 takes the only ready job and reads its row. */
  lemma TakenUp(pre: seq<Label>, s: State, j: JobId) returns (ls: seq<Label>, t: State)
    requires Reaches(pre, s) && 1 !in s.handlers
    requires s.w.b.ready == {j} && j in s.w.b.msgs && j in s.w.rows && !Bars(s.w.rows[j].status)
    ensures Reaches(ls, t) && t.w == s.w.(b := Deliver(s.w.b, j))
    ensures t.handlers == s.handlers[1 := Claiming(j, |s.log|, Decode(s.w.rows[j].details))]
    ensures t.log == s.log + [RowRead(1, j)]
  {
    var p := s.w.b.msgs[j].project;
    assert IsHead(s.w.b, p, j);
    HeadIs(s.w.b, p, j);
    var l1, l2 := DoDeliver(1, j), DoRead(1, false);
    var s1 := Apply(s, l1);
    Extend(INIT, pre, s, l1);
    Extend(INIT, pre + [l1], s1, l2);
    ls, t := pre + [l1] + [l2], Apply(s1, l2);
    assert s1.handlers[1 := t.handlers[1]] == s.handlers[1 := t.handlers[1]];
  }

  /** Handler 1, standing before the claim, claims and replies. */
  lemma GivenAway(pre: seq<Label>, s: State, j: JobId, readAt: nat) returns (ls: seq<Label>, t: State)
    requires Reaches(pre, s) && 1 in s.handlers && s.handlers[1].Claiming? && j in s.w.rows
    requires s.handlers[1].job == j && s.handlers[1].readAt == readAt
    ensures Reaches(ls, t) && t.w.b == s.w.b && t.w.handed == s.w.handed + [j]
    ensures t.w.rows.Keys == s.w.rows.Keys && t.w.rows[j].status == Running
    ensures t.handlers == s.handlers[1 := Settling(j, Ack)]
    ensures t.log == s.log + [HandedOut(1, j, readAt)]
  {
    var l1, l2 := DoClaim(1, Succeeds, "r", 2), DoReply(1, j, true, true);
    var s1 := Apply(s, l1);
    Extend(INIT, pre, s, l1);
    Extend(INIT, pre + [l1], s1, l2);
    ls, t := pre + [l1] + [l2], Apply(s1, l2);
    assert s1.handlers[1 := t.handlers[1]] == s.handlers[1 := t.handlers[1]];
  }

  /** Handler 1 takes the only ready job through read, claim and reply. */
  lemma Given(pre: seq<Label>, s: State, j: JobId) returns (ls: seq<Label>, t: State)
    requires Reaches(pre, s) && 1 !in s.handlers
    requires s.w.b.ready == {j} && j in s.w.b.msgs && j in s.w.rows && !Bars(s.w.rows[j].status)
    ensures Reaches(ls, t)
    ensures t.w.b == Deliver(s.w.b, j) && t.w.rows.Keys == s.w.rows.Keys && t.w.rows[j].status == Running
    ensures t.w.handed == s.w.handed + [j] && t.handlers == s.handlers[1 := Settling(j, Ack)]
    ensures t.log == s.log + [RowRead(1, j), HandedOut(1, j, |s.log|)]
  {
    var mid, m := TakenUp(pre, s, j);
    ls, t := GivenAway(mid, m, j, |s.log|);
  }

  /** The job inserted, nobody at work. */
  lemma Filed() returns (ls: seq<Label>, s: State)
    ensures Reaches(ls, s) && s.handlers == map[] && s.log == []
    ensures s.w == World(Publish(EMPTY, "j", "p", None, 1), InsertPending(map[], "j", "p", None, 1, 1), [])
  {
    var pre, m := Published();
    var l := DoInsert(0, Succeeds, 1);
    Extend(INIT, pre, m, l);
    ls, s := pre + [l], Apply(m, l);
  }

  /** The job given to a runner, its ack failed: the message is ready again. */
  lemma LostAck() returns (ls: seq<Label>, s: State)
    ensures Reaches(ls, s) && s.handlers == map[] && s.w.handed == ["j"]
    ensures s.w.b.ready == {"j"} && "j" in s.w.b.msgs && "j" in s.w.rows
    ensures s.log == [RowRead(1, "j"), HandedOut(1, "j", 0)]
  {
    var pre, s0 := Filed();
    var mid, s1 := Given(pre, s0, "j");
    var l := DoSettle(1, "j", Ack, FailsBefore);
    Extend(INIT, mid, s1, l);
    ls, s := mid + [l], Apply(s1, l);
  }

  /** From there, the runner's default status "COMPLETED" opens the row again. */
  lemma GivenAgain(pre: seq<Label>, s: State) returns (ls: seq<Label>, t: State)
    requires Reaches(pre, s) && s.handlers == map[] && s.w.handed == ["j"]
    requires s.w.b.ready == {"j"} && "j" in s.w.b.msgs && "j" in s.w.rows
    ensures Reaches(ls, t) && t.w.handed == ["j", "j"]
    ensures t.log == s.log + [RowRead(1, "j"), HandedOut(1, "j", |s.log|)]
  {
    var l := DoSubmit(CompletedResult("j"), Succeeds);
    Extend(INIT, pre, s, l);
    ls, t := Given(pre + [l], Apply(s, l), "j");
  }

  /** A job is handed out twice when its ack fails and its runner posts "COMPLETED", its own default:
      with both conditions of at-most-once handout broken, the conclusion fails. */
  lemma CompletedAndLostAckHandsOutTwice() returns (ls: seq<Label>, t: State)
    ensures Reaches(ls, t) && Handouts(t, "j") == 2
  {
    var pre, s := LostAck();
    ls, t := GivenAgain(pre, s);
  }

  /** ... and so may a cancel that came first lose: the read of the second handout follows it. */
  lemma CancelBeforeReadIsReopened() returns (ls: seq<Label>, t: State)
    ensures Reaches(ls, t)
    ensures t.log == [RowRead(1, "j"), HandedOut(1, "j", 0), Stopped("j"), RowRead(1, "j"), HandedOut(1, "j", 3)]
  {
    var pre, s := LostAck();
    var l := DoStop("j", Cancelled, Succeeds, 3);
    Extend(INIT, pre, s, l);
    ls, t := GivenAgain(pre + [l], Apply(s, l));
  }

  /** The one way a PENDING job is lost: get-next overtakes the insert. */
  lemma OvertakenInsertLosesJob() returns (ls: seq<Label>, t: State)
    ensures Reaches(ls, t) && t.handlers == map[]
    ensures "j" in t.w.rows && t.w.rows["j"].status == Pending
    ensures t.w.b.ready == {} && t.w.b.unacked == {}
  {
    var pre, s0 := Published();
    assert IsHead(s0.w.b, "p", "j");
    HeadIs(s0.w.b, "p", "j");
    var l1, l2 := DoDeliver(1, "j"), DoRead(1, false);
    var l3, l4 := DoInsert(0, Succeeds, 1), DoSettle(1, "j", Drop, Succeeds);
    var s1 := Apply(s0, l1);
    var s2 := Apply(s1, l2);
    var s3 := Apply(s2, l3);
    var s4 := Apply(s3, l4);
    Extend(INIT, pre, s0, l1);
    Extend(INIT, pre + [l1], s1, l2);
    Extend(INIT, pre + [l1] + [l2], s2, l3);
    Extend(INIT, pre + [l1] + [l2] + [l3], s3, l4);
    ls, t := pre + [l1] + [l2] + [l3] + [l4], s4;
  }

  /** The job filed, delivered to handler 1, and its row read. */
  lemma Found() returns (ls: seq<Label>, s: State)
    ensures Reaches(ls, s)
    ensures s.handlers == map[1 := Claiming("j", 0, None)] && s.log == [RowRead(1, "j")]
    ensures s.w.b == Deliver(Publish(EMPTY, "j", "p", None, 1), "j")
    ensures s.w.rows == InsertPending(map[], "j", "p", None, 1, 1) && s.w.handed == []
  {
    var pre, s0 := Filed();
    ls, s := TakenUp(pre, s0, "j");
  }

  /** A cancel between the row read and the claim is overwritten, and the job is handed out. */
  lemma CancelAfterReadIsOverwritten() returns (ls: seq<Label>, t: State)
    ensures Reaches(ls, t) && t.log == [RowRead(1, "j"), Stopped("j"), HandedOut(1, "j", 0)]
    ensures "j" in t.w.rows && t.w.rows["j"].status == Running
  {
    var pre, s := Found();
    var l := DoStop("j", Cancelled, Succeeds, 2);
    Extend(INIT, pre, s, l);
    ls, t := GivenAway(pre + [l], Apply(s, l), "j", 0);
  }

  /** A claim that took effect but is reported as failed leaves a RUNNING row in front of its queue. */
  lemma FailedClaimBlocksQueue() returns (ls: seq<Label>, t: State)
    ensures Reaches(ls, t) && t.handlers == map[] && t.w.handed == [] && Blocked(t.w, "p")
  {
    var pre, s := Found();
    var l1, l2 := DoClaim(1, FailsAfter, "r", 2), DoSettle(1, "j", Requeue, Succeeds);
    var s1 := Apply(s, l1);
    Extend(INIT, pre, s, l1);
    Extend(INIT, pre + [l1], s1, l2);
    ls, t := pre + [l1] + [l2], Apply(s1, l2);
    assert IsHead(t.w.b, "p", "j");
    HeadIs(t.w.b, "p", "j");
  }

  /** A prioritization has read the job PENDING; then the job is handed out and acked. */
  lemma Raced() returns (ls: seq<Label>, s: State)
    ensures Reaches(ls, s) && s.w.handed == ["j"] && s.handlers == map[0 := Superseding("j", "p", None)]
    ensures s.w.b.ready == {} && s.w.b.msgs.Keys == {"j"} && s.w.rows.Keys == {"j"}
  {
    var pre, s0 := Filed();
    var l0 := BeginPrioritize(0, "j");
    Extend(INIT, pre, s0, l0);
    var mid, s1 := Given(pre + [l0], Apply(s0, l0), "j");
    ls, s := Acked(mid, s1, "j");
    assert s1.handlers - {1} == map[0 := Superseding("j", "p", None)];
  }

  lemma Acked(pre: seq<Label>, s: State, j: JobId) returns (ls: seq<Label>, t: State)
    requires Reaches(pre, s) && 1 in s.handlers && s.handlers[1] == Settling(j, Ack)
    ensures Reaches(ls, t) && t.w.rows == s.w.rows && t.w.handed == s.w.handed && t.handlers == s.handlers - {1}
    ensures t.w.b == Settle(s.w.b, j, false)
  {
    var l := DoSettle(1, j, Ack, Succeeds);
    Extend(INIT, pre, s, l);
    ls, t := pre + [l], Apply(s, l);
  }

  /** The supersede write and the successor's publish and insert all succeed. */
  lemma Succeeded(pre: seq<Label>, s: State) returns (ls: seq<Label>, t: State)
    requires Reaches(pre, s) && s.handlers == map[0 := Superseding("j", "p", None)]
    requires s.w.b.ready == {} && s.w.b.msgs.Keys == {"j"} && s.w.rows.Keys == {"j"}
    ensures Reaches(ls, t) && t.w.handed == s.w.handed && t.handlers == map[]
    ensures t.w.b.ready == {"k"} && "k" in t.w.b.msgs && "k" in t.w.rows && t.w.rows["k"].status == Pending
  {
    var l1, l2, l3 := DoSupersede(0, Succeeds, 3), DoPublish(0, "k", Succeeds), DoInsert(0, Succeeds, 4);
    var s1 := Apply(s, l1);
    var s2 := Apply(s1, l2);
    Extend(INIT, pre, s, l1);
    Extend(INIT, pre + [l1], s1, l2);
    Extend(INIT, pre + [l1] + [l2], s2, l3);
    ls, t := pre + [l1] + [l2] + [l3], Apply(s2, l3);
  }

  /** At split-step granularity prioritizing may duplicate work: a job handed out between the read and
      the supersede write is handed out again as its successor. */
  lemma RacingPrioritizeHandsOutBoth() returns (ls: seq<Label>, t: State)
    ensures Reaches(ls, t) && t.w.handed == ["j", "k"]
  {
    var pre, s := Raced();
    var mid, m := Succeeded(pre, s);
    ls, t := Given(mid, m, "k");
  }

  /** Two prioritizations may both read one job PENDING, and then both successors can be handed out. */
  lemma TwoPrioritizationsRace() returns (ls: seq<Label>, s: State)
    ensures Reaches(ls, s) && CanGive(s, {"a", "b"})
    ensures s.handlers == map[0 := Superseding("j", "p", None), 1 := Superseding("j", "p", None)]
  {
    var pre, s0 := Filed();
    var l0, l1 := BeginPrioritize(0, "j"), BeginPrioritize(1, "j");
    var s1 := Apply(s0, l0);
    Extend(INIT, pre, s0, l0);
    Extend(INIT, pre + [l0], s1, l1);
    ls, s := pre + [l0] + [l1], Apply(s1, l1);
    TwoPrioritizationsGiveTwo(ls, s, 0, 1, "a", "b");
  }
}
