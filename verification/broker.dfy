/** The broker: published messages, the ready ones of each queue, the delivered ones not yet
    settled, and the settled ones. */
module Amqp {
  import opened Models

  const MAX_PRIORITY := 10

  /** `project` is both the routing key and the queue. `seqNo` is the publish order. */
  datatype Message = Message(
    project: string, details: Option<Fields>, priority: UInt8, amqpPriority: nat, seqNo: nat)

  datatype Broker = Broker(
    msgs: map<JobId, Message>, ready: set<JobId>, unacked: set<JobId>, settled: set<JobId>, next: nat)

  const EMPTY := Broker(map[], {}, {}, {}, 0)

  /** Every published id sits in exactly one place, and publish order is a total order. */
  ghost predicate Conserved(b: Broker) {
    && b.msgs.Keys == b.ready + b.unacked + b.settled
    && b.ready !! b.unacked !! b.settled
    && (forall i | i in b.msgs :: b.msgs[i].seqNo < b.next)
    && (forall i, j | i in b.msgs && j in b.msgs && i != j :: b.msgs[i].seqNo != b.msgs[j].seqNo)
  }

  function Min(a: int, b: int): int {
    if a <= b then a else b
  }

  /** Clamping and inverting the user's priority. */
  function AmqpPriority(priority: UInt8): nat {
    MAX_PRIORITY - Min(priority, MAX_PRIORITY)
  }

  function Publish(b: Broker, id: JobId, project: string, details: Option<Fields>, priority: UInt8): Broker {
    b.(msgs := b.msgs[id := Message(project, details, priority, AmqpPriority(priority), b.next)],
       ready := b.ready + {id},
       next := b.next + 1)
  }

  function Deliver(b: Broker, id: JobId): Broker {
    b.(ready := b.ready - {id}, unacked := b.unacked + {id})
  }

  function Settle(b: Broker, id: JobId, toReady: bool): Broker {
    var b' := b.(unacked := b.unacked - {id});
    if toReady then b'.(ready := b'.ready + {id}) else b'.(settled := b'.settled + {id})
  }

  /** Highest AMQP priority first, then first in, first out. */
  predicate Precedes(m: Message, n: Message) {
    m.amqpPriority > n.amqpPriority || (m.amqpPriority == n.amqpPriority && m.seqNo < n.seqNo)
  }

  function ReadyIn(b: Broker, project: string): set<JobId> {
    set id | id in b.ready && id in b.msgs && b.msgs[id].project == project
  }

  predicate IsHead(b: Broker, project: string, id: JobId) {
    && id in ReadyIn(b, project)
    && forall j | j in ReadyIn(b, project) && j != id :: Precedes(b.msgs[id], b.msgs[j])
  }

  /** The message the next basic.get on the queue returns. */
  function Head(b: Broker, project: string): Option<JobId> {
    if exists id :: id in ReadyIn(b, project) && IsHead(b, project, id) then
      var id :| id in ReadyIn(b, project) && IsHead(b, project, id);
      Some(id)
    else None
  }

  lemma FirstOf(b: Broker, ids: set<JobId>) returns (first: JobId)
    requires Conserved(b) && ids <= b.msgs.Keys && |ids| > 0
    ensures first in ids && forall j | j in ids && j != first :: Precedes(b.msgs[first], b.msgs[j])
    decreases |ids|
  {
    first :| first in ids;
    var rest := ids - {first};
    if |rest| > 0 {
      var second := FirstOf(b, rest);
      if Precedes(b.msgs[second], b.msgs[first]) {
        first := second;
      }
    }
  }

  lemma HeadIs(b: Broker, project: string, id: JobId)
    requires IsHead(b, project, id)
    ensures Head(b, project) == Some(id)
  {
  }

  /** A queue delivers something exactly when it has a ready message, and then the one ready message
      that precedes all others. */
  lemma HeadExists(b: Broker, project: string)
    requires Conserved(b)
    ensures Head(b, project).Some? <==> ReadyIn(b, project) != {}
    ensures forall id :: IsHead(b, project, id) <==> Head(b, project) == Some(id)
  {
    if ReadyIn(b, project) != {} {
      var id := FirstOf(b, ReadyIn(b, project));
      assert IsHead(b, project, id);
    }
    forall id ensures IsHead(b, project, id) <==> Head(b, project) == Some(id) {
      if IsHead(b, project, id) {
        HeadIs(b, project, id);
      }
    }
  }

  /** The priority that counts: values of 10 and more are all the same. */
  function Clamped(priority: UInt8): nat {
    if priority < 10 then priority else 10
  }

  /** Inverting and clamping turns the broker's order into the users': least clamped priority first, then
      publish order. */
  lemma InversionKeepsOrder(b: Broker, i: JobId, j: JobId)
    requires i in b.msgs && j in b.msgs
    requires b.msgs[i].amqpPriority == AmqpPriority(b.msgs[i].priority)
    requires b.msgs[j].amqpPriority == AmqpPriority(b.msgs[j].priority)
    ensures Precedes(b.msgs[i], b.msgs[j]) <==>
              var p, q := Clamped(b.msgs[i].priority), Clamped(b.msgs[j].priority);
              p < q || (p == q && b.msgs[i].seqNo < b.msgs[j].seqNo)
  {
  }
}
