/** The queue manager and the settlement handle of one delivery. */
module RabbitMQ {
  import opened Models
  import opened Amqp
  import opened Routing
  import opened Dispatch

  datatype DeclareFault = NoFault | OpenFails | QueueFails(applied: bool) | BindFails(applied: bool)

  /** How publishing goes: declaring the queue may fail, and so may the publish itself. */
  datatype PublishEnv = PublishEnv(declare: DeclareFault, publish: Outcome)

  class RabbitMQManager {
    var declaredQueues: set<string>
    var topology: Topology
    var broker: Broker
    /** How many times some delivery's Ack or Nack was called. */
    ghost var settlements: nat

    ghost predicate Valid()
      reads this
    {
      Routed(topology, declaredQueues)
    }

    constructor ()
      ensures Valid() && broker == EMPTY && declaredQueues == {}
    {
      declaredQueues, topology, broker, settlements := {}, Topology({}, {}), EMPTY, 0;
    }

    /** Fails only where it has to act, and only when the broker does; afterwards the queue is bound. */
    method DeclareProjectQueue(project: string, fault: DeclareFault) returns (err: bool)
      requires Valid()
      modifies this`declaredQueues, this`topology
      ensures Valid()
      ensures err <==> project !in old(declaredQueues) && fault != NoFault
      ensures declaredQueues == old(declaredQueues) + (if err then {} else {project})
      ensures !err ==> Routes(topology, project) == {project}
      ensures forall p | Bound(old(topology), p) :: Bound(topology, p)
    {
      if project in declaredQueues {
        RoutesToOwnQueue(topology, declaredQueues, project);
        return false;
      }
      if fault == OpenFails {
        return true;
      }
      if fault != QueueFails(false) {
        topology := topology.(queues := topology.queues + {project});
      }
      if fault.QueueFails? {
        return true;
      }
      if fault != BindFails(false) {
        topology := topology.(bindings := topology.bindings + {(project, project)});
      }
      if fault.BindFails? {
        return true;
      }
      declaredQueues := declaredQueues + {project};
      RoutesToOwnQueue(topology, declaredQueues, project);
      return false;
    }

    /** What a publish amounts to once declaring the queue is taken into account. */
    function Effect(project: string, e: PublishEnv): Outcome
      reads this
    {
      if project !in declaredQueues && e.declare != NoFault then FailsBefore else e.publish
    }

    /** `id` is the fresh UUID. The message reaches the project's queue and no other. */
    method EnqueueJob(project: string, details: Option<Fields>, userPriority: UInt8, id: JobId, e: PublishEnv)
      returns (jobId: Option<JobId>)
      requires Valid()
      modifies this`declaredQueues, this`topology, this`broker
      ensures Valid()
      ensures var declared := project in old(declaredQueues) || e.declare == NoFault;
              && (jobId == if declared && e.publish == Succeeds then Some(id) else None)
              && declaredQueues == old(declaredQueues) + (if declared then {project} else {})
              && (!declared || e.publish == FailsBefore ==> broker == old(broker))
      ensures jobId == if old(Effect(project, e)) == Succeeds then Some(id) else None
      ensures broker == if old(Effect(project, e)) == FailsBefore then old(broker)
                        else Publish(old(broker), id, project, details, userPriority)
    {
      var err := DeclareProjectQueue(project, e.declare);
      if err {
        return None;
      }
      var effectiveUserPriority: int := userPriority;
      if effectiveUserPriority > MAX_PRIORITY {
        effectiveUserPriority := MAX_PRIORITY;
      }
      var amqpPriority := MAX_PRIORITY - effectiveUserPriority;
      // The direct exchange drops a message that no binding matches.
      if e.publish != FailsBefore && project in Routes(topology, project) {
        var message := Message(project, details, userPriority, amqpPriority, broker.next);
        broker := broker.(msgs := broker.msgs[id := message], ready := broker.ready + {id}, next := broker.next + 1);
      }
      return if e.publish == Succeeds then Some(id) else None;
    }

    /** Delivers the head of the project's queue. A failed declaration counts as an empty queue. A body
        that does not decode is dropped at once, with `drop` the outcome of that settlement. */
    method GetNextJob(project: string, declare: DeclareFault, pullFails: bool, decodes: bool, drop: Outcome)
      returns (job: Option<JobId>, ack: DeliveryAckNacker?, err: bool)
      requires Valid()
      modifies this`declaredQueues, this`topology, this`broker, this`settlements
      ensures Valid()
      ensures var unavailable := project !in old(declaredQueues) && declare != NoFault;
              var head := if unavailable || pullFails then None else Head(old(broker), project);
              && err == (!unavailable && (pullFails || (head.Some? && !decodes)))
              && job == (if decodes then head else None)
              && broker == (if head == None then old(broker)
                            else if decodes then Deliver(old(broker), head.value)
                            else Settle(Deliver(old(broker), head.value), head.value, ToReady(Drop, drop)))
              && settlements == old(settlements) + (if head.Some? && !decodes then 1 else 0)
      ensures job.Some? <==> ack != null
      ensures ack != null ==> fresh(ack) && ack.manager == this && ack.deliveryTag == job.value && !ack.closed
    {
      var undeclared := DeclareProjectQueue(project, declare);
      if undeclared {
        return None, null, false;
      }
      if pullFails {
        return None, null, true;
      }
      var head := Head(broker, project);
      if head == None {
        return None, null, false;
      }
      broker := Deliver(broker, head.value);
      var ackNacker := new DeliveryAckNacker(this, head.value);
      if !decodes {
        var nackErr := ackNacker.Nack(false, drop);
        return None, null, true;
      }
      return head, ackNacker, false;
    }
  }

  /** Settles one delivery. After a successful settlement further calls do nothing. */
  class DeliveryAckNacker {
    const manager: RabbitMQManager
    const deliveryTag: JobId
    var closed: bool

    constructor (manager: RabbitMQManager, deliveryTag: JobId)
      ensures this.manager == manager && this.deliveryTag == deliveryTag && !closed
    {
      this.manager, this.deliveryTag := manager, deliveryTag;
      closed := false;
    }

    method Ack(outcome: Outcome) returns (err: bool)
      modifies this, manager`broker, manager`settlements
      ensures manager.settlements == old(manager.settlements) + 1
      ensures old(closed) ==> !err && closed && manager.broker == old(manager.broker)
      ensures !old(closed) ==>
                && err == (outcome != Succeeds) && closed == !err
                && manager.broker == Settle(old(manager.broker), deliveryTag, ToReady(Settlement.Ack, outcome))
    {
      manager.settlements := manager.settlements + 1;
      if closed {
        return false;
      }
      manager.broker := Settle(manager.broker, deliveryTag, outcome == FailsBefore);
      err := outcome != Succeeds;
      if !err {
        closed := true;
      }
    }

    method Nack(requeue: bool, outcome: Outcome) returns (err: bool)
      modifies this, manager`broker, manager`settlements
      ensures manager.settlements == old(manager.settlements) + 1
      ensures old(closed) ==> !err && closed && manager.broker == old(manager.broker)
      ensures !old(closed) ==>
                && err == (outcome != Succeeds) && closed == !err
                && manager.broker == Settle(old(manager.broker), deliveryTag,
                                            ToReady(if requeue then Requeue else Drop, outcome))
    {
      manager.settlements := manager.settlements + 1;
      if closed {
        return false;
      }
      manager.broker := Settle(manager.broker, deliveryTag, requeue || outcome == FailsBefore);
      err := outcome != Succeeds;
      if !err {
        closed := true;
      }
    }
  }
}
