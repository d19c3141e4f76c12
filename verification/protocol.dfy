/** The handlers as interleaved steps: one broker call or one database statement at a time, any
    number of handlers in flight, any call failing. */
module Protocol {
  import opened Models
  import opened Persistent
  import opened Amqp
  import opened Dispatch

  type HandlerId = nat

  /** Where a handler stands. The four stages from `Reading` on hold a delivered message. */
  datatype Stage =
    | Publishing(project: string, details: Option<Fields>, priority: UInt8, inserts: bool)
    | Inserting(job: JobId)
    | Superseding(job: JobId, project: string, details: Option<Fields>)
    | Reading(job: JobId)
    | Claiming(job: JobId, readAt: nat, found: Option<Fields>)
    | Replying(job: JobId, readAt: nat)
    | Settling(job: JobId, how: Settlement)

  predicate Holds(p: Stage, id: JobId) {
    (p.Reading? || p.Claiming? || p.Replying? || p.Settling?) && p.job == id
  }

  /** A stage from which the held job can still be handed out. */
  predicate WillGive(p: Stage, id: JobId) {
    (p.Claiming? || p.Replying?) && p.job == id
  }

  /** What a run records: row reads, stop writes that met a row, and handouts. */
  datatype Event =
    | RowRead(h: HandlerId, job: JobId)
    | Stopped(job: JobId)
    | HandedOut(h: HandlerId, job: JobId, readAt: nat)

  /** `dropped` and `raced` are history: the messages settled by the row-not-found branch, and the
      jobs that branch met while their own publisher had yet to insert their row. */
  datatype State = State(
    w: World, handlers: map<HandlerId, Stage>, dropped: set<JobId>, raced: set<JobId>, log: seq<Event>)

  const INIT := State(START, map[], {}, {}, [])

  datatype Label =
    | BeginEnqueue(h: HandlerId, project: string, details: Option<Fields>, priority: UInt8)
    | DoPublish(h: HandlerId, id: JobId, outcome: Outcome)
    | DoInsert(h: HandlerId, outcome: Outcome, now: Time)
    | DoDeliver(h: HandlerId, id: JobId)
    | DoRead(h: HandlerId, fails: bool)
    | DoClaim(h: HandlerId, outcome: Outcome, runner: string, now: Time)
    | DoReply(h: HandlerId, id: JobId, encoded: bool, sent: bool)
    | DoSettle(h: HandlerId, id: JobId, how: Settlement, outcome: Outcome)
    | BeginPrioritize(h: HandlerId, id: JobId)
    | DoSupersede(h: HandlerId, outcome: Outcome, now: Time)
    | BeginRerun(h: HandlerId, id: JobId)
    | DoStop(id: JobId, status: Status, outcome: Outcome, now: Time)
    | DoProgress(id: JobId, update: ProgressUpdate, outcome: Outcome)
    | DoSubmit(result: TestResult, outcome: Outcome)

  /** A label is possible when its handler stands at the matching stage. Fresh ids are UUIDs; only a
      runner that was handed a job reports on it, and it never reports PENDING. */
  predicate Enabled(s: State, l: Label) {
    match l
    case BeginEnqueue(h, project, _, _) => h !in s.handlers && project != ""
    case DoPublish(h, id, _) =>
      h in s.handlers && s.handlers[h].Publishing? && id !in s.w.b.msgs && id != ""
    case DoInsert(h, _, _) => h in s.handlers && s.handlers[h].Inserting? && s.handlers[h].job in s.w.b.msgs
    case DoDeliver(h, id) =>
      h !in s.handlers && id in s.w.b.msgs && Head(s.w.b, s.w.b.msgs[id].project) == Some(id)
    case DoRead(h, _) => h in s.handlers && s.handlers[h].Reading?
    case DoClaim(h, _, _, _) => h in s.handlers && s.handlers[h].Claiming?
    case DoReply(h, id, encoded, sent) =>
      h in s.handlers && s.handlers[h].Replying? && s.handlers[h].job == id && (encoded ==> sent)
    case DoSettle(h, id, how, _) => h in s.handlers && s.handlers[h] == Settling(id, how)
    case BeginPrioritize(h, id) => h !in s.handlers && id in s.w.rows && s.w.rows[id].status == Pending
    case DoSupersede(h, _, _) => h in s.handlers && s.handlers[h].Superseding?
    case BeginRerun(h, id) => h !in s.handlers && id in s.w.rows
    case DoStop(_, status, _, _) => IsStop(status)
    case DoProgress(id, u, _) => id in s.w.handed && u.status != Some(Pending)
    case DoSubmit(r, _) => r.jobId in s.w.handed && r.status != Pending
  }

  function Logged(log: seq<Event>, rows: Rows, id: JobId, outcome: Outcome): seq<Event> {
    if outcome != FailsBefore && id in rows then log + [Stopped(id)] else log
  }

  ghost predicate BeingInserted(s: State, id: JobId) {
    exists g :: g in s.handlers && s.handlers[g] == Inserting(id)
  }

  function DoneWith(s: State, h: HandlerId): map<HandlerId, Stage> {
    s.handlers - {h}
  }

  ghost function ApplyPublish(s: State, h: HandlerId, id: JobId, outcome: Outcome): State
    requires Enabled(s, DoPublish(h, id, outcome))
  {
    var p := s.handlers[h];
    s.(w := if outcome == FailsBefore then s.w
            else s.w.(b := Publish(s.w.b, id, p.project, p.details, p.priority)),
       handlers := if outcome == Succeeds && p.inserts then s.handlers[h := Inserting(id)] else DoneWith(s, h))
  }

  ghost function ApplyInsert(s: State, h: HandlerId, outcome: Outcome, now: Time): State
    requires Enabled(s, DoInsert(h, outcome, now))
  {
    var id := s.handlers[h].job;
    var m := s.w.b.msgs[id];
    s.(w := if outcome == FailsBefore then s.w
            else s.w.(rows := InsertPending(s.w.rows, id, m.project, m.details, m.priority, now)),
       handlers := DoneWith(s, h))
  }

  ghost function ApplyRead(s: State, h: HandlerId, fails: bool): State
    requires Enabled(s, DoRead(h, fails))
  {
    var id := s.handlers[h].job;
    var v := Judge(s.w.rows, id, fails);
    s.(handlers := s.handlers[h := match v
                                   case Accept(details) => Claiming(id, |s.log|, details)
                                   case Refuse(how, _) => Settling(id, how)],
       raced := if v.Refuse? && v.how == Drop && BeingInserted(s, id) then s.raced + {id} else s.raced,
       log := s.log + [RowRead(h, id)])
  }

  ghost function ApplyClaim(s: State, h: HandlerId, outcome: Outcome, runner: string, now: Time): State
    requires Enabled(s, DoClaim(h, outcome, runner, now))
  {
    var p := s.handlers[h];
    s.(w := if outcome == FailsBefore then s.w
            else s.w.(rows := WriteStatus(s.w.rows, p.job, Running, Some(WithRunner(p.found, runner)), now)),
       handlers := s.handlers[h := if outcome == Succeeds then Replying(p.job, p.readAt)
                                   else Settling(p.job, Requeue)])
  }

  ghost function ApplyReply(s: State, h: HandlerId, id: JobId, encoded: bool, sent: bool): State
    requires Enabled(s, DoReply(h, id, encoded, sent))
  {
    s.(w := if sent then s.w.(handed := s.w.handed + [id]) else s.w,
       handlers := s.handlers[h := Settling(id, if encoded then Ack else Requeue)],
       log := if sent then s.log + [HandedOut(h, id, s.handlers[h].readAt)] else s.log)
  }

  ghost function ApplySettle(s: State, h: HandlerId, id: JobId, how: Settlement, outcome: Outcome): State
    requires Enabled(s, DoSettle(h, id, how, outcome))
  {
    s.(w := Finish(s.w, id, how, outcome),
       handlers := DoneWith(s, h),
       dropped := if how == Drop && !ToReady(how, outcome) then s.dropped + {id} else s.dropped)
  }

  ghost function ApplySupersede(s: State, h: HandlerId, outcome: Outcome, now: Time): State
    requires Enabled(s, DoSupersede(h, outcome, now))
  {
    var p := s.handlers[h];
    s.(w := if outcome == FailsBefore then s.w
            else s.w.(rows := WriteStatus(s.w.rows, p.job, Cancelled, Some(SUPERSEDED), now)),
       handlers := if outcome == Succeeds
                   then s.handlers[h := Publishing(p.project, p.details, TOP_PRIORITY, true)]
                   else DoneWith(s, h),
       log := Logged(s.log, s.w.rows, p.job, outcome))
  }

  ghost function Apply(s: State, l: Label): State
    requires Enabled(s, l)
  {
    match l
    case BeginEnqueue(h, project, details, priority) =>
      s.(handlers := s.handlers[h := Publishing(project, details, priority, true)])
    case DoPublish(h, id, outcome) => ApplyPublish(s, h, id, outcome)
    case DoInsert(h, outcome, now) => ApplyInsert(s, h, outcome, now)
    case DoDeliver(h, id) =>
      s.(w := s.w.(b := Deliver(s.w.b, id)), handlers := s.handlers[h := Reading(id)])
    case DoRead(h, fails) => ApplyRead(s, h, fails)
    case DoClaim(h, outcome, runner, now) => ApplyClaim(s, h, outcome, runner, now)
    case DoReply(h, id, encoded, sent) => ApplyReply(s, h, id, encoded, sent)
    case DoSettle(h, id, how, outcome) => ApplySettle(s, h, id, how, outcome)
    case BeginPrioritize(h, id) =>
      s.(handlers := s.handlers[h := Superseding(id, s.w.rows[id].project, Decode(s.w.rows[id].details))])
    case DoSupersede(h, outcome, now) => ApplySupersede(s, h, outcome, now)
    case BeginRerun(h, id) =>
      s.(handlers := s.handlers[h := Publishing(s.w.rows[id].project, Decode(s.w.rows[id].details),
                                                RERUN_PRIORITY, false)])
    case DoStop(id, status, outcome, now) =>
      s.(w := Stop(s.w, id, status, outcome, now), log := Logged(s.log, s.w.rows, id, outcome))
    case DoProgress(id, u, outcome) => s.(w := Progress(s.w, id, u, outcome))
    case DoSubmit(r, outcome) => s.(w := Submit(s.w, r, outcome))
  }

  /** The state after a sequence of labels, if each was possible in its turn. */
  ghost function Run(s: State, ls: seq<Label>): Option<State>
    decreases |ls|
  {
    if ls == [] then Some(s)
    else if Enabled(s, ls[0]) then Run(Apply(s, ls[0]), ls[1..])
    else None
  }

  ghost predicate Reaches(ls: seq<Label>, t: State) {
    Run(INIT, ls) == Some(t)
  }

  lemma {:induction false} RunConcat(s: State, ls: seq<Label>, m: State, ms: seq<Label>)
    requires Run(s, ls) == Some(m)
    ensures Run(s, ls + ms) == Run(m, ms)
    decreases |ls|
  {
    if ls == [] {
      assert ls + ms == ms;
    } else {
      assert (ls + ms)[1..] == ls[1..] + ms;
      RunConcat(Apply(s, ls[0]), ls[1..], m, ms);
    }
  }

  lemma Extend(s: State, ls: seq<Label>, m: State, l: Label)
    requires Run(s, ls) == Some(m) && Enabled(m, l)
    ensures Run(s, ls + [l]) == Some(Apply(m, l))
  {
    RunConcat(s, ls, m, [l]);
    assert Run(m, [l]) == Run(Apply(m, l), [l][1..]);
  }
}
