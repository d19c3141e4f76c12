/** An abort from the request to the last status of the row: the server's steps and the run of one
    handed-out job side by side. */
module Abort {
  import opened Models
  import opened Persistent
  import opened Effects
  import opened Uploads
  import opened Protocol
  import opened Safety
  import opened Handout
  import opened Finality
  import JobRun
  import Runner

  datatype Flow = Flow(s: State, job: JobRun.Job)

  /** A step of the server, a step of the runner that posts nothing, or its one result post with how the
      save goes. */
  datatype Move =
    | Serve(l: Label)
    | Work(e: JobRun.Event)
    | SendResult(post: Submission, outcome: Outcome)

  /** What the runner sends and the server stores: the result, its files, which uploads fail, and when. */
  datatype Submission = Submission(result: TestResult, naming: Naming, form: Form, faults: set<(Field, nat)>, now: Time)

  /** The record HandleSubmitResult saves for job `j`. */
  function RecordOf(p: Submission, j: JobId): TestResult {
    Recorded(p.naming, p.result, j, p.form, p.now)
  }

  /** A report on the status of `j`; here only the runner's own post makes one. */
  predicate Reports(l: Label, j: JobId) {
    (l.DoProgress? && l.id == j && l.update.status.Some?) || (l.DoSubmit? && l.result.jobId == j)
  }

  /** A status reply shows the row as it is; a request that fails gives none. */
  predicate Shows(s: State, j: JobId, reply: Option<Status>) {
    reply.Some? ==> j in s.w.rows && s.w.rows[j].status == reply.value
  }

  predicate Possible(f: Flow, m: Move, j: JobId) {
    match m
    case Serve(l) => Enabled(f.s, l) && !Reports(l, j)
    case Work(e) => e != JobRun.Post && JobRun.Possible(f.job, e) && (e.Tick? ==> Shows(f.s, j, e.reply))
    case SendResult(p, _) =>
      && JobRun.Possible(f.job, JobRun.Post)
      && p.result.status == Runner.PostedStatus(f.job.ended.value)
      && Enabled(f.s, DoSubmit(RecordOf(p, j), Succeeds))
  }

  /** HandleSubmitResult refuses an empty status, and saves nothing when an upload fails. */
  ghost predicate Accepted(p: Submission) {
    p.result.status != Unset && !SomeFails(p.form, p.faults)
  }

  ghost function MoveOne(f: Flow, m: Move, j: JobId): Flow
    requires Possible(f, m, j)
  {
    match m
    case Serve(l) => f.(s := Apply(f.s, l))
    case Work(e) => f.(job := JobRun.Happen(f.job, e))
    case SendResult(p, outcome) =>
      Flow(if Accepted(p) then Apply(f.s, DoSubmit(RecordOf(p, j), outcome)) else f.s,
           JobRun.Happen(f.job, JobRun.Post))
  }

  ghost function Moves(f: Flow, ms: seq<Move>, j: JobId): Option<Flow>
    decreases |ms|
  {
    if ms == [] then Some(f)
    else if Possible(f, ms[0], j) then Moves(MoveOne(f, ms[0], j), ms[1..], j)
    else None
  }

  // ---- The runner's part is a run of its own ----

  function EventsOf(m: Move): seq<JobRun.Event> {
    match m
    case Serve(_) => []
    case Work(e) => [e]
    case SendResult(_, _) => [JobRun.Post]
  }

  function Events(ms: seq<Move>): seq<JobRun.Event> {
    if ms == [] then [] else EventsOf(ms[0]) + Events(ms[1..])
  }

  lemma {:induction false} JobRuns(f: Flow, ms: seq<Move>, g: Flow, j: JobId)
    requires Moves(f, ms, j) == Some(g)
    ensures JobRun.Run(f.job, Events(ms)) == Some(g.job)
    decreases |ms|
  {
    if ms != [] {
      JobRuns(MoveOne(f, ms[0], j), ms[1..], g, j);
      if !ms[0].Serve? {
        assert Events(ms)[1..] == Events(ms[1..]);
      } else {
        assert Events(ms) == Events(ms[1..]);
      }
    }
  }

  // ---- Only a stopped job is killed ----

  /** A write that met the row of `j` and stops its runner: any stop or supersede write but a skip. */
  ghost predicate StopsRunner(s: State, l: Label, j: JobId) {
    Stops(s, l, j) && (l.DoStop? ==> l.status == Cancelled || l.status == AbortRequested)
  }

  /** Some server step of the series made such a write; with `skips`, any stop write counts. */
  ghost predicate StopMet(f: Flow, ms: seq<Move>, j: JobId, skips: bool)
    decreases |ms|
  {
    && ms != [] && Possible(f, ms[0], j)
    && (|| (ms[0].Serve? && if skips then Stops(f.s, ms[0].l, j) else StopsRunner(f.s, ms[0].l, j))
        || StopMet(MoveOne(f, ms[0], j), ms[1..], j, skips))
  }

  predicate Asks(s: State, j: JobId) {
    j in s.w.rows && s.w.rows[j].status in {Aborted, Cancelled, AbortRequested}
  }

  /** Nothing has asked the runner to stop so far, nor will its row while it still looks. */
  ghost predicate Calm(f: Flow, j: JobId) {
    && !f.job.cancelled
    && (f.job.main == JobRun.Posted || (j in f.s.w.rows && !Asks(f.s, j)))
    && (f.job.ended.Some? ==> !f.job.ended.value.Terminated?)
  }

  lemma ServeDisturbs(s: State, l: Label, j: JobId)
    requires Basic(s) && Enabled(s, l) && !Reports(l, j) && j in s.w.rows && !Asks(s, j)
    ensures j in Apply(s, l).w.rows && (Asks(Apply(s, l), j) ==> StopsRunner(s, l, j))
  {
    StatusMoves(s, l, j);
  }

  lemma StaysCalm(f: Flow, m: Move, j: JobId)
    requires Basic(f.s) && Calm(f, j) && Possible(f, m, j) && !(m.Serve? && StopsRunner(f.s, m.l, j))
    ensures Calm(MoveOne(f, m, j), j)
  {
    if m.Serve? && f.job.main != JobRun.Posted {
      ServeDisturbs(f.s, m.l, j);
    }
  }

  lemma MoveIsBasic(f: Flow, m: Move, j: JobId)
    requires Basic(f.s) && Possible(f, m, j)
    ensures Basic(MoveOne(f, m, j).s)
  {
    if m.Serve? {
      BasicStep(f.s, m.l);
    } else if m.SendResult? {
      BasicStep(f.s, DoSubmit(RecordOf(m.post, j), m.outcome));
    }
  }

  lemma {:induction false} CalmRun(f: Flow, ms: seq<Move>, g: Flow, j: JobId)
    requires Basic(f.s) && Calm(f, j) && Moves(f, ms, j) == Some(g)
    ensures Calm(g, j) || StopMet(f, ms, j, false)
    decreases |ms|
  {
    if ms != [] && !(ms[0].Serve? && StopsRunner(f.s, ms[0].l, j)) {
      StaysCalm(f, ms[0], j);
      MoveIsBasic(f, ms[0], j);
      CalmRun(MoveOne(f, ms[0], j), ms[1..], g, j);
    }
  }

  /** Whatever the server does meanwhile and whatever fails: a runner cancels its script, and a script is
      killed, only after a cancel, abort or supersede write met the row of its job; a skip stops no runner. */
  lemma KilledOnlyAfterStop(ls: seq<Label>, s: State, ms: seq<Move>, g: Flow, j: JobId)
    requires Reaches(ls, s) && j in s.w.rows && s.w.rows[j].status == Running
    requires Moves(Flow(s, JobRun.BEGUN), ms, j) == Some(g)
    ensures g.job.cancelled || (g.job.ended.Some? && g.job.ended.value.Terminated?) ==>
              StopMet(Flow(s, JobRun.BEGUN), ms, j, false)
  {
    ReachedIsBasic(ls, s);
    CalmRun(Flow(s, JobRun.BEGUN), ms, g, j);
  }

  // ---- The post ----

  lemma PostSaves(f: Flow, j: JobId, p: Submission, outcome: Outcome)
    requires Possible(f, SendResult(p, outcome), j) && j in f.s.w.rows
    ensures var g := MoveOne(f, SendResult(p, outcome), j);
            && g.job.main == JobRun.Posted && j in g.s.w.rows
            && if Accepted(p) && outcome != FailsBefore
               then ReadsBack(Read(j, g.s.w.rows[j]), p.naming, p.result, j, p.form, p.now)
               else g.s.w.rows == f.s.w.rows
  {
    SavedReadsBack(f.s.w.rows, p.result, p.naming, j, p.form, p.now);
  }

  /** Over every flow at most one result is sent, for a script that ended; the server accepts it exactly
      when its uploads are stored and the script is not a killed one whose salvaged report names the empty
      status. The row then reads back as the result that was sent, with the posted status: ABORTED for a
      killed script unless its report says otherwise. A refused or failed post leaves the row as it was. */
  lemma PostEndsWith(s: State, ms: seq<Move>, f: Flow, j: JobId, p: Submission, outcome: Outcome)
    requires Moves(Flow(s, JobRun.BEGUN), ms, j) == Some(f) && Possible(f, SendResult(p, outcome), j)
    requires j in f.s.w.rows
    ensures f.job.ended.Some? && f.job.posts == []
    ensures Accepted(p)
            <==> !SomeFails(p.form, p.faults)
                 && match f.job.ended.value
                    case Terminated(Printed(_, report)) => report.status != Some(Unset)
                    case _ => true
    ensures var g := MoveOne(f, SendResult(p, outcome), j);
            && g.job.main == JobRun.Posted && j in g.s.w.rows
            && if Accepted(p) && outcome != FailsBefore
               then && ReadsBack(Read(j, g.s.w.rows[j]), p.naming, p.result, j, p.form, p.now)
                    && g.s.w.rows[j].status == Runner.PostedStatus(f.job.ended.value)
               else g.s.w.rows == f.s.w.rows
    ensures f.job.ended.value.Terminated? ==>
              Runner.PostedStatus(f.job.ended.value) == match f.job.ended.value.stdout
                                                        case Silent => Aborted
                                                        case Printed(_, report) => report.status.GetOr(Aborted)
  {
    JobRuns(Flow(s, JobRun.BEGUN), ms, f, j);
    JobRun.OnePostAfterTheScript(Events(ms), f.job);
    JobRun.PostedStatusLaws(f.job.ended.value);
    PostSaves(f, j, p, outcome);
  }

  /** After its post the runner does no more for the job: a row that bars it, with nobody about to give
      the job, keeps its status until the next stop meets it. So an aborted job whose post was refused
      stays ABORT_REQUESTED. */
  lemma {:induction false} PostIsTheLastWord(f: Flow, ms: seq<Move>, g: Flow, j: JobId)
    requires Basic(f.s) && f.job.main == JobRun.Posted && f.job.ended.Some? && Shut(f.s, j)
    requires Moves(f, ms, j) == Some(g)
    ensures g.job == f.job && j in g.s.w.rows
    ensures g.s.w.rows[j].status == f.s.w.rows[j].status || StopMet(f, ms, j, true)
    decreases |ms|
  {
    if ms != [] {
      var l := ms[0].l;
      ShutStep(f.s, l, j);
      StatusMoves(f.s, l, j);
      BasicStep(f.s, l);
      PostIsTheLastWord(MoveOne(f, ms[0], j), ms[1..], g, j);
    }
  }

  // ---- An abort can always be completed ----

  /** What follows a stop that shows: the next status check, the kill and the post. */
  function Ending(status: Status, p: Submission): seq<Move> {
    [Work(JobRun.Tick(Some(status))), Work(JobRun.ScriptEnds(Runner.Terminated(Runner.Silent))),
     SendResult(p, Succeeds)]
  }

  lemma PostAborts(f: Flow, j: JobId, p: Submission)
    requires Possible(f, SendResult(p, Succeeds), j) && j in f.s.w.rows
    requires p.result.status == Aborted && !SomeFails(p.form, p.faults)
    ensures var g := MoveOne(f, SendResult(p, Succeeds), j);
            j in g.s.w.rows && g.s.w.rows[j].status == Aborted && g.job.main == JobRun.Posted
  {
    PostSaves(f, j, p, Succeeds);
  }

  lemma EndingAborts(f: Flow, j: JobId, status: Status, p: Submission) returns (g: Flow)
    requires f.job.main == JobRun.Polling && f.job.ended == None && j in f.s.w.rows && j in f.s.w.handed
    requires (status == Cancelled || status == AbortRequested) && f.s.w.rows[j].status == status
    requires p.result.status == Aborted && !SomeFails(p.form, p.faults)
    ensures Moves(f, Ending(status, p), j) == Some(g)
    ensures g.job.main == JobRun.Posted && g.job.posts == f.job.posts + [Aborted]
    ensures j in g.s.w.rows && g.s.w.rows[j].status == Aborted
  {
    var ms := Ending(status, p);
    var f1 := MoveOne(f, ms[0], j);
    var f2 := MoveOne(f1, ms[1], j);
    g := MoveOne(f2, ms[2], j);
    PostAborts(f2, j, p);
    assert ms[1..] == [ms[1], ms[2]] && ms[1..][1..] == [ms[2]];
    assert Moves(f2, [ms[2]], j) == Moves(g, [ms[2]][1..], j);
    assert Moves(f1, ms[1..], j) == Moves(f2, ms[1..][1..], j);
  }

  lemma StopShows(f: Flow, j: JobId, status: Status, outcome: Outcome, now: Time)
    requires j in f.s.w.rows && (status == Cancelled || status == AbortRequested) && outcome != FailsBefore
    ensures var m := Serve(DoStop(j, status, outcome, now));
            && Possible(f, m, j)
            && var g := MoveOne(f, m, j);
               g.job == f.job && g.s.w.handed == f.s.w.handed && j in g.s.w.rows && g.s.w.rows[j].status == status
  {
  }

  /** From any state of a running job: a cancel or an abort that meets its row, the next status check, the
      kill and the post of ABORTED lead to a row that says ABORTED. */
  lemma AbortCompletes(f: Flow, j: JobId, status: Status, outcome: Outcome, now: Time, p: Submission) returns (g: Flow)
    requires f.job.main == JobRun.Polling && f.job.ended == None && j in f.s.w.rows && j in f.s.w.handed
    requires (status == Cancelled || status == AbortRequested) && outcome != FailsBefore
    requires p.result.status == Aborted && !SomeFails(p.form, p.faults)
    ensures Moves(f, [Serve(DoStop(j, status, outcome, now))] + Ending(status, p), j) == Some(g)
    ensures g.job.main == JobRun.Posted && g.job.posts == f.job.posts + [Aborted]
    ensures j in g.s.w.rows && g.s.w.rows[j].status == Aborted
  {
    var stop := Serve(DoStop(j, status, outcome, now));
    StopShows(f, j, status, outcome, now);
    g := EndingAborts(MoveOne(f, stop, j), j, status, p);
    assert ([stop] + Ending(status, p))[1..] == Ending(status, p);
  }
}
