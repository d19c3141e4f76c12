/** processJob: the script goroutine, the abort poll and the single result post, in any interleaving. */
module JobRun {
  import opened Models
  import opened Runner

  /** `Polling` is the select loop, `Waiting` the receive that follows it. */
  datatype Main = Polling | Waiting | Posted

  datatype Job = Job(main: Main, ended: Option<Script>, cancelled: bool, posts: seq<Status>)

  const BEGUN := Job(Polling, None, false, [])

  /** `Tick` carries the server's reply to the status check, None for an error. */
  datatype Event =
    | Tick(reply: Option<Status>)
    | ScriptEnds(script: Script)
    | NoticeEnd
    | Post

  predicate AsksToStop(reply: Option<Status>) {
    reply == Some(Aborted) || reply == Some(Cancelled) || reply == Some(AbortRequested)
  }

  /** A script is terminated only after the job's context was cancelled; it may still exit by itself
      then. */
  predicate Possible(j: Job, e: Event) {
    match e
    case Tick(_) => j.main == Polling
    case ScriptEnds(script) => j.ended == None && (script.Terminated? ==> j.cancelled)
    case NoticeEnd => j.main == Polling && j.ended.Some?
    case Post => j.main == Waiting && j.ended.Some?
  }

  function Happen(j: Job, e: Event): Job
    requires Possible(j, e)
  {
    match e
    case Tick(reply) => if AsksToStop(reply) then j.(main := Waiting, cancelled := true) else j
    case ScriptEnds(script) => j.(ended := Some(script))
    case NoticeEnd => j.(main := Waiting)
    case Post => j.(main := Posted, posts := j.posts + [PostedStatus(j.ended.value)])
  }

  function Run(j: Job, es: seq<Event>): Option<Job>
    decreases |es|
  {
    if es == [] then Some(j)
    else if Possible(j, es[0]) then Run(Happen(j, es[0]), es[1..])
    else None
  }

  /** Some status check showed ABORTED, CANCELLED or ABORT_REQUESTED. */
  ghost predicate StopSeen(es: seq<Event>) {
    exists i :: 0 <= i < |es| && es[i].Tick? && es[i].reply in {Some(Aborted), Some(Cancelled), Some(AbortRequested)}
  }

  /** A status check cancels the context and leaves the loop exactly for those three statuses; on any other
      reply, SKIPPED among them, and on an error nothing happens. */
  lemma TickStopsExactlyFor(j: Job, reply: Option<Status>)
    requires j.main == Polling
    ensures Possible(j, Tick(reply))
    ensures Happen(j, Tick(reply))
            == match reply
               case Some(Aborted) => j.(main := Waiting, cancelled := true)
               case Some(Cancelled) => j.(main := Waiting, cancelled := true)
               case Some(AbortRequested) => j.(main := Waiting, cancelled := true)
               case _ => j
  {
  }

  ghost predicate Orderly(j: Job) {
    && (j.main == Posted ==> j.ended.Some? && j.posts == [PostedStatus(j.ended.value)])
    && (j.main != Posted ==> j.posts == [])
    && (j.ended.Some? && j.ended.value.Terminated? ==> j.cancelled)
  }

  lemma StopSeenTail(es: seq<Event>)
    requires es != []
    ensures StopSeen(es) <==> (es[0].Tick? && AsksToStop(es[0].reply)) || StopSeen(es[1..])
  {
    var rest := es[1..];
    if StopSeen(rest) {
      var i :| 0 <= i < |rest| && rest[i].Tick? && AsksToStop(rest[i].reply);
      assert es[i + 1] == rest[i];
    }
    if StopSeen(es) {
      var i :| 0 <= i < |es| && es[i].Tick? && AsksToStop(es[i].reply);
      assert i == 0 || rest[i - 1] == es[i];
    }
  }

  lemma {:induction false} OrderlyRun(j: Job, es: seq<Event>, k: Job)
    requires Orderly(j) && Run(j, es) == Some(k)
    ensures Orderly(k)
    ensures k.cancelled <==> j.cancelled || StopSeen(es)
    decreases |es|
  {
    if es != [] {
      var rest := es[1..];
      OrderlyRun(Happen(j, es[0]), rest, k);
      StopSeenTail(es);
    }
  }

  /** Over every interleaving: at most one result is posted, only after the script goroutine ended,
      and it is that script's; the context is cancelled exactly when some status reply asked for it,
      and only then is the script terminated. */
  lemma OnePostAfterTheScript(es: seq<Event>, j: Job)
    requires Run(BEGUN, es) == Some(j)
    ensures |j.posts| <= 1 && (j.posts != [] <==> j.main == Posted)
    ensures j.posts != [] ==> j.ended.Some? && j.posts == [PostedStatus(j.ended.value)]
    ensures j.cancelled <==> StopSeen(es)
    ensures j.ended.Some? && j.ended.value.Terminated? ==> StopSeen(es)
  {
    OrderlyRun(BEGUN, es, j);
  }

  /** The post is never missed: once the script has ended, at most two steps of the main goroutine
      lead to it, whatever happened before. */
  lemma PostFollows(es: seq<Event>, j: Job) returns (more: seq<Event>, k: Job)
    requires Run(BEGUN, es) == Some(j) && j.ended.Some?
    ensures Run(j, more) == Some(k) && |more| <= 2 && |k.posts| == 1
  {
    OnePostAfterTheScript(es, j);
    if j.main == Posted {
      more, k := [], j;
    } else if j.main == Waiting {
      more, k := [Post], Happen(j, Post);
      assert more[1..] == [];
    } else {
      var w := Happen(j, NoticeEnd);
      more, k := [NoticeEnd, Post], Happen(w, Post);
      assert more[1..] == [Post] && more[1..][1..] == [];
      assert Run(w, [Post]) == Run(k, [Post][1..]);
    }
  }

  /** Only ticks can delay the post: in any continuation of a run whose script has ended, as long as
      nothing is posted, every event but the last is a tick whose reply does not ask to stop. */
  lemma OnlyTicksDelayThePost(es: seq<Event>, j: Job, more: seq<Event>, k: Job)
    requires Run(BEGUN, es) == Some(j) && j.ended.Some? && j.main != Posted
    requires Run(j, more) == Some(k) && k.posts == []
    ensures forall i | 0 <= i < |more| - 1 :: more[i].Tick? && !AsksToStop(more[i].reply)
    ensures more != [] ==> more[|more| - 1].Tick? || more[|more| - 1].NoticeEnd?
  {
    OrderlyRun(BEGUN, es, j);
    UnpostedTicks(j, more, k);
  }

  lemma {:induction false} UnpostedTicks(j: Job, es: seq<Event>, k: Job)
    requires Orderly(j) && j.ended.Some? && Run(j, es) == Some(k) && k.posts == []
    ensures forall i | 0 <= i < |es| - 1 :: es[i].Tick? && !AsksToStop(es[i].reply)
    ensures es != [] ==> es[|es| - 1].Tick? || es[|es| - 1].NoticeEnd?
    decreases |es|
  {
    if es != [] {
      var m, rest := Happen(j, es[0]), es[1..];
      OrderlyRun(m, rest, k);
      UnpostedTicks(m, rest, k);
      if rest != [] {
        assert m.main == Polling;
        forall i | 0 <= i < |es| - 1 ensures es[i].Tick? && !AsksToStop(es[i].reply) {
          assert i == 0 || es[i] == rest[i - 1];
        }
      }
    }
  }

  // ---- What is posted ----

  /** A script that ended by itself never posts an empty status; one that failed posts a status the
      runner takes for final; an aborted job posts ABORTED unless its salvaged output says otherwise. */
  lemma PostedStatusLaws(script: Script)
    ensures !script.Terminated? ==> PostedStatus(script) != Unset
    ensures script.Exited? && script.exitError ==> Runner.IsTerminal(PostedStatus(script))
    ensures script.Terminated? ==>
              PostedStatus(script) == Aborted
              || (script.stdout.Printed? && script.stdout.report.status == Some(PostedStatus(script)))
  {
  }

  /** When the posted status bars another handout of the job, which at-most-once handout relies on:
      after a clean exit only if the report names such a status itself (or did not decode), after a
      failed one unless it claims COMPLETED, after an abort unless the salvaged report overrides it. */
  lemma PostBarsHandout(script: Script)
    ensures Bars(PostedStatus(script)) <==>
              match script
              case Exited(exitError, Silent) => exitError
              case Exited(exitError, Printed(ok, report)) =>
                if exitError then report.status != Some(Completed)
                else !ok || (report.status.Some? && Bars(report.status.value))
              case Terminated(Printed(_, report)) => report.status.Some? ==> Bars(report.status.value)
              case _ => true
  {
  }
}
