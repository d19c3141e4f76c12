/** The runner: which project it polls, what it reports for a job, and when. */
module Runner {
  import opened Models
  import opened Uploads

  // ---- Choosing a project ----

  /** A project the runner may poll; `trim` stands for strings.TrimSpace. */
  predicate Eligible(o: ProjectQueueOverview, mine: set<string>, trim: string -> string) {
    trim(o.project) in mine && o.pendingJobs != 0
  }

  /** A missing best priority counts as the lowest. */
  function Value(o: ProjectQueueOverview): UInt8 {
    o.highestPriority.GetOr(10)
  }

  /** Nobody eligible has a job of priority below 10. */
  ghost predicate NoneUrgent(os: seq<ProjectQueueOverview>, mine: set<string>, trim: string -> string) {
    forall o | o in os && Eligible(o, mine, trim) :: Value(o) >= 10
  }

  /** Overview `k` is the first of the eligible ones with the least priority value, below 10. */
  ghost predicate IsBest(os: seq<ProjectQueueOverview>, mine: set<string>, trim: string -> string, k: nat) {
    && k < |os| && Eligible(os[k], mine, trim) && Value(os[k]) < 10
    && (forall i | 0 <= i < |os| && Eligible(os[i], mine, trim) ::
          Value(os[k]) <= Value(os[i]) && (i < k ==> Value(os[k]) < Value(os[i])))
  }

  method SelectBestProject(overviews: seq<ProjectQueueOverview>, assignedProjects: set<string>, trim: string -> string)
    returns (bestProject: string, ghost k: nat)
    ensures NoneUrgent(overviews, assignedProjects, trim) ==> bestProject == ""
    ensures !NoneUrgent(overviews, assignedProjects, trim) ==>
              IsBest(overviews, assignedProjects, trim, k) && bestProject == trim(overviews[k].project)
    ensures bestProject != "" ==>
              && k < |overviews| && bestProject == trim(overviews[k].project) && bestProject in assignedProjects
              && overviews[k].pendingJobs > 0 && overviews[k].highestPriority.Some?
              && overviews[k].highestPriority.value < 10
              && forall i | 0 <= i < |overviews| && trim(overviews[i].project) in assignedProjects
                            && overviews[i].pendingJobs > 0 && overviews[i].highestPriority.Some? ::
                   overviews[k].highestPriority.value <= overviews[i].highestPriority.value
  {
    bestProject, k := "", 0;
    var minPriorityValue: UInt8 := 10;
    for i := 0 to |overviews|
      invariant minPriorityValue == 10 ==> bestProject == "" && NoneUrgent(overviews[..i], assignedProjects, trim)
      invariant minPriorityValue != 10 ==>
                  && k < i && IsBest(overviews[..i], assignedProjects, trim, k)
                  && minPriorityValue == Value(overviews[k]) && bestProject == trim(overviews[k].project)
    {
      var overview := overviews[i];
      assert overviews[..i + 1] == overviews[..i] + [overview];
      var projectName := trim(overview.project);
      if projectName !in assignedProjects || overview.pendingJobs == 0 {
        continue;
      }
      var currentProjectPriorityValue: UInt8 := 10;
      if overview.highestPriority.Some? {
        currentProjectPriorityValue := overview.highestPriority.value;
      }
      if currentProjectPriorityValue < minPriorityValue {
        minPriorityValue := currentProjectPriorityValue;
        bestProject := projectName;
        k := i;
      }
    }
    assert overviews[..|overviews|] == overviews;
    assert minPriorityValue != 10 ==> overviews[k] in overviews;
  }

  // ---- Running a script ----

  /** The statuses the runner takes for final; not the server's set. */
  predicate IsTerminal(s: Status) {
    s in {Completed, Failed, Aborted, Cancelled, Error, AbortRequested}
  }

  /** The keys of the script's JSON report that matter here; an absent or null key is None. */
  datatype Report = Report(
    status: Option<Status>, logs: Option<string>, screenshots: Option<seq<string>>, videos: Option<seq<string>>)

  /** What the script printed: nothing, or text that decodes without error or not. A text that fails
      to decode may still have set some fields. */
  datatype Stdout = Silent | Printed(ok: bool, report: Report)

  datatype Script =
    | NoCommand | EmptyCommand | NotStarted
    | Exited(exitError: bool, stdout: Stdout)
    | Terminated(stdout: Stdout)

  datatype RunResult = RunResult(status: Status, logs: string, screenshots: seq<string>, videos: seq<string>)

  datatype Attachment = Attachment(field: Field, path: string)

  /** How a reported path is turned into a file path: TrimSpace and the join with the working
      directory. */
  datatype Paths = Paths(trim: string -> string, join: string -> string)

  function Merge(r: RunResult, stdout: Stdout): RunResult {
    if stdout.Silent? then r
    else RunResult(stdout.report.status.GetOr(r.status), stdout.report.logs.GetOr(r.logs),
                   stdout.report.screenshots.GetOr(r.screenshots), stdout.report.videos.GetOr(r.videos))
  }

  /** The attachments a list of reported paths stands for. */
  function Attach(field: Field, paths: seq<string>, p: Paths): seq<Attachment> {
    if paths == [] then []
    else (if p.trim(paths[0]) == "" then [] else [Attachment(field, p.join(p.trim(paths[0])))])
         + Attach(field, paths[1..], p)
  }

  lemma {:induction false} AttachAppend(field: Field, xs: seq<string>, y: string, p: Paths)
    ensures Attach(field, xs + [y], p)
            == Attach(field, xs, p) + (if p.trim(y) == "" then [] else [Attachment(field, p.join(p.trim(y)))])
    decreases |xs|
  {
    if xs == [] {
      assert xs + [y] == [y] && [y][1..] == [];
    } else {
      assert (xs + [y])[1..] == xs[1..] + [y];
      AttachAppend(field, xs[1..], y, p);
    }
  }

  method AppendAttachments(attachments: seq<Attachment>, field: Field, paths: seq<string>, p: Paths)
    returns (result: seq<Attachment>)
    ensures result == attachments + Attach(field, paths, p)
  {
    result := attachments;
    for i := 0 to |paths|
      invariant result == attachments + Attach(field, paths[..i], p)
    {
      var trimmed := p.trim(paths[i]);
      assert paths[..i + 1] == paths[..i] + [paths[i]];
      AttachAppend(field, paths[..i], paths[i], p);
      if trimmed != "" {
        result := result + [Attachment(field, p.join(trimmed))];
      }
    }
    assert paths[..|paths|] == paths;
  }

  const BLANK := RunResult(Unset, "", [], [])

  /** The status posted for a script: the runner's own verdict, or the report's where it may speak. */
  function PostedStatus(script: Script): Status {
    match script
    case NoCommand => Error
    case EmptyCommand => Error
    case NotStarted => Error
    case Terminated(stdout) => if stdout.Printed? then stdout.report.status.GetOr(Aborted) else Aborted
    case Exited(exitError, stdout) =>
      var own := if stdout.Printed? then stdout.report.status.GetOr(Unset) else Unset;
      var said := if stdout.Printed? && !stdout.ok && !exitError then Error else own;
      if exitError then (if IsTerminal(said) then said else Failed)
      else if said == Unset then Completed else said
  }

  /** The posted status, case by case. What an error exit reported stands only if it is one of the six
      statuses the runner takes for final. */
  lemma PostedStatusIs(script: Script)
    ensures match script
            case NoCommand => PostedStatus(script) == Error
            case EmptyCommand => PostedStatus(script) == Error
            case NotStarted => PostedStatus(script) == Error
            case Terminated(Silent) => PostedStatus(script) == Aborted
            case Terminated(Printed(_, report)) =>
              PostedStatus(script) == if report.status.Some? then report.status.value else Aborted
            case Exited(false, Silent) => PostedStatus(script) == Completed
            case Exited(false, Printed(false, _)) => PostedStatus(script) == Error
            case Exited(false, Printed(true, report)) =>
              PostedStatus(script) == if report.status in {None, Some(Unset)} then Completed else report.status.value
            case Exited(true, Silent) => PostedStatus(script) == Failed
            case Exited(true, Printed(_, report)) =>
              PostedStatus(script)
              == if report.status in {Some(Completed), Some(Failed), Some(Aborted), Some(Cancelled), Some(Error),
                                      Some(AbortRequested)}
                 then report.status.value else Failed
  {
  }

  /** The log path is taken only from a report that decoded. */
  function LogPath(stdout: Stdout): string {
    if stdout.Printed? && stdout.ok then stdout.report.logs.GetOr("") else ""
  }

  function ReportedFiles(stdout: Stdout, field: Field): seq<string> {
    if field == LogFile then [LogPath(stdout)]
    else if stdout.Silent? then []
    else if field == Screenshots then stdout.report.screenshots.GetOr([])
    else if field == Videos then stdout.report.videos.GetOr([])
    else []
  }

  /** An aborted script's files count only when its report decoded; otherwise whatever was decoded. */
  function PostedFiles(script: Script, field: Field): seq<string> {
    match script
    case Exited(_, stdout) => ReportedFiles(stdout, field)
    case Terminated(stdout) => if stdout.Printed? && stdout.ok then ReportedFiles(stdout, field) else []
    case _ => []
  }

  /** The posted files, case by case: those of a report that decoded; of one that did not, screenshots and
      videos that were decoded before the error, if the script ended by itself. */
  lemma PostedFilesAre(script: Script)
    ensures match script
            case Exited(_, Printed(true, report)) =>
              && PostedFiles(script, Screenshots) == report.screenshots.GetOr([])
              && PostedFiles(script, Videos) == report.videos.GetOr([])
              && PostedFiles(script, LogFile) == [report.logs.GetOr("")]
            case Terminated(Printed(true, report)) =>
              && PostedFiles(script, Screenshots) == report.screenshots.GetOr([])
              && PostedFiles(script, Videos) == report.videos.GetOr([])
              && PostedFiles(script, LogFile) == [report.logs.GetOr("")]
            case Exited(_, Printed(false, report)) =>
              && PostedFiles(script, Screenshots) == report.screenshots.GetOr([])
              && PostedFiles(script, Videos) == report.videos.GetOr([])
              && PostedFiles(script, LogFile) == [""]
            case Exited(_, Silent) =>
              && PostedFiles(script, Screenshots) == PostedFiles(script, Videos) == []
              && PostedFiles(script, LogFile) == [""]
            case _ => forall f :: PostedFiles(script, f) == []
    ensures forall name :: PostedFiles(script, OtherField(name)) == []
  {
  }

  function ByField(attachments: seq<Attachment>, field: Field): seq<Attachment> {
    if attachments == [] then []
    else (if attachments[0].field == field then [attachments[0]] else []) + ByField(attachments[1..], field)
  }

  lemma {:induction false} ByFieldConcat(a: seq<Attachment>, b: seq<Attachment>, field: Field)
    ensures ByField(a + b, field) == ByField(a, field) + ByField(b, field)
    decreases |a|
  {
    if a == [] {
      assert a + b == b;
    } else {
      var first, x, y := if a[0].field == field then [a[0]] else [], ByField(a[1..], field), ByField(b, field);
      assert (a + b)[0] == a[0] && (a + b)[1..] == a[1..] + b;
      ByFieldConcat(a[1..], b, field);
      assert first + x + y == first + (x + y);
    }
  }

  lemma {:induction false} ByFieldAttach(field: Field, paths: seq<string>, p: Paths, wanted: Field)
    ensures ByField(Attach(field, paths, p), wanted) == if wanted == field then Attach(field, paths, p) else []
    decreases |paths|
  {
    if paths != [] {
      var rest := Attach(field, paths[1..], p);
      ByFieldAttach(field, paths[1..], p, wanted);
      if p.trim(paths[0]) != "" {
        var first := Attachment(field, p.join(p.trim(paths[0])));
        assert ([first] + rest)[1..] == rest;
      } else {
        assert Attach(field, paths, p) == rest;
      }
    }
  }

  lemma ThreeFields(f1: Field, x1: seq<string>, f2: Field, x2: seq<string>, f3: Field, x3: seq<string>,
      p: Paths, wanted: Field)
    requires f1 != f2 && f2 != f3 && f1 != f3
    ensures ByField(Attach(f1, x1, p) + Attach(f2, x2, p) + Attach(f3, x3, p), wanted)
            == if wanted == f1 then Attach(f1, x1, p) else if wanted == f2 then Attach(f2, x2, p)
               else if wanted == f3 then Attach(f3, x3, p) else []
  {
    var a, b, c := Attach(f1, x1, p), Attach(f2, x2, p), Attach(f3, x3, p);
    ByFieldConcat(a + b, c, wanted);
    ByFieldConcat(a, b, wanted);
    ByFieldAttach(f1, x1, p, wanted);
    ByFieldAttach(f2, x2, p, wanted);
    ByFieldAttach(f3, x3, p, wanted);
  }

  /** Both orders in which the runner collects a report's files keep each field's files apart. */
  lemma EveryField(stdout: Stdout, attachments: seq<Attachment>, p: Paths)
    requires var shots, videos, logs := Attach(Screenshots, ReportedFiles(stdout, Screenshots), p),
                                        Attach(Videos, ReportedFiles(stdout, Videos), p),
                                        Attach(LogFile, ReportedFiles(stdout, LogFile), p);
             attachments == [] + shots + videos + logs || attachments == [] + logs + shots + videos
    ensures forall f :: ByField(attachments, f) == Attach(f, ReportedFiles(stdout, f), p)
  {
    var shots, videos, logs := ReportedFiles(stdout, Screenshots), ReportedFiles(stdout, Videos),
        ReportedFiles(stdout, LogFile);
    var a, b, c := Attach(Screenshots, shots, p), Attach(Videos, videos, p), Attach(LogFile, logs, p);
    assert [] + a == a && [] + c == c;
    forall f ensures ByField(attachments, f) == Attach(f, ReportedFiles(stdout, f), p) {
      ThreeFields(Screenshots, shots, Videos, videos, LogFile, logs, p, f);
      ThreeFields(LogFile, logs, Screenshots, shots, Videos, videos, p, f);
    }
  }

  /** A killed script: what its output can still tell is salvaged. */
  method Salvage(stdout: Stdout, p: Paths) returns (result: RunResult, attachments: seq<Attachment>)
    ensures result.status == PostedStatus(Terminated(stdout))
    ensures forall f :: ByField(attachments, f) == Attach(f, PostedFiles(Terminated(stdout), f), p)
  {
    result, attachments := BLANK.(status := Aborted), [];
    if stdout.Printed? {
      result := Merge(result, stdout);
      if stdout.ok {
        attachments := AppendAttachments([], LogFile, [result.logs], p);
        attachments := AppendAttachments(attachments, Screenshots, result.screenshots, p);
        attachments := AppendAttachments(attachments, Videos, result.videos, p);
        EveryField(stdout, attachments, p);
      }
    }
  }

  /** What the output of a script that ended by itself says, before the exit code has its say. */
  method Collect(exitError: bool, stdout: Stdout, p: Paths) returns (result: RunResult, attachments: seq<Attachment>)
    ensures result.status == match stdout
                             case Silent => Unset
                             case Printed(ok, report) =>
                               if !ok && !exitError then Error else report.status.GetOr(Unset)
    ensures forall f :: ByField(attachments, f) == Attach(f, PostedFiles(Exited(exitError, stdout), f), p)
  {
    result := BLANK;
    var logPath := "";
    if stdout.Printed? {
      result := Merge(result, stdout);
      if !stdout.ok {
        if !exitError {
          result := result.(status := Error);
        }
      } else {
        logPath := result.logs;
      }
    }
    attachments := AppendAttachments([], Screenshots, result.screenshots, p);
    attachments := AppendAttachments(attachments, Videos, result.videos, p);
    attachments := AppendAttachments(attachments, LogFile, [logPath], p);
    EveryField(stdout, attachments, p);
  }

  /** executeScript: the posted status is `PostedStatus`, and the attachments of each field are the
      trimmed, non-empty reported paths of that field, in order. */
  method ExecuteScript(script: Script, p: Paths)
    returns (result: RunResult, attachments: seq<Attachment>, failed: bool)
    ensures result.status == PostedStatus(script)
    ensures script.Exited? && !script.exitError && script.stdout.Printed? && script.stdout.ok ==>
              result.status == if script.stdout.report.status in {None, Some(Unset)} then Completed
                               else script.stdout.report.status.value
    ensures forall f :: ByField(attachments, f) == Attach(f, PostedFiles(script, f), p)
    ensures failed <==> !(script.Exited? && !script.exitError)
  {
    match script {
      case NoCommand => return BLANK.(status := Error), [], true;
      case EmptyCommand => return BLANK.(status := Error), [], true;
      case NotStarted => return BLANK.(status := Error), [], true;
      case Terminated(stdout) =>
        result, attachments := Salvage(stdout, p);
        return result, attachments, true;
      case Exited(exitError, stdout) =>
        result, attachments := Collect(exitError, stdout, p);
        if exitError {
          if result.status == Unset || !IsTerminal(result.status) {
            result := result.(status := Failed);
          }
          return result, attachments, true;
        }
        if result.status == Unset {
          result := result.(status := Completed);
        }
        return result, attachments, false;
    }
  }
}
