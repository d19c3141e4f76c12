/** From the database overview through the runner's choice to the job it is handed, and from the
    script's report to the record the server keeps. */
module EndToEnd {
  import opened Models
  import opened Persistent
  import opened Dispatch
  import opened Agreement
  import opened Progress
  import opened Uploads
  import Runner

  // ---- The runner's choice ----

  /** The pending jobs of the listed projects that are assigned to the runner. */
  ghost predicate Offered(w: World, names: seq<string>, mine: set<string>, trim: string -> string, j: JobId) {
    IsPending(w, j) && w.rows[j].project in names && trim(w.rows[j].project) in mine
  }

  function PriorityOf(w: World, j: JobId): UInt8
    requires j in w.rows
  {
    Read(j, w.rows[j]).priority
  }

  /** An offered job makes its project eligible, with a value no larger than the job's priority. */
  lemma OfferedIsCounted(w: World, names: seq<string>, mine: set<string>, trim: string -> string, j: JobId)
    returns (i: nat)
    requires Agreed(w) && Offered(w, names, mine, trim, j)
    ensures var os := Overviews(w.rows, names);
            i < |os| && Runner.Eligible(os[i], mine, trim)
            && (Runner.Value(os[i]) <= PriorityOf(w, j) && os[i].highestPriority.Some?)
  {
    var project := w.rows[j].project;
    i :| 0 <= i < |names| && names[i] == project;
    assert w.rows[j].priority.Some?;
    BestIsLeast(w.rows, project, j);
  }

  lemma UrgentIsSelected(w: World, names: seq<string>, mine: set<string>, trim: string -> string, j: JobId)
    requires Agreed(w) && Offered(w, names, mine, trim, j) && PriorityOf(w, j) < 10
    ensures !Runner.NoneUrgent(Overviews(w.rows, names), mine, trim)
  {
    var i := OfferedIsCounted(w, names, mine, trim, j);
    assert Overviews(w.rows, names)[i] in Overviews(w.rows, names);
  }

  lemma SelectedIsUrgent(w: World, names: seq<string>, mine: set<string>, trim: string -> string, i: nat)
    returns (j: JobId)
    requires i < |names|
    requires Runner.Eligible(Overview(w.rows, names[i]), mine, trim) && Runner.Value(Overview(w.rows, names[i])) < 10
    ensures Offered(w, names, mine, trim, j) && PriorityOf(w, j) < 10
  {
    j := BestIsPending(w.rows, names[i]);
  }

  /** The runner selects nothing exactly when no offered job has a priority below 10. */
  lemma NothingUrgentNothingSelected(w: World, names: seq<string>, mine: set<string>, trim: string -> string)
    requires Agreed(w)
    ensures Runner.NoneUrgent(Overviews(w.rows, names), mine, trim)
            <==> forall j | Offered(w, names, mine, trim, j) :: PriorityOf(w, j) >= 10
  {
    if Runner.NoneUrgent(Overviews(w.rows, names), mine, trim) {
      forall j | Offered(w, names, mine, trim, j) ensures PriorityOf(w, j) >= 10 {
        if PriorityOf(w, j) < 10 {
          UrgentIsSelected(w, names, mine, trim, j);
        }
      }
    } else {
      var j := SomeUrgent(w, names, mine, trim);
    }
  }

  lemma SomeUrgent(w: World, names: seq<string>, mine: set<string>, trim: string -> string) returns (j: JobId)
    requires !Runner.NoneUrgent(Overviews(w.rows, names), mine, trim)
    ensures Offered(w, names, mine, trim, j) && PriorityOf(w, j) < 10
  {
    var os := Overviews(w.rows, names);
    var o :| o in os && Runner.Eligible(o, mine, trim) && Runner.Value(o) < 10;
    var i :| 0 <= i < |os| && os[i] == o;
    j := SelectedIsUrgent(w, names, mine, trim, i);
  }

  /** Polling the selected project, with nobody else moving, hands over a job of least priority value
      among all jobs offered to the runner; it does so after the stale messages ahead of that job.
      The runner polls the trimmed name, so the project's name must be its own trim. */
  lemma SelectedPollHandsOverTheBest(w: World, names: seq<string>, mine: set<string>, trim: string -> string, k: nat,
                                     runner: string, now: Time)
    returns (id: JobId, n: nat)
    requires Agreed(w) && Runner.IsBest(Overviews(w.rows, names), mine, trim, k) && trim(names[k]) == names[k]
    ensures var ws := Polls(w, trim(names[k]), runner, now, n + 1);
            ws[n].handed == w.handed && ws[n + 1].handed == w.handed + [id]
    ensures Offered(w, names, mine, trim, id) && PriorityOf(w, id) < 10
    ensures forall j | Offered(w, names, mine, trim, j) :: PriorityOf(w, id) <= PriorityOf(w, j)
    ensures n <= |StaleIn(w, names[k])|
  {
    var project := names[k];
    var os := Overviews(w.rows, names);
    Counts(w, project);
    id := FirstPendingExists(w, project);
    BestPriority(w, project, id);
    ReachesFirstPending(w, project, runner, now, id);
    n := |Ahead(ViewOf(w, project), id)|;
    SubsetSize(Ahead(ViewOf(w, project), id), StaleIn(w, project));
    assert w.rows[id].priority == Some(w.b.msgs[id].priority);
    forall j | Offered(w, names, mine, trim, j) ensures PriorityOf(w, id) <= PriorityOf(w, j) {
      var i := OfferedIsCounted(w, names, mine, trim, j);
      assert Runner.Value(os[k]) <= Runner.Value(os[i]);
    }
  }

  lemma OnePollStays(w: World, project: string, runner: string, now: Time)
    requires Agreed(w)
    ensures var w' := Poll(w, project, runner, now);
            && w'.rows.Keys == w.rows.Keys
            && (forall j | j in w.rows :: w'.rows[j].project == w.rows[j].project)
            && (w'.handed == w.handed
                || exists j :: w'.handed == w.handed + [j] && j in w.rows && w.rows[j].project == project)
  {
    PollEffect(w, project, runner, now);
  }

  /** However often a project is polled, only jobs of that project are handed out. */
  lemma {:induction false} PollsStayInProject(w: World, project: string, runner: string, now: Time, n: nat)
    requires Agreed(w)
    ensures forall j | j in Polls(w, project, runner, now, n)[n].handed && j !in w.handed ::
              j in w.rows && w.rows[j].project == project
    decreases n
  {
    if n > 0 {
      var w' := Poll(w, project, runner, now);
      PollAgrees(w, project, runner, now);
      OnePollStays(w, project, runner, now);
      PollsStayInProject(w', project, runner, now, n - 1);
    }
  }

  /** Without that, the project is starved: polling the trimmed name, however often, hands out no job
      of the selected project. */
  lemma UntrimmedProjectIsStarved(w: World, names: seq<string>, mine: set<string>, trim: string -> string, k: nat,
                                  runner: string, now: Time, n: nat)
    requires Agreed(w) && Runner.IsBest(Overviews(w.rows, names), mine, trim, k) && trim(names[k]) != names[k]
    ensures forall j | j in Polls(w, trim(names[k]), runner, now, n)[n].handed && j !in w.handed ::
              j in w.rows && w.rows[j].project != names[k]
  {
    PollsStayInProject(w, trim(names[k]), runner, now, n);
  }

  // ---- From the report to the record ----

  /** The runner's file system: which paths open, and filepath.Base. */
  datatype Files = Files(openable: set<string>, base: string -> string)

  /** The base names of the openable attachments, which is what the multipart form carries. */
  function Opened(attachments: seq<Runner.Attachment>, fs: Files): seq<string> {
    if attachments == [] then []
    else (if attachments[0].path in fs.openable then [fs.base(attachments[0].path)] else [])
         + Opened(attachments[1..], fs)
  }

  /** The form postJobResultBackup builds: per field, the openable attachments in order. */
  ghost predicate IsForm(form: Form, attachments: seq<Runner.Attachment>, fs: Files) {
    forall f :: FilesOf(form, f) == Opened(Runner.ByField(attachments, f), fs)
  }

  /** The files a list of reported paths ends up as: trimmed, non-empty, openable, in order. */
  function Uploaded(paths: seq<string>, p: Runner.Paths, fs: Files): seq<string> {
    if paths == [] then []
    else (if p.trim(paths[0]) != "" && p.join(p.trim(paths[0])) in fs.openable
        then [fs.base(p.join(p.trim(paths[0])))] else [])
         + Uploaded(paths[1..], p, fs)
  }

  /** Each further reported path adds the base name of its trimmed, joined form at the end, unless it is
      blank or does not open. */
  lemma {:induction false} UploadedAppend(paths: seq<string>, path: string, p: Runner.Paths, fs: Files)
    ensures Uploaded([], p, fs) == []
    ensures Uploaded(paths + [path], p, fs)
            == Uploaded(paths, p, fs)
               + (if p.trim(path) == "" || p.join(p.trim(path)) !in fs.openable then []
                  else [fs.base(p.join(p.trim(path)))])
    decreases |paths|
  {
    if paths == [] {
      assert paths + [path] == [path] && [path][1..] == [];
    } else {
      assert (paths + [path])[1..] == paths[1..] + [path];
      UploadedAppend(paths[1..], path, p, fs);
    }
  }

  lemma {:induction false} AttachedAreUploaded(f: Field, paths: seq<string>, p: Runner.Paths, fs: Files)
    ensures Opened(Runner.Attach(f, paths, p), fs) == Uploaded(paths, p, fs)
    decreases |paths|
  {
    if paths != [] {
      AttachedAreUploaded(f, paths[1..], p, fs);
      var rest := Runner.Attach(f, paths[1..], p);
      if p.trim(paths[0]) != "" {
        var first := Runner.Attachment(f, p.join(p.trim(paths[0])));
        assert ([first] + rest)[1..] == rest;
      } else {
        assert Runner.Attach(f, paths, p) == rest;
      }
    }
  }

  /** From script to record: whatever order the server visits the form in, screenshots and videos are
      the images of the script's trimmed, non-empty, openable paths in order, and logs is the stored
      log file when there is one. */
  lemma ReportBecomesRecord(script: Runner.Script, p: Runner.Paths, attachments: seq<Runner.Attachment>,
                            fs: Files, form: Form, name: Naming, r: TestResult, jobId: JobId, now: Time)
    requires forall f :: Runner.ByField(attachments, f) == Runner.Attach(f, Runner.PostedFiles(script, f), p)
    requires IsForm(form, attachments, fs)
    ensures var record := Recorded(name, r, jobId, form, now);
            && record.screenshots
               == Some(ObjectNames(name, jobId, Uploaded(Runner.PostedFiles(script, Screenshots), p, fs)))
            && record.videos == Some(ObjectNames(name, jobId, Uploaded(Runner.PostedFiles(script, Videos), p, fs)))
            && record.logs == LastLog(name, jobId, Uploaded(Runner.PostedFiles(script, LogFile), p, fs), r.logs)
  {
    AttachedAreUploaded(Screenshots, Runner.PostedFiles(script, Screenshots), p, fs);
    AttachedAreUploaded(Videos, Runner.PostedFiles(script, Videos), p, fs);
    AttachedAreUploaded(LogFile, Runner.PostedFiles(script, LogFile), p, fs);
  }
}
