/** The files of a submitted result and the record they lead to, whatever order the form's fields are
    visited in. */
module Uploads {
  import opened Models

  /** How an uploaded file of a job is named in the object store. */
  type Naming = (JobId, string) -> string

  /** The server's naming; `base` stands for filepath.Base. */
  function ArtifactNaming(base: string -> string): Naming {
    (jobId, filename) => jobId + "/artifacts/" + base(filename)
  }

  function ObjectNames(name: Naming, jobId: JobId, filenames: seq<string>): (names: seq<string>)
    ensures |names| == |filenames|
    ensures forall i | 0 <= i < |names| :: names[i] == name(jobId, filenames[i])
  {
    seq(|filenames|, i requires 0 <= i < |filenames| => name(jobId, filenames[i]))
  }

  /** The form fields the server distinguishes: "screenshots", "videos", "log_file" and any other. */
  datatype Field = Screenshots | Videos | LogFile | OtherField(name: string)

  /** The uploaded file names of each field, in upload order. */
  type Form = map<Field, seq<string>>

  function FilesOf(form: Form, field: Field): seq<string> {
    if field in form then form[field] else []
  }

  /** `order` visits every field of the form once. */
  ghost predicate Visits(order: seq<Field>, form: Form) {
    && (forall f :: f in order <==> f in form)
    && (forall i, j | 0 <= i < j < |order| :: order[i] != order[j])
  }

  /** Whether some upload of the form, given by field and position, fails. */
  ghost predicate SomeFails(form: Form, faults: set<(Field, nat)>) {
    exists f: Field, i: nat :: f in form && i < |form[f]| && (f, i) in faults
  }

  ghost predicate Stored(names: seq<string>, objects: set<string>) {
    forall i | 0 <= i < |names| :: names[i] in objects
  }

  function Seconds(startedAt: Time, endedAt: Time): real {
    (endedAt - startedAt) as real
  }

  /** The record of a submission: screenshots and videos in upload order, logs set to the last
      uploaded log file if there is one, and the missing end time and duration filled in. */
  function Recorded(name: Naming, r: TestResult, jobId: JobId, form: Form, now: Time): TestResult {
    var endedAt := if r.endedAt == 0 then now else r.endedAt;
    r.(jobId := jobId,
       endedAt := endedAt,
       duration := if r.duration == 0.0 && r.startedAt != 0 then Seconds(r.startedAt, endedAt) else r.duration,
       screenshots := Some(ObjectNames(name, jobId, FilesOf(form, Screenshots))),
       videos := Some(ObjectNames(name, jobId, FilesOf(form, Videos))),
       logs := LastLog(name, jobId, FilesOf(form, LogFile), r.logs))
  }

  function LastLog(name: Naming, jobId: JobId, files: seq<string>, default: string): string {
    if files == [] then default else name(jobId, files[|files| - 1])
  }

  /** What a submitted result `r` reads back as, field by field: an empty project, an empty metadata
      object and a duration that is not positive are normalised, a missing end is `now`, a missing duration
      is the time from a known start to the end, and the files are named in upload order. */
  ghost predicate ReadsBack(t: TestResult, name: Naming, r: TestResult, jobId: JobId, form: Form, now: Time) {
    && t.jobId == jobId && t.status == r.status && t.messages == r.messages
    && t.startedAt == r.startedAt && t.passrate == r.passrate && t.progress == r.progress
    && t.project == (if r.project == "" then "unknown_project" else r.project)
    && t.metadata == (if r.metadata == Some(map[]) then None else r.metadata)
    && t.endedAt == (if r.endedAt == 0 then now else r.endedAt)
    && t.duration == (if r.duration > 0.0 then r.duration
                      else if r.duration == 0.0 && r.startedAt != 0 && t.endedAt > r.startedAt
                      then (t.endedAt - r.startedAt) as real
                      else 0.0)
    && t.screenshots.Some? && Names(t.screenshots.value, name, jobId, FilesOf(form, Screenshots))
    && t.videos.Some? && Names(t.videos.value, name, jobId, FilesOf(form, Videos))
    && t.logs == (if LogFile in form && |form[LogFile]| > 0 then name(jobId, form[LogFile][|form[LogFile]| - 1])
                  else r.logs)
  }

  ghost predicate Names(names: seq<string>, name: Naming, jobId: JobId, files: seq<string>) {
    |names| == |files| && forall i | 0 <= i < |files| :: names[i] == name(jobId, files[i])
  }

  function UpToSlash(s: string): string {
    if s == "" || s[0] == '/' then "" else [s[0]] + UpToSlash(s[1..])
  }

  lemma {:induction false} UpToSlashIs(s: string, rest: string)
    requires '/' !in s
    ensures UpToSlash(s + "/" + rest) == s
    decreases |s|
  {
    if s != "" {
      assert (s + "/" + rest)[1..] == s[1..] + "/" + rest;
      UpToSlashIs(s[1..], rest);
    }
  }

  /** Files of different jobs never share an object, whatever filepath.Base makes of their names; job ids
      are UUIDs, which have no slash. */
  lemma NamesKeepJobsApart(base: string -> string, j1: JobId, f1: string, j2: JobId, f2: string)
    requires '/' !in j1 && '/' !in j2 && ArtifactNaming(base)(j1, f1) == ArtifactNaming(base)(j2, f2)
    ensures j1 == j2
  {
    assert ArtifactNaming(base)(j1, f1) == j1 + "/" + ("artifacts/" + base(f1));
    assert ArtifactNaming(base)(j2, f2) == j2 + "/" + ("artifacts/" + base(f2));
    UpToSlashIs(j1, "artifacts/" + base(f1));
    UpToSlashIs(j2, "artifacts/" + base(f2));
  }

  // ---- A visit in progress ----

  /** The files of field `f` met once the first `k` fields are done. */
  function Met(form: Form, order: seq<Field>, k: nat, f: Field): seq<string>
    requires k <= |order|
  {
    if f in order[..k] then FilesOf(form, f) else []
  }

  /** The record fields agree with what was met so far. */
  ghost predicate Collected(name: Naming, jobId: JobId, form: Form, order: seq<Field>, k: nat, inlineLogs: string,
                            screenshots: seq<string>, videos: seq<string>, logs: string)
    requires k <= |order|
  {
    && screenshots == ObjectNames(name, jobId, Met(form, order, k, Screenshots))
    && videos == ObjectNames(name, jobId, Met(form, order, k, Videos))
    && logs == LastLog(name, jobId, Met(form, order, k, LogFile), inlineLogs)
  }

  /** Adding one field's files, each under its own name, to what was met before. */
  lemma CollectedField(name: Naming, jobId: JobId, form: Form, order: seq<Field>, k: nat, inlineLogs: string,
                       screenshots: seq<string>, videos: seq<string>, logs: string)
    requires Visits(order, form) && k < |order|
    requires Collected(name, jobId, form, order, k, inlineLogs, screenshots, videos, logs)
    ensures var files := FilesOf(form, order[k]);
            Collected(name, jobId, form, order, k + 1, inlineLogs,
                      if order[k] == Screenshots then screenshots + ObjectNames(name, jobId, files) else screenshots,
                      if order[k] == Videos then videos + ObjectNames(name, jobId, files) else videos,
                      if order[k] == LogFile then LastLog(name, jobId, files, logs) else logs)
  {
    assert order[..k + 1] == order[..k] + [order[k]];
    assert order[k] !in order[..k];
  }

  lemma CollectedAll(name: Naming, jobId: JobId, form: Form, order: seq<Field>, inlineLogs: string,
                     screenshots: seq<string>, videos: seq<string>, logs: string)
    requires Visits(order, form)
    requires Collected(name, jobId, form, order, |order|, inlineLogs, screenshots, videos, logs)
    ensures screenshots == ObjectNames(name, jobId, FilesOf(form, Screenshots))
    ensures videos == ObjectNames(name, jobId, FilesOf(form, Videos))
    ensures logs == LastLog(name, jobId, FilesOf(form, LogFile), inlineLogs)
  {
    assert order[..|order|] == order;
  }

  /** Every upload of the field succeeded, and its objects are in the store. */
  ghost predicate FieldDone(name: Naming, jobId: JobId, form: Form, f: Field,
      faults: set<(Field, nat)>, objects: set<string>) {
    && (forall i: nat | i < |FilesOf(form, f)| :: (f, i) !in faults)
    && Stored(ObjectNames(name, jobId, FilesOf(form, f)), objects)
  }

  ghost predicate FieldsDone(name: Naming, jobId: JobId, form: Form, fields: seq<Field>, faults: set<(Field, nat)>,
                             objects: set<string>)
  {
    forall f | f in fields :: FieldDone(name, jobId, form, f, faults, objects)
  }

  lemma OneMoreDone(name: Naming, jobId: JobId, form: Form, order: seq<Field>, k: nat, faults: set<(Field, nat)>,
                    before: set<string>, after: set<string>)
    requires k < |order| && FieldsDone(name, jobId, form, order[..k], faults, before) && before <= after
    requires FieldDone(name, jobId, form, order[k], faults, after)
    ensures FieldsDone(name, jobId, form, order[..k + 1], faults, after)
  {
    forall g | g in order[..k + 1] ensures FieldDone(name, jobId, form, g, faults, after) {
      assert g in order[..k] || g == order[k];
      assert g in order[..k] ==> FieldDone(name, jobId, form, g, faults, before);
    }
  }

  lemma AllDone(name: Naming, jobId: JobId, form: Form, order: seq<Field>, faults: set<(Field, nat)>,
                objects: set<string>)
    requires Visits(order, form) && FieldsDone(name, jobId, form, order, faults, objects)
    ensures !SomeFails(form, faults)
    ensures forall f | f in form :: Stored(ObjectNames(name, jobId, form[f]), objects)
  {
    forall f | f in form ensures FieldDone(name, jobId, form, f, faults, objects) {
      assert f in order;
    }
  }
}
