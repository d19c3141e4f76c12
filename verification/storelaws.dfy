/** Laws of the store: what is read back after saving a result or after a series of updates. */
module StoreLaws {
  import opened Models
  import opened Persistent

  // ---- Saving and reading back ----

  /** What reading back a saved result yields: the result with an empty project, a non-positive
      duration and an empty metadata object normalised, and with the enqueue data of the row that was
      there before. */
  function Normal(rows: Rows, r: TestResult): TestResult {
    var prior := if r.jobId in rows then Some(Read(r.jobId, rows[r.jobId])) else None;
    r.(project := if r.project == "" then UNKNOWN_PROJECT else r.project,
       duration := if r.duration > 0.0 then r.duration else 0.0,
       metadata := if r.metadata == Some(map[]) then None else r.metadata,
       details := if prior.Some? then prior.value.details else None,
       priority := if prior.Some? then prior.value.priority else 0,
       enqueuedAt := if prior.Some? then prior.value.enqueuedAt else 0)
  }

  lemma SaveReadRoundTrip(rows: Rows, r: TestResult)
    ensures var rows' := Save(rows, r);
            && rows'.Keys == rows.Keys + {r.jobId}
            && Read(r.jobId, rows'[r.jobId]) == Normal(rows, r)
            && forall id | id in rows && id != r.jobId :: rows'[id] == rows[id]
  {
  }

  /** Saving twice is saving once, and only the last of several results for a job counts. */
  lemma LastSaveWins(rows: Rows, q: TestResult, r: TestResult)
    requires q.jobId == r.jobId
    ensures Save(Save(rows, q), r) == Save(rows, r)
  {
    if r.jobId in rows {
      assert Save(Save(rows, q), r)[r.jobId] == Save(rows, r)[r.jobId];
    }
  }

  /** The normal form is a normal form: saving it changes nothing more. */
  lemma NormalIsStable(rows: Rows, r: TestResult)
    ensures Save(rows, Normal(rows, r)) == Save(rows, r)
  {
  }

  // ---- Progress updates act as a monoid ----

  /** What one update does to a row. */
  function Act(row: Row, u: ProgressUpdate): Row {
    WriteProgress(map["" := row], "", u)[""]
  }

  const IDENTITY := ProgressUpdate(None, None, None, None, None)

  function Join<T>(a: Option<seq<T>>, b: Option<seq<T>>): Option<seq<T>> {
    match (a, b)
    case (Some(x), Some(y)) => Some(x + y)
    case (None, _) => b
    case (_, None) => a
  }

  /** One update with the effect of `u` and then `v`. */
  function Compose(u: ProgressUpdate, v: ProgressUpdate): ProgressUpdate {
    ProgressUpdate(Coalesce(v.status, u.status), Join(u.logsChunk, v.logsChunk),
                   Join(ChunkArg(u.messagesChunk), ChunkArg(v.messagesChunk)),
                   Coalesce(v.passrate, u.passrate), Coalesce(v.progress, u.progress))
  }

  lemma ActMeansUpdate(rows: Rows, id: JobId, u: ProgressUpdate)
    requires id in rows
    ensures WriteProgress(rows, id, u) == rows[id := Act(rows[id], u)]
  {
  }

  lemma IdentityActs(row: Row, u: ProgressUpdate)
    ensures Act(row, IDENTITY) == row
    ensures Act(row, Compose(IDENTITY, u)) == Act(row, u) == Act(row, Compose(u, IDENTITY))
  {
  }

  lemma ComposeActs(row: Row, u: ProgressUpdate, v: ProgressUpdate)
    ensures Act(Act(row, u), v) == Act(row, Compose(u, v))
  {
    var logs, messages := row.logs.GetOr(""), row.messages.GetOr([]);
    if u.logsChunk.Some? && v.logsChunk.Some? {
      assert logs + u.logsChunk.value + v.logsChunk.value == logs + (u.logsChunk.value + v.logsChunk.value);
    }
    var x, y := ChunkArg(u.messagesChunk), ChunkArg(v.messagesChunk);
    if x.Some? && y.Some? {
      assert messages + x.value + y.value == messages + (x.value + y.value);
    }
  }

  lemma ComposeAssociates(u: ProgressUpdate, v: ProgressUpdate, x: ProgressUpdate)
    ensures Compose(Compose(u, v), x) == Compose(u, Compose(v, x))
  {
    if u.logsChunk.Some? && v.logsChunk.Some? && x.logsChunk.Some? {
      assert u.logsChunk.value + v.logsChunk.value + x.logsChunk.value
          == u.logsChunk.value + (v.logsChunk.value + x.logsChunk.value);
    }
    var a, b, c := ChunkArg(u.messagesChunk), ChunkArg(v.messagesChunk), ChunkArg(x.messagesChunk);
    if a.Some? && b.Some? && c.Some? {
      assert a.value + b.value + c.value == a.value + (b.value + c.value);
    }
  }

  function ActAll(row: Row, us: seq<ProgressUpdate>): Row
    decreases |us|
  {
    if us == [] then row else ActAll(Act(row, us[0]), us[1..])
  }

  function ComposeAll(us: seq<ProgressUpdate>): ProgressUpdate {
    if us == [] then IDENTITY else Compose(us[0], ComposeAll(us[1..]))
  }

  /** Any finite series of updates has the effect of one composed update. */
  lemma {:induction false} ActAllIsOneUpdate(row: Row, us: seq<ProgressUpdate>)
    ensures ActAll(row, us) == Act(row, ComposeAll(us))
    decreases |us|
  {
    if us != [] {
      ActAllIsOneUpdate(Act(row, us[0]), us[1..]);
      ComposeActs(row, us[0], ComposeAll(us[1..]));
    }
  }

  // ---- What the reader sees after a series of updates ----

  function Logs(us: seq<ProgressUpdate>): string {
    if us == [] then "" else us[0].logsChunk.GetOr("") + Logs(us[1..])
  }

  function Messages(us: seq<ProgressUpdate>): seq<string> {
    if us == [] then [] else us[0].messagesChunk.GetOr([]) + Messages(us[1..])
  }

  /** The last value that is not null. */
  function Last<T>(vs: seq<Option<T>>, default: T): T {
    if vs == [] then default
    else if vs[|vs| - 1].Some? then vs[|vs| - 1].value
    else Last(vs[..|vs| - 1], default)
  }

  lemma {:induction false} LastCons<T>(v: Option<T>, vs: seq<Option<T>>, default: T)
    ensures Last([v] + vs, default) == Last(vs, v.GetOr(default))
    decreases |vs|
  {
    var all := [v] + vs;
    if vs != [] {
      assert all[..|all| - 1] == [v] + vs[..|vs| - 1];
      LastCons(v, vs[..|vs| - 1], default);
    } else {
      assert all[..0] == [];
    }
  }

  function Statuses(us: seq<ProgressUpdate>): seq<Option<Status>> {
    if us == [] then [] else [us[0].status] + Statuses(us[1..])
  }

  function Passrates(us: seq<ProgressUpdate>): seq<Option<string>> {
    if us == [] then [] else [us[0].passrate] + Passrates(us[1..])
  }

  function Progresses(us: seq<ProgressUpdate>): seq<Option<string>> {
    if us == [] then [] else [us[0].progress] + Progresses(us[1..])
  }

  lemma ReadAfterOne(id: JobId, row: Row, u: ProgressUpdate)
    ensures var before, after := Read(id, row), Read(id, Act(row, u));
            && after.logs == before.logs + u.logsChunk.GetOr("")
            && after.messages.GetOr([]) == before.messages.GetOr([]) + u.messagesChunk.GetOr([])
            && after.status == u.status.GetOr(before.status)
            && after.passrate == u.passrate.GetOr(before.passrate)
            && after.progress == u.progress.GetOr(before.progress)
            && SameElse(before, after)
  {
  }

  /** Equal but for the five fields an update may change. */
  predicate SameElse(r: TestResult, t: TestResult) {
    t == r.(logs := t.logs, messages := t.messages, status := t.status, passrate := t.passrate, progress := t.progress)
  }

  lemma Associate<T>(a: seq<T>, b: seq<T>, c: seq<T>)
    ensures a + b + c == a + (b + c)
  {
  }

  /** Through the NULL and empty encodings: logs and messages are the old value followed by every
      chunk in order, the other fields their last non-null value, and nothing else changes. */
  lemma {:induction false} ReadAfterUpdates(id: JobId, row: Row, us: seq<ProgressUpdate>)
    ensures var before, after := Read(id, row), Read(id, ActAll(row, us));
            && after.logs == before.logs + Logs(us)
            && after.messages.GetOr([]) == before.messages.GetOr([]) + Messages(us)
            && after.status == Last(Statuses(us), before.status)
            && after.passrate == Last(Passrates(us), before.passrate)
            && after.progress == Last(Progresses(us), before.progress)
            && SameElse(before, after)
    decreases |us|
  {
    if us != [] {
      var u, rest, before := us[0], us[1..], Read(id, row);
      ReadAfterOne(id, row, u);
      ReadAfterUpdates(id, Act(row, u), rest);
      LastCons(u.status, Statuses(rest), before.status);
      LastCons(u.passrate, Passrates(rest), before.passrate);
      LastCons(u.progress, Progresses(rest), before.progress);
      Associate(before.logs, u.logsChunk.GetOr(""), Logs(rest));
      Associate(before.messages.GetOr([]), u.messagesChunk.GetOr([]), Messages(rest));
    }
  }
}
