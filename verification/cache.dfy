/** The server's cache of project names under concurrent adds, deletes and refreshes. */
module ProjectsCache {
  import opened Models
  import opened Listing

  /** A list read from the table, and which value of the table it lists, counting from the first. */
  datatype Snapshot = Snapshot(names: seq<string>, version: nat)

  /** `snapshots` are those read by refreshes that have yet to write them; `past` are the values the
      table had before the current one; `shown` is the version in the cache once there is one. */
  datatype Shared = Shared(
    table: set<string>, cache: seq<string>, shown: Option<nat>, snapshots: map<nat, Snapshot>, past: seq<set<string>>)

  /** A failed statement that was applied still changes the table. */
  datatype Move =
    | AddRow(name: string)
    | DeleteRow(name: string)
    | ReadTable(g: nat)
    | WriteCache(g: nat)

  predicate Possible(s: Shared, m: Move) {
    match m
    case AddRow(name) => name != ""
    case DeleteRow(name) => name != ""
    case ReadTable(g) => g !in s.snapshots
    case WriteCache(g) => g in s.snapshots
  }

  function WithTable(s: Shared, table: set<string>): Shared {
    s.(table := table, past := s.past + [s.table])
  }

  function MoveOne(s: Shared, m: Move): Shared
    requires Possible(s, m)
  {
    match m
    case AddRow(name) => WithTable(s, s.table + {name})
    case DeleteRow(name) => WithTable(s, s.table - {name})
    case ReadTable(g) => s.(snapshots := s.snapshots[g := Snapshot(Listed(s.table), |s.past|)])
    case WriteCache(g) =>
      s.(cache := s.snapshots[g].names, shown := Some(s.snapshots[g].version), snapshots := s.snapshots - {g})
  }

  function Moves(s: Shared, ms: seq<Move>): Option<Shared>
    decreases |ms|
  {
    if ms == [] then Some(s)
    else if Possible(s, ms[0]) then Moves(MoveOne(s, ms[0]), ms[1..])
    else None
  }

  function Boot(table: set<string>): Shared {
    Shared(table, [], None, map[], [])
  }

  /** `names` lists the given version of the table. */
  predicate IsVersion(s: Shared, version: nat, names: seq<string>) {
    version <= |s.past| && names == Listed((s.past + [s.table])[version])
  }

  ghost predicate Coherent(s: Shared) {
    && (forall g | g in s.snapshots :: IsVersion(s, s.snapshots[g].version, s.snapshots[g].names))
    && (if s.shown.Some? then IsVersion(s, s.shown.value, s.cache) else s.cache == [])
  }

  lemma MoveKeepsCoherent(s: Shared, m: Move)
    requires Coherent(s) && Possible(s, m)
    ensures Coherent(MoveOne(s, m))
  {
  }

  lemma {:induction false} MovesKeepCoherent(s: Shared, ms: seq<Move>, t: Shared)
    requires Coherent(s) && Moves(s, ms) == Some(t)
    ensures Coherent(t)
    decreases |ms|
  {
    if ms != [] {
      MoveKeepsCoherent(s, ms[0]);
      MovesKeepCoherent(MoveOne(s, ms[0]), ms[1..], t);
    }
  }

  /** Under any interleaving the cache is empty until the first refresh completes, and from then on is
      the ordered listing of one whole past value of the table. */
  lemma CacheIsASnapshot(table: set<string>, ms: seq<Move>, s: Shared)
    requires Moves(Boot(table), ms) == Some(s)
    ensures if s.shown.Some? then IsVersion(s, s.shown.value, s.cache) else s.cache == []
    ensures s.shown.Some? <==> exists i :: 0 <= i < |ms| && ms[i].WriteCache?
  {
    MovesKeepCoherent(Boot(table), ms, s);
    ShownByWrite(Boot(table), ms, s);
  }

  lemma {:induction false} ShownByWrite(s: Shared, ms: seq<Move>, t: Shared)
    requires Moves(s, ms) == Some(t)
    ensures t.shown.Some? <==> s.shown.Some? || exists i :: 0 <= i < |ms| && ms[i].WriteCache?
    decreases |ms|
  {
    if ms != [] {
      var s', rest := MoveOne(s, ms[0]), ms[1..];
      ShownByWrite(s', rest, t);
      if i :| 0 <= i < |rest| && rest[i].WriteCache? {
        assert ms[i + 1].WriteCache?;
      }
      if i :| 0 <= i < |ms| && ms[i].WriteCache? {
        assert i == 0 || rest[i - 1].WriteCache?;
      }
    }
  }

  /** A refresh running alone leaves the cache equal to the current table, from any state. */
  lemma LoneRefreshIsCurrent(s: Shared, g: nat, t: Shared)
    requires Moves(s, [ReadTable(g), WriteCache(g)]) == Some(t)
    ensures t.shown == Some(|t.past|) && Lists(t.cache, t.table) && t.table == s.table && t.past == s.past
  {
    var ms := [ReadTable(g), WriteCache(g)];
    var s1 := MoveOne(s, ms[0]);
    assert ms[1..] == [WriteCache(g)];
    assert Moves(s1, ms[1..]) == Moves(MoveOne(s1, ms[1]), ms[1..][1..]);
  }

  // ---- Refreshes one at a time ----

  /** Every refresh reads the table when no other has a snapshot outstanding. */
  predicate OneAtATime(s: Shared, ms: seq<Move>)
    decreases |ms|
  {
    ms != [] && Possible(s, ms[0]) ==>
      (ms[0].ReadTable? ==> s.snapshots == map[]) && OneAtATime(MoveOne(s, ms[0]), ms[1..])
  }

  /** `b` shows a version no older than `a` does. */
  predicate NotOlder(a: Option<nat>, b: Option<nat>) {
    a.Some? ==> b.Some? && a.value <= b.value
  }

  ghost predicate Serial(s: Shared) {
    && (forall g, h | g in s.snapshots && h in s.snapshots :: g == h)
    && (forall g | g in s.snapshots :: NotOlder(s.shown, Some(s.snapshots[g].version)))
  }

  lemma {:induction false} SerialRun(s: Shared, ms: seq<Move>, t: Shared)
    requires Coherent(s) && Serial(s) && Moves(s, ms) == Some(t) && OneAtATime(s, ms)
    ensures NotOlder(s.shown, t.shown) && Coherent(t) && Serial(t)
    decreases |ms|
  {
    if ms != [] {
      MoveKeepsCoherent(s, ms[0]);
      SerialRun(MoveOne(s, ms[0]), ms[1..], t);
    }
  }

  lemma {:induction false} OneAtATimeSplits(s: Shared, ms: seq<Move>, m: Shared, more: seq<Move>)
    requires Moves(s, ms) == Some(m) && OneAtATime(s, ms + more)
    ensures OneAtATime(s, ms) && OneAtATime(m, more)
    decreases |ms|
  {
    if ms == [] {
      assert ms + more == more;
    } else {
      assert (ms + more)[1..] == ms[1..] + more;
      OneAtATimeSplits(MoveOne(s, ms[0]), ms[1..], m, more);
    }
  }

  /** While refreshes run one at a time, with adds and deletes at any moment, the cache never goes back
      to an older value of the table. */
  lemma SerialRefreshesNeverRegress(table: set<string>, ms: seq<Move>, s: Shared, more: seq<Move>, t: Shared)
    requires Moves(Boot(table), ms) == Some(s) && Moves(s, more) == Some(t) && OneAtATime(Boot(table), ms + more)
    ensures NotOlder(s.shown, t.shown)
  {
    OneAtATimeSplits(Boot(table), ms, s, more);
    SerialRun(Boot(table), ms, s);
    SerialRun(s, more, t);
  }

  /** Overlap is what makes going back possible: from any coherent state in which some refresh has a
      snapshot outstanding, a change and one more refresh that overtakes it lead to a newer value of the
      table being shown and then an older one, which is not the table. */
  lemma OverlappingRefreshesCanRegress(s: Shared, g: nat, h: nat, name: string)
    returns (ms: seq<Move>, m: Shared, t: Shared)
    requires Coherent(s) && g in s.snapshots && h !in s.snapshots && name != ""
    ensures Moves(s, ms) == Some(m) && Moves(m, [WriteCache(g)]) == Some(t)
    ensures m.shown == Some(|m.past|) && Lists(m.cache, m.table)
    ensures t.shown.Some? && !NotOlder(m.shown, t.shown) && t.past == m.past && t.table == m.table
  {
    ms := [AddRow(name), ReadTable(h), WriteCache(h)];
    var s1 := MoveOne(s, ms[0]);
    var s2 := MoveOne(s1, ms[1]);
    m := MoveOne(s2, ms[2]);
    t := MoveOne(m, WriteCache(g));
    assert ms[1..] == [ReadTable(h), WriteCache(h)] && ms[1..][1..] == [WriteCache(h)];
    assert Moves(s2, [WriteCache(h)]) == Moves(m, [WriteCache(h)][1..]);
    assert Moves(s1, ms[1..]) == Moves(s2, ms[1..][1..]);
    assert Moves(m, [WriteCache(g)]) == Moves(t, [WriteCache(g)][1..]);
  }
}
