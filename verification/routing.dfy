/** The exchange's topology, and concurrent goroutines declaring project queues and publishing. */
module Routing {
  import opened Models

  /** Declared queues, and bindings as (queue, routing key). */
  datatype Topology = Topology(queues: set<string>, bindings: set<(string, string)>)

  /** The queues a direct exchange routes a message with this key to. */
  function Routes(t: Topology, key: string): set<string> {
    set q | q in t.queues && (q, key) in t.bindings
  }

  predicate Bound(t: Topology, project: string) {
    project in t.queues && (project, project) in t.bindings
  }

  /** Queues are bound only under their own name, and every cached project is declared and bound. */
  ghost predicate Routed(t: Topology, declared: set<string>) {
    && (forall b | b in t.bindings :: b.0 == b.1)
    && (forall p | p in declared :: Bound(t, p))
  }

  lemma RoutesToOwnQueue(t: Topology, declared: set<string>, project: string)
    requires Routed(t, declared) && Bound(t, project)
    ensures Routes(t, project) == {project}
  {
    forall q | q in Routes(t, project) ensures q == project {
      assert (q, project) in t.bindings;
    }
  }

  // ---- Goroutines inside declareProjectQueue ----

  type Goroutine = nat

  /** The stages of declareProjectQueue; those from `Rechecking` to `Unlocking` hold the mutex. */
  datatype Point =
    | Loading | Locking | Rechecking | Opening | Declaring | Binding | Storing
    | Unlocking(failed: bool) | Returned(failed: bool)

  datatype Frame = Frame(project: string, at: Point)

  /** `published` records each publish with the queues it reached. */
  datatype Shared = Shared(
    t: Topology, declared: set<string>, owner: Option<Goroutine>, frames: map<Goroutine, Frame>,
    published: seq<(string, set<string>)>)

  const IDLE := Shared(Topology({}, {}), {}, None, map[], [])

  predicate Critical(at: Point) {
    !at.Loading? && !at.Locking? && !at.Returned?
  }

  /** `Advance` moves a goroutine by one call, whose outcome is given; `PublishNow` is the publish of a
      goroutine whose declaration returned without error. */
  datatype Move =
    | Call(g: Goroutine, project: string)
    | Advance(g: Goroutine, outcome: Outcome)
    | PublishNow(g: Goroutine)

  predicate Possible(s: Shared, m: Move) {
    match m
    case Call(g, _) => g !in s.frames || s.frames[g].at.Returned?
    case Advance(g, _) =>
      g in s.frames && !s.frames[g].at.Returned? && (s.frames[g].at.Locking? ==> s.owner == None)
    case PublishNow(g) => g in s.frames && s.frames[g].at == Returned(false)
  }

  function At(s: Shared, g: Goroutine, at: Point): Shared
    requires g in s.frames
  {
    s.(frames := s.frames[g := s.frames[g].(at := at)])
  }

  function AdvanceOne(s: Shared, g: Goroutine, outcome: Outcome): Shared
    requires Possible(s, Advance(g, outcome))
  {
    var p := s.frames[g].project;
    match s.frames[g].at
    case Loading => At(s, g, if p in s.declared then Returned(false) else Locking)
    case Locking => At(s, g, Rechecking).(owner := Some(g))
    case Rechecking => At(s, g, if p in s.declared then Unlocking(false) else Opening)
    case Opening => At(s, g, if outcome == Succeeds then Declaring else Unlocking(true))
    case Declaring =>
      At(s, g, if outcome == Succeeds then Binding else Unlocking(true)).(
        t := if outcome == FailsBefore then s.t else s.t.(queues := s.t.queues + {p}))
    case Binding =>
      At(s, g, if outcome == Succeeds then Storing else Unlocking(true)).(
        t := if outcome == FailsBefore then s.t else s.t.(bindings := s.t.bindings + {(p, p)}))
    case Storing => At(s, g, Unlocking(false)).(declared := s.declared + {p})
    case Unlocking(failed) => At(s, g, Returned(failed)).(owner := None)
    case Returned(_) => s
  }

  function MoveOne(s: Shared, m: Move): Shared
    requires Possible(s, m)
  {
    match m
    case Call(g, project) => s.(frames := s.frames[g := Frame(project, Loading)])
    case Advance(g, outcome) => AdvanceOne(s, g, outcome)
    case PublishNow(g) =>
      s.(published := s.published + [(s.frames[g].project, Routes(s.t, s.frames[g].project))])
  }

  function Moves(s: Shared, ms: seq<Move>): Option<Shared>
    decreases |ms|
  {
    if ms == [] then Some(s)
    else if Possible(s, ms[0]) then Moves(MoveOne(s, ms[0]), ms[1..])
    else None
  }

  /** What each stage may rely on. */
  ghost predicate FrameOk(s: Shared, g: Goroutine)
    requires g in s.frames
  {
    var Frame(p, at) := s.frames[g];
    && (Critical(at) <==> s.owner == Some(g))
    && (at.Binding? ==> p in s.t.queues)
    && (at.Storing? ==> Bound(s.t, p))
    && (at == Unlocking(false) || at == Returned(false) ==> p in s.declared)
  }

  ghost predicate Safe(s: Shared) {
    && Routed(s.t, s.declared)
    && (s.owner.Some? ==> s.owner.value in s.frames)
    && (forall g | g in s.frames :: FrameOk(s, g))
    && (forall r | r in s.published :: r.1 == {r.0})
  }

  lemma AdvanceIsSafe(s: Shared, g: Goroutine, outcome: Outcome)
    requires Safe(s) && Possible(s, Advance(g, outcome))
    ensures Safe(AdvanceOne(s, g, outcome))
  {
    var t := AdvanceOne(s, g, outcome);
    assert FrameOk(s, g);
    forall f | f in t.frames
      ensures FrameOk(t, f)
    {
      assert FrameOk(s, f);
    }
  }

  lemma MoveIsSafe(s: Shared, m: Move)
    requires Safe(s) && Possible(s, m)
    ensures Safe(MoveOne(s, m))
  {
    match m
    case Call(g, project) =>
      if g in s.frames {
        assert FrameOk(s, g);
      }
      forall f | f in MoveOne(s, m).frames
        ensures FrameOk(MoveOne(s, m), f)
      {
        if f != g {
          assert FrameOk(s, f);
        }
      }
    case Advance(g, outcome) => AdvanceIsSafe(s, g, outcome);
    case PublishNow(g) =>
      assert FrameOk(s, g);
      RoutesToOwnQueue(s.t, s.declared, s.frames[g].project);
      forall f | f in s.frames
        ensures FrameOk(MoveOne(s, m), f)
      {
        assert FrameOk(s, f);
      }
  }

  lemma {:induction false} MovesAreSafe(s: Shared, ms: seq<Move>, t: Shared)
    requires Safe(s) && Moves(s, ms) == Some(t)
    ensures Safe(t)
    decreases |ms|
  {
    if ms != [] {
      MoveIsSafe(s, ms[0]);
      MovesAreSafe(MoveOne(s, ms[0]), ms[1..], t);
    }
  }

  /** For any interleaving of declarations with any failures: a cached project is declared and bound,
      at most one goroutine is between lock and unlock, and every publish that follows a successful
      declaration reaches exactly its project's queue. */
  lemma SafeRouting(ms: seq<Move>, s: Shared)
    requires Moves(IDLE, ms) == Some(s)
    ensures forall p | p in s.declared :: Bound(s.t, p)
    ensures forall f, g | f in s.frames && g in s.frames && Critical(s.frames[f].at) && Critical(s.frames[g].at) ::
              f == g
    ensures forall r | r in s.published :: r.1 == {r.0}
  {
    MovesAreSafe(IDLE, ms, s);
    forall f, g | f in s.frames && g in s.frames && Critical(s.frames[f].at) && Critical(s.frames[g].at)
      ensures f == g
    {
      assert FrameOk(s, f) && FrameOk(s, g);
    }
  }
}
