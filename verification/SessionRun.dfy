/** The runs of the protocol in which one listing alone moves: what each of them leaves, and that they end. */
module SessionRun {
  import opened Optional
  import P = SessionProtocol
  import L = SessionListing

  /**
   * What a listing finds when it starts: the directory, whose locks are held, which records it can read, what
   * each socket answers.
   */
  datatype Scene = Scene(
    files: map<string, P.File>,
    records: map<string, P.Proc>,
    locks: map<string, P.Proc>,
    readable: set<string>,
    probe: string -> L.Probe)

  /** The sockets of the protocol as a listing sees them. */
  function Seen(files: map<string, P.File>): map<string, L.File> {
    map stem | stem in files :: if files[stem].Socket? then L.Socket else L.NotASocket
  }

  predicate Stale(scene: Scene, stem: string) {
    L.Stale(Seen(scene.files), scene.locks.Keys, scene.probe, stem)
  }

  /** Those of the names whose socket is stale. */
  function Gone(scene: Scene, stems: set<string>): set<string> {
    set stem | stem in stems && Stale(scene, stem)
  }

  /** What a row says of a visited name, when it has one. */
  function MarkOf(scene: Scene, stem: string): Option<P.Mark> {
    if stem !in scene.files || !scene.files[stem].Socket? then None
    else match scene.probe(stem)
      case Session(_) => Some(P.Answered)
      case Refusal => Some(P.Answered)
      case Silence => if stem in scene.locks then Some(P.Held) else None
      case Unbindable => None
  }

  /** The records the sweep is to remove, of those it has looked at. */
  function Cleared(scene: Scene, looked: set<string>): set<string> {
    set stem | stem in looked && stem !in scene.files && stem !in scene.locks
  }

  /** The step is what this directory and these sockets would have the listing do. */
  predicate Agrees(scene: Scene, step: P.ListingPc, action: P.Action) {
    match action
    case Read(records, entries) => records == scene.readable && entries == scene.files.Keys
    case ProbeAnswered => step.Probing? && (scene.probe(step.name).Session? || scene.probe(step.name).Refusal?)
    case ProbeUnbindable => step.Probing? && scene.probe(step.name).Unbindable?
    case ProbeSilent => step.Probing? && scene.probe(step.name).Silence?
    case Spawn(_) => false
    case Crash => false
    case _ => true
  }

  // Where a listing stands, and what is gone by then.

  /** The entry a walk is in the middle of. */
  function Current(step: P.ListingPc): set<string> {
    match step
    case Probing(name) => {name}
    case Claiming(name) => {name}
    case Inspecting(name) => {name}
    case Unlinking(name) => {name}
    case Unrecording(name) => {name}
    case Releasing(name) => {name}
    case SweepClaiming(name) => {name}
    case SweepRemoving(name) => {name}
    case _ => {}
  }

  predicate InAWindow(step: P.ListingPc) {
    step.Inspecting? || step.Unlinking? || step.Unrecording? || step.Releasing? || step.SweepRemoving?
      || step.SweepReleasing?
  }

  /** Only the name a listing is removing at is locked beside those that were. */
  ghost predicate LocksStand(scene: Scene, p: P.Proc, step: P.ListingPc, locks: map<string, P.Proc>) {
    if InAWindow(step) then step.name !in scene.locks && locks == scene.locks[step.name := p] else locks == scene.locks
  }

  /** The rows are those of the names visited. */
  ghost predicate RowsStand(scene: Scene, visited: set<string>, rows: seq<(string, P.Mark)>) {
    forall stem, mark :: (stem, mark) in rows <==> stem in visited && MarkOf(scene, stem) == Some(mark)
  }

  predicate Walking(step: P.ListingPc) {
    !step.Starting? && !step.Finished? && !step.Sweeping? && !step.SweepClaiming? && !step.SweepRemoving?
      && !step.SweepReleasing?
  }

  /** Some way through the walk: the stale sockets visited are gone, with those of their records that were read. */
  ghost predicate WalkStands(scene: Scene, s: P.State, step: P.ListingPc, notes: P.Notes) {
    var visited := scene.files.Keys - notes.todo - Current(step);
    var unlinked := if step.Unrecording? || step.Releasing? then visited + Current(step) else visited;
    var unrecorded := if step.Releasing? then visited + Current(step) else visited;
    && notes.todo <= scene.files.Keys && notes.todo !! Current(step)
    && (forall stem <- Current(step) :: stem in scene.files && scene.files[stem].Socket?)
    && (!step.Probing? ==> forall stem <- Current(step) :: scene.probe(stem).Silence?)
    && s.files == scene.files - Gone(scene, unlinked)
    && notes.records == scene.readable - Gone(scene, unrecorded)
    && s.records == scene.records - Gone(scene, unrecorded) * scene.readable
    && RowsStand(scene, visited, notes.rows)
  }

  /**
   * Some way through the sweep: every stale socket is gone, and so is each record looked at that nothing stands
   * behind.
   */
  ghost predicate SweepStands(scene: Scene, s: P.State, step: P.ListingPc, notes: P.Notes) {
    var dead := Gone(scene, scene.files.Keys);
    var swept := scene.readable - dead - notes.records - Current(step);
    && notes.todo == {} && notes.records + Current(step) <= scene.readable - dead && notes.records !! Current(step)
    && (forall stem <- Current(step) :: stem !in scene.files)
    && s.files == scene.files - dead
    && s.records == scene.records - dead * scene.readable - Cleared(scene, swept)
    && (step.Finished? ==> notes.records == {})
    && RowsStand(scene, scene.files.Keys, notes.rows)
  }

  ghost predicate Stands(scene: Scene, s: P.State, p: P.Proc) {
    && p in s.procs && s.procs[p].Listing? && !s.procs[p].step.Starting?
    && LocksStand(scene, p, s.procs[p].step, s.locks)
    && (if Walking(s.procs[p].step) then WalkStands(scene, s, s.procs[p].step, s.procs[p].notes)
        else SweepStands(scene, s, s.procs[p].step, s.procs[p].notes))
  }

  lemma GoneOneMore(scene: Scene, stems: set<string>, stem: string)
    ensures Gone(scene, stems + {stem})
            == if Stale(scene, stem) then Gone(scene, stems) + {stem} else Gone(scene, stems)
  {}

  lemma RowsOneMore(scene: Scene, visited: set<string>, rows: seq<(string, P.Mark)>, stem: string)
    requires RowsStand(scene, visited, rows) && stem !in visited
    ensures RowsStand(scene, visited + {stem},
                      rows + if MarkOf(scene, stem).Some? then [(stem, MarkOf(scene, stem).value)] else [])
  {
    var more := if MarkOf(scene, stem).Some? then [(stem, MarkOf(scene, stem).value)] else [];
    forall other, mark
      ensures (other, mark) in rows + more <==> other in visited + {stem} && MarkOf(scene, other) == Some(mark)
    {
      assert (other, mark) in rows + more <==> (other, mark) in rows || (other, mark) in more;
    }
  }

  /** One step of the walk keeps where it stands. */
  lemma WalkKeeps(scene: Scene, s: P.State, p: P.Proc, action: P.Action)
    requires Stands(scene, s, p) && Walking(s.procs[p].step) && Agrees(scene, s.procs[p].step, action)
    requires P.Step(s, p, action).Some?
    ensures Stands(scene, P.Step(s, p, action).value, p)
  {
    var step, notes := s.procs[p].step, s.procs[p].notes;
    match action
    case Visit(stem) => VisitKeeps(scene, s, p, stem);
    case BeginSweep =>
      assert scene.files.Keys - notes.todo - Current(step) == scene.files.Keys;
      assert Cleared(scene, {}) == {};
    case UnlinkStale => UnlinkKeeps(scene, s, p);
    case RemoveStaleRecord => UnrecordKeeps(scene, s, p);
    case Inspect => InspectKeeps(scene, s, p);
    case EndWindow => WindowKeeps(scene, s, p);
    case TryClaim => ClaimKeeps(scene, s, p);
    case ProbeAnswered => LeaveKeeps(scene, s, p, action);
    case ProbeUnbindable => LeaveKeeps(scene, s, p, action);
    case _ =>
  }

  lemma VisitKeeps(scene: Scene, s: P.State, p: P.Proc, stem: string)
    requires Stands(scene, s, p) && Walking(s.procs[p].step) && P.Step(s, p, P.Visit(stem)).Some?
    ensures Stands(scene, P.Step(s, p, P.Visit(stem)).value, p)
  {
    var notes := s.procs[p].notes;
    var visited := scene.files.Keys - notes.todo;
    assert visited - {} == visited && stem in scene.files && stem !in visited;
    assert stem in s.files;
    if s.files[stem].Socket? {
      assert scene.files.Keys - (notes.todo - {stem}) - {stem} == visited;
    } else {
      assert scene.files.Keys - (notes.todo - {stem}) - {} == visited + {stem};
      GoneOneMore(scene, visited, stem);
      RowsOneMore(scene, visited, notes.rows, stem);
      assert notes.rows + [] == notes.rows;
    }
  }

  /** At a name the listing has locked, whose socket is stale. */
  lemma AtAStaleName(scene: Scene, s: P.State, p: P.Proc)
    requires Stands(scene, s, p) && Walking(s.procs[p].step) && InAWindow(s.procs[p].step)
    ensures var step := s.procs[p].step;
            var visited := scene.files.Keys - s.procs[p].notes.todo - {step.name};
            && Stale(scene, step.name) && step.name !in visited
            && Gone(scene, visited + {step.name}) == Gone(scene, visited) + {step.name}
  {}

  lemma UnlinkKeeps(scene: Scene, s: P.State, p: P.Proc)
    requires Stands(scene, s, p) && s.procs[p].step.Unlinking?
    ensures Stands(scene, P.Step(s, p, P.UnlinkStale).value, p)
  {
    AtAStaleName(scene, s, p);
    var visited := scene.files.Keys - s.procs[p].notes.todo - {s.procs[p].step.name};
    assert s.files - {s.procs[p].step.name} == scene.files - Gone(scene, visited + {s.procs[p].step.name});
  }

  lemma InspectKeeps(scene: Scene, s: P.State, p: P.Proc)
    requires Stands(scene, s, p) && s.procs[p].step.Inspecting?
    ensures Stands(scene, P.Step(s, p, P.Inspect).value, p)
  {
    AtAStaleName(scene, s, p);
    assert s.procs[p].step.name in s.files;
  }

  lemma UnrecordKeeps(scene: Scene, s: P.State, p: P.Proc)
    requires Stands(scene, s, p) && s.procs[p].step.Unrecording?
    ensures Stands(scene, P.Step(s, p, P.RemoveStaleRecord).value, p)
  {
    var stem, notes := s.procs[p].step.name, s.procs[p].notes;
    var dead := Gone(scene, scene.files.Keys - notes.todo - {stem});
    AtAStaleName(scene, s, p);
    assert scene.readable - dead - {stem} == scene.readable - (dead + {stem});
    if stem in notes.records {
      assert scene.records - dead * scene.readable - {stem} == scene.records - (dead + {stem}) * scene.readable;
    } else {
      assert dead * scene.readable == (dead + {stem}) * scene.readable;
    }
  }

  lemma WindowKeeps(scene: Scene, s: P.State, p: P.Proc)
    requires Stands(scene, s, p) && Walking(s.procs[p].step) && P.Step(s, p, P.EndWindow).Some?
    ensures Stands(scene, P.Step(s, p, P.EndWindow).value, p)
  {
    var step, notes := s.procs[p].step, s.procs[p].notes;
    assert step.Releasing?;
    var stem, visited := step.name, scene.files.Keys - notes.todo - {step.name};
    RowsOneMore(scene, visited, notes.rows, stem);
    assert scene.files.Keys - notes.todo - {} == visited + {stem};
    assert Stale(scene, stem) && notes.rows + [] == notes.rows;
    assert s.locks - {stem} == scene.locks;
  }

  lemma ClaimKeeps(scene: Scene, s: P.State, p: P.Proc)
    requires Stands(scene, s, p) && s.procs[p].step.Claiming?
    ensures Stands(scene, P.Step(s, p, P.TryClaim).value, p)
  {
    var step, notes := s.procs[p].step, s.procs[p].notes;
    var stem, visited := step.name, scene.files.Keys - notes.todo - {step.name};
    if stem in s.locks {
      assert scene.files.Keys - notes.todo - {} == visited + {stem};
      GoneOneMore(scene, visited, stem);
      RowsOneMore(scene, visited, notes.rows, stem);
    }
  }

  lemma LeaveKeeps(scene: Scene, s: P.State, p: P.Proc, action: P.Action)
    requires Stands(scene, s, p) && s.procs[p].step.Probing? && Agrees(scene, s.procs[p].step, action)
    requires action.ProbeAnswered? || action.ProbeUnbindable?
    ensures Stands(scene, P.Step(s, p, action).value, p)
  {
    var step, notes := s.procs[p].step, s.procs[p].notes;
    var stem, visited := step.name, scene.files.Keys - notes.todo - {step.name};
    assert scene.files.Keys - notes.todo - {} == visited + {stem};
    GoneOneMore(scene, visited, stem);
    RowsOneMore(scene, visited, notes.rows, stem);
    assert notes.rows + [] == notes.rows;
  }

  /** One step of the sweep keeps where it stands. */
  lemma SweepKeeps(scene: Scene, s: P.State, p: P.Proc, action: P.Action)
    requires Stands(scene, s, p) && !Walking(s.procs[p].step) && P.Step(s, p, action).Some?
    requires Agrees(scene, s.procs[p].step, action)
    ensures Stands(scene, P.Step(s, p, action).value, p)
  {
    match s.procs[p].step
    case Sweeping =>
      if action.SweepVisit? {
        SweepVisitKeeps(scene, s, p, action.name);
      }
    case SweepClaiming(stem) => SweepClaimKeeps(scene, s, p, stem);
    case SweepRemoving(stem) => SweepRemoveKeeps(scene, s, p, stem);
    case SweepReleasing(stem) => assert s.locks - {stem} == scene.locks;
    case _ =>
  }

  lemma SweepClaimKeeps(scene: Scene, s: P.State, p: P.Proc, stem: string)
    requires Stands(scene, s, p) && s.procs[p].step == P.SweepClaiming(stem)
    ensures P.Step(s, p, P.SweepTryClaim).Some? && Stands(scene, P.Step(s, p, P.SweepTryClaim).value, p)
  {
    var all, notes := scene.readable - Gone(scene, scene.files.Keys), s.procs[p].notes;
    var swept := all - notes.records - {stem};
    if stem in s.locks {
      assert all - notes.records - {} == swept + {stem};
      assert Cleared(scene, swept + {stem}) == Cleared(scene, swept);
    }
  }

  lemma SweepRemoveKeeps(scene: Scene, s: P.State, p: P.Proc, stem: string)
    requires Stands(scene, s, p) && s.procs[p].step == P.SweepRemoving(stem)
    ensures P.Step(s, p, P.SweepRemove).Some? && Stands(scene, P.Step(s, p, P.SweepRemove).value, p)
  {
    var all, notes := scene.readable - Gone(scene, scene.files.Keys), s.procs[p].notes;
    var swept, before := all - notes.records - {stem}, scene.records - Gone(scene, scene.files.Keys) * scene.readable;
    assert all - notes.records - {} == swept + {stem};
    assert Cleared(scene, swept + {stem}) == Cleared(scene, swept) + {stem};
    assert before - Cleared(scene, swept) - {stem} == before - (Cleared(scene, swept) + {stem});
  }

  lemma SweepVisitKeeps(scene: Scene, s: P.State, p: P.Proc, stem: string)
    requires Stands(scene, s, p) && !Walking(s.procs[p].step) && P.Step(s, p, P.SweepVisit(stem)).Some?
    ensures Stands(scene, P.Step(s, p, P.SweepVisit(stem)).value, p)
  {
    var notes := s.procs[p].notes;
    var all := scene.readable - Gone(scene, scene.files.Keys);
    var swept := all - notes.records;
    assert swept - {} == swept;
    if stem in s.files {
      assert all - (notes.records - {stem}) - {} == swept + {stem};
      assert Cleared(scene, swept + {stem}) == Cleared(scene, swept);
    } else {
      assert all - (notes.records - {stem}) - {stem} == swept;
      assert stem !in scene.files;
    }
  }

  // A whole run.

  /** The listing takes every step of the schedule, each as the scene would have it. */
  ghost predicate Alone(scene: Scene, s: P.State, p: P.Proc, schedule: P.Schedule)
    decreases schedule
  {
    schedule == []
    || (&& schedule[0].0 == p && p in s.procs && s.procs[p].Listing? && Agrees(scene, s.procs[p].step, schedule[0].1)
        && P.Step(s, p, schedule[0].1).Some? && Alone(scene, P.Step(s, p, schedule[0].1).value, p, schedule[1..]))
  }

  lemma {:induction false} RunStands(scene: Scene, s: P.State, p: P.Proc, schedule: P.Schedule)
    requires Stands(scene, s, p) && Alone(scene, s, p, schedule)
    ensures P.Run(s, schedule).Some? && Stands(scene, P.Run(s, schedule).value, p)
    decreases schedule
  {
    if schedule != [] {
      if Walking(s.procs[p].step) {
        WalkKeeps(scene, s, p, schedule[0].1);
      } else {
        SweepKeeps(scene, s, p, schedule[0].1);
      }
      RunStands(scene, P.Step(s, p, schedule[0].1).value, p, schedule[1..]);
    }
  }

  predicate Fresh(s: P.State, p: P.Proc) {
    p in s.procs && s.procs[p] == P.Listing(P.Starting, P.Notes({}, {}, []))
  }

  /** What the listing finds in a state, given which of its records can be read. */
  function SceneOf(s: P.State, records: map<string, L.Record>, probe: string -> L.Probe): Scene {
    Scene(s.files, s.records, s.locks, L.Readables(records).Keys, probe)
  }

  lemma ReadStands(s: P.State, p: P.Proc, records: map<string, L.Record>, probe: string -> L.Probe, action: P.Action)
    requires Fresh(s, p) && Agrees(SceneOf(s, records, probe), P.Starting, action) && P.Step(s, p, action).Some?
    ensures Stands(SceneOf(s, records, probe), P.Step(s, p, action).value, p)
  {
    var scene := SceneOf(s, records, probe);
    assert scene.files.Keys - scene.files.Keys - {} == {} && Gone(scene, {}) == {};
    assert scene.files - {} == scene.files && scene.readable - {} == scene.readable
        && scene.records - {} == scene.records;
  }

  /** What a listing left alone leaves behind. */
  ghost predicate LeftAlone(s: P.State, records: map<string, L.Record>, probe: string -> L.Probe, end: P.State) {
    var held := s.locks.Keys;
    && end.locks == s.locks
    && end.files == s.files - (set stem | stem in s.files && L.Stale(Seen(s.files), held, probe, stem))
    && end.records.Keys
       == (set stem | stem in records && (records[stem].Unreadable? || stem in held || stem in end.files))
  }

  lemma EndLeavesAlone(s: P.State, p: P.Proc, records: map<string, L.Record>, probe: string -> L.Probe, end: P.State)
    requires records.Keys == s.records.Keys && Stands(SceneOf(s, records, probe), end, p) && end.procs[p].step.Finished?
    ensures LeftAlone(s, records, probe, end)
    ensures forall stem, mark :: (stem, mark) in end.procs[p].notes.rows
                                 <==> MarkOf(SceneOf(s, records, probe), stem) == Some(mark)
  {
    RecordsLeft(s, records, probe, end);
  }

  /**
   * However it goes about it, a listing that alone moves and comes to its end leaves the locks as they were,
   * the files and records `SessionListing` says a listing leaves, and a row for each name that is live.
   */
  lemma ListingAlone(s: P.State, p: P.Proc, records: map<string, L.Record>, probe: string -> L.Probe,
                     schedule: P.Schedule)
    requires Fresh(s, p) && records.Keys == s.records.Keys
    requires Alone(SceneOf(s, records, probe), s, p, schedule)
    ensures P.Run(s, schedule).Some?
    ensures
      var end := P.Run(s, schedule).value;
      p in end.procs && end.procs[p].Listing? && end.procs[p].step.Finished? ==>
        && LeftAlone(s, records, probe, end)
        && forall stem, mark :: (stem, mark) in end.procs[p].notes.rows
                                <==> MarkOf(SceneOf(s, records, probe), stem) == Some(mark)
  {
    if schedule != [] {
      var scene := SceneOf(s, records, probe);
      ReadStands(s, p, records, probe, schedule[0].1);
      RunStands(scene, P.Step(s, p, schedule[0].1).value, p, schedule[1..]);
      var end := P.Run(s, schedule).value;
      if end.procs[p].step.Finished? {
        EndLeavesAlone(s, p, records, probe, end);
      }
    }
  }

  lemma RecordsLeft(s: P.State, records: map<string, L.Record>, probe: string -> L.Probe, end: P.State)
    requires records.Keys == s.records.Keys
    requires var scene := SceneOf(s, records, probe);
             var dead := Gone(scene, scene.files.Keys);
             && end.files == s.files - dead
             && end.records == s.records - dead * scene.readable - Cleared(scene, scene.readable - dead)
    ensures end.records.Keys
            == set stem | stem in records && (records[stem].Unreadable? || stem in s.locks.Keys || stem in end.files)
  {
    var scene := SceneOf(s, records, probe);
    forall stem | stem in records ensures stem in scene.readable <==> records[stem].Readable? {}
  }

  // Such runs end.

  /** How far a listing has to go: every step of it is a step nearer. */
  function Rank(step: P.ListingPc, notes: P.Notes): nat {
    8 * |notes.todo| + 4 * |notes.records|
    + match step
      case Starting => 0
      case Choosing => 3
      case Probing(_) => 9
      case Claiming(_) => 8
      case Inspecting(_) => 7
      case Unlinking(_) => 6
      case Unrecording(_) => 5
      case Releasing(_) => 4
      case Sweeping => 2
      case SweepClaiming(_) => 5
      case SweepRemoving(_) => 4
      case SweepReleasing(_) => 3
      case Finished => 0
  }

  lemma Smaller(stems: set<string>, stem: string)
    ensures |stems - {stem}| == |stems| - if stem in stems then 1 else 0
  {
    if stem !in stems {
      assert stems - {stem} == stems;
    }
  }

  /** The listing stands nearer its end than it did. */
  predicate Nearer(step: P.ListingPc, notes: P.Notes, after: P.State, p: P.Proc) {
    p in after.procs && after.procs[p].Listing? && Rank(after.procs[p].step, after.procs[p].notes) < Rank(step, notes)
  }

  lemma ChoosingEnds(s: P.State, p: P.Proc, notes: P.Notes, action: P.Action)
    requires P.ListingStep(s, p, P.Choosing, notes, action).Some?
    ensures Nearer(P.Choosing, notes, P.ListingStep(s, p, P.Choosing, notes, action).value, p)
  {
    if action.Visit? {
      Smaller(notes.todo, action.name);
    }
  }

  lemma SweepingEnds(s: P.State, p: P.Proc, notes: P.Notes, action: P.Action)
    requires P.ListingStep(s, p, P.Sweeping, notes, action).Some?
    ensures Nearer(P.Sweeping, notes, P.ListingStep(s, p, P.Sweeping, notes, action).value, p)
  {
    if action.SweepVisit? {
      Smaller(notes.records, action.name);
    }
  }

  lemma WalkingEnds(s: P.State, p: P.Proc, step: P.ListingPc, notes: P.Notes, action: P.Action)
    requires step.Probing? || step.Claiming? || step.Inspecting? || step.Unlinking? || step.Releasing?
    requires P.ListingStep(s, p, step, notes, action).Some?
    ensures Nearer(step, notes, P.ListingStep(s, p, step, notes, action).value, p)
  {}

  lemma UnrecordingEnds(s: P.State, p: P.Proc, step: P.ListingPc, notes: P.Notes, action: P.Action)
    requires step.Unrecording? && P.ListingStep(s, p, step, notes, action).Some?
    ensures Nearer(step, notes, P.ListingStep(s, p, step, notes, action).value, p)
  {
    Smaller(notes.records, step.name);
  }

  lemma SweptEnds(s: P.State, p: P.Proc, step: P.ListingPc, notes: P.Notes, action: P.Action)
    requires step.SweepClaiming? || step.SweepRemoving? || step.SweepReleasing?
    requires P.ListingStep(s, p, step, notes, action).Some?
    ensures Nearer(step, notes, P.ListingStep(s, p, step, notes, action).value, p)
  {}

  /** Every step after the reading brings a listing nearer its end, whoever else moves. */
  lemma StepsEnd(s: P.State, p: P.Proc, action: P.Action)
    requires p in s.procs && s.procs[p].Listing? && !s.procs[p].step.Starting? && !action.Crash?
    requires P.Step(s, p, action).Some?
    ensures Nearer(s.procs[p].step, s.procs[p].notes, P.Step(s, p, action).value, p)
  {
    var step, notes := s.procs[p].step, s.procs[p].notes;
    if step.Choosing? {
      ChoosingEnds(s, p, notes, action);
    } else if step.Sweeping? {
      SweepingEnds(s, p, notes, action);
    } else if step.Unrecording? {
      UnrecordingEnds(s, p, step, notes, action);
    } else if step.SweepClaiming? || step.SweepRemoving? || step.SweepReleasing? {
      SweptEnds(s, p, step, notes, action);
    } else {
      WalkingEnds(s, p, step, notes, action);
    }
  }

  /** What a listing does next at a step that leaves it no choice. */
  function NextOf(scene: Scene, step: P.ListingPc): P.Action {
    match step
    case Probing(stem) =>
      (match scene.probe(stem)
       case Session(_) => P.ProbeAnswered
       case Refusal => P.ProbeAnswered
       case Unbindable => P.ProbeUnbindable
       case Silence => P.ProbeSilent)
    case Claiming(_) => P.TryClaim
    case Inspecting(_) => P.Inspect
    case Unlinking(_) => P.UnlinkStale
    case Unrecording(_) => P.RemoveStaleRecord
    case Releasing(_) => P.EndWindow
    case SweepClaiming(_) => P.SweepTryClaim
    case SweepRemoving(_) => P.SweepRemove
    case SweepReleasing(_) => P.SweepEndWindow
    case _ => P.Finish
  }

  lemma NoChoice(scene: Scene, s: P.State, p: P.Proc)
    requires p in s.procs && s.procs[p].Listing?
    requires var step := s.procs[p].step; !step.Starting? && !step.Choosing? && !step.Sweeping? && !step.Finished?
    ensures Agrees(scene, s.procs[p].step, NextOf(scene, s.procs[p].step))
    ensures P.Step(s, p, NextOf(scene, s.procs[p].step)).Some?
  {}

  /** Short of its end a listing that alone moves has a step to take. */
  lemma CanGoOn(scene: Scene, s: P.State, p: P.Proc) returns (action: P.Action)
    requires Stands(scene, s, p) && !s.procs[p].step.Finished?
    ensures Agrees(scene, s.procs[p].step, action) && P.Step(s, p, action).Some?
  {
    var step, notes := s.procs[p].step, s.procs[p].notes;
    if step.Choosing? {
      var stem: string;
      if notes.todo != {} {
        stem :| stem in notes.todo;
      }
      action := if notes.todo == {} then P.BeginSweep else P.Visit(stem);
    } else if step.Sweeping? {
      var stem: string;
      if notes.records != {} {
        stem :| stem in notes.records;
      }
      action := if notes.records == {} then P.Finish else P.SweepVisit(stem);
    } else {
      NoChoice(scene, s, p);
      action := NextOf(scene, step);
    }
  }

  /** So from wherever such a run has come to, there is a way to the end. */
  lemma {:induction false} ComesToItsEnd(scene: Scene, s: P.State, p: P.Proc) returns (schedule: P.Schedule)
    requires Stands(scene, s, p)
    ensures Alone(scene, s, p, schedule) && P.Run(s, schedule).Some?
    ensures var end := P.Run(s, schedule).value;
            p in end.procs && end.procs[p].Listing? && end.procs[p].step.Finished?
    decreases Rank(s.procs[p].step, s.procs[p].notes)
  {
    if s.procs[p].step.Finished? {
      schedule := [];
    } else {
      var action := CanGoOn(scene, s, p);
      var next := P.Step(s, p, action).value;
      StepsEnd(s, p, action);
      RunStands(scene, s, p, [(p, action)]);
      var rest := ComesToItsEnd(scene, next, p);
      schedule := [(p, action)] + rest;
      assert schedule[1..] == rest;
    }
  }
}
