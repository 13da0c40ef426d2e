/**
 * Binders and listings sharing a socket directory, one lock a name. Every step is atomic; a run is any
 * interleaving of any number of processes. A listing acts on what it once read: its snapshot of records,
 * its directory listing and its probes may all be out of date by the time it acts.
 */
module SessionProtocol {
  import opened Optional

  type Name = string
  type Proc = nat

  /** What lies at a socket path: a socket somebody bound, or anything else. */
  datatype File = Socket(owner: Proc) | Other

  datatype BinderPc =
    | Idle
    | Claimed(name: Name)
    | Cleared(name: Name)
    | Bound(name: Name)
    | Recorded(name: Name)
    | Unrecorded(name: Name)
    | Unlinked(name: Name)

  datatype ListingPc =
    | Starting
    | Choosing
    | Probing(name: Name)
    | Claiming(name: Name)
    | Inspecting(name: Name)
    | Unlinking(name: Name)
    | Unrecording(name: Name)
    | Releasing(name: Name)
    | Sweeping
    | SweepClaiming(name: Name)
    | SweepRemoving(name: Name)
    | SweepReleasing(name: Name)
    | Finished

  datatype Mark = Answered | Held

  /** A listing's own memory: the records it read, the entries left to visit, the rows it will print. */
  datatype Notes = Notes(records: set<Name>, todo: set<Name>, rows: seq<(Name, Mark)>)

  datatype Role =
    | Binder(pc: BinderPc)
    | Listing(step: ListingPc, notes: Notes)
    | Dead

  datatype State = State(
    procs: map<Proc, Role>,
    locks: map<Name, Proc>,
    files: map<Name, File>,
    records: map<Name, Proc>)

  datatype Action =
    | Spawn(role: Role)
    | Crash
    // A binder: claim, unlink what a dead holder left, bind, register, and all of it undone in order.
    | Claim(name: Name)
    | Clear
    | Bind
    | Abandon
    | Register
    | Unregister
    | Unlink
    | Release
    // A listing.
    | Read(records: set<Name>, entries: set<Name>)
    | Visit(name: Name)
    | ProbeAnswered
    | ProbeUnbindable
    | ProbeSilent
    | TryClaim
    | Inspect
    | UnlinkStale
    | RemoveStaleRecord
    | EndWindow
    | BeginSweep
    | SweepVisit(name: Name)
    | SweepTryClaim
    | SweepRemove
    | SweepEndWindow
    | Finish

  predicate Newborn(role: Role) {
    role == Binder(Idle) || role == Listing(Starting, Notes({}, {}, []))
  }

  /** The name whose lock a process holds, by where it stands. */
  function Holds(role: Role): Option<Name> {
    match role
    case Binder(pc) => if pc.Idle? then None else Some(pc.name)
    case Listing(step, _) =>
      (match step
       case Inspecting(name) => Some(name)
       case Unlinking(name) => Some(name)
       case Unrecording(name) => Some(name)
       case Releasing(name) => Some(name)
       case SweepRemoving(name) => Some(name)
       case SweepReleasing(name) => Some(name)
       case _ => None)
    case Dead => None
  }

  function Moved(s: State, p: Proc, role: Role): State {
    s.(procs := s.procs[p := role])
  }

  function BinderStep(s: State, p: Proc, pc: BinderPc, action: Action): Option<State> {
    match (action, pc)
    case (Claim(n), Idle) =>
      if n in s.locks then None else Some(Moved(s, p, Binder(Claimed(n))).(locks := s.locks[n := p]))
    case (Clear, Claimed(n)) =>
      // Something that is not a socket is left alone, and the name given up.
      if n in s.files && s.files[n].Other? then Some(Moved(s, p, Binder(Idle)).(locks := s.locks - {n}))
      else Some(Moved(s, p, Binder(Cleared(n))).(files := s.files - {n}))
    case (Bind, Cleared(n)) =>
      if n in s.files then None else Some(Moved(s, p, Binder(Bound(n))).(files := s.files[n := Socket(p)]))
    case (Abandon, Bound(n)) =>
      Some(Moved(s, p, Binder(Idle)).(files := s.files - {n}, locks := s.locks - {n}))
    case (Register, Bound(n)) =>
      Some(Moved(s, p, Binder(Recorded(n))).(records := s.records[n := p]))
    case (Unregister, Recorded(n)) =>
      Some(Moved(s, p, Binder(Unrecorded(n))).(records := s.records - {n}))
    case (Unlink, Bound(n)) => Some(Moved(s, p, Binder(Unlinked(n))).(files := s.files - {n}))
    case (Unlink, Unrecorded(n)) => Some(Moved(s, p, Binder(Unlinked(n))).(files := s.files - {n}))
    case (Release, Unlinked(n)) => Some(Moved(s, p, Binder(Idle)).(locks := s.locks - {n}))
    case _ => None
  }

  function ListingStep(s: State, p: Proc, step: ListingPc, notes: Notes, action: Action): Option<State> {
    match (action, step)
    case (Read(records, entries), Starting) =>
      Some(Moved(s, p, Listing(Choosing, Notes(records, entries, []))))
    case (Visit(n), Choosing) =>
      if n !in notes.todo then None
      else
        var left := notes.(todo := notes.todo - {n});
        if n in s.files && s.files[n].Socket? then Some(Moved(s, p, Listing(Probing(n), left)))
        else Some(Moved(s, p, Listing(Choosing, left)))
    case (ProbeAnswered, Probing(n)) =>
      Some(Moved(s, p, Listing(Choosing, notes.(rows := notes.rows + [(n, Answered)]))))
    case (ProbeUnbindable, Probing(n)) => Some(Moved(s, p, Listing(Choosing, notes)))
    case (ProbeSilent, Probing(n)) => Some(Moved(s, p, Listing(Claiming(n), notes)))
    case (TryClaim, Claiming(n)) =>
      if n in s.locks then Some(Moved(s, p, Listing(Choosing, notes.(rows := notes.rows + [(n, Held)]))))
      else Some(Moved(s, p, Listing(Inspecting(n), notes)).(locks := s.locks[n := p]))
    case (Inspect, Inspecting(n)) =>
      if n !in s.files then Some(Moved(s, p, Listing(Unrecording(n), notes)))
      else if s.files[n].Socket? then Some(Moved(s, p, Listing(Unlinking(n), notes)))
      // An error ends the listing, and its lock goes with it.
      else Some(Moved(s, p, Listing(Finished, notes)).(locks := s.locks - {n}))
    case (UnlinkStale, Unlinking(n)) =>
      Some(Moved(s, p, Listing(Unrecording(n), notes)).(files := s.files - {n}))
    case (RemoveStaleRecord, Unrecording(n)) =>
      var after := Moved(s, p, Listing(Releasing(n), notes.(records := notes.records - {n})));
      Some(if n in notes.records then after.(records := s.records - {n}) else after)
    case (EndWindow, Releasing(n)) => Some(Moved(s, p, Listing(Choosing, notes)).(locks := s.locks - {n}))
    case (BeginSweep, Choosing) =>
      if notes.todo == {} then Some(Moved(s, p, Listing(Sweeping, notes))) else None
    case (SweepVisit(n), Sweeping) =>
      if n !in notes.records then None
      else
        var left := notes.(records := notes.records - {n});
        if n in s.files then Some(Moved(s, p, Listing(Sweeping, left)))
        else Some(Moved(s, p, Listing(SweepClaiming(n), left)))
    case (SweepTryClaim, SweepClaiming(n)) =>
      if n in s.locks then Some(Moved(s, p, Listing(Sweeping, notes)))
      else Some(Moved(s, p, Listing(SweepRemoving(n), notes)).(locks := s.locks[n := p]))
    case (SweepRemove, SweepRemoving(n)) =>
      Some(Moved(s, p, Listing(SweepReleasing(n), notes)).(records := s.records - {n}))
    case (SweepEndWindow, SweepReleasing(n)) => Some(Moved(s, p, Listing(Sweeping, notes)).(locks := s.locks - {n}))
    case (Finish, Sweeping) =>
      if notes.records == {} then Some(Moved(s, p, Listing(Finished, notes))) else None
    case _ => None
  }

  /** One step of process `p`, when it can take it. */
  function Step(s: State, p: Proc, action: Action): Option<State> {
    if action.Spawn? then
      if p !in s.procs && Newborn(action.role) then Some(Moved(s, p, action.role)) else None
    else if p !in s.procs then None
    else
      var role := s.procs[p];
      if action.Crash? then
        // The kernel drops the lock with the process; the files stay as they were.
        var held := Holds(role);
        if role.Dead? then None
        else Some(Moved(s, p, Dead).(locks := if held.Some? then s.locks - {held.value} else s.locks))
      else match role
        case Binder(pc) => BinderStep(s, p, pc, action)
        case Listing(step, notes) => ListingStep(s, p, step, notes, action)
        case Dead => None
  }

  /** Nobody running yet; whatever earlier processes left behind may lie about. */
  predicate Init(s: State) {
    s.procs == map[] && s.locks == map[]
  }

  type Schedule = seq<(Proc, Action)>

  /** The state after a schedule, when every step of it can be taken. */
  function Run(s: State, schedule: Schedule): Option<State>
    decreases schedule
  {
    if schedule == [] then Some(s)
    else
      var next := Step(s, schedule[0].0, schedule[0].1);
      if next.None? then None else Run(next.value, schedule[1..])
  }

  /** A binder that serves at a name: bound, and not yet past unlinking. */
  function Serves(role: Role): Option<Name> {
    if role.Binder? && (role.pc.Bound? || role.pc.Recorded? || role.pc.Unrecorded?) then Some(role.pc.name) else None
  }

  predicate LockAgrees(s: State, p: Proc)
    requires p in s.procs
  {
    var held := Holds(s.procs[p]);
    held.Some? ==> held.value in s.locks && s.locks[held.value] == p
  }

  predicate FilesAgree(s: State, p: Proc)
    requires p in s.procs
  {
    var role := s.procs[p];
    && (Serves(role).Some? ==> Serves(role).value in s.files && s.files[Serves(role).value] == Socket(p))
    && (role.Binder? && role.pc.Recorded? ==> role.pc.name in s.records && s.records[role.pc.name] == p)
    && (role.Binder? && (role.pc.Cleared? || role.pc.Unlinked?) ==> role.pc.name !in s.files)
    && (role.Listing? && role.step.Unlinking? ==> role.step.name in s.files && s.files[role.step.name].Socket?)
  }

  /** What every reachable state keeps. */
  ghost predicate Inv(s: State) {
    && (forall n :: n in s.locks ==> s.locks[n] in s.procs && Holds(s.procs[s.locks[n]]) == Some(n))
    && (forall p :: p in s.procs ==> LockAgrees(s, p) && FilesAgree(s, p))
  }

  lemma OneHolder(s: State, p: Proc, q: Proc)
    requires Inv(s) && p in s.procs && q in s.procs && p != q
    ensures Holds(s.procs[p]).Some? ==> Holds(s.procs[p]) != Holds(s.procs[q])
  {
    assert LockAgrees(s, p) && LockAgrees(s, q);
  }

  /** The socket and the record at `n` are as they were. */
  predicate SameAt(s: State, after: State, n: Name) {
    && (n in s.files <==> n in after.files) && (n in s.files ==> s.files[n] == after.files[n])
    && (n in s.records <==> n in after.records) && (n in s.records ==> s.records[n] == after.records[n])
  }

  lemma BinderTouchesOnlyItsName(s: State, p: Proc, pc: BinderPc, action: Action, n: Name)
    requires BinderStep(s, p, pc, action).Some?
    ensures SameAt(s, BinderStep(s, p, pc, action).value, n) || Holds(Binder(pc)) == Some(n)
  {}

  lemma ListingTouchesOnlyItsName(s: State, p: Proc, step: ListingPc, notes: Notes, action: Action, n: Name)
    requires ListingStep(s, p, step, notes, action).Some?
    ensures SameAt(s, ListingStep(s, p, step, notes, action).value, n) || Holds(Listing(step, notes)) == Some(n)
  {}

  /** A step changes the files and records of a name only under that name's lock. */
  lemma TouchesOnlyItsName(s: State, p: Proc, action: Action, n: Name)
    requires Inv(s) && Step(s, p, action).Some?
    ensures
      var after := Step(s, p, action).value;
      SameAt(s, after, n) || (n in s.locks && s.locks[n] == p && p in s.procs && Holds(s.procs[p]) == Some(n))
  {
    if p in s.procs && !action.Crash? && !action.Spawn? {
      assert LockAgrees(s, p);
      match s.procs[p] {
        case Binder(pc) => BinderTouchesOnlyItsName(s, p, pc, action, n);
        case Listing(step, notes) => ListingTouchesOnlyItsName(s, p, step, notes, action, n);
        case Dead =>
      }
    }
  }

  /** The one way a step moves locks: it takes a free one, gives its own back, or leaves them alone. */
  predicate LocksMove(s: State, after: State, p: Proc, before: Option<Name>, now: Option<Name>) {
    if before == now then after.locks == s.locks
    else if before.None? then now.value !in s.locks && after.locks == s.locks[now.value := p]
    else now.None? && after.locks == s.locks - {before.value}
  }

  lemma BinderLocksMove(s: State, p: Proc, pc: BinderPc, action: Action)
    requires p in s.procs && s.procs[p] == Binder(pc) && BinderStep(s, p, pc, action).Some?
    ensures
      var after := BinderStep(s, p, pc, action).value;
      after.procs == s.procs[p := after.procs[p]] && LocksMove(s, after, p, Holds(Binder(pc)), Holds(after.procs[p]))
  {}

  lemma ListingMoves(s: State, p: Proc, step: ListingPc, notes: Notes, action: Action)
    requires p in s.procs && s.procs[p] == Listing(step, notes) && ListingStep(s, p, step, notes, action).Some?
    ensures
      var after := ListingStep(s, p, step, notes, action).value;
      p in after.procs && after.procs == s.procs[p := after.procs[p]] && after.procs[p].Listing?
  {}

  lemma ListingLocksMove(s: State, p: Proc, step: ListingPc, notes: Notes, action: Action)
    requires p in s.procs && s.procs[p] == Listing(step, notes) && ListingStep(s, p, step, notes, action).Some?
    ensures
      var after := ListingStep(s, p, step, notes, action).value;
      after.procs == s.procs[p := after.procs[p]]
        && LocksMove(s, after, p, Holds(Listing(step, notes)), Holds(after.procs[p]))
  {
    ListingMoves(s, p, step, notes, action);
  }

  function HoldsIn(s: State, p: Proc): Option<Name> {
    if p in s.procs then Holds(s.procs[p]) else None
  }

  lemma StepLocksMove(s: State, p: Proc, action: Action)
    requires Step(s, p, action).Some?
    ensures
      var after := Step(s, p, action).value;
      p in after.procs && after.procs == s.procs[p := after.procs[p]]
        && LocksMove(s, after, p, HoldsIn(s, p), HoldsIn(after, p))
  {
    if p in s.procs && !action.Crash? && !action.Spawn? {
      match s.procs[p] {
        case Binder(pc) => BinderLocksMove(s, p, pc, action);
        case Listing(step, notes) => ListingLocksMove(s, p, step, notes, action);
        case Dead =>
      }
    }
  }

  lemma LocksFollow(s: State, p: Proc, action: Action, n: Name, q: Proc)
    requires Inv(s) && Step(s, p, action).Some?
    ensures
      var after := Step(s, p, action).value;
      && p in after.procs
      && (n in after.locks && after.locks[n] == p <==> Holds(after.procs[p]) == Some(n))
      && (q != p ==> ((n in after.locks && after.locks[n] == q) <==> (n in s.locks && s.locks[n] == q)))
  {
    StepLocksMove(s, p, action);
    if p in s.procs {
      assert LockAgrees(s, p);
    }
  }

  lemma BinderFilesAgree(s: State, p: Proc, pc: BinderPc, action: Action)
    requires p in s.procs && s.procs[p] == Binder(pc) && FilesAgree(s, p) && BinderStep(s, p, pc, action).Some?
    ensures var after := BinderStep(s, p, pc, action).value; p in after.procs && FilesAgree(after, p)
  {}

  lemma ListingFilesAgree(s: State, p: Proc, step: ListingPc, notes: Notes, action: Action)
    requires p in s.procs && s.procs[p] == Listing(step, notes) && ListingStep(s, p, step, notes, action).Some?
    ensures var after := ListingStep(s, p, step, notes, action).value; p in after.procs && FilesAgree(after, p)
  {}

  lemma OwnFilesAgree(s: State, p: Proc, action: Action)
    requires Inv(s) && Step(s, p, action).Some?
    ensures var after := Step(s, p, action).value; p in after.procs && FilesAgree(after, p)
  {
    if p in s.procs && !action.Crash? && !action.Spawn? {
      assert FilesAgree(s, p);
      match s.procs[p] {
        case Binder(pc) => BinderFilesAgree(s, p, pc, action);
        case Listing(step, notes) => ListingFilesAgree(s, p, step, notes, action);
        case Dead =>
      }
    }
  }

  lemma OthersStay(s: State, p: Proc, action: Action, q: Proc)
    requires Step(s, p, action).Some? && q in s.procs && q != p
    ensures var after := Step(s, p, action).value; q in after.procs && after.procs[q] == s.procs[q]
  {
    StepLocksMove(s, p, action);
  }

  /** Every step of every process keeps the invariant. */
  lemma StepKeepsInv(s: State, p: Proc, action: Action)
    requires Inv(s) && Step(s, p, action).Some?
    ensures Inv(Step(s, p, action).value)
  {
    var after := Step(s, p, action).value;
    forall n | n in after.locks ensures after.locks[n] in after.procs && Holds(after.procs[after.locks[n]]) == Some(n) {
      LocksFollow(s, p, action, n, after.locks[n]);
      if after.locks[n] != p {
        OthersStay(s, p, action, after.locks[n]);
      }
    }
    forall q | q in after.procs ensures LockAgrees(after, q) && FilesAgree(after, q) {
      if q == p {
        OwnFilesAgree(s, p, action);
        if Holds(after.procs[p]).Some? {
          LocksFollow(s, p, action, Holds(after.procs[p]).value, p);
        }
      } else {
        OthersKeep(s, p, action, q);
      }
    }
  }

  lemma OthersKeep(s: State, p: Proc, action: Action, q: Proc)
    requires Inv(s) && Step(s, p, action).Some? && q != p && q in Step(s, p, action).value.procs
    ensures LockAgrees(Step(s, p, action).value, q) && FilesAgree(Step(s, p, action).value, q)
  {
    var after := Step(s, p, action).value;
    StepLocksMove(s, p, action);
    assert q in s.procs && after.procs[q] == s.procs[q];
    assert LockAgrees(s, q) && FilesAgree(s, q);
    var held := Holds(s.procs[q]);
    if held.Some? {
      LocksFollow(s, p, action, held.value, q);
      TouchesOnlyItsName(s, p, action, held.value);
      SameFilesAgree(s, after, q);
    }
  }

  lemma SameFilesAgree(s: State, after: State, q: Proc)
    requires q in s.procs && q in after.procs && after.procs[q] == s.procs[q] && FilesAgree(s, q)
    requires Holds(s.procs[q]).Some? && SameAt(s, after, Holds(s.procs[q]).value)
    ensures FilesAgree(after, q)
  {}

  /** The invariant holds throughout every run. */
  lemma {:induction false} RunKeepsInv(s: State, schedule: Schedule)
    requires Inv(s) && Run(s, schedule).Some?
    ensures Inv(Run(s, schedule).value)
    decreases schedule
  {
    if schedule != [] {
      StepKeepsInv(s, schedule[0].0, schedule[0].1);
      RunKeepsInv(Step(s, schedule[0].0, schedule[0].1).value, schedule[1..]);
    }
  }

  /**
   * In every interleaving, whatever a listing last read, no step of it changes the socket or the record
   * of a name some live binder holds.
   */
  lemma ListingsTouchNothingHeld(start: State, schedule: Schedule, listing: Proc, action: Action, binder: Proc)
    requires Init(start) && Run(start, schedule).Some?
    requires
      var s := Run(start, schedule).value;
      && listing in s.procs && s.procs[listing].Listing? && Step(s, listing, action).Some?
      && binder in s.procs && s.procs[binder].Binder? && Holds(s.procs[binder]).Some?
    ensures
      var s := Run(start, schedule).value;
      var after, n := Step(s, listing, action).value, Holds(s.procs[binder]).value;
      && SameAt(s, after, n)
      && n in after.locks && after.locks[n] == binder
  {
    RunKeepsInv(start, schedule);
    var s := Run(start, schedule).value;
    var n := Holds(s.procs[binder]).value;
    OneHolder(s, listing, binder);
    TouchesOnlyItsName(s, listing, action, n);
    LocksFollow(s, listing, action, n, binder);
    assert LockAgrees(s, binder);
  }

  predicate Absent(schedule: Schedule, p: Proc) {
    forall i :: 0 <= i < |schedule| ==> schedule[i].0 != p
  }

  /**
   * A bound binder's socket stays until it unlinks it itself or dies: through any schedule in which it
   * takes no step, it still serves, its file is still its own, and its record still stands.
   */
  lemma {:induction false} ServingIsStable(s: State, schedule: Schedule, binder: Proc)
    requires Inv(s) && Run(s, schedule).Some? && Absent(schedule, binder)
    requires binder in s.procs && Serves(s.procs[binder]).Some?
    ensures
      var after, n := Run(s, schedule).value, Serves(s.procs[binder]).value;
      && binder in after.procs && after.procs[binder] == s.procs[binder]
      && n in after.files && after.files[n] == Socket(binder)
      && n in after.locks && after.locks[n] == binder
      && (s.procs[binder].pc.Recorded? ==> n in after.records && after.records[n] == binder)
    decreases schedule
  {
    assert LockAgrees(s, binder) && FilesAgree(s, binder);
    if schedule != [] {
      var p, action := schedule[0].0, schedule[0].1;
      StepKeepsInv(s, p, action);
      OthersStay(s, p, action, binder);
      ServingIsStable(Step(s, p, action).value, schedule[1..], binder);
    }
  }

  /** Under the lock the bind finds its path clear: once a binder has cleared a name, it can always bind it. */
  lemma BindNeverFindsAFile(start: State, schedule: Schedule, binder: Proc)
    requires Init(start) && Run(start, schedule).Some?
    requires
      var s := Run(start, schedule).value;
      binder in s.procs && s.procs[binder].Binder? && s.procs[binder].pc.Cleared?
    ensures Step(Run(start, schedule).value, binder, Bind).Some?
  {
    RunKeepsInv(start, schedule);
    assert FilesAgree(Run(start, schedule).value, binder);
  }

  /** Two live processes never hold one name. */
  lemma NamesAreExclusive(start: State, schedule: Schedule, p: Proc, q: Proc)
    requires Init(start) && Run(start, schedule).Some? && p != q
    requires var s := Run(start, schedule).value; p in s.procs && q in s.procs && Holds(s.procs[p]).Some?
    ensures var s := Run(start, schedule).value; Holds(s.procs[p]) != Holds(s.procs[q])
  {
    RunKeepsInv(start, schedule);
    OneHolder(Run(start, schedule).value, p, q);
  }

  /** A listing marks a name held only while a live process holds its lock. */
  lemma HeldRowsAreTrue(start: State, schedule: Schedule, listing: Proc)
    requires Init(start) && Run(start, schedule).Some?
    requires
      var s := Run(start, schedule).value;
      && listing in s.procs && s.procs[listing].Listing? && s.procs[listing].step.Claiming?
      && s.procs[listing].step.name in s.locks
    ensures
      var s := Run(start, schedule).value;
      var n := s.procs[listing].step.name;
      && s.locks[n] in s.procs && !s.procs[s.locks[n]].Dead? && Holds(s.procs[s.locks[n]]) == Some(n)
      && Step(s, listing, TryClaim).value.procs[listing].notes.rows == s.procs[listing].notes.rows + [(n, Held)]
  {
    RunKeepsInv(start, schedule);
  }

  // The discipline is needed: a listing that gave the lock back before it unlinked.

  /** The step a listing must not have: the window closed between the claim and the unlink. */
  function EarlyRelease(s: State, p: Proc): Option<State> {
    if p in s.procs && s.procs[p].Listing? && s.procs[p].step.Unlinking? then
      Some(s.(locks := s.locks - {s.procs[p].step.name}))
    else None
  }

  function Taking(binder: Proc, n: Name): Schedule {
    [(binder, Claim(n)), (binder, Clear), (binder, Bind)]
  }

  lemma RunOne(s: State, p: Proc, action: Action, rest: Schedule)
    requires Step(s, p, action).Some?
    ensures Run(s, [(p, action)] + rest) == Run(Step(s, p, action).value, rest)
  {
    assert ([(p, action)] + rest)[1..] == rest;
  }

  /** An idle binder takes a free name whose file, if any, is a socket left behind. */
  lemma BinderTakes(s: State, binder: Proc, n: Name)
    requires binder in s.procs && s.procs[binder] == Binder(Idle) && n !in s.locks
    requires n in s.files ==> s.files[n].Socket?
    ensures Run(s, Taking(binder, n)) == Some(State(
              s.procs[binder := Binder(Bound(n))], s.locks[n := binder], s.files[n := Socket(binder)], s.records))
  {
    var claimed := Step(s, binder, Claim(n)).value;
    var cleared := Step(claimed, binder, Clear).value;
    var bound := Step(cleared, binder, Bind).value;
    RunOne(cleared, binder, Bind, []);
    RunOne(claimed, binder, Clear, [(binder, Bind)]);
    RunOne(s, binder, Claim(n), [(binder, Clear), (binder, Bind)]);
    assert [(binder, Bind)] + [] == [(binder, Bind)];
    assert [(binder, Clear)] + [(binder, Bind)] == [(binder, Clear), (binder, Bind)];
    assert [(binder, Claim(n))] + [(binder, Clear), (binder, Bind)] == Taking(binder, n);
    assert bound.procs == s.procs[binder := Binder(Bound(n))];
    assert bound.files == s.files[n := Socket(binder)];
  }

  /** With it, a binder that takes the freed name loses the socket it has just bound. */
  lemma EarlyReleaseLosesASocket(s: State, listing: Proc, binder: Proc, n: Name)
    requires Inv(s) && listing != binder
    requires listing in s.procs && s.procs[listing].Listing? && s.procs[listing].step == Unlinking(n)
    requires binder in s.procs && s.procs[binder] == Binder(Idle)
    ensures
      var released := EarlyRelease(s, listing).value;
      var bound := Run(released, Taking(binder, n));
      && bound.Some?
      && var after := Step(bound.value, listing, UnlinkStale);
      && after.Some?
      && binder in after.value.procs && n in after.value.locks
      && Serves(after.value.procs[binder]) == Some(n)
      && after.value.locks[n] == binder
      && n !in after.value.files
  {
    assert FilesAgree(s, listing);
    var released := EarlyRelease(s, listing).value;
    BinderTakes(released, binder, n);
  }

  /** A listing and a binder start over one leftover socket, and the listing gets as far as removing it. */
  function Reaching(listing: Proc, binder: Proc, n: Name): Schedule {
    [(listing, Spawn(Listing(Starting, Notes({}, {}, [])))), (binder, Spawn(Binder(Idle))), (listing, Read({}, {n})),
     (listing, Visit(n)),
     (listing, ProbeSilent), (listing, TryClaim), (listing, Inspect)]
  }

  function Leftover(owner: Proc, n: Name): State {
    State(map[], map[], map[n := Socket(owner)], map[])
  }

  function Meeting(owner: Proc, listing: Proc, binder: Proc, n: Name): State {
    State(map[listing := Listing(Unlinking(n), Notes({}, {}, [])), binder := Binder(Idle)], map[n := listing],
          map[n := Socket(owner)], map[])
  }

  lemma RunFirst(s: State, schedule: Schedule)
    requires schedule != [] && Step(s, schedule[0].0, schedule[0].1).Some?
    ensures Run(s, schedule) == Run(Step(s, schedule[0].0, schedule[0].1).value, schedule[1..])
  {}

  /** From a directory a dead binder left, a run reaches the moment at which the lock must not be let go. */
  lemma MeetingIsReached(owner: Proc, listing: Proc, binder: Proc, n: Name)
    requires listing != binder
    ensures Init(Leftover(owner, n))
            && Run(Leftover(owner, n), Reaching(listing, binder, n)) == Some(Meeting(owner, listing, binder, n))
  {
    var s0, rest := Leftover(owner, n), Reaching(listing, binder, n);
    var s1 := Step(s0, listing, rest[0].1).value;
    RunFirst(s0, rest);
    var s2 := Step(s1, binder, rest[1].1).value;
    RunFirst(s1, rest[1..]);
    assert rest[1..][1..] == rest[2..];
    var s3 := Step(s2, listing, rest[2].1).value;
    RunFirst(s2, rest[2..]);
    assert rest[2..][1..] == rest[3..];
    assert rest[3..] == [(listing, Visit(n)), (listing, ProbeSilent)] + [(listing, TryClaim), (listing, Inspect)];
    assert {n} - {n} == {};
    FoundStale(s3, listing, Notes({}, {n}, []), n);
    var met := Meeting(owner, listing, binder, n);
    assert s3.procs[listing := Listing(Unlinking(n), Notes({}, {}, []))] == met.procs;
    assert s3.locks[n := listing] == met.locks;
  }

  lemma RunTwo(s: State, p: Proc, a: Action, b: Action)
    requires Step(s, p, a).Some? && Step(Step(s, p, a).value, p, b).Some?
    ensures Run(s, [(p, a), (p, b)]) == Step(Step(s, p, a).value, p, b)
  {
    assert [(p, a), (p, b)] == [(p, a)] + [(p, b)] && [(p, b)] == [(p, b)] + [];
    RunOne(s, p, a, [(p, b)]);
    RunOne(Step(s, p, a).value, p, b, []);
  }

  lemma {:induction false} RunAppend(s: State, first: Schedule, rest: Schedule)
    requires Run(s, first).Some?
    ensures Run(s, first + rest) == Run(Run(s, first).value, rest)
    decreases |first|
  {
    if first == [] {
      assert first + rest == rest;
    } else {
      RunAppend(Step(s, first[0].0, first[0].1).value, first[1..], rest);
      assert (first + rest)[0] == first[0] && (first + rest)[1..] == first[1..] + rest;
    }
  }

  /** A listing alone, at a socket nothing answers behind. */
  lemma VisitSilent(s: State, p: Proc, notes: Notes, n: Name)
    requires p in s.procs && s.procs[p] == Listing(Choosing, notes) && n in notes.todo && n in s.files
             && s.files[n].Socket?
    ensures Run(s, [(p, Visit(n)), (p, ProbeSilent)])
            == Some(s.(procs := s.procs[p := Listing(Claiming(n), notes.(todo := notes.todo - {n}))]))
  {
    var left := notes.(todo := notes.todo - {n});
    assert s.procs[p := Listing(Probing(n), left)][p := Listing(Claiming(n), left)]
        == s.procs[p := Listing(Claiming(n), left)];
    RunTwo(s, p, Visit(n), ProbeSilent);
  }

  lemma ClaimStale(s: State, p: Proc, notes: Notes, n: Name)
    requires p in s.procs && s.procs[p] == Listing(Claiming(n), notes) && n in s.files && s.files[n].Socket?
             && n !in s.locks
    ensures Run(s, [(p, TryClaim), (p, Inspect)])
            == Some(s.(procs := s.procs[p := Listing(Unlinking(n), notes)], locks := s.locks[n := p]))
  {
    assert s.procs[p := Listing(Inspecting(n), notes)][p := Listing(Unlinking(n), notes)]
        == s.procs[p := Listing(Unlinking(n), notes)];
    RunTwo(s, p, TryClaim, Inspect);
  }

  /** A listing about to visit a silent leftover socket comes, undisturbed, to the point of removing it. */
  lemma FoundStale(s: State, p: Proc, notes: Notes, n: Name)
    requires p in s.procs && s.procs[p] == Listing(Choosing, notes) && n in notes.todo
    requires n in s.files && s.files[n].Socket? && n !in s.locks
    ensures Run(s, [(p, Visit(n)), (p, ProbeSilent)] + [(p, TryClaim), (p, Inspect)])
            == Some(s.(procs := s.procs[p := Listing(Unlinking(n), notes.(todo := notes.todo - {n}))],
                       locks := s.locks[n := p]))
  {
    var left := notes.(todo := notes.todo - {n});
    VisitSilent(s, p, notes, n);
    var claiming := s.(procs := s.procs[p := Listing(Claiming(n), left)]);
    RunAppend(s, [(p, Visit(n)), (p, ProbeSilent)], [(p, TryClaim), (p, Inspect)]);
    ClaimStale(claiming, p, left, n);
    assert claiming.procs[p := Listing(Unlinking(n), left)] == s.procs[p := Listing(Unlinking(n), left)];
  }

  /**
   * If the lock were let go before the unlink: a run from a leftover directory, the early release, and a
   * binder taking the name, after which the listing's next step removes the socket that binder serves at.
   */
  lemma EarlyReleaseFromTheStart(owner: Proc, listing: Proc, binder: Proc, n: Name)
    requires listing != binder
    ensures
      var met := Run(Leftover(owner, n), Reaching(listing, binder, n));
      && Init(Leftover(owner, n)) && met.Some? && EarlyRelease(met.value, listing).Some?
      && var bound := Run(EarlyRelease(met.value, listing).value, Taking(binder, n));
      && bound.Some? && binder in bound.value.procs && Serves(bound.value.procs[binder]) == Some(n)
         && n in bound.value.files
      && var after := Step(bound.value, listing, UnlinkStale);
      && after.Some? && binder in after.value.procs && Serves(after.value.procs[binder]) == Some(n)
         && n !in after.value.files
  {
    MeetingIsReached(owner, listing, binder, n);
    var met := Meeting(owner, listing, binder, n);
    var released := EarlyRelease(met, listing).value;
    assert released.locks == map[];
    BinderTakes(released, binder, n);
  }
}
