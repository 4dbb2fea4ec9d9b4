// The hand-off between the compression job, which leases a meeting's folder,
// and whoever must stop it: `halt` (for good, until `resume`) and
// `stop_meeting` (one meeting, until the next pass clears the cancellations).
// Every lock operation and every read or write of a shared flag is one step.
module FolderLease {
  import opened Wrappers
  import Runs

  type Meeting = string

  /** Where the job is. From `Locked` to `Announced`, and from `Releasing` to
      `Cleared`, it holds the storage lock. */
  datatype Job =
    | Idle
    | Locked(id: Meeting)    // took the storage lock, nothing checked
    | NotHalted(id: Meeting) // read `halted` as false
    | Allowed(id: Meeting)   // and found no cancellation
    | Leased(id: Meeting)
    | Announced(id: Meeting) // and `current` names it
    | Working(id: Meeting)   // let go of the storage lock
    | Releasing(id: Meeting) // took it again
    | Unleased(id: Meeting)
    | Cleared                // and `current` is empty again

  datatype Request = Halt | StopMeeting(id: Meeting)

  /** A caller of `halt` or `stop_meeting`: its flag is up, it holds the storage
      lock once (the barrier), it polls `current`, it returns. */
  datatype Phase = Raised | InBarrier | Polling | Returned(ok: bool)

  /** `era`: how often the flag's kind had been lowered when it was raised. */
  datatype Stopper = Stopper(request: Request, phase: Phase, era: nat)

  datatype Owner = TheJob | AStopper(pid: nat) | SomeoneElse

  datatype State = State(
    lock: Option<Owner>,
    halted: bool,
    cancel: set<Meeting>,
    current: Option<Meeting>,
    lease: Option<Meeting>,        // the job's
    otherLeases: set<Meeting>,     // held by other background work
    job: Job,
    stoppers: map<nat, Stopper>,
    resumes: nat,                  // how often `halted` was lowered
    clears: nat)                   // how often `cancel` was cleared

  datatype Step =
    // the job, one meeting after another
    | TakeLock(id: Meeting) | ReadHalted | ReadCancel | TakeLease | Announce | LetGo
    | GiveUp // blocked, or the folder is leased to someone else
    | BeginRelease | DropLease | ClearCurrent | EndRelease
    | ClearCancel // the start of a pass
    // stopping it
    | Raise(pid: nat, request: Request) | EnterBarrier(pid: nat) | LeaveBarrier(pid: nat)
    | Poll(pid: nat, deadlinePassed: bool) | Resume
    | CancelForPlayback(id: Meeting)
    // everything else that takes the storage lock or a lease
    | OtherLocks | OtherUnlocks | OtherLeases(ids: set<Meeting>)

  function Init(): State {
    State(None, false, {}, None, None, {}, Idle, map[], 0, 0)
  }

  /** What keeps a poller waiting: any meeting for `halt`, its own for `stop_meeting`. */
  predicate StillBusy(s: State, request: Request) {
    match request
    case Halt => s.current.Some?
    case StopMeeting(id) => s.current == Some(id)
  }

  function Era(s: State, request: Request): nat {
    if request.Halt? then s.resumes else s.clears
  }

  predicate Enabled(s: State, step: Step) {
    match step
    case TakeLock(_) => s.job.Idle? && s.lock.None?
    case ReadHalted => s.job.Locked? && !s.halted
    case ReadCancel => s.job.NotHalted? && s.job.id !in s.cancel
    case TakeLease => s.job.Allowed? && s.job.id !in s.otherLeases
    case Announce => s.job.Leased?
    case LetGo => s.job.Announced?
    case GiveUp => s.job.Locked? || s.job.NotHalted? || s.job.Allowed?
    case BeginRelease => s.job.Working? && s.lock.None?
    case DropLease => s.job.Releasing?
    case ClearCurrent => s.job.Unleased?
    case EndRelease => s.job.Cleared?
    case ClearCancel => s.job.Idle?
    case Raise(pid, _) => pid !in s.stoppers
    case EnterBarrier(pid) => pid in s.stoppers && s.stoppers[pid].phase.Raised? && s.lock.None?
    case LeaveBarrier(pid) => pid in s.stoppers && s.stoppers[pid].phase.InBarrier?
    case Poll(pid, _) => pid in s.stoppers && s.stoppers[pid].phase.Polling?
    case Resume => true
    case CancelForPlayback(id) => s.current == Some(id)
    case OtherLocks => s.lock.None?
    case OtherUnlocks => s.lock == Some(SomeoneElse)
    case OtherLeases(ids) => s.lease.Some? ==> s.lease.value !in ids
  }

  function WithPhase(s: State, pid: nat, phase: Phase): State
    requires pid in s.stoppers
  {
    s.(stoppers := s.stoppers[pid := s.stoppers[pid].(phase := phase)])
  }

  function After(s: State, step: Step): State
    requires Enabled(s, step)
  {
    match step
    case TakeLock(id) => s.(lock := Some(TheJob), job := Locked(id))
    case ReadHalted => s.(job := NotHalted(s.job.id))
    case ReadCancel => s.(job := Allowed(s.job.id))
    case TakeLease => s.(job := Leased(s.job.id), lease := Some(s.job.id))
    case Announce => s.(job := Announced(s.job.id), current := Some(s.job.id))
    case LetGo => s.(job := Working(s.job.id), lock := None)
    case GiveUp => s.(job := Idle, lock := None)
    case BeginRelease => s.(job := Releasing(s.job.id), lock := Some(TheJob))
    case DropLease => s.(job := Unleased(s.job.id), lease := None)
    case ClearCurrent => s.(job := Cleared, current := None)
    case EndRelease => s.(job := Idle, lock := None)
    case ClearCancel => s.(cancel := {}, clears := s.clears + 1)
    case Raise(pid, request) =>
      var s' := s.(stoppers := s.stoppers[pid := Stopper(request, Raised, Era(s, request))]);
      (match request
       case Halt => s'.(halted := true)
       case StopMeeting(id) => s'.(cancel := s.cancel + {id}))
    case EnterBarrier(pid) => WithPhase(s, pid, InBarrier).(lock := Some(AStopper(pid)))
    case LeaveBarrier(pid) => WithPhase(s, pid, Polling).(lock := None)
    case Poll(pid, deadlinePassed) =>
      if !StillBusy(s, s.stoppers[pid].request) then WithPhase(s, pid, Returned(true))
      else if deadlinePassed then WithPhase(s, pid, Returned(false))
      else s
    case Resume => s.(halted := false, resumes := s.resumes + 1)
    case CancelForPlayback(id) => s.(cancel := s.cancel + {id})
    case OtherLocks => s.(lock := Some(SomeoneElse))
    case OtherUnlocks => s.(lock := None)
    case OtherLeases(ids) => s.(otherLeases := ids)
  }

  // -------------------------------------------------------------------------
  // The invariant
  // -------------------------------------------------------------------------

  predicate JobHoldsLock(job: Job) {
    !job.Idle? && !job.Working?
  }

  /** `current` and the lease say what the job is doing, the lease first and last. */
  ghost predicate JobInv(s: State) {
    && (JobHoldsLock(s.job) <==> s.lock == Some(TheJob))
    && s.lease == (if s.job.Leased? || s.job.Announced? || s.job.Working? || s.job.Releasing? then Some(s.job.id) else None)
    && s.current == (if s.job.Announced? || s.job.Working? || s.job.Releasing? || s.job.Unleased? then Some(s.job.id) else None)
  }

  /** The job got past the check the request's flag controls, unannounced. */
  predicate SlippedPast(job: Job, request: Request) {
    match request
    case Halt => job.NotHalted? || job.Allowed? || job.Leased?
    case StopMeeting(id) => (job.Allowed? || job.Leased?) && job.id == id
  }

  predicate FlagUp(s: State, request: Request) {
    match request
    case Halt => s.halted
    case StopMeeting(id) => id in s.cancel
  }

  /** While the flag it raised hasn't been lowered since. */
  predicate InForce(s: State, st: Stopper) {
    st.era == Era(s, st.request)
  }

  ghost predicate StopperInv(s: State, pid: nat)
    requires pid in s.stoppers
  {
    var st := s.stoppers[pid];
    && (st.phase.InBarrier? <==> s.lock == Some(AStopper(pid)))
    && st.era <= Era(s, st.request)
    && (InForce(s, st) ==>
          && FlagUp(s, st.request)
          && (st.phase.Polling? || st.phase.Returned? ==> !SlippedPast(s.job, st.request))
          && (st.phase == Returned(true) ==> !StillBusy(s, st.request)))
  }

  ghost predicate Inv(s: State) {
    && JobInv(s)
    && (forall pid | pid in s.stoppers :: StopperInv(s, pid))
    && (forall pid | s.lock == Some(AStopper(pid)) :: pid in s.stoppers)
  }

  lemma StepKeepsJobInv(s: State, step: Step)
    requires JobInv(s) && Enabled(s, step)
    requires forall pid | pid in s.stoppers && s.stoppers[pid].phase.InBarrier? :: s.lock == Some(AStopper(pid))
    ensures JobInv(After(s, step))
  {
  }

  predicate ByStopper(step: Step) {
    step.Raise? || step.EnterBarrier? || step.LeaveBarrier? || step.Poll?
  }

  lemma RaiseKeepsStopperInv(s: State, step: Step, pid: nat)
    requires JobInv(s) && step.Raise? && Enabled(s, step) && pid in After(s, step).stoppers
    requires pid in s.stoppers ==> StopperInv(s, pid)
    requires pid !in s.stoppers ==> s.lock != Some(AStopper(pid))
    ensures StopperInv(After(s, step), pid)
  {
  }

  lemma PollKeepsStopperInv(s: State, step: Step, pid: nat)
    requires JobInv(s) && step.Poll? && Enabled(s, step) && pid in s.stoppers && StopperInv(s, pid)
    ensures StopperInv(After(s, step), pid)
  {
  }

  lemma BarrierKeepsStopperInv(s: State, step: Step, pid: nat)
    requires JobInv(s) && (step.EnterBarrier? || step.LeaveBarrier?) && Enabled(s, step)
    requires pid in s.stoppers && StopperInv(s, pid)
    requires step.LeaveBarrier? ==> s.lock == Some(AStopper(step.pid))
    ensures StopperInv(After(s, step), pid)
  {
  }

  /** The heart of it: a stopper that has been through the barrier saw the job
      either announced or not yet past the check its flag controls. */
  lemma StopperStepKeepsStopperInv(s: State, step: Step, pid: nat)
    requires JobInv(s) && ByStopper(step) && Enabled(s, step) && pid in After(s, step).stoppers
    requires pid in s.stoppers ==> StopperInv(s, pid)
    requires pid !in s.stoppers ==> s.lock != Some(AStopper(pid))
    requires step.LeaveBarrier? ==> s.lock == Some(AStopper(step.pid))
    ensures StopperInv(After(s, step), pid)
  {
    match step
    case Raise(_, _) => RaiseKeepsStopperInv(s, step, pid);
    case Poll(_, _) => PollKeepsStopperInv(s, step, pid);
    case _ => BarrierKeepsStopperInv(s, step, pid);
  }

  /** And no step of the job takes it past a flag that is still up. */
  lemma OtherStepKeepsStopperInv(s: State, step: Step, pid: nat)
    requires JobInv(s) && !ByStopper(step) && Enabled(s, step)
    requires pid in s.stoppers && StopperInv(s, pid)
    ensures StopperInv(After(s, step), pid)
  {
  }

  lemma StepKeepsInv(s: State, step: Step)
    requires Inv(s) && Enabled(s, step)
    ensures Inv(After(s, step))
  {
    forall pid | pid in s.stoppers && s.stoppers[pid].phase.InBarrier?
      ensures s.lock == Some(AStopper(pid))
    {
      assert StopperInv(s, pid);
    }
    StepKeepsJobInv(s, step);
    forall pid | pid in After(s, step).stoppers
      ensures StopperInv(After(s, step), pid)
    {
      assert pid in s.stoppers ==> StopperInv(s, pid);
      if step.LeaveBarrier? {
        assert StopperInv(s, step.pid);
      }
      if ByStopper(step) {
        StopperStepKeepsStopperInv(s, step, pid);
      } else {
        OtherStepKeepsStopperInv(s, step, pid);
      }
    }
  }

  // -------------------------------------------------------------------------
  // Over every interleaving
  // -------------------------------------------------------------------------

  function Next(s: State, step: Step): Option<State> {
    if Enabled(s, step) then Some(After(s, step)) else None
  }

  ghost predicate Reachable(s: State) {
    Runs.Reachable(Next, Init(), s)
  }

  lemma ReachableIsSound(s: State)
    requires Reachable(s)
    ensures Inv(s)
  {
    forall a, e | Inv(a) && Next(a, e).Some?
      ensures Inv(Next(a, e).value)
    {
      StepKeepsInv(a, e);
    }
    var steps :| Runs.IsRun(Next, Init(), steps, s);
    Runs.RunKeeps(Next, Inv, Init(), steps, s);
  }

  /** Once `halt` has returned true, and until `resume`, the job holds no lease
      and works on no meeting, in every state any interleaving reaches. */
  lemma HaltHolds(s: State, pid: nat)
    requires Reachable(s)
    requires pid in s.stoppers && s.stoppers[pid].request.Halt? && s.stoppers[pid].phase == Returned(true)
    requires InForce(s, s.stoppers[pid])
    ensures s.halted && s.lease.None? && s.current.None? && !s.job.Working?
  {
    ReachableIsSound(s);
    assert StopperInv(s, pid);
  }

  /** The same for one meeting and `stop_meeting`, until a pass clears the cancellations. */
  lemma StopMeetingHolds(s: State, pid: nat, id: Meeting)
    requires Reachable(s)
    requires pid in s.stoppers && s.stoppers[pid].request == StopMeeting(id) && s.stoppers[pid].phase == Returned(true)
    requires InForce(s, s.stoppers[pid])
    ensures id in s.cancel && s.lease != Some(id) && s.current != Some(id) && s.job != Working(id)
  {
    ReachableIsSound(s);
    assert StopperInv(s, pid);
  }

  lemma Reaches(s: State, step: Step) returns (s': State)
    requires Reachable(s) && Enabled(s, step)
    ensures s' == After(s, step) && Reachable(s')
  {
    s' := Runs.Reaches(Next, Init(), s, step);
  }

  // -------------------------------------------------------------------------
  // What the flags say of a run
  // -------------------------------------------------------------------------

  /** Of all halts and resumes of a run, the last was a halt. */
  predicate HaltedSince(steps: seq<Step>)
    decreases |steps|
  {
    steps != [] &&
    var last := steps[|steps| - 1];
    if last.Resume? then false
    else (last.Raise? && last.request.Halt?) || HaltedSince(steps[..|steps| - 1])
  }

  /** The meeting was stopped or about to be played since the last pass began. */
  predicate CancelledSince(steps: seq<Step>, id: Meeting)
    decreases |steps|
  {
    steps != [] &&
    var last := steps[|steps| - 1];
    if last.ClearCancel? then false
    else
      || (last.Raise? && last.request == StopMeeting(id))
      || (last.CancelForPlayback? && last.id == id)
      || CancelledSince(steps[..|steps| - 1], id)
  }

  /** What the request of `pid` asked for has not been undone since. */
  predicate AskedSince(steps: seq<Step>, pid: nat)
    decreases |steps|
  {
    steps != [] &&
    var last := steps[|steps| - 1];
    if last.Raise? && last.pid == pid then true
    else AskedSince(steps[..|steps| - 1], pid) && !Undoes(steps[..|steps| - 1], last, pid)
  }

  predicate Undoes(steps: seq<Step>, step: Step, pid: nat) {
    (step.Resume? && Asked(steps, pid) == Some(Halt))
    || (step.ClearCancel? && Asked(steps, pid).Some? && Asked(steps, pid).value.StopMeeting?)
  }

  function Asked(steps: seq<Step>, pid: nat): Option<Request>
    decreases |steps|
  {
    if steps == [] then None
    else
      var last := steps[|steps| - 1];
      if last.Raise? && last.pid == pid then Some(last.request) else Asked(steps[..|steps| - 1], pid)
  }

  lemma {:induction false} HaltedFollows(steps: seq<Step>, s: State)
    requires Runs.IsRun(Next, Init(), steps, s)
    ensures s.halted <==> HaltedSince(steps)
    decreases |steps|
  {
    if steps != [] {
      var mid := Runs.RunSplits(Next, Init(), steps, s);
      HaltedFollows(steps[..|steps| - 1], mid);
    }
  }

  lemma {:induction false} CancelFollows(steps: seq<Step>, s: State, id: Meeting)
    requires Runs.IsRun(Next, Init(), steps, s)
    ensures id in s.cancel <==> CancelledSince(steps, id)
    decreases |steps|
  {
    if steps != [] {
      var mid := Runs.RunSplits(Next, Init(), steps, s);
      CancelFollows(steps[..|steps| - 1], mid, id);
    }
  }

  lemma StopperAfter(mid: State, step: Step, pid: nat)
    requires Enabled(mid, step)
    requires pid in mid.stoppers ==> mid.stoppers[pid].era <= Era(mid, mid.stoppers[pid].request)
    ensures var s := After(mid, step);
            && (pid in s.stoppers <==> pid in mid.stoppers || (step.Raise? && step.pid == pid))
            && (pid in mid.stoppers ==>
                  && s.stoppers[pid].request == mid.stoppers[pid].request
                  && (InForce(s, s.stoppers[pid]) <==>
                        InForce(mid, mid.stoppers[pid]) && !(step.Resume? && mid.stoppers[pid].request.Halt?)
                        && !(step.ClearCancel? && mid.stoppers[pid].request.StopMeeting?)))
            && (step.Raise? && step.pid == pid ==> s.stoppers[pid].request == step.request && InForce(s, s.stoppers[pid]))
            && (pid in s.stoppers ==> s.stoppers[pid].era <= Era(s, s.stoppers[pid].request))
  {
  }

  lemma {:induction false} RequestsFollow(steps: seq<Step>, s: State, pid: nat)
    requires Runs.IsRun(Next, Init(), steps, s)
    ensures Asked(steps, pid) == if pid in s.stoppers then Some(s.stoppers[pid].request) else None
    ensures pid in s.stoppers ==> (InForce(s, s.stoppers[pid]) <==> AskedSince(steps, pid))
    ensures pid in s.stoppers ==> s.stoppers[pid].era <= Era(s, s.stoppers[pid].request)
    decreases |steps|
  {
    if steps != [] {
      var mid := Runs.RunSplits(Next, Init(), steps, s);
      RequestsFollow(steps[..|steps| - 1], mid, pid);
      StopperAfter(mid, steps[|steps| - 1], pid);
    }
  }

  /** The two flags, and which requests are in force, are what the run says. */
  lemma FlagsFollowTheRun(steps: seq<Step>, s: State, id: Meeting, pid: nat)
    requires Runs.IsRun(Next, Init(), steps, s)
    ensures s.halted <==> HaltedSince(steps)
    ensures id in s.cancel <==> CancelledSince(steps, id)
    ensures Asked(steps, pid) == if pid in s.stoppers then Some(s.stoppers[pid].request) else None
    ensures pid in s.stoppers ==> (InForce(s, s.stoppers[pid]) <==> AskedSince(steps, pid))
  {
    HaltedFollows(steps, s);
    CancelFollows(steps, s, id);
    RequestsFollow(steps, s, pid);
  }

  ghost predicate HaltAsked(s: State) {
    exists pid :: pid in s.stoppers && s.stoppers[pid].request.Halt? && InForce(s, s.stoppers[pid])
  }

  /** The job is kept from its work only while some halt is in force. */
  lemma HaltedExactlyWhile(s: State)
    requires Reachable(s)
    ensures s.halted <==> HaltAsked(s)
  {
    ReachableIsSound(s);
    if HaltAsked(s) {
      var pid :| pid in s.stoppers && s.stoppers[pid].request.Halt? && InForce(s, s.stoppers[pid]);
      assert StopperInv(s, pid);
    }
    var steps :| Runs.IsRun(Next, Init(), steps, s);
    if s.halted {
      FlagsFollowTheRun(steps, s, "", 0);
      var pid := LastHalter(steps);
      FlagsFollowTheRun(steps, s, "", pid);
    }
  }

  lemma {:induction false} LastHalter(steps: seq<Step>) returns (pid: nat)
    requires HaltedSince(steps) && exists s :: Runs.IsRun(Next, Init(), steps, s)
    ensures Asked(steps, pid) == Some(Halt) && AskedSince(steps, pid)
    decreases |steps|
  {
    var s :| Runs.IsRun(Next, Init(), steps, s);
    var mid := Runs.RunSplits(Next, Init(), steps, s);
    var last := steps[|steps| - 1];
    if last.Raise? && last.request.Halt? {
      pid := last.pid;
    } else {
      pid := LastHalter(steps[..|steps| - 1]);
      FlagsFollowTheRun(steps[..|steps| - 1], mid, "", pid);
    }
  }

  // -------------------------------------------------------------------------
  // The job's turn, and a stopper's
  // -------------------------------------------------------------------------

  /** The job never holds a lease that other work holds. */
  lemma LeaseIsExclusive(s: State)
    requires Reachable(s)
    ensures s.lease.Some? ==> s.lease.value !in s.otherLeases
  {
    var inv := (a: State) => JobInv(a) && (a.lease.Some? ==> a.lease.value !in a.otherLeases) && Inv(a);
    forall a, e | inv(a) && Next(a, e).Some?
      ensures inv(Next(a, e).value)
    {
      StepKeepsInv(a, e);
    }
    var steps :| Runs.IsRun(Next, Init(), steps, s);
    Runs.RunKeeps(Next, inv, Init(), steps, s);
  }

  /** After a resume the idle job can take up any meeting that isn't cancelled or
      leased elsewhere, and works on it with the storage lock free. */
  lemma JobTakesATurn(s: State, id: Meeting) returns (s': State)
    requires s.job.Idle? && s.lock.None? && id !in s.cancel && id !in s.otherLeases
    ensures Runs.IsRun(Next, s, [Resume, TakeLock(id), ReadHalted, ReadCancel, TakeLease, Announce, LetGo], s')
    ensures s' == s.(halted := false, resumes := s'.resumes, job := Working(id), lease := Some(id), current := Some(id))
  {
    var steps;
    steps, s' := Runs.OneMore(Next, s, [], s, Resume);
    steps, s' := Runs.OneMore(Next, s, steps, s', TakeLock(id));
    steps, s' := Runs.OneMore(Next, s, steps, s', ReadHalted);
    steps, s' := Runs.OneMore(Next, s, steps, s', ReadCancel);
    steps, s' := Runs.OneMore(Next, s, steps, s', TakeLease);
    steps, s' := Runs.OneMore(Next, s, steps, s', Announce);
    steps, s' := Runs.OneMore(Next, s, steps, s', LetGo);
    assert steps == [Resume, TakeLock(id), ReadHalted, ReadCancel, TakeLease, Announce, LetGo];
  }

  /** And when it is done, it lets go of everything it took. */
  lemma JobEndsItsTurn(s: State) returns (s': State)
    requires s.job.Working? && s.lock.None?
    ensures Runs.IsRun(Next, s, [BeginRelease, DropLease, ClearCurrent, EndRelease], s')
    ensures s' == s.(job := Idle, lease := None, current := None)
  {
    var steps;
    steps, s' := Runs.OneMore(Next, s, [], s, BeginRelease);
    steps, s' := Runs.OneMore(Next, s, steps, s', DropLease);
    steps, s' := Runs.OneMore(Next, s, steps, s', ClearCurrent);
    steps, s' := Runs.OneMore(Next, s, steps, s', EndRelease);
    assert steps == [BeginRelease, DropLease, ClearCurrent, EndRelease];
  }

  /** Whatever the job is at before it has leased a folder, it can give up and be idle. */
  lemma JobGivesUp(s: State)
    requires s.job.Locked? || s.job.NotHalted? || s.job.Allowed?
    ensures Next(s, GiveUp) == Some(s.(job := Idle, lock := None))
  {
  }

  /** A stopper whose flag is up, once the storage lock is free, passes the
      barrier and says whether the job has let go: true when it works on no
      meeting (or on another), false when the deadline passed first. */
  lemma StopperTakesATurn(s: State, pid: nat, deadlinePassed: bool) returns (s': State)
    requires pid in s.stoppers && s.stoppers[pid].phase.Raised? && s.lock.None?
    ensures Runs.IsRun(Next, s, [EnterBarrier(pid), LeaveBarrier(pid), Poll(pid, deadlinePassed)], s')
    ensures var request := s.stoppers[pid].request;
            var busy := s.current.Some? && (request.Halt? || request.id == s.current.value);
            var phase := if !busy then Returned(true) else if deadlinePassed then Returned(false) else Polling;
            s' == s.(stoppers := s.stoppers[pid := s.stoppers[pid].(phase := phase)])
  {
    var steps;
    steps, s' := Runs.OneMore(Next, s, [], s, EnterBarrier(pid));
    steps, s' := Runs.OneMore(Next, s, steps, s', LeaveBarrier(pid));
    steps, s' := Runs.OneMore(Next, s, steps, s', Poll(pid, deadlinePassed));
    assert steps == [EnterBarrier(pid), LeaveBarrier(pid), Poll(pid, deadlinePassed)];
  }

  /** Other work leases what the job hasn't leased, and playing a meeting cancels
      it exactly if the job works on it. */
  lemma OthersComeAndGo(s: State, ids: set<Meeting>, id: Meeting)
    ensures Next(s, OtherLeases(ids)) == if s.lease.Some? && s.lease.value in ids then None else Some(s.(otherLeases := ids))
    ensures Next(s, CancelForPlayback(id)) == if s.current == Some(id) then Some(s.(cancel := s.cancel + {id})) else None
  {
  }

  /** While other work holds the storage lock neither takes it. */
  lemma OthersKeepThemWaiting(s: State, id: Meeting, pid: nat)
    requires s.lock.None?
    ensures Next(s, OtherLocks).Some?
    ensures var held := Next(s, OtherLocks).value;
            && Next(held, OtherUnlocks) == Some(s)
            && forall step | step in {TakeLock(id), BeginRelease, EnterBarrier(pid), OtherLocks} :: Next(held, step) == None
  {
  }

  /** A stopper that raised its flag, passed the barrier and found nothing to
      wait for. */
  lemma StopMeetingReturns(id: Meeting) returns (s: State)
    ensures Reachable(s)
    ensures s == Init().(cancel := {id}, stoppers := map[0 := Stopper(StopMeeting(id), Returned(true), 0)])
  {
    Runs.StartIsReachable(Next, Init());
    s := Reaches(Init(), Raise(0, StopMeeting(id)));
    s := Reaches(s, EnterBarrier(0));
    s := Reaches(s, LeaveBarrier(0));
    s := Reaches(s, Poll(0, false));
  }

  /** `stop_meeting`'s promise does lapse when the next pass clears the
      cancellations: the job may lease the meeting again. */
  lemma StopMeetingLapses(id: Meeting) returns (s: State)
    ensures Reachable(s)
    ensures 0 in s.stoppers && s.stoppers[0] == Stopper(StopMeeting(id), Returned(true), 0)
    ensures !InForce(s, s.stoppers[0]) && s.lease == Some(id)
  {
    s := StopMeetingReturns(id);
    s := Reaches(s, ClearCancel);
    s := Reaches(s, TakeLock(id));
    s := Reaches(s, ReadHalted);
    s := Reaches(s, ReadCancel);
    s := Reaches(s, TakeLease);
  }
}
