// What holds over whole runs of the AI pass queue.
module AiQueueRuns {
  import opened Wrappers
  import opened AiQueue

  datatype Op =
    | Push(job: Job)
    | Next
    | Finish
    | RemovePending(id: string)
    | CancelRunning(id: string)
    | Halt
    | Resume
    | DiscardHeld

  function Apply(s: State, op: Op): State {
    match op
    case Push(job) => Pushed(s, job)
    case Next => Started(s)
    case Finish => s.(running := None)
    case RemovePending(id) => s.(pending := Without(s.pending, id))
    case CancelRunning(id) => if s.running.Some? && s.running.value.job.meetingId == id then Cancelled(s) else s
    case Halt => Halted(s)
    case Resume => Resumed(s)
    case DiscardHeld => s.(held := [])
  }

  function Run(s: State, ops: seq<Op>): State
    decreases |ops|
  {
    if ops == [] then s else Run(Apply(s, ops[0]), ops[1..])
  }

  // -------------------------------------------------------------------------
  // Lists
  // -------------------------------------------------------------------------

  lemma {:induction false} WithoutKeepsOthers(jobs: seq<Job>, id: string, other: string)
    ensures Has(Without(jobs, id), other) <==> other != id && Has(jobs, other)
  {
    if jobs != [] {
      WithoutKeepsOthers(jobs[1..], id, other);
      assert jobs == [jobs[0]] + jobs[1..];
      HasSplits(jobs[0], jobs[1..], other);
      HasSplits(jobs[0], Without(jobs[1..], id), other);
    }
  }

  lemma {:induction false} WithoutIsDistinct(jobs: seq<Job>, id: string)
    requires Distinct(jobs)
    ensures Distinct(Without(jobs, id))
  {
    if jobs != [] {
      WithoutIsDistinct(jobs[1..], id);
      DistinctSplits(jobs[0], jobs[1..]);
      if jobs[0].meetingId != id {
        WithoutKeepsOthers(jobs[1..], id, jobs[0].meetingId);
        assert jobs == [jobs[0]] + jobs[1..];
        DistinctSplits(jobs[0], Without(jobs[1..], id));
      }
    }
  }

  lemma DistinctSplits(job: Job, rest: seq<Job>)
    ensures Distinct([job] + rest) <==> Distinct(rest) && !Has(rest, job.meetingId)
  {
    var all := [job] + rest;
    assert all[0] == job && forall k | 0 <= k < |rest| :: all[k + 1] == rest[k];
    if Distinct(all) {
      forall i, j | 0 <= i < j < |rest|
        ensures rest[i].meetingId != rest[j].meetingId
      {
        assert all[i + 1].meetingId != all[j + 1].meetingId;
      }
    }
  }

  lemma {:induction false} KeepLastIsDistinct(jobs: seq<Job>)
    ensures Distinct(KeepLast(jobs))
    ensures forall id :: Has(KeepLast(jobs), id) <==> Has(jobs, id)
  {
    if jobs != [] {
      KeepLastIsDistinct(jobs[1..]);
      assert jobs == [jobs[0]] + jobs[1..];
      DistinctSplits(jobs[0], KeepLast(jobs[1..]));
      forall id
        ensures Has(KeepLast(jobs), id) <==> Has(jobs, id)
      {
        HasSplits(jobs[0], jobs[1..], id);
        HasSplits(jobs[0], KeepLast(jobs[1..]), id);
      }
    }
  }

  lemma {:induction false} KeepLastOfDistinct(jobs: seq<Job>)
    requires Distinct(jobs)
    ensures KeepLast(jobs) == jobs
  {
    if jobs != [] {
      assert jobs == [jobs[0]] + jobs[1..];
      DistinctSplits(jobs[0], jobs[1..]);
      KeepLastOfDistinct(jobs[1..]);
    }
  }

  /** Putting held passes back ahead of a queue keeps each meeting's last entry. */
  lemma {:induction false} AheadKeepsLast(front: seq<Job>, queue: seq<Job>)
    requires Distinct(queue)
    ensures Ahead(front, queue) == KeepLast(front + queue)
  {
    if front == [] {
      KeepLastOfDistinct(queue);
      assert front + queue == queue;
    } else {
      AheadKeepsLast(front[1..], queue);
      assert (front + queue)[1..] == front[1..] + queue;
      KeepLastIsDistinct(front[1..] + queue);
    }
  }

  lemma {:induction false} KeepFirstIsDistinct(jobs: seq<Job>)
    ensures Distinct(KeepFirst(jobs))
    ensures forall id :: Has(KeepFirst(jobs), id) <==> Has(jobs, id)
  {
    if jobs != [] {
      var n := |jobs| - 1;
      var rest := jobs[..n];
      KeepFirstIsDistinct(rest);
      assert jobs == rest + [jobs[n]];
      forall id
        ensures Has(KeepFirst(jobs), id) <==> Has(jobs, id)
      {
        HasAppend(rest, jobs[n], id);
        HasAppend(KeepFirst(rest), jobs[n], id);
      }
    }
  }

  ghost predicate IsFirst(jobs: seq<Job>, j: Job) {
    var i := IndexOf(jobs, j.meetingId);
    i < |jobs| && j == jobs[i]
  }

  lemma {:induction false} KeepFirstTakesFirsts(jobs: seq<Job>)
    ensures forall j | j in KeepFirst(jobs) :: IsFirst(jobs, j)
  {
    if jobs != [] {
      var n := |jobs| - 1;
      var rest := jobs[..n];
      KeepFirstTakesFirsts(rest);
      forall j | j in KeepFirst(jobs)
        ensures IsFirst(jobs, j)
      {
        if j in KeepFirst(rest) {
          assert IsFirst(rest, j);
          IndexOfIsFirst(jobs, j.meetingId, IndexOf(rest, j.meetingId));
        } else {
          IndexOfIsFirst(jobs, j.meetingId, n);
        }
      }
    }
  }

  lemma IndexOfIsFirst(jobs: seq<Job>, id: string, i: nat)
    requires i < |jobs| && jobs[i].meetingId == id
    requires forall k | 0 <= k < i :: jobs[k].meetingId != id
    ensures IndexOf(jobs, id) == i
  {
  }

  // -------------------------------------------------------------------------
  // The invariant, over every sequence of operations
  // -------------------------------------------------------------------------

  /** Waiting meetings are distinct; a halted queue has nothing waiting, one
      that runs has nothing held. */
  ghost predicate Inv(s: State) {
    && Distinct(s.pending)
    && (s.halted ==> s.pending == [])
    && (!s.halted ==> s.held == [])
  }

  lemma ApplyKeepsInv(s: State, op: Op)
    requires Inv(s)
    ensures Inv(Apply(s, op))
  {
    match op
    case RemovePending(id) => WithoutIsDistinct(s.pending, id);
    case Resume =>
      AheadKeepsLast(s.held, s.pending);
      KeepLastIsDistinct(s.held + s.pending);
    case _ =>
  }

  lemma {:induction false} RunKeepsInv(s: State, ops: seq<Op>)
    requires Inv(s)
    ensures Inv(Run(s, ops))
    decreases |ops|
  {
    if ops != [] {
      ApplyKeepsInv(s, ops[0]);
      RunKeepsInv(Apply(s, ops[0]), ops[1..]);
    }
  }

  /** A snapshot names no meeting twice, puts the running pass first, covers
      exactly the running, waiting and held meetings, and for each takes the
      running entry, else the waiting one, else the first held one. */
  lemma SnapshotCovers(s: State)
    ensures var jobs := KeepFirst(Unfinished(s));
            && Distinct(jobs)
            && (s.running.Some? ==> jobs != [] && jobs[0] == s.running.value.job)
            && (forall id :: Has(jobs, id) <==>
                  (s.running.Some? && s.running.value.job.meetingId == id) || Has(s.pending, id) || Has(s.held, id))
            && (forall j | j in jobs :: IsFirst(Unfinished(s), j))
  {
    var all := Unfinished(s);
    KeepFirstIsDistinct(all);
    KeepFirstTakesFirsts(all);
    if s.running.Some? {
      KeepFirstHead(all);
    }
    var now := if s.running.Some? then [s.running.value.job] else [];
    forall id
      ensures Has(all, id) <==>
                (s.running.Some? && s.running.value.job.meetingId == id) || Has(s.pending, id) || Has(s.held, id)
    {
      HasConcat(now + s.pending, s.held, id);
      HasConcat(now, s.pending, id);
    }
  }

  /** When nothing changes between its two steps, the snapshot a quit saves
      differs in the running pass's attempt alone. */
  lemma QuitGivesBackOnlyTheRunning(s: State)
    requires s.running.Some?
    ensures var jobs := KeepFirst(Unfinished(s));
            jobs != [] && QuitSnapshot(RunningId(s), s) == [PutBack(s)] + jobs[1..]
  {
    SnapshotCovers(s);
    var jobs := KeepFirst(Unfinished(s));
    assert jobs == [jobs[0]] + jobs[1..];
  }

  /** Giving this meeting an attempt back would change the list. */
  predicate HasAttempt(jobs: seq<Job>, id: Option<string>) {
    id.Some? && IndexOf(jobs, id.value) < |jobs| && jobs[IndexOf(jobs, id.value)].attempts > 0
  }

  lemma GaveBackAt(jobs: seq<Job>, id: Option<string>, k: nat)
    requires Distinct(jobs) && k < |jobs|
    ensures |GaveBackTo(jobs, id)| == |jobs|
    ensures GaveBackTo(jobs, id)[k] ==
            if id == Some(jobs[k].meetingId) then jobs[k].(attempts := SaturatingDec(jobs[k].attempts)) else jobs[k]
  {
  }

  function GaveBackTo(jobs: seq<Job>, id: Option<string>): seq<Job> {
    if id.Some? then GaveBack(jobs, id.value) else jobs
  }

  lemma GivingBackDiffers(jobs: seq<Job>, a: Option<string>, b: Option<string>)
    requires Distinct(jobs) && a != b && HasAttempt(jobs, a)
    ensures GaveBackTo(jobs, a) != GaveBackTo(jobs, b)
  {
    var k := IndexOf(jobs, a.value);
    GaveBackAt(jobs, a, k);
    GaveBackAt(jobs, b, k);
  }

  /** The queue may change between the two steps. The snapshot still gives back
      exactly the start the quit interrupts if and only if the same meeting's
      pass runs at both, or neither meeting has an attempt to give back: a pass
      that ended and was queued again with attempts loses one, and a pass that
      began in between keeps its start. */
  lemma QuitGivesBackExactlyWhen(first: State, second: State)
    ensures QuitSnapshot(RunningId(first), second) == QuitSnapshot(RunningId(second), second)
            <==> RunningId(first) == RunningId(second)
                 || (!HasAttempt(KeepFirst(Unfinished(second)), RunningId(first))
                     && !HasAttempt(KeepFirst(Unfinished(second)), RunningId(second)))
  {
    var jobs, a, b := KeepFirst(Unfinished(second)), RunningId(first), RunningId(second);
    KeepFirstIsDistinct(Unfinished(second));
    assert QuitSnapshot(a, second) == GaveBackTo(jobs, a) && QuitSnapshot(b, second) == GaveBackTo(jobs, b);
    if a != b {
      if HasAttempt(jobs, a) {
        GivingBackDiffers(jobs, a, b);
      } else if HasAttempt(jobs, b) {
        GivingBackDiffers(jobs, b, a);
      } else {
        NothingToGiveBack(jobs, a);
        NothingToGiveBack(jobs, b);
      }
    }
  }

  /** A run in which it does not: one pass ends and the next begins between the
      two steps, and the start of the second stays counted. */
  lemma QuitCanMissTheStart(a: string, b: string)
    requires a != b
    ensures var ja, jb := Job(a, AfterTranscription, 0), Job(b, AfterTranscription, 0);
            var first := Run(State([], None, false, []), [Push(ja), Push(jb), Next]);
            var second := Run(first, [Finish, Next]);
            && QuitSnapshot(RunningId(first), second) == [jb.(attempts := 1)]
            && QuitSnapshot(RunningId(second), second) == [jb]
  {
    StartsFirst(Job(a, AfterTranscription, 0), Job(b, AfterTranscription, 0));
    StartsSecond(Job(a, AfterTranscription, 1), Job(b, AfterTranscription, 0));
    var second := State([], Some(Pass(Job(b, AfterTranscription, 1), false)), false, []);
    assert Unfinished(second) == [Job(b, AfterTranscription, 1)];
    assert KeepFirst([Job(b, AfterTranscription, 1)]) == [Job(b, AfterTranscription, 1)];
  }

  lemma StartsFirst(a: Job, b: Job)
    requires a.meetingId != b.meetingId
    ensures Run(State([], None, false, []), [Push(a), Push(b), Next])
            == State([b], Some(Pass(a.(attempts := SaturatingInc(a.attempts)), false)), false, [])
  {
    var start := State([], None, false, []);
    RunsThrough(start, Push(a), [Push(b), Next]);
    RunsThrough(start.(pending := [a]), Push(b), [Next]);
    RunsThrough(start.(pending := [a, b]), Next, []);
  }

  lemma StartsSecond(a: Job, b: Job)
    ensures Run(State([b], Some(Pass(a, false)), false, []), [Finish, Next])
            == State([], Some(Pass(b.(attempts := SaturatingInc(b.attempts)), false)), false, [])
  {
    RunsThrough(State([b], Some(Pass(a, false)), false, []), Finish, [Next]);
    RunsThrough(State([b], None, false, []), Next, []);
  }

  lemma RunsThrough(s: State, op: Op, ops: seq<Op>)
    ensures Run(s, [op] + ops) == Run(Apply(s, op), ops)
  {
    assert ([op] + ops)[1..] == ops;
  }

  lemma NothingToGiveBack(jobs: seq<Job>, id: Option<string>)
    requires !HasAttempt(jobs, id)
    ensures GaveBackTo(jobs, id) == jobs
  {
  }

  lemma HasConcat(a: seq<Job>, b: seq<Job>, id: string)
    ensures Has(a + b, id) <==> Has(a, id) || Has(b, id)
  {
    if k :| 0 <= k < |a| && a[k].meetingId == id {
      assert (a + b)[k] == a[k];
    }
    if k :| 0 <= k < |b| && b[k].meetingId == id {
      assert (a + b)[|a| + k] == b[k];
    }
  }

  lemma {:induction false} KeepFirstHead(jobs: seq<Job>)
    requires jobs != []
    ensures KeepFirst(jobs) != [] && KeepFirst(jobs)[0] == jobs[0]
  {
    if |jobs| > 1 {
      KeepFirstHead(jobs[..|jobs| - 1]);
    }
  }

  // -------------------------------------------------------------------------
  // Halt, then resume
  // -------------------------------------------------------------------------

  /** What may happen while the queue is halted: anything but undoing it. */
  predicate WhileHalted(op: Op) {
    !op.Resume? && !op.DiscardHeld?
  }

  /** While halted nothing is queued and nothing starts: what runs, if anything,
      is the pass that ran at the halt. */
  lemma {:induction false} HaltHolds(s: State, ops: seq<Op>)
    requires s.halted && s.pending == []
    requires forall op | op in ops :: WhileHalted(op)
    ensures Run(s, ops).halted && Run(s, ops).pending == [] && Run(s, ops).held == s.held
    ensures Run(s, ops).running.Some? ==> s.running.Some? && Run(s, ops).running.value.job == s.running.value.job
    decreases |ops|
  {
    if ops != [] {
      assert ops[0] in ops && WhileHalted(ops[0]);
      HaltHolds(Apply(s, ops[0]), ops[1..]);
    }
  }

  /** The running pass, as a halt puts it back. */
  function PutBack(s: State): Job
    requires s.running.Some?
  {
    s.running.value.job.(attempts := SaturatingDec(s.running.value.job.attempts))
  }

  /** Halt, then anything at all (the pass winding down, refused pushes, more
      halts), then resume: every pass is back. If the running meeting was not
      waiting too, its pass is first, its attempt given back, and the old queue
      follows in order; if it was, the waiting entry alone stays, in its place. */
  lemma HaltThenResume(s: State, ops: seq<Op>)
    requires Inv(s) && !s.halted && forall op | op in ops :: WhileHalted(op)
    ensures var s' := Resumed(Run(Halted(s), ops));
            && !s'.halted && s'.held == []
            && s'.pending == KeepLast(HeldBy(s))
            && s'.pending == (if s.running.Some? && !Has(s.pending, s.running.value.job.meetingId)
                              then [PutBack(s)] + s.pending else s.pending)
  {
    HaltHolds(Halted(s), ops);
    var held := HeldBy(s);
    assert s.held + held == held;
    AheadKeepsLast(held, []);
    assert held + [] == held;
    KeepLastOfDistinct(s.pending);
    if s.running.Some? {
      assert held[1..] == s.pending;
    } else {
      assert held == s.pending;
    }
  }

  /** The start a halt or a quit gives back is exactly undone, unless the count
      was already at its maximum. */
  lemma GivingBackUndoesAStart(n: u32)
    ensures SaturatingDec(SaturatingInc(n)) == n <==> n < U32_MAX
  {
  }

  // -------------------------------------------------------------------------
  // What a push does to a meeting that waits
  // -------------------------------------------------------------------------

  /** It keeps its place and its attempts. Of the kinds the whole pass after a
      transcription wins, then the one run for a consent. */
  lemma PushUpgrades(s: State, job: Job, k: nat)
    requires !s.halted && Distinct(s.pending) && k < |s.pending| && s.pending[k].meetingId == job.meetingId
    ensures var fuller := job.kind.AfterTranscription? || (job.kind.ConsentRerun? && s.pending[k].kind.ExtractOnly?);
            var queued := Job(job.meetingId, if fuller then job.kind else s.pending[k].kind, s.pending[k].attempts);
            Pushed(s, job) == s.(pending := s.pending[k := queued])
  {
    assert IndexOf(s.pending, job.meetingId) == k;
  }

  /** A meeting that doesn't wait joins at the end. */
  lemma PushQueues(s: State, job: Job)
    requires !s.halted && forall k | 0 <= k < |s.pending| :: s.pending[k].meetingId != job.meetingId
    ensures Pushed(s, job) == s.(pending := s.pending + [job])
  {
  }

  // -------------------------------------------------------------------------
  // What the running pass was told
  // -------------------------------------------------------------------------

  lemma {:induction false} RunLast(s: State, ops: seq<Op>)
    requires ops != []
    ensures Run(s, ops) == Apply(Run(s, ops[..|ops| - 1]), ops[|ops| - 1])
    decreases |ops|
  {
    if |ops| > 1 {
      RunLast(Apply(s, ops[0]), ops[1..]);
      assert ops[1..][..|ops| - 2] == ops[..|ops| - 1][1..];
    }
  }

  /** Since the running pass started (or since `s`, if that was before), its
      meeting was cancelled or the queue halted. */
  ghost predicate ToldToStop(s: State, ops: seq<Op>)
    decreases |ops|
  {
    if ops == [] then s.running.Some? && s.running.value.cancelled
    else
      var n := |ops| - 1;
      var before := Run(s, ops[..n]);
      match ops[n]
      case Halt => true
      case Next => !(!before.halted && before.pending != []) && ToldToStop(s, ops[..n])
      case CancelRunning(id) => RunningId(before) == Some(id) || ToldToStop(s, ops[..n])
      case _ => ToldToStop(s, ops[..n])
  }

  /** The running pass has been told to stop exactly if that is so. */
  lemma {:induction false} ToldExactlyWhen(s: State, ops: seq<Op>)
    requires Run(s, ops).running.Some?
    ensures Run(s, ops).running.value.cancelled <==> ToldToStop(s, ops)
    decreases |ops|
  {
    if ops != [] {
      var n := |ops| - 1;
      RunLast(s, ops);
      if Run(s, ops[..n]).running.Some? {
        ToldExactlyWhen(s, ops[..n]);
      }
    }
  }

  // -------------------------------------------------------------------------
  // Across launches
  // -------------------------------------------------------------------------

  /** A launch doesn't requeue a pass that was started this often. */
  const MAX_PASS_ATTEMPTS: nat := 2

  /** The saved passes a launch queues again: those not given up on, of
      meetings that are still there (`alive`). */
  function Recoverable(saved: seq<Job>, alive: set<string>): seq<Job> {
    if saved == [] then []
    else if saved[0].attempts < MAX_PASS_ATTEMPTS && saved[0].meetingId in alive
    then [saved[0]] + Recoverable(saved[1..], alive)
    else Recoverable(saved[1..], alive)
  }

  predicate Again(job: Job, alive: set<string>) {
    job.attempts < MAX_PASS_ATTEMPTS && job.meetingId in alive
  }

  /** The queue a launch starts with: those of the saved passes that may start
      again, pushed one by one, a meeting saved twice being queued once. */
  function Queued(saved: seq<Job>, alive: set<string>): seq<Job> {
    if saved == [] then []
    else
      var before, last := Queued(saved[..|saved| - 1], alive), saved[|saved| - 1];
      if Again(last, alive) then Pushed(State(before, None, false, []), last).pending else before
  }

  /** At startup the saved passes are pushed one by one on an empty queue. */
  method Recover(q: Queue, saved: seq<Job>, alive: set<string>)
    requires q.Now() == State([], None, false, [])
    modifies q
    ensures q.Now() == State(Queued(saved, alive), None, false, [])
  {
    for i := 0 to |saved|
      invariant q.Now() == State(Queued(saved[..i], alive), None, false, [])
    {
      assert saved[..i + 1][..i] == saved[..i];
      if Again(saved[i], alive) {
        var _ := q.Push(saved[i]);
      }
    }
    assert saved[..|saved|] == saved;
  }

  /** What a snapshot saved, which names no meeting twice, is queued as it is,
      but for what is given up on. */
  lemma {:induction false} SnapshotIsQueued(saved: seq<Job>, alive: set<string>)
    requires Distinct(saved)
    ensures Queued(saved, alive) == Recoverable(saved, alive)
    ensures forall j | j in Queued(saved, alive) :: j in saved
  {
    if saved != [] {
      var n := |saved| - 1;
      SnapshotIsQueued(saved[..n], alive);
      RecoverableAppend(saved[..n], saved[n], alive);
      assert saved[..n] + [saved[n]] == saved;
      var before := Queued(saved[..n], alive);
      assert forall k | 0 <= k < |before| :: before[k] in before;
      assert forall j | j in saved[..n] :: j.meetingId != saved[n].meetingId;
      assert IndexOf(before, saved[n].meetingId) == |before|;
    }
  }

  lemma {:induction false} RecoverableAppend(jobs: seq<Job>, job: Job, alive: set<string>)
    ensures Recoverable(jobs + [job], alive) == Recoverable(jobs, alive) + if Again(job, alive) then [job] else []
  {
    if jobs != [] {
      RecoverableAppend(jobs[1..], job, alive);
      assert (jobs + [job])[1..] == jobs[1..] + [job];
    }
  }

  /** A launch that dies inside the first pass it starts, and the row it leaves. */
  function CrashLaunch(saved: seq<Job>, alive: set<string>): seq<Job> {
    KeepFirst(Unfinished(Started(State(Queued(saved, alive), None, false, []))))
  }

  function CrashLaunches(saved: seq<Job>, alive: set<string>, n: nat): seq<Job>
    decreases n
  {
    if n == 0 then saved else CrashLaunches(CrashLaunch(saved, alive), alive, n - 1)
  }

  function Left(job: Job): nat {
    if job.attempts < MAX_PASS_ATTEMPTS then MAX_PASS_ATTEMPTS - job.attempts else 0
  }

  /** Starts the saved passes still have left. */
  function Budget(saved: seq<Job>): nat {
    if saved == [] then 0 else Left(saved[0]) + Budget(saved[1..])
  }

  lemma {:induction false} BudgetAppend(jobs: seq<Job>, job: Job)
    ensures Budget(jobs + [job]) == Budget(jobs) + Left(job)
  {
    if jobs != [] {
      BudgetAppend(jobs[1..], job);
      assert (jobs + [job])[1..] == jobs[1..] + [job];
    }
  }

  /** A fuller kind changes nothing about the starts left. */
  lemma {:induction false} BudgetOfUpgrade(jobs: seq<Job>, i: nat, kind: Kind)
    requires i < |jobs|
    ensures Budget(jobs[i := jobs[i].(kind := kind)]) == Budget(jobs)
  {
    var jobs' := jobs[i := jobs[i].(kind := kind)];
    if i > 0 {
      BudgetOfUpgrade(jobs[1..], i - 1, kind);
      assert jobs'[1..] == jobs[1..][i - 1 := jobs[1..][i - 1].(kind := kind)];
    } else {
      assert jobs'[1..] == jobs[1..];
    }
  }

  lemma {:induction false} QueuedIsWithin(saved: seq<Job>, alive: set<string>)
    ensures Distinct(Queued(saved, alive)) && Budget(Queued(saved, alive)) <= Budget(saved)
    ensures forall j | j in Queued(saved, alive) :: j.attempts < MAX_PASS_ATTEMPTS
  {
    if saved != [] {
      var n := |saved| - 1;
      var before, last := Queued(saved[..n], alive), saved[n];
      QueuedIsWithin(saved[..n], alive);
      BudgetAppend(saved[..n], last);
      assert saved[..n] + [last] == saved;
      if Again(last, alive) {
        var i := IndexOf(before, last.meetingId);
        if i < |before| {
          BudgetOfUpgrade(before, i, Fuller(before[i].kind, last.kind));
          assert before[i] in before;
        } else {
          BudgetAppend(before, last);
        }
      }
    }
  }

  lemma {:induction false} KeepFirstOfDistinct(jobs: seq<Job>)
    requires Distinct(jobs)
    ensures KeepFirst(jobs) == jobs
  {
    if jobs != [] {
      var n := |jobs| - 1;
      KeepFirstOfDistinct(jobs[..n]);
      assert jobs == jobs[..n] + [jobs[n]];
    }
  }

  /** One start of the first pass: the rest wait on. */
  lemma StartSpends(q: seq<Job>)
    requires q != [] && Distinct(q) && q[0].attempts < MAX_PASS_ATTEMPTS
    ensures var after := [q[0].(attempts := q[0].attempts + 1)] + q[1..];
            Distinct(after) && Budget(after) + 1 == Budget(q)
  {
    var first := q[0].(attempts := q[0].attempts + 1);
    assert q == [q[0]] + q[1..];
    DistinctSplits(q[0], q[1..]);
    DistinctSplits(first, q[1..]);
    assert ([first] + q[1..])[1..] == q[1..];
  }

  lemma CrashLaunchSpends(saved: seq<Job>, alive: set<string>)
    ensures CrashLaunch(saved, alive) == [] || Budget(CrashLaunch(saved, alive)) < Budget(saved)
  {
    QueuedIsWithin(saved, alive);
    var q := Queued(saved, alive);
    var all := Unfinished(Started(State(q, None, false, [])));
    if q == [] {
      assert all == [];
    } else {
      assert q[0] in q;
      assert all == [q[0].(attempts := q[0].attempts + 1)] + q[1..];
      StartSpends(q);
      KeepFirstOfDistinct(all);
    }
  }

  /** Alone in the queue, it is started twice. */
  lemma CrashingPassStartsTwice(id: string, kind: Kind)
    ensures CrashLaunch([Job(id, kind, 0)], {id}) == [Job(id, kind, 1)]
    ensures CrashLaunch([Job(id, kind, 1)], {id}) == [Job(id, kind, 2)]
    ensures CrashLaunch([Job(id, kind, 2)], {id}) == []
  {
    CrashLaunchAlone(Job(id, kind, 0));
    CrashLaunchAlone(Job(id, kind, 1));
    CrashLaunchAlone(Job(id, kind, 2));
  }

  lemma KeepFirstAlone(job: Job)
    ensures KeepFirst([job]) == [job]
  {
    assert [job][..0] == [];
  }

  lemma CrashLaunchAlone(job: Job)
    ensures CrashLaunch([job], {job.meetingId}) == if job.attempts < 2 then [job.(attempts := job.attempts + 1)] else []
  {
    var queued := Queued([job], {job.meetingId});
    assert [job][..0] == [] && Queued([], {job.meetingId}) == [];
    assert queued == if job.attempts < 2 then [] + [job] else [];
    if job.attempts < 2 {
      var started := job.(attempts := job.attempts + 1);
      assert queued[1..] == [];
      assert Unfinished(Started(State(queued, None, false, []))) == [started];
      KeepFirstAlone(started);
    }
  }

  /** A pass whose every start crashes the app is not run forever: after as many
      crashing launches as the saved passes have starts left, and one more, the
      queue is empty. */
  lemma {:induction false} CrashLoopEnds(saved: seq<Job>, alive: set<string>, n: nat)
    requires n > Budget(saved)
    ensures CrashLaunches(saved, alive, n) == []
    decreases n
  {
    CrashLaunchSpends(saved, alive);
    if CrashLaunch(saved, alive) == [] {
      EmptyStaysEmpty(alive, n - 1);
    } else {
      CrashLoopEnds(CrashLaunch(saved, alive), alive, n - 1);
    }
  }

  lemma {:induction false} EmptyStaysEmpty(alive: set<string>, n: nat)
    ensures CrashLaunches([], alive, n) == []
  {
    if n > 0 {
      assert CrashLaunch([], alive) == [];
      EmptyStaysEmpty(alive, n - 1);
    }
  }
}
