// The queue of AI passes that follow a transcription. Every method takes the
// queue's mutex once, and so is one step on the whole state; only the snapshot
// of a quit takes it twice, and is two.
module AiQueue {
  import opened Wrappers

  datatype Kind = ExtractOnly | ConsentRerun | AfterTranscription

  function Rank(kind: Kind): nat {
    match kind
    case ExtractOnly => 0
    case ConsentRerun => 1
    case AfterTranscription => 2
  }

  function Fuller(queued: Kind, pushed: Kind): Kind {
    if Rank(pushed) > Rank(queued) then pushed else queued
  }

  const U32_MAX: int := 0xFFFF_FFFF

  type u32 = n: int | 0 <= n <= U32_MAX

  function SaturatingInc(n: u32): u32 {
    if n == U32_MAX then U32_MAX else n + 1
  }

  function SaturatingDec(n: u32): u32 {
    if n == 0 then 0 else n - 1
  }

  datatype Job = Job(meetingId: string, kind: Kind, attempts: u32)

  /** The pass the worker runs, and whether it was told to stop. */
  datatype Pass = Pass(job: Job, cancelled: bool)

  datatype State = State(pending: seq<Job>, running: Option<Pass>, halted: bool, held: seq<Job>)

  // -------------------------------------------------------------------------
  // Lists of jobs
  // -------------------------------------------------------------------------

  /** The first job for a meeting, or the length when there is none. */
  function IndexOf(jobs: seq<Job>, id: string): (i: nat)
    ensures i <= |jobs|
    ensures i < |jobs| ==> jobs[i].meetingId == id
    ensures forall k | 0 <= k < i :: jobs[k].meetingId != id
  {
    if jobs == [] || jobs[0].meetingId == id then 0 else 1 + IndexOf(jobs[1..], id)
  }

  predicate Has(jobs: seq<Job>, id: string) {
    exists k | 0 <= k < |jobs| :: jobs[k].meetingId == id
  }

  ghost predicate Distinct(jobs: seq<Job>) {
    forall i, j | 0 <= i < j < |jobs| :: jobs[i].meetingId != jobs[j].meetingId
  }

  function Without(jobs: seq<Job>, id: string): seq<Job> {
    if jobs == [] then []
    else if jobs[0].meetingId == id then Without(jobs[1..], id)
    else [jobs[0]] + Without(jobs[1..], id)
  }

  /** `front` put back ahead of `queue`, last first, skipping a meeting already there. */
  function Ahead(front: seq<Job>, queue: seq<Job>): seq<Job> {
    if front == [] then queue
    else
      var rest := Ahead(front[1..], queue);
      if Has(rest, front[0].meetingId) then rest else [front[0]] + rest
  }

  /** Each meeting's last entry, in order. */
  function KeepLast(jobs: seq<Job>): seq<Job> {
    if jobs == [] then []
    else if Has(jobs[1..], jobs[0].meetingId) then KeepLast(jobs[1..])
    else [jobs[0]] + KeepLast(jobs[1..])
  }

  /** Each meeting's first entry, in order. */
  function KeepFirst(jobs: seq<Job>): seq<Job> {
    if jobs == [] then []
    else
      var n := |jobs| - 1;
      if Has(jobs[..n], jobs[n].meetingId) then KeepFirst(jobs[..n]) else KeepFirst(jobs[..n]) + [jobs[n]]
  }

  // -------------------------------------------------------------------------
  // What each method does to the state
  // -------------------------------------------------------------------------

  function Pushed(s: State, job: Job): State {
    if s.halted then s
    else
      var i := IndexOf(s.pending, job.meetingId);
      if i < |s.pending| then s.(pending := s.pending[i := s.pending[i].(kind := Fuller(s.pending[i].kind, job.kind))])
      else s.(pending := s.pending + [job])
  }

  function Started(s: State): State {
    if s.halted || s.pending == [] then s
    else
      var job := s.pending[0];
      s.(pending := s.pending[1..], running := Some(Pass(job.(attempts := SaturatingInc(job.attempts)), false)))
  }

  function Cancelled(s: State): State {
    if s.running.Some? then s.(running := Some(s.running.value.(cancelled := true))) else s
  }

  /** What `halt` takes out: the running pass first, its attempt given back. */
  function HeldBy(s: State): seq<Job> {
    (if s.running.Some? then [s.running.value.job.(attempts := SaturatingDec(s.running.value.job.attempts))] else [])
    + s.pending
  }

  function Halted(s: State): State {
    Cancelled(if s.halted then s else s.(halted := true, pending := [], held := s.held + HeldBy(s)))
  }

  function Resumed(s: State): State {
    s.(halted := false, held := [], pending := Ahead(s.held, s.pending))
  }

  /** Everything unfinished, the running pass first. */
  function Unfinished(s: State): seq<Job> {
    (if s.running.Some? then [s.running.value.job] else []) + s.pending + s.held
  }

  function GaveBack(jobs: seq<Job>, id: string): seq<Job> {
    var i := IndexOf(jobs, id);
    if i < |jobs| then jobs[i := jobs[i].(attempts := SaturatingDec(jobs[i].attempts))] else jobs
  }

  function RunningId(s: State): Option<string> {
    if s.running.Some? then Some(s.running.value.job.meetingId) else None
  }

  function QuitSnapshot(interrupted: Option<string>, s: State): seq<Job> {
    var jobs := KeepFirst(Unfinished(s));
    if interrupted.Some? then GaveBack(jobs, interrupted.value) else jobs
  }

  class Queue {
    var pending: seq<Job>
    var running: Option<Pass>
    var halted: bool
    var held: seq<Job>

    constructor ()
      ensures Now() == State([], None, false, [])
    {
      pending, running, halted, held := [], None, false, [];
    }

    function Now(): State
      reads this
    {
      State(pending, running, halted, held)
    }

    /** A meeting never waits twice: pushed again, its entry stays where it is
        and only its kind may rise. Says whether an entry was added. */
    method Push(job: Job) returns (added: bool)
      modifies this
      ensures Now() == Pushed(old(Now()), job)
      ensures added <==> !old(halted) && !Has(old(pending), job.meetingId)
    {
      if halted {
        return false;
      }
      var i := 0;
      while i < |pending| && pending[i].meetingId != job.meetingId
        invariant 0 <= i <= |pending|
        invariant forall k | 0 <= k < i :: pending[k].meetingId != job.meetingId
      {
        i := i + 1;
      }
      if i < |pending| {
        if Rank(job.kind) > Rank(pending[i].kind) {
          pending := pending[i := pending[i].(kind := job.kind)];
        }
        return false;
      }
      pending := pending + [job];
      return true;
    }

    /** The front of the queue becomes the running pass, one attempt dearer. */
    method Next() returns (job: Option<Job>)
      modifies this
      ensures Now() == Started(old(Now()))
      ensures job == if old(halted) || old(pending) == [] then None else Some(running.value.job)
    {
      if halted || pending == [] {
        return None;
      }
      var taken := pending[0].(attempts := SaturatingInc(pending[0].attempts));
      pending, running := pending[1..], Some(Pass(taken, false));
      return Some(taken);
    }

    /** The guard of the running pass was dropped. */
    method Finish()
      modifies this
      ensures Now() == old(Now()).(running := None)
    {
      running := None;
    }

    method RemovePending(id: string) returns (removed: bool)
      modifies this
      ensures Now() == old(Now()).(pending := Without(old(pending), id))
      ensures removed <==> Has(old(pending), id)
    {
      var before := pending;
      var kept: seq<Job> := [];
      for i := |before| downto 0
        invariant kept == Without(before[i..], id)
        invariant |kept| <= |before| - i
        invariant |kept| == |before| - i <==> !Has(before[i..], id)
      {
        assert before[i..][1..] == before[i + 1..];
        assert Has(before[i..], id) <==> before[i].meetingId == id || Has(before[i + 1..], id) by {
          HasSplits(before[i], before[i + 1..], id);
        }
        if before[i].meetingId != id {
          kept := [before[i]] + kept;
        }
      }
      assert before[0..] == before;
      pending := kept;
      removed := |kept| != |before|;
    }

    method CancelRunning(id: string) returns (wasRunning: bool)
      modifies this
      ensures wasRunning <==> old(running).Some? && old(running).value.job.meetingId == id
      ensures Now() == if wasRunning then Cancelled(old(Now())) else old(Now())
      ensures wasRunning ==> running == Some(Pass(old(running).value.job, true))
      ensures !wasRunning ==> running == old(running)
    {
      wasRunning := running.Some? && running.value.job.meetingId == id;
      if wasRunning {
        running := Some(running.value.(cancelled := true));
      }
    }

    method Halt()
      modifies this
      ensures Now() == Halted(old(Now()))
      ensures running == if old(running).Some? then Some(Pass(old(running).value.job, true)) else None
    {
      if !halted {
        halted := true;
        if running.Some? {
          held := held + [running.value.job.(attempts := SaturatingDec(running.value.job.attempts))];
        }
        held := held + pending;
        pending := [];
      }
      if running.Some? {
        running := Some(running.value.(cancelled := true));
      }
    }

    method Resume()
      modifies this
      ensures Now() == Resumed(old(Now()))
    {
      halted := false;
      var back, queue := held, pending;
      held := [];
      for i := |back| downto 0
        invariant pending == Ahead(back[i..], queue)
        invariant !halted && held == [] && running == old(running)
      {
        assert back[i..][1..] == back[i + 1..];
        if !Has(pending, back[i].meetingId) {
          pending := [back[i]] + pending;
        }
      }
      assert back[0..] == back;
    }

    method DiscardHeld()
      modifies this
      ensures Now() == old(Now()).(held := [])
    {
      held := [];
    }

    /** What survives a restart: every pass not finished, once per meeting. */
    method Snapshot() returns (jobs: seq<Job>)
      ensures jobs == KeepFirst(Unfinished(Now()))
    {
      var all := Unfinished(Now());
      jobs := [];
      var seen: set<string> := {};
      for i := 0 to |all|
        invariant jobs == KeepFirst(all[..i])
        invariant forall id :: id in seen <==> Has(all[..i], id)
      {
        assert all[..i + 1][..i] == all[..i];
        forall id
          ensures Has(all[..i + 1], id) <==> Has(all[..i], id) || all[i].meetingId == id
        {
          HasAppend(all[..i], all[i], id);
          assert all[..i + 1] == all[..i] + [all[i]];
        }
        if all[i].meetingId !in seen {
          jobs := jobs + [all[i]];
        }
        seen := seen + {all[i].meetingId};
      }
      assert all[..|all|] == all;
    }

    /** The snapshot of a quit, first step: which meeting's pass runs. */
    method RunningMeeting() returns (id: Option<string>)
      ensures id == RunningId(Now())
    {
      id := if running.Some? then Some(running.value.job.meetingId) else None;
    }

    /** Second step, after the mutex was let go of: the start the quit interrupts
        is given back to the meeting the first step saw. */
    method SnapshotForQuit(interrupted: Option<string>) returns (jobs: seq<Job>)
      ensures jobs == QuitSnapshot(interrupted, Now())
    {
      jobs := Snapshot();
      if interrupted.Some? {
        var id := interrupted.value;
        var i := 0;
        while i < |jobs| && jobs[i].meetingId != id
          invariant 0 <= i <= |jobs|
          invariant forall k | 0 <= k < i :: jobs[k].meetingId != id
        {
          i := i + 1;
        }
        if i < |jobs| {
          jobs := jobs[i := jobs[i].(attempts := SaturatingDec(jobs[i].attempts))];
        }
      }
    }
  }

  lemma HasSplits(job: Job, rest: seq<Job>, id: string)
    ensures Has([job] + rest, id) <==> job.meetingId == id || Has(rest, id)
  {
    var all := [job] + rest;
    assert all[0] == job && forall k | 0 <= k < |rest| :: all[k + 1] == rest[k];
  }

  lemma HasAppend(jobs: seq<Job>, job: Job, id: string)
    ensures Has(jobs + [job], id) <==> Has(jobs, id) || job.meetingId == id
  {
    var all := jobs + [job];
    assert all[|jobs|] == job && forall k | 0 <= k < |jobs| :: all[k] == jobs[k];
  }
}
