// What can go wrong outside the code, the planner, and what compressing a
// meeting is to make of each of its roles.
module CompressionPlan {
  import opened Wrappers
  import opened Recordings

  datatype Verdict = Match | Differs | Interrupted

  /** What can go wrong outside the code. */
  datatype Mishap =
    | Stop                    // asked to stop
    | NoSpace
    | Refused(name: FileName) // a removal failed
    | Misread(wav: FileName)  // a comparison failed, whatever the samples
    | Miscoded(stem: string)  // the encoder failed or wrote something else, or the time or name couldn't be set
    | NoSize(flac: FileName)  // its size couldn't be read
    | WriteFailed             // of the manifest or the row
    | RereadFailed            // the meeting couldn't be read back after its row was written
    | Unusable                // the folder is missing, or its manifest is from a newer build

  /** Whether something goes wrong at some moment. */
  type Fate = (Mishap, nat) -> bool

  ghost predicate CanHappen(fate: Fate, m: Mishap) {
    exists t :: fate(m, t)
  }

  ghost predicate Grew(fate: Fate, was: set<Mishap>, now: set<Mishap>) {
    was <= now && forall m | m in now && m !in was :: CanHappen(fate, m)
  }

  datatype FailReason =
    | OutsideFolder
    | NoRoom                    // for all the sources, before the first is converted
    | NoRoomFor(stem: string)
    | StaleFlacStays(stem: string)
    | EncodeFailed(stem: string)
    | SizeUnread(stem: string) // put in place, then its size couldn't be read
    | StorageFailed
    | ReplaceFailed // the commit itself failed: its new files may be referenced

  datatype MeetingError = Busy | Stopped | Gone | Failed(reason: FailReason)

  /** The mishap behind an error of the run itself. */
  predicate Caused(e: MeetingError, mishaps: set<Mishap>) {
    match e
    case Stopped => Stop in mishaps
    case Busy => Unusable in mishaps
    case Gone => false
    case Failed(NoRoom) => NoSpace in mishaps
    case Failed(NoRoomFor(_)) => NoSpace in mishaps
    case Failed(StaleFlacStays(stem)) => Refused(Flac(stem)) in mishaps
    case Failed(EncodeFailed(stem)) => Miscoded(stem) in mishaps || Misread(Wav(stem)) in mishaps
    case Failed(SizeUnread(stem)) => NoSize(Flac(stem)) in mishaps
    case Failed(ReplaceFailed) => WriteFailed in mishaps || RereadFailed in mishaps
    case Failed(_) => false
  }

  /** What a run can't go on after. */
  predicate Fatal(m: Mishap) {
    m.NoSpace? || m.NoSize? || m.WriteFailed? || m.RereadFailed? || m.Unusable?
  }

  ghost predicate Unharmed(mishaps: set<Mishap>) {
    forall m | m in mishaps :: !Fatal(m)
  }

  /** What happened to the meeting between planning and the commit. */
  datatype Interference = Undisturbed | Unreadable | MeetingDeleted | AudioDeleted | Refuses | Changed(rec: Recording)

  // -------------------------------------------------------------------------
  // The planner
  // -------------------------------------------------------------------------

  predicate Convertible(disk: Disk, name: FileName) {
    name in disk && disk[name].WavFile? && disk[name].asCaptured
  }

  /** Capture's own WAV of `role` is in the folder, no role names it, and the
      record has its FLAC or regenerates the role. */
  predicate LeftoverCandidate(disk: Disk, rec: Recording, role: Role) {
    var twin := Wav(CaptureStem(role));
    && twin in disk
    && (forall r | r in rec :: rec[r] != twin)
    && ((role in rec && rec[role] == Flac(CaptureStem(role)))
        || (role !in rec && Derived(role) && IsV2(rec)))
  }

  /** `role` gives the job something to do. */
  predicate RoleHasWork(disk: Disk, rec: Recording, role: Role, skip: set<FileName>) {
    if role in rec && rec[role].Wav? then Convertible(disk, rec[role])
    else LeftoverCandidate(disk, rec, role) && Wav(CaptureStem(role)) !in skip
  }

  ghost predicate HasWork(disk: Disk, rec: Recording, skip: set<FileName>) {
    AllInFolder(rec) && exists role :: RoleHasWork(disk, rec, role, skip)
  }

  /** No earlier role names the file of role `i`. */
  predicate FirstNaming(rec: Recording, i: nat)
    requires i < |ROLES| && ROLES[i] in rec
  {
    forall k | 0 <= k < i && ROLES[k] in rec :: rec[ROLES[k]] != rec[ROLES[i]]
  }

  /** The WAV of role `i`, if it is there and no earlier role's too. */
  predicate CountsWav(disk: Disk, rec: Recording, i: nat)
    requires i < |ROLES|
  {
    ROLES[i] in rec && rec[ROLES[i]].Wav? && rec[ROLES[i]] in disk && FirstNaming(rec, i)
  }

  /** The bytes to process among the first `n` roles. */
  function WavBytes(disk: Disk, rec: Recording, size: FileName -> nat, n: nat): nat
    requires n <= |ROLES|
  {
    if n == 0 then 0
    else
      WavBytes(disk, rec, size, n - 1)
      + if CountsWav(disk, rec, n - 1) && Convertible(disk, rec[ROLES[n - 1]]) then size(rec[ROLES[n - 1]]) else 0
  }

  /** The WAVs that stay WAV among the first `n` roles. */
  function StayingWavs(disk: Disk, rec: Recording, skip: set<FileName>, n: nat): nat
    requires n <= |ROLES|
  {
    if n == 0 then 0
    else
      var role := ROLES[n - 1];
      var stays :=
        if role in rec && rec[role].Wav? then CountsWav(disk, rec, n - 1) && !Convertible(disk, rec[role])
        else LeftoverCandidate(disk, rec, role) && Wav(CaptureStem(role)) in skip;
      StayingWavs(disk, rec, skip, n - 1) + if stays then 1 else 0
  }

  /** Of the bytes to process, each named WAV that can be converted is counted
      once, whatever roles name it, and no other file at all. */
  lemma EachFileCountsOnce(disk: Disk, rec: Recording, f: FileName)
    ensures WavBytes(disk, rec, (n: FileName) => if n == f then 1 else 0, |ROLES|)
            == if f in rec.Values && f.Wav? && Convertible(disk, f) then 1 else 0
  {
    BytesOfOne(disk, rec, f, |ROLES|);
    if f in rec.Values {
      var r :| r in rec && rec[r] == f;
      assert ROLES[IndexOf(r)] == r;
    }
  }

  lemma {:induction false} BytesOfOne(disk: Disk, rec: Recording, f: FileName, n: nat)
    requires n <= |ROLES|
    ensures WavBytes(disk, rec, (m: FileName) => if m == f then 1 else 0, n)
            == if f.Wav? && Convertible(disk, f) && exists i :: 0 <= i < n && ROLES[i] in rec && rec[ROLES[i]] == f then 1 else 0
    decreases n
  {
    if n > 0 {
      BytesOfOne(disk, rec, f, n - 1);
      var role := ROLES[n - 1];
      if role in rec && rec[role] == f {
        assert FirstNaming(rec, n - 1) <==> !exists i :: 0 <= i < n - 1 && ROLES[i] in rec && rec[ROLES[i]] == f;
      }
    }
  }

  /** And the bytes of files of two kinds are the sum of either. */
  lemma {:induction false} BytesAddUp(disk: Disk, rec: Recording, a: FileName -> nat, b: FileName -> nat, n: nat)
    requires n <= |ROLES|
    ensures WavBytes(disk, rec, (m: FileName) => a(m) + b(m), n) == WavBytes(disk, rec, a, n) + WavBytes(disk, rec, b, n)
    decreases n
  {
    if n > 0 {
      BytesAddUp(disk, rec, a, b, n - 1);
    }
  }

  /** `role` is the first to name a WAV that is there and can't be converted, or
      its leftover is skipped. */
  predicate StaysWav(disk: Disk, rec: Recording, skip: set<FileName>, role: Role) {
    if role in rec && rec[role].Wav? then
      rec[role] in disk && !Convertible(disk, rec[role])
      && forall r | r in rec && IndexOf(r) < IndexOf(role) :: rec[r] != rec[role]
    else LeftoverCandidate(disk, rec, role) && Wav(CaptureStem(role)) in skip
  }

  /** As many WAVs stay as roles have one that does. */
  lemma {:induction false} KeptCountsRoles(disk: Disk, rec: Recording, skip: set<FileName>, n: nat)
    requires n <= |ROLES|
    ensures StayingWavs(disk, rec, skip, n) == |set role: Role | IndexOf(role) < n && StaysWav(disk, rec, skip, role)|
    decreases n
  {
    var now := set role: Role | IndexOf(role) < n && StaysWav(disk, rec, skip, role);
    if n > 0 {
      KeptCountsRoles(disk, rec, skip, n - 1);
      StaysCounts(disk, rec, skip, n - 1);
      OneRoleMore(disk, rec, skip, n - 1);
    } else {
      assert now == {};
    }
  }

  lemma OneRoleMore(disk: Disk, rec: Recording, skip: set<FileName>, n: nat)
    requires n < |ROLES|
    ensures var before := set role: Role | IndexOf(role) < n && StaysWav(disk, rec, skip, role);
            var now := set role: Role | IndexOf(role) < n + 1 && StaysWav(disk, rec, skip, role);
            && now == (if StaysWav(disk, rec, skip, ROLES[n]) then before + {ROLES[n]} else before)
            && ROLES[n] !in before
  {
    RoleIndex(n);
    RoleAt(ROLES[n]);
  }

  lemma StaysCounts(disk: Disk, rec: Recording, skip: set<FileName>, n: nat)
    requires n < |ROLES|
    ensures StayingWavs(disk, rec, skip, n + 1)
            == StayingWavs(disk, rec, skip, n) + if StaysWav(disk, rec, skip, ROLES[n]) then 1 else 0
  {
    RoleIndex(n);
    if ROLES[n] in rec {
      EarlierRoles(rec, n);
    }
  }

  lemma EarlierRoles(rec: Recording, n: nat)
    requires n < |ROLES| && ROLES[n] in rec
    ensures FirstNaming(rec, n) <==> forall r | r in rec && IndexOf(r) < n :: rec[r] != rec[ROLES[n]]
  {
    forall r | r in rec && IndexOf(r) < n
      ensures FirstNaming(rec, n) ==> rec[r] != rec[ROLES[n]]
    {
      assert ROLES[IndexOf(r)] == r;
    }
    forall k | 0 <= k < n
      ensures IndexOf(ROLES[k]) == k
    {
      RoleIndex(k);
    }
  }

  lemma RoleIndex(i: nat)
    requires i < |ROLES|
    ensures IndexOf(ROLES[i]) == i && (Derived(ROLES[i]) <==> 2 <= i)
  {
  }

  lemma RoleAt(role: Role)
    ensures forall r :: IndexOf(r) < IndexOf(role) + 1 <==> IndexOf(r) < IndexOf(role) || r == role
  {
    assert forall r :: IndexOf(r) == IndexOf(role) ==> ROLES[IndexOf(r)] == ROLES[IndexOf(role)];
  }

  /** The planner's scan. `contained`: the recording has a folder inside
      `recordings/`; `newer`: a newer build owns its manifest. */
  method NeedsWorkSkipping(contained: bool, newer: bool, disk: Disk, rec: Recording, size: FileName -> nat, skip: set<FileName>)
    returns (work: bool, bytes: nat, kept: nat)
    ensures work <==> contained && !newer && HasWork(disk, rec, skip)
    ensures !contained || newer ==> bytes == 0 && kept == 0
    ensures contained && !newer && !AllInFolder(rec) ==> bytes == 0 && kept == 1
    ensures contained && !newer && AllInFolder(rec) ==>
              bytes == WavBytes(disk, rec, size, |ROLES|) && kept == StayingWavs(disk, rec, skip, |ROLES|)
  {
    work, bytes, kept := false, 0, 0;
    if !contained || newer {
      return;
    }
    if !AllInFolder(rec) {
      return false, 0, 1;
    }
    var seen: set<FileName> := {};
    for i := 0 to |ROLES|
      invariant work <==> exists k :: 0 <= k < i && RoleHasWork(disk, rec, ROLES[k], skip)
      invariant forall name :: name in seen <==>
                  exists k :: 0 <= k < i && ROLES[k] in rec && rec[ROLES[k]].Wav? && rec[ROLES[k]] == name
      invariant bytes == WavBytes(disk, rec, size, i) && kept == StayingWavs(disk, rec, skip, i)
    {
      var role := ROLES[i];
      if role in rec && rec[role].Wav? {
        var wav := rec[role];
        assert FirstNaming(rec, i) <==> wav !in seen;
        if wav in seen {
          continue; // counted for the role that shares it
        }
        seen := seen + {wav};
        if wav in disk {
          if Convertible(disk, wav) {
            work := true;
            bytes := bytes + size(wav);
          } else {
            kept := kept + 1;
          }
        }
      } else if LeftoverCandidate(disk, rec, role) {
        if Wav(CaptureStem(role)) in skip {
          kept := kept + 1;
        } else {
          work := true;
        }
      }
    }
    if role :| RoleHasWork(disk, rec, role, skip) {
      assert ROLES[IndexOf(role)] == role;
    }
  }

  /** Capture's own WAV of `role` is in the folder and no role names it. */
  predicate Unnamed(disk: Disk, rec: Recording, role: Role) {
    Wav(CaptureStem(role)) in disk && Wav(CaptureStem(role)) !in rec.Values
  }

  /** What the planner finds, role by role and of nothing else: a WAV that is
      named and can be converted, or an unnamed WAV of capture's, not skipped,
      of a role that is stored as its FLAC, or not at all where it regenerates. */
  lemma HasWorkExactlyWhen(disk: Disk, rec: Recording, skip: set<FileName>)
    ensures HasWork(disk, rec, skip) <==>
            && (forall r | r in rec :: !rec[r].Outside?)
            && exists role ::
                 || (role in rec && rec[role].Wav? && rec[role] in disk && disk[rec[role]].WavFile? && disk[rec[role]].asCaptured)
                 || (Unnamed(disk, rec, role) && Wav(CaptureStem(role)) !in skip
                     && if role in rec then rec[role] == Flac(CaptureStem(role))
                        else (role.Mixed? || role.Playback?)
                             && ((Mic in rec && rec[Mic].Flac?) || (System in rec && rec[System].Flac?)))
  {
    forall role
      ensures Unnamed(disk, rec, role) <==> Wav(CaptureStem(role)) in disk && forall r | r in rec :: rec[r] != Wav(CaptureStem(role))
    {
      if r :| r in rec && rec[r] == Wav(CaptureStem(role)) {
        assert rec[r] in rec.Values;
      }
    }
    forall role
      ensures RoleHasWork(disk, rec, role, skip) <==>
              if role in rec && rec[role].Wav? then Convertible(disk, rec[role])
              else Unnamed(disk, rec, role) && Wav(CaptureStem(role)) !in skip
                   && ((role in rec && rec[role] == Flac(CaptureStem(role))) || (role !in rec && Derived(role) && IsV2(rec)))
    {
    }
  }

  /** What a crash between commit and deletes can leave is work: any of capture's
      WAVs, of the layout it writes. */
  lemma CrashLeavesWork(disk: Disk, wav: FileName)
    requires wav in {Wav("recording.mic"), Wav("recording.system"), Wav("recording.mixed"), Wav("recording.playback")}
    requires wav in disk
    ensures HasWork(disk, map[Mic := Flac("recording.mic"), System := Flac("recording.system")], {})
  {
    var rec: Recording := map[Mic := Flac("recording.mic"), System := Flac("recording.system")];
    var role := if wav == Wav("recording.mic") then Mic else if wav == Wav("recording.system") then System
                else if wav == Wav("recording.mixed") then Mixed else Playback;
    assert LeftoverCandidate(disk, rec, role) && RoleHasWork(disk, rec, role, {});
  }

  /** Not so when the role is stored under another name, whatever it holds. */
  lemma StoredElsewhereIsNoWork(disk: Disk, stem: string)
    requires stem != "recording.mic" && disk.Keys == {Wav("recording.mic"), Flac(stem)}
    ensures !HasWork(disk, map[Mic := Flac(stem)], {})
  {
    var rec: Recording := map[Mic := Flac(stem)];
    forall role
      ensures !RoleHasWork(disk, rec, role, {})
    {
      if !role.Mic? {
        CaptureStemsDiffer(role);
      }
    }
  }

  lemma CaptureStemsDiffer(role: Role)
    ensures CaptureStem(role) == "recording.mic" ==> role == Mic
  {
    assert "recording.mic"[10] == 'm' && "recording.system"[10] == 's' && "recording.playback"[10] == 'p';
    assert |"recording.mixed"| != |"recording.mic"|;
  }

  /** What the rebuild of a derived role is compared with. */
  predicate RegeneratesTo(regen: Regen, disk: Disk, rec: Recording, role: Role, wav: FileName) {
    wav in disk && disk[wav].WavFile? && Regenerated(regen, disk, rec, role) == Some(disk[wav].audio)
  }

  // -------------------------------------------------------------------------
  // What becomes of each role
  // -------------------------------------------------------------------------

  /** A run stores `role` as a FLAC, unless it fails before. */
  predicate FlacToBe(before: Disk, was: Recording, role: Role) {
    role in was && (was[role].Flac? || (was[role].Wav? && Convertible(before, was[role])))
  }

  /** A derived WAV, no source's file too, that the sources regenerate in a
      recording which will be storage v2. */
  predicate Droppable(regen: Regen, before: Disk, was: Recording, role: Role) {
    && role in was && Derived(role) && was[role].Wav?
    && (FlacToBe(before, was, Mic) || FlacToBe(before, was, System))
    && RegeneratesTo(regen, before, was, role, was[role])
    && (forall q | q in was && !Derived(q) :: was[q] != was[role])
  }

  function FileOf(rec: Recording, role: Role): Option<FileName> {
    if role in rec then Some(rec[role]) else None
  }

  /** The file `role` has in the record a run commits: dropped, FLAC or as it was. */
  function Destined(regen: Regen, before: Disk, was: Recording, role: Role): Option<FileName> {
    if Droppable(regen, before, was, role) then None
    else if role in was && was[role].Wav? && Convertible(before, was[role]) then Some(Flac(was[role].stem))
    else FileOf(was, role)
  }

  /** Each of the first `n` roles has the file destined for it, unless a
      comparison of its file failed. */
  ghost predicate Fits(regen: Regen, before: Disk, was: Recording, next: Recording, n: nat, mishaps: set<Mishap>) {
    forall r | r in was && IndexOf(r) < n && Misread(was[r]) !in mishaps ::
      FileOf(next, r) == Destined(regen, before, was, r)
  }

  /** Settling the first `n` roles takes the FLAC of `stem`: a WAV becomes it. */
  ghost predicate Took(regen: Regen, before: Disk, was: Recording, n: nat, stem: string) {
    exists r :: IndexOf(r) < n && FileOf(was, r) == Some(Wav(stem)) && Destined(regen, before, was, r) == Some(Flac(stem))
  }

  ghost predicate SameAt(before: Disk, after: Disk, name: FileName) {
    (name in before <==> name in after) && (name in before ==> before[name] == after[name])
  }

  /** The WAV whose conversion failed. */
  function FileAt(e: MeetingError): Option<string> {
    match e
    case Failed(NoRoomFor(stem)) => Some(stem)
    case Failed(StaleFlacStays(stem)) => Some(stem)
    case Failed(EncodeFailed(stem)) => Some(stem)
    case Failed(SizeUnread(stem)) => Some(stem)
    case _ => None
  }

  /** The first role that names the WAV. */
  function IndexOfWav(rec: Recording, stem: string): (n: nat)
    ensures n <= |ROLES|
    ensures forall r :: FileOf(rec, r) == Some(Wav(stem)) ==> n <= IndexOf(r)
    ensures n < |ROLES| ==> FileOf(rec, ROLES[n]) == Some(Wav(stem))
  {
    if FileOf(rec, Mic) == Some(Wav(stem)) then 0
    else if FileOf(rec, System) == Some(Wav(stem)) then 1
    else if FileOf(rec, Mixed) == Some(Wav(stem)) then 2
    else if FileOf(rec, Playback) == Some(Wav(stem)) then 3
    else 4
  }

  /** How many roles a run was done with when it failed with `e` (a stop apart):
      those before the one whose file failed, none if it never got to one, and
      all of them once it was at the commit. */
  function RolesDone(was: Recording, e: MeetingError): nat {
    if FileAt(e).Some? then IndexOfWav(was, FileAt(e).value)
    else if e == Failed(NoRoom) || e == Failed(OutsideFolder) then 0
    else |ROLES|
  }
}
