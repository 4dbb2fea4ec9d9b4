// Compressing one meeting: encode, verify, rename, commit, delete. The folder
// and its record are one object whose every durable change is a separate step,
// logged in the field `trace`; a crash can strike between any two. Whatever the
// outside world does wrong is asked for step by step and logged in `mishaps`.
module Compression {
  import opened Wrappers
  import opened Recordings
  import opened Manifests
  import opened CompressionPlan
  import opened CompressionProgress
  import opened CompressionOutcome

  class MeetingStore {
    const regen: Regen
    const fate: Fate
    var disk: Disk
    var row: Option<Recording>
    var manifest: Recording
    var trace: seq<Durable>
    var tick: nat
    var mishaps: set<Mishap>

    constructor (regen: Regen, fate: Fate, disk: Disk, row: Option<Recording>, manifest: Recording)
      ensures this.regen == regen && this.fate == fate
      ensures this.disk == disk && this.row == row && this.manifest == manifest
      ensures trace == [] && mishaps == {}
    {
      this.regen, this.fate, this.disk, this.row, this.manifest := regen, fate, disk, row, manifest;
      trace, tick, mishaps := [], 0, {};
    }

    function Now(): Durable
      reads this
    {
      Durable(disk, row, manifest)
    }

    /** Whether `m` goes wrong at this moment. */
    method Happens(m: Mishap) returns (bad: bool)
      modifies this`tick, this`mishaps
      ensures mishaps == if bad then old(mishaps) + {m} else old(mishaps)
      ensures Grew(fate, old(mishaps), mishaps)
      ensures !bad ==> exists t :: !fate(m, t)
    {
      bad := fate(m, tick);
      tick := tick + 1;
      if bad {
        mishaps := mishaps + {m};
      }
    }

    // ---- one durable step each ----

    method WriteFile(name: FileName, content: Content)
      modifies this`disk, this`trace
      ensures disk == old(disk)[name := content]
      ensures trace == old(trace) + [Now()]
    {
      disk := disk[name := content];
      trace := trace + [Now()];
    }

    method RenameFile(from: FileName, to: FileName)
      requires from in disk && from != to
      modifies this`disk, this`trace
      ensures disk == old(disk)[to := old(disk)[from]] - {from}
      ensures trace == old(trace) + [Now()]
    {
      disk := disk[to := disk[from]] - {from};
      trace := trace + [Now()];
    }

    /** The file is gone afterwards, unless its removal was refused. */
    method RemoveFile(name: FileName) returns (ok: bool)
      modifies this`disk, this`trace, this`tick, this`mishaps
      ensures disk == (if ok then old(disk) - {name} else old(disk))
      ensures ok ==> name in old(disk)
      ensures !ok && name in old(disk) ==> Refused(name) in mishaps
      ensures Grew(fate, old(mishaps), mishaps)
      ensures Unharmed(old(mishaps)) ==> Unharmed(mishaps)
      ensures trace == if ok then old(trace) + [Now()] else old(trace)
    {
      if name !in disk {
        return false;
      }
      var bad := Happens(Refused(name));
      if bad {
        return false;
      }
      disk := disk - {name};
      trace := trace + [Now()];
      ok := true;
    }

    // ---- comparisons ----

    /** Decode-and-compare: it says whether the FLAC holds exactly the WAV's
        samples, unless it is stopped or fails to read them. */
    method Verify(flac: FileName, wav: FileName) returns (v: Verdict)
      modifies this`tick, this`mishaps
      ensures v.Match? ==> Matches(disk, flac, wav)
      ensures v.Differs? ==> !Matches(disk, flac, wav) || Misread(wav) in mishaps
      ensures v.Interrupted? ==> Stop in mishaps
      ensures Grew(fate, old(mishaps), mishaps)
      ensures Unharmed(old(mishaps)) ==> Unharmed(mishaps)
    {
      var stop := Happens(Stop);
      if stop {
        return Interrupted;
      }
      var misread := Happens(Misread(wav));
      v := if !misread && Matches(disk, flac, wav) then Match else Differs;
    }

    /** Whether regenerating `role` from the sources yields exactly the stored
        WAV, unless the comparison is stopped or fails. */
    method MatchesStored(rec: Recording, role: Role, wav: FileName) returns (v: Verdict)
      modifies this`tick, this`mishaps
      ensures v.Match? ==> RegeneratesTo(regen, disk, rec, role, wav)
      ensures v.Differs? ==> !RegeneratesTo(regen, disk, rec, role, wav) || Misread(wav) in mishaps
      ensures v.Interrupted? ==> Stop in mishaps
      ensures Grew(fate, old(mishaps), mishaps)
      ensures Unharmed(old(mishaps)) ==> Unharmed(mishaps)
    {
      var stop := Happens(Stop);
      if stop {
        return Interrupted;
      }
      var misread := Happens(Misread(wav));
      v := if !misread && RegeneratesTo(regen, disk, rec, role, wav) then Match else Differs;
    }

    // ---- one file ----

    /** Encode the WAV under the temp name and verify that. An encoder that
        goes wrong may write anything at all, and may not notice. */
    method EncodeTemp(stem: string) returns (r: Result<(), MeetingError>)
      requires Convertible(disk, Wav(stem))
      modifies this`disk, this`trace, this`tick, this`mishaps
      ensures old(trace) <= trace && OnlyFiles(trace, |old(trace)|, old(Now()), {Temp(stem)})
      ensures SameBut(old(disk), disk, {Temp(stem)})
      ensures Grew(fate, old(mishaps), mishaps)
      ensures Unharmed(old(mishaps)) ==> Unharmed(mishaps)
      ensures r.Ok? ==> Matches(disk, Temp(stem), Wav(stem))
      ensures r.Err? ==> Caused(r.error, mishaps) && r.error in {Stopped, Failed(EncodeFailed(stem))}
    {
      var miscoded := Happens(Miscoded(stem));
      var written := FlacFile(disk[Wav(stem)].audio);
      if miscoded {
        written := *;
      }
      WriteFile(Temp(stem), written);
      var stop := Happens(Stop);
      if stop {
        return Err(Stopped);
      }
      var noticed: bool := *;
      if miscoded && noticed {
        return Err(Failed(EncodeFailed(stem)));
      }
      var verified := Verify(Temp(stem), Wav(stem));
      match verified {
        case Match => r := Ok(());
        case Differs => r := Err(Failed(EncodeFailed(stem)));
        case Interrupted => r := Err(Stopped);
      }
    }

    /** Encode the WAV into its verified FLAC. */
    method EncodeInto(stem: string) returns (r: Result<(), MeetingError>)
      requires Flac(stem) !in disk && Convertible(disk, Wav(stem))
      modifies this`disk, this`trace, this`tick, this`mishaps
      ensures WroteFlac(old(trace), trace, old(Now()), Now(), stem)
      ensures Grew(fate, old(mishaps), mishaps)
      ensures r.Ok? && Unharmed(old(mishaps)) ==> Unharmed(mishaps)
      ensures r.Ok? ==> Matches(disk, Flac(stem), Wav(stem)) && Sizeable(fate, Flac(stem)) && Temp(stem) !in disk
      ensures r.Err? ==> Caused(r.error, mishaps)
      ensures r.Err? ==> r.error in {Stopped, Failed(EncodeFailed(stem)), Failed(SizeUnread(stem))}
      ensures r.Err? ==> if r.error == Failed(SizeUnread(stem)) then Matches(disk, Flac(stem), Wav(stem))
                         else Flac(stem) !in disk
    {
      r := EncodeTemp(stem);
      TempStepsWroteFlac(old(trace), trace, old(Now()), Now(), stem);
      if r.Err? {
        return;
      }
      var unset := Happens(Miscoded(stem));
      if unset {
        return Err(Failed(EncodeFailed(stem)));
      }
      ghost var t, mid := trace, Now();
      RenameFile(Temp(stem), Flac(stem));
      WroteFlacThen(old(trace), t, old(Now()), mid, Now(), stem);
      var unread := Happens(NoSize(Flac(stem)));
      if unread {
        return Err(Failed(SizeUnread(stem)));
      }
    }

    /** The FLAC an interrupted earlier run put in place: reused if it verifies
        against the WAV, else removed. */
    method ReuseFlac(stem: string) returns (r: Result<(), MeetingError>)
      requires Flac(stem) in disk
      modifies this`disk, this`trace, this`tick, this`mishaps
      ensures WroteFlac(old(trace), trace, old(Now()), Now(), stem) && FlacsVerified(old(disk), disk)
      ensures SameBut(old(disk), disk, {Flac(stem)})
      ensures Grew(fate, old(mishaps), mishaps)
      ensures r.Ok? && Unharmed(old(mishaps)) ==> Unharmed(mishaps)
      ensures Flac(stem) in disk ==> disk[Flac(stem)] == old(disk)[Flac(stem)]
      ensures Flac(stem) !in disk ==> r.Ok? && (!Matches(old(disk), Flac(stem), Wav(stem)) || Misread(Wav(stem)) in mishaps)
      ensures r.Ok? && Flac(stem) in disk ==> Matches(disk, Flac(stem), Wav(stem)) && Sizeable(fate, Flac(stem))
      ensures r.Err? ==> Caused(r.error, mishaps)
      ensures r.Err? ==> r.error in {Stopped, Failed(StaleFlacStays(stem)), Failed(SizeUnread(stem))}
      ensures r == Err(Failed(SizeUnread(stem))) ==> Matches(disk, Flac(stem), Wav(stem))
    {
      var verdict := Verify(Flac(stem), Wav(stem));
      match verdict {
        case Match =>
          var unread := Happens(NoSize(Flac(stem)));
          r := if unread then Err(Failed(SizeUnread(stem))) else Ok(());
        case Interrupted =>
          r := Err(Stopped);
        case Differs =>
          var removed := RemoveFile(Flac(stem));
          r := if removed then Ok(()) else Err(Failed(StaleFlacStays(stem)));
      }
    }

    /** Build it anew; the temp file goes if that fails. */
    method BuildFlac(stem: string) returns (r: Result<(), MeetingError>)
      requires Flac(stem) !in disk && Convertible(disk, Wav(stem))
      modifies this`disk, this`trace, this`tick, this`mishaps
      ensures WroteFlac(old(trace), trace, old(Now()), Now(), stem)
      ensures Temp(stem) in disk ==> Temp(stem) in old(disk) || Refused(Temp(stem)) in mishaps
      ensures Grew(fate, old(mishaps), mishaps)
      ensures r.Ok? && Unharmed(old(mishaps)) ==> Unharmed(mishaps)
      ensures r.Ok? ==> Matches(disk, Flac(stem), Wav(stem)) && Sizeable(fate, Flac(stem))
      ensures r.Err? ==> Caused(r.error, mishaps)
      ensures r.Err? ==> r.error in {Stopped, Failed(NoRoomFor(stem)), Failed(EncodeFailed(stem)), Failed(SizeUnread(stem))}
      ensures r.Err? ==> if r.error == Failed(SizeUnread(stem)) then Matches(disk, Flac(stem), Wav(stem))
                         else Flac(stem) !in disk
    {
      var full := Happens(NoSpace);
      if full {
        return Err(Failed(NoRoomFor(stem)));
      }
      r := EncodeInto(stem);
      if r.Err? {
        ghost var t, mid := trace, Now();
        var ok := RemoveFile(Temp(stem));
        if ok {
          TempGone(old(disk), mid.disk, disk, stem);
          WroteFlacThen(old(trace), t, old(Now()), mid, Now(), stem);
        }
      }
    }

    /** A FLAC found under the final name is kept if comparing it with the WAV
        finds no difference; failing that it makes way for a new one. */
    method ConvertOne(stem: string) returns (r: Result<(), MeetingError>)
      requires Convertible(disk, Wav(stem))
      modifies this`disk, this`trace, this`tick, this`mishaps
      ensures Converted(fate, old(trace), trace, old(Now()), Now(), stem, r, old(mishaps), mishaps)
    {
      ghost var t, mid := trace, Now();
      if Flac(stem) in disk {
        r := ReuseFlac(stem);
        if r.Err? || Flac(stem) in disk {
          return;
        }
        t, mid := trace, Now();
      }
      r := BuildFlac(stem);
      WroteFlacMore(old(trace), t, trace, old(Now()), mid, Now(), stem);
    }

    // ---- the whole meeting ----

    ghost predicate On(run: Run, d: Draft, unlisted: set<FileName>)
      reads this
    {
      regen == run.regen && Standing(run, fate, trace, Now(), d, unlisted, mishaps)
    }

    /** ...and is done with the first `n` roles. */
    ghost predicate DoneWith(run: Run, d: Draft, n: nat)
      reads this
    {
      On(run, d, {}) && DoneTo(run, disk, d, n, mishaps) && Unharmed(mishaps)
    }

    /** How a run stands when it fails before the commit. */
    ghost predicate Failing(run: Run, d: Draft, e: MeetingError)
      reads this
    {
      regen == run.regen && FailsStanding(run, fate, trace, Now(), d, e, mishaps)
    }

    /** Convert the WAV of `role`; the record follows, and so does a derived
        role that is the same file as a source. */
    method ConvertRole(role: Role, planned: Recording, d: Draft, ghost run: Run)
      returns (r: Result<(), MeetingError>, d': Draft)
      requires planned == run.planned && On(run, d, {}) && Unharmed(mishaps)
      requires role in planned && planned[role].Wav? && InTurn(run, disk, d, role, planned[role].stem, mishaps)
      requires Droppable(regen, run.start.disk, planned, role) ==> Misread(planned[role]) in mishaps
      modifies this`disk, this`trace, this`tick, this`mishaps
      ensures r.Ok? ==>
                && DoneWith(run, d', IndexOf(role) + 1)
                && d'.next == Substitute(d.next, planned[role], Flac(planned[role].stem))
                && d'.toDelete == d.toDelete + [planned[role]]
      ensures r.Err? ==> d' == d && Failing(run, d, r.error)
    {
      var stem := planned[role].stem;
      ghost var before, t, had := Now(), trace, mishaps;
      r := ConvertOne(stem);
      d' := d;
      if r.Ok? {
        RoleConverted(run, fate, t, trace, before, Now(), d, role, stem, had, mishaps);
        d' := Draft(Repointed(planned, d.next, role, Flac(stem)), d.toDelete + [Wav(stem)], d.uncommitted + [Flac(stem)]);
      } else {
        RoleUnconverted(run, fate, t, trace, before, Now(), d, role, stem, r.error, had, mishaps);
      }
    }

    /** One source to FLAC, if it is a WAV that can be. */
    method ConvertSource(role: Role, planned: Recording, d: Draft, ghost run: Run)
      returns (r: Result<(), MeetingError>, d': Draft)
      requires planned == run.planned && DoneWith(run, d, IndexOf(role)) && !Derived(role)
      modifies this`disk, this`trace, this`tick, this`mishaps
      ensures r.Ok? ==> DoneWith(run, d', IndexOf(role) + 1)
      ensures r.Err? ==> Failing(run, d', r.error)
    {
      if role !in planned || !planned[role].Wav? || !Convertible(disk, planned[role]) {
        SourceStays(run, trace, Now(), d, role, mishaps);
        return Ok(()), d;
      }
      SourceInTurn(run, disk, d, role, mishaps);
      r, d' := ConvertRole(role, planned, d, run);
    }

    /** 1. Sources to FLAC. */
    method ConvertSources(planned: Recording, start: Draft, ghost run: Run) returns (r: Result<(), MeetingError>, d: Draft)
      requires planned == run.planned && DoneWith(run, start, 0)
      modifies this`disk, this`trace, this`tick, this`mishaps
      ensures r.Ok? ==> DoneWith(run, d, 2)
      ensures r.Err? ==> Failing(run, d, r.error)
    {
      r, d := Ok(()), start;
      for i := 0 to 2
        invariant r.Ok? && DoneWith(run, d, i)
      {
        RoleIndex(i);
        r, d := ConvertSource(ROLES[i], planned, d, run);
        if r.Err? {
          return;
        }
      }
    }

    /** A derived file that stays is converted, if it is a WAV that can be. */
    method ConvertDerived(role: Role, planned: Recording, d: Draft, ghost run: Run)
      returns (r: Result<(), MeetingError>, d': Draft)
      requires planned == run.planned && DoneWith(run, d, IndexOf(role)) && Derived(role)
      requires role in d.next && d.next[role] == planned[role] && planned[role].Wav?
      requires Droppable(regen, run.start.disk, planned, role) ==> Misread(planned[role]) in mishaps
      modifies this`disk, this`trace, this`tick, this`mishaps
      ensures r.Ok? ==> DoneWith(run, d', IndexOf(role) + 1)
      ensures r.Err? ==> Failing(run, d', r.error)
    {
      if !Convertible(disk, planned[role]) {
        DerivedStays(run, trace, Now(), d, role, mishaps);
        return Ok(()), d;
      }
      DerivedInTurn(run, trace, Now(), d, role, mishaps);
      r, d' := ConvertRole(role, planned, d, run);
    }

    /** Whether the derived file `wav` regenerates exactly from the sources as
        they will be stored. */
    method Regenerable(next: Recording, role: Role, wav: FileName) returns (v: Verdict)
      modifies this`tick, this`mishaps
      ensures v.Match? ==> IsV2(next) && RegeneratesTo(regen, disk, next, role, wav)
      ensures v.Differs? ==> !IsV2(next) || !RegeneratesTo(regen, disk, next, role, wav) || Misread(wav) in mishaps
      ensures v.Interrupted? ==> Stop in mishaps
      ensures Grew(fate, old(mishaps), mishaps)
      ensures Unharmed(old(mishaps)) ==> Unharmed(mishaps)
    {
      if !IsV2(next) {
        return Differs;
      }
      v := MatchesStored(next, role, wav);
    }

    /** One derived file: drop it if it regenerates exactly from the sources as
        they will be stored, else convert it. */
    method SettleOne(role: Role, planned: Recording, d: Draft, ghost run: Run)
      returns (r: Result<(), MeetingError>, d': Draft)
      requires planned == run.planned && Grounded(run) && DoneWith(run, d, IndexOf(role)) && Derived(role)
      modifies this`disk, this`trace, this`tick, this`mishaps
      ensures r.Ok? ==> DoneWith(run, d', IndexOf(role) + 1)
      ensures r.Err? ==> Failing(run, d', r.error)
    {
      if role !in planned || !planned[role].Wav? || d.next[role] != planned[role] || planned[role] !in disk {
        NothingToSettleFits(run, trace, Now(), d, role, mishaps);
        return Ok(()), d;
      }
      var wav := planned[role];
      ghost var had := mishaps;
      var verdict := Regenerable(d.next, role, wav);
      StillThere(run, fate, trace, Now(), d, IndexOf(role), had, mishaps);
      match verdict {
        case Interrupted =>
          PlainlyFails(run, fate, trace, Now(), d, Stopped, had, mishaps);
          r, d' := Err(Stopped), d;
        case Match =>
          RoleDropped(run, fate, trace, Now(), d, role, mishaps);
          r, d' := Ok(()), Draft(d.next - {role}, d.toDelete + [wav], d.uncommitted);
        case Differs =>
          RoleDiffers(run, trace, Now(), d, role, mishaps);
          r, d' := ConvertDerived(role, planned, d, run);
      }
    }

    /** 2. Derived files. */
    method SettleDerived(planned: Recording, sources: Draft, ghost run: Run) returns (r: Result<(), MeetingError>, d: Draft)
      requires planned == run.planned && Grounded(run) && DoneWith(run, sources, 2)
      modifies this`disk, this`trace, this`tick, this`mishaps
      ensures r.Ok? ==> DoneWith(run, d, |ROLES|)
      ensures r.Err? ==> Failing(run, d, r.error)
    {
      r, d := Ok(()), sources;
      for i := 2 to |ROLES|
        invariant r.Ok? && DoneWith(run, d, i)
      {
        RoleIndex(i);
        r, d := SettleOne(ROLES[i], planned, d, run);
        if r.Err? {
          return;
        }
      }
    }

    /** Temp files under capture's names, which only a run cut short leaves. */
    method RemoveStrays(planned: Recording, ghost run: Run)
      requires planned == run.planned && On(run, Draft(planned, [], []), {}) && Now() == run.start && mishaps == {}
      modifies this`disk, this`trace, this`tick, this`mishaps
      ensures DoneWith(run, Draft(planned, [], []), 0)
    {
      for i := 0 to |ROLES|
        invariant On(run, Draft(planned, [], []), {}) && StartsTidy(run.start.disk, disk, i, mishaps) && Unharmed(mishaps)
      {
        ghost var before, t, had := Now(), trace, mishaps;
        var _ := RemoveFile(Temp(CaptureStem(ROLES[i])));
        StrayGoneStands(run, fate, t, before, trace, Now(), CaptureStem(ROLES[i]), had, mishaps);
        TidiesOne(run.start.disk, before.disk, disk, i, had, mishaps);
      }
      StartsAtNone(run, disk, mishaps);
    }

    /** Re-prove the leftover WAV of `role` against what is stored. */
    method ProveLeftover(role: Role, next: Recording) returns (proven: bool)
      requires LeftoverCandidate(disk, next, role)
      modifies this`tick, this`mishaps
      ensures Grew(fate, old(mishaps), mishaps)
      ensures Unharmed(old(mishaps)) ==> Unharmed(mishaps)
      ensures proven ==> Expendable(regen, disk, next, Wav(CaptureStem(role)))
      ensures !proven ==> !Provable(regen, disk, next, role) || Misread(Wav(CaptureStem(role))) in mishaps || Stop in mishaps
    {
      var twin := Wav(CaptureStem(role));
      var verdict;
      if role in next {
        verdict := Verify(next[role], twin);
      } else {
        verdict := MatchesStored(next, role, twin);
      }
      proven := verdict.Match?;
      if proven {
        assert Heard(regen, disk, next, role) == ReadFile(disk, twin).Audio();
      }
    }

    /** Capture's WAVs that an earlier run committed and didn't get to delete.
        One that proves to differ stays, and is reported. */
    method ProveLeftovers(d: Draft, skip: set<FileName>)
      returns (r: Result<(), MeetingError>, leftovers: seq<FileName>, unproven: set<FileName>)
      modifies this`tick, this`mishaps
      ensures Grew(fate, old(mishaps), mishaps)
      ensures r.Ok? && Unharmed(old(mishaps)) ==> Unharmed(mishaps)
      ensures r.Err? ==> r.error.Stopped? && Stop in mishaps
      ensures r.Ok? ==> Sorted(regen, disk, d, skip, leftovers, unproven, |ROLES|, mishaps)
    {
      leftovers, unproven := [], {};
      for i := 0 to |ROLES|
        invariant Grew(fate, old(mishaps), mishaps)
        invariant Unharmed(old(mishaps)) ==> Unharmed(mishaps)
        invariant Sorted(regen, disk, d, skip, leftovers, unproven, i, mishaps)
      {
        var role := ROLES[i];
        var twin := Wav(CaptureStem(role));
        assert IndexOf(role) == i;
        forall q | IndexOf(q) < i
          ensures Wav(CaptureStem(q)) != twin
        {
          StemsDiffer(q, role);
        }
        if !LeftoverCandidate(disk, d.next, role) || twin in d.toDelete || twin in skip {
          continue;
        }
        var proven := ProveLeftover(role, d.next);
        var stop := Happens(Stop);
        if stop {
          return Err(Stopped), leftovers, unproven;
        }
        if proven {
          leftovers := leftovers + [twin];
        } else {
          unproven := unproven + {twin};
        }
      }
      r := Ok(());
    }

    method CheckLeftovers(planned: Recording, d: Draft, skip: set<FileName>, ghost run: Run)
      returns (r: Result<(), MeetingError>, leftovers: seq<FileName>, unproven: set<FileName>)
      requires planned == run.planned && DoneWith(run, d, |ROLES|)
      modifies this`tick, this`mishaps
      ensures r.Ok? ==> DoneWith(run, d, |ROLES|) && Sorted(regen, disk, d, skip, leftovers, unproven, |ROLES|, mishaps)
      ensures r.Err? ==> Failing(run, d, r.error)
    {
      ghost var had := mishaps;
      r, leftovers, unproven := ProveLeftovers(d, skip);
      StillThere(run, fate, trace, Now(), d, |ROLES|, had, mishaps);
      if r.Err? {
        PlainlyFails(run, fate, trace, Now(), d, r.error, had, mishaps);
      }
    }

    /** Everything before the commit. */
    method Prepare(planned: Recording, skip: set<FileName>, ghost run: Run)
      returns (r: Result<(), MeetingError>, d: Draft, leftovers: seq<FileName>, unproven: set<FileName>)
      requires planned == run.planned && Grounded(run) && On(run, Draft(planned, [], []), {})
      requires Now() == run.start && mishaps == {}
      modifies this`disk, this`trace, this`tick, this`mishaps
      ensures r.Ok? ==> DoneWith(run, d, |ROLES|)
      ensures r.Ok? ==> Sorted(regen, disk, d, skip, leftovers, unproven, |ROLES|, mishaps)
      ensures r.Err? ==> Failing(run, d, r.error)
    {
      leftovers, unproven, d := [], {}, Draft(planned, [], []);
      RemoveStrays(planned, run);
      ghost var had := mishaps;
      var full := Happens(NoSpace);
      StillThere(run, fate, trace, Now(), d, 0, had, mishaps);
      if full {
        PlainlyFails(run, fate, trace, Now(), d, Failed(NoRoom), had, mishaps);
        return Err(Failed(NoRoom)), d, leftovers, unproven;
      }
      r, d := ConvertSources(planned, d, run);
      if r.Ok? {
        r, d := SettleDerived(planned, d, run);
      }
      if r.Ok? {
        r, leftovers, unproven := CheckLeftovers(planned, d, skip, run);
      }
    }

    /** 4. Delete: nothing else goes, and every file is gone afterwards unless
        its removal was refused. */
    method DeleteAll(doomed: seq<FileName>)
      modifies this`disk, this`trace, this`tick, this`mishaps
      ensures Deletes(old(trace), trace, old(Now()), Now(), doomed, mishaps)
      ensures Grew(fate, old(mishaps), mishaps)
      ensures Unharmed(old(mishaps)) ==> Unharmed(mishaps)
    {
      for i := 0 to |doomed|
        invariant old(trace) <= trace && OnlyFiles(trace, |old(trace)|, old(Now()), Names(doomed))
        invariant ShrinksFrom(old(disk), trace, |old(trace)|)
        invariant SameBut(old(disk), disk, Names(doomed))
        invariant forall n | n in disk :: n in old(disk) && disk[n] == old(disk)[n]
        invariant Grew(fate, old(mishaps), mishaps)
        invariant Unharmed(old(mishaps)) ==> Unharmed(mishaps)
        invariant forall k | 0 <= k < i && doomed[k] in disk :: Refused(doomed[k]) in mishaps
        invariant if trace == old(trace) then disk == old(disk) else trace[|trace| - 1] == Now()
      {
        var _ := RemoveFile(doomed[i]);
      }
    }

    method WriteManifest(next: Recording) returns (ok: bool)
      modifies this`manifest, this`trace, this`tick, this`mishaps
      ensures manifest == if ok then next else old(manifest)
      ensures trace == if ok then old(trace) + [Now()] else old(trace)
      ensures !ok ==> WriteFailed in mishaps
      ensures Grew(fate, old(mishaps), mishaps)
      ensures ok && Unharmed(old(mishaps)) ==> Unharmed(mishaps)
    {
      var unwritten := Happens(WriteFailed);
      if unwritten {
        return false;
      }
      manifest := next;
      trace := trace + [Now()];
      ok := true;
    }

    method WriteRow(next: Recording) returns (ok: bool)
      modifies this`row, this`trace, this`tick, this`mishaps
      ensures row == if ok then Some(next) else old(row)
      ensures trace == if ok then old(trace) + [Now()] else old(trace)
      ensures !ok ==> WriteFailed in mishaps
      ensures Grew(fate, old(mishaps), mishaps)
      ensures ok && Unharmed(old(mishaps)) ==> Unharmed(mishaps)
    {
      var unwritten := Happens(WriteFailed);
      if unwritten {
        return false;
      }
      row := Some(next);
      trace := trace + [Now()];
      ok := true;
    }

    /** The manifest first, then the row, which is then read back; nothing when
        only leftovers were found. */
    method ReplaceRecording(planned: Recording, next: Recording) returns (ok: bool)
      requires row == Some(planned)
      modifies this`row, this`manifest, this`trace, this`tick, this`mishaps
      ensures Replaced(old(trace), trace, old(Now()), Now(), planned, next, ok, mishaps)
      ensures Grew(fate, old(mishaps), mishaps)
      ensures ok && Unharmed(old(mishaps)) ==> Unharmed(mishaps)
    {
      if next == planned {
        return true;
      }
      ok := WriteManifest(next);
      if ok {
        ok := WriteRow(next);
        if ok {
          var unread := Happens(RereadFailed);
          ok := !unread;
        }
      }
    }

    /** The row is another writer's by now, and so is its audio. */
    ghost predicate Displaced(env: Interference)
      reads this`row
    {
      env.Changed? && row == Some(env.rec)
    }

    method DeleteReplaced(d: Draft, leftovers: seq<FileName>, ghost run: Run, ghost t: seq<Durable>, ghost now: Durable)
      requires Grounded(run) && Progress(run, t, now, d, {}) && regen == run.regen && disk == now.disk
      requires row == Some(d.next) && manifest == if d.next == run.planned then run.start.manifest else d.next
      requires GoodTrace(run, trace)
      requires forall w | w in leftovers :: Expendable(regen, disk, d.next, w)
      modifies this`disk, this`trace, this`tick, this`mishaps
      ensures old(trace) <= trace && GoodTrace(run, trace) && GoodNow(run, Now())
      ensures Swept(old(disk), disk, d.toDelete + leftovers, mishaps)
      ensures Grew(fate, old(mishaps), mishaps)
      ensures Unharmed(old(mishaps)) ==> Unharmed(mishaps)
    {
      ghost var at, base := trace, Now();
      DeleteAll(d.toDelete + leftovers);
      CommittedDeletesAreGood(run, t, now, d, leftovers, at, base, trace, Now(), mishaps);
    }

    method ReplaceAndDelete(planned: Recording, d: Draft, leftovers: seq<FileName>, ghost run: Run)
      returns (r: Result<(), MeetingError>)
      requires planned == run.planned && Grounded(run) && On(run, d, {}) && GoodTrace(run, trace) && GoodNow(run, Now())
      requires row == Some(planned)
      requires forall w | w in leftovers :: Expendable(regen, disk, d.next, w)
      modifies this
      ensures old(trace) <= trace && GoodTrace(run, trace) && GoodNow(run, Now())
      ensures Grew(fate, old(mishaps), mishaps)
      ensures r.Ok? && Unharmed(old(mishaps)) ==> Unharmed(mishaps)
      ensures r.Ok? ==> row == Some(d.next) && Swept(old(disk), disk, d.toDelete + leftovers, mishaps)
      ensures r.Ok? && d.next != planned ==>
                |old(trace)| < |trace| && trace[|old(trace)|] == Durable(old(disk), Some(planned), d.next)
      ensures r.Err? ==> disk == old(disk) && r.error == Failed(ReplaceFailed)
      ensures r.Err? ==> NotCommitted(planned, old(Now()), Now(), d.next, Undisturbed, mishaps)
      ensures r.Err? ==> forall i | |old(trace)| <= i < |trace| :: trace[i].disk == disk
    {
      ghost var t, now := trace, Now();
      var recorded := ReplaceRecording(planned, d.next);
      ReplacedIsGood(run, t, now, d, trace, Now(), recorded, mishaps);
      ReplacedEnds(run, t, now, d.next, trace, Now(), recorded, mishaps);
      if !recorded {
        return Err(Failed(ReplaceFailed));
      }
      DeleteReplaced(d, leftovers, run, t, now);
      r := Ok(());
    }

    /** 3 and 4. All under one hold of the storage lock: the checks that the
        meeting is as it was planned, the writes and the deletes. */
    method Commit(planned: Recording, d: Draft, leftovers: seq<FileName>, env: Interference, ghost run: Run)
      returns (r: Result<(), MeetingError>)
      requires planned == run.planned && Grounded(run) && On(run, d, {}) && GoodTrace(run, trace) && GoodNow(run, Now())
      requires forall w | w in leftovers :: Expendable(regen, disk, d.next, w)
      requires env.Changed? ==> env.rec != planned
      modifies this
      ensures old(trace) <= trace && GoodTrace(run, trace) && (!Displaced(env) ==> GoodNow(run, Now()))
      ensures Grew(fate, old(mishaps), mishaps)
      ensures r.Ok? && Unharmed(old(mishaps)) ==> Unharmed(mishaps)
      ensures r.Ok? ==> env.Undisturbed? && row == Some(d.next) && Swept(old(disk), disk, d.toDelete + leftovers, mishaps)
      ensures r.Ok? && d.next != planned ==>
                |old(trace)| < |trace| && trace[|old(trace)|] == Durable(old(disk), Some(planned), d.next)
      ensures r.Err? ==> disk == old(disk) && r.error == RefusalOf(env)
      ensures r.Err? ==> NotCommitted(planned, old(Now()), Now(), d.next, env, mishaps)
      ensures r.Err? ==> forall i | |old(trace)| <= i < |trace| :: trace[i].disk == disk
    {
      row := RowAfter(env, planned);
      if env.Unreadable? {
        return Err(Failed(StorageFailed));
      }
      if row.None? || env.AudioDeleted? {
        return Err(Gone);
      }
      if env.Refuses? || row != Some(planned) {
        return Err(Busy);
      }
      r := ReplaceAndDelete(planned, d, leftovers, run);
    }

    /** The run up to its end, before any clean-up. `d.uncommitted` is what a
        failure must remove again. */
    method CompressInner(planned: Recording, skip: set<FileName>, env: Interference, ghost run: Run)
      returns (r: Result<(), MeetingError>, d: Draft, unproven: set<FileName>)
      requires planned == run.planned && Grounded(run) && On(run, Draft(planned, [], []), {})
      requires Now() == run.start && mishaps == {}
      requires AllInFolder(planned) && (env.Changed? ==> env.rec != planned)
      modifies this
      ensures GoodTrace(run, trace) && Grew(fate, {}, mishaps) && (!Displaced(env) ==> GoodNow(run, Now()))
      ensures r.Ok? ==> env.Undisturbed? && row.Some?
                        && FinishedWell(regen, fate, run.start.disk, planned, disk, row.value, skip, unproven, mishaps)
                        && Unharmed(mishaps)
                        && TearsAt(regen, run.start.disk, planned, row.value, trace, |run.past|)
      ensures r.Err? ==> FailedInner(run, Now(), d, r.error, env, mishaps) && FlacsLast(trace, |run.past|, disk, mishaps)
    {
      var leftovers;
      r, d, leftovers, unproven := Prepare(planned, skip, run);
      ContainedIsGood(run, trace, Now());
      UnlistedIsVerified(run, disk, d, if r.Ok? then {} else Unlisted(r.error));
      ContainedIsGoodNow(run, trace, Now(), d);
      if r.Err? {
        FailingIsFailed(run, fate, trace, Now(), d, r.error, env, mishaps);
        return;
      }
      ghost var t, before, had := trace, Now(), mishaps;
      r := Commit(planned, d, leftovers, env, run);
      if r.Ok? {
        CommittedWell(run, fate, t, before, d, leftovers, skip, unproven, had, trace, disk, mishaps);
      } else {
        RefusedIsFailed(run, fate, t, before, Now(), d, env, had, mishaps);
        FlacsLastStays(t, trace, |run.past|, disk, had, mishaps);
      }
    }

    /** A failure, or the meeting going away, leaves no unreferenced copy. */
    method CleanUp(files: seq<FileName>, ghost run: Run)
      requires Names(files) <= Workspace(run.planned) && Grounded(run) && GoodTrace(run, trace) && GoodNow(run, Now())
      requires row == None || row == Some(run.planned)
      requires manifest == run.start.manifest
      requires SameBut(run.start.disk, disk, Workspace(run.planned)) && FlacsVerified(run.start.disk, disk)
      modifies this`disk, this`trace, this`tick, this`mishaps
      ensures GoodTrace(run, trace) && GoodNow(run, Now()) && Swept(old(disk), disk, files, mishaps)
      ensures Grew(fate, old(mishaps), mishaps)
    {
      ghost var t, base := trace, Now();
      DeleteAll(files);
      CleanUpIsGood(run, t, trace, base, Now(), files, mishaps);
    }

    /** One run, and its clean-up when it fails. */
    method Attempt(planned: Recording, skip: set<FileName>, env: Interference, ghost run: Run)
      returns (r: Result<(), MeetingError>, unproven: set<FileName>)
      requires planned == run.planned && Grounded(run) && On(run, Draft(planned, [], []), {})
      requires Now() == run.start && mishaps == {}
      requires AllInFolder(planned) && (env.Changed? ==> env.rec != planned)
      modifies this
      ensures GoodTrace(run, trace) && Grew(fate, {}, mishaps) && (!Displaced(env) ==> GoodNow(run, Now()))
      ensures r.Err? ==> FailedWell(regen, run.start, Now(), r.error, env, mishaps)
      ensures r.Err? && !CleansUp(r.error) ==> FlacsLast(trace, |run.past|, disk, mishaps)
      ensures r.Ok? ==> env.Undisturbed? && row.Some?
                        && FinishedWell(regen, fate, run.start.disk, planned, disk, row.value, skip, unproven, mishaps)
                        && Unharmed(mishaps)
                        && TearsAt(regen, run.start.disk, planned, row.value, trace, |run.past|)
    {
      var d;
      r, d, unproven := CompressInner(planned, skip, env, run);
      if r.Ok? {
        return;
      }
      ghost var now, had := Now(), mishaps;
      if CleansUp(r.error) {
        CleanUp(d.uncommitted, run);
      }
      FailureIsWell(run, now, d, r.error, env, had, Now(), mishaps);
    }

    /** Compress one meeting. `owed` is what its record gives, role by role;
        every durable state the run passes through, and so every state a crash
        can leave behind, still gives it. */
    method Compress(skip: set<FileName>, env: Interference, ghost owed: map<Role, Samples>)
      returns (r: Result<(), MeetingError>, unproven: set<FileName>)
      requires Safe(regen, Now(), owed)
      requires env.Changed? ==> Some(env.rec) != row
      modifies this
      // Crash safety, of the row and of the manifest.
      ensures old(trace) <= trace && SafeFrom(regen, trace, |old(trace)|, owed)
      ensures LeadsFrom(regen, old(Now()), trace, |old(trace)|, owed)
      ensures Tracks(regen, old(Now())) ==> TracksFrom(regen, trace, |old(trace)|)
      ensures !Displaced(env) ==> Safe(regen, Now(), owed) && (Tracks(regen, old(Now())) ==> Tracks(regen, Now()))
      // Nothing fails without a reason, and a failure loses no audio.
      ensures Grew(fate, {}, mishaps)
      ensures r.Err? ==> FailedWell(regen, old(Now()), Now(), r.error, env, mishaps)
      ensures r.Err? && (r.error.Stopped? || r.error.Busy? || r.error == Failed(ReplaceFailed)) ==>
                FlacsLast(trace, |old(trace)|, disk, mishaps)
      // A finished run.
      ensures r.Ok? ==>
                && env.Undisturbed? && Unharmed(mishaps) && old(row).Some? && row.Some?
                && FinishedWell(regen, fate, old(disk), old(row).value, disk, row.value, skip, unproven, mishaps)
                && TearsAt(regen, old(disk), old(row).value, row.value, trace, |old(trace)|)
    {
      unproven, mishaps := {}, {};
      if row.None? {
        TurnedAwayIsWell(regen, Now(), Gone, env, mishaps);
        return Err(Gone), unproven;
      }
      var planned := row.value;
      if !AllInFolder(planned) {
        TurnedAwayIsWell(regen, Now(), Failed(OutsideFolder), env, mishaps);
        return Err(Failed(OutsideFolder)), unproven;
      }
      var unusable := Happens(Unusable);
      if unusable {
        TurnedAwayIsWell(regen, Now(), Busy, env, mishaps);
        return Err(Busy), unproven;
      }
      ghost var run := Run(regen, trace, Now(), planned, EverythingHeard(regen, disk, planned));
      StartsStanding(run, fate, trace, Now());
      r, unproven := Attempt(planned, skip, env, run);
      PromisesLess(run, trace, Now(), owed);
    }

    /** Crash between two durable steps of the last run, and start again from
        what is there. */
    method Crash(at: nat)
      requires at < |trace|
      modifies this`disk, this`row, this`manifest
      ensures Now() == trace[at]
    {
      disk, row, manifest := trace[at].disk, trace[at].row, trace[at].manifest;
    }

    /** Any number of runs, with a crash possible between any two of their
        durable steps and a restart from what it left: the committed record
        still gives every role exactly the audio first captured, and the
        manifest gives it too unless a FLAC it is ahead with has gone. */
    method RunsAndCrashes(rounds: nat, ghost owed: map<Role, Samples>)
      requires Safe(regen, Now(), owed) && Tracks(regen, Now())
      modifies this
      ensures Safe(regen, Now(), owed) && Tracks(regen, Now())
      ensures |old(trace)| <= |trace| && SafeFrom(regen, trace, |old(trace)|, owed) && TracksFrom(regen, trace, |old(trace)|)
      ensures row.Some? ==> (GivesToo(regen, disk, row.value, manifest) <==> Kept(disk, row.value, manifest))
    {
      for i := 0 to rounds
        invariant Safe(regen, Now(), owed) && Tracks(regen, Now())
        invariant |old(trace)| <= |trace| && SafeFrom(regen, trace, |old(trace)|, owed)
        invariant TracksFrom(regen, trace, |old(trace)|)
      {
        OneRunMaybeCrashing(owed);
      }
      if row.Some? {
        ManifestGivesExactlyWhen(regen, disk, row.value, manifest);
      }
    }

    method OneRunMaybeCrashing(ghost owed: map<Role, Samples>)
      requires Safe(regen, Now(), owed) && Tracks(regen, Now())
      modifies this
      ensures Safe(regen, Now(), owed) && Tracks(regen, Now())
      ensures old(trace) <= trace && SafeFrom(regen, trace, |old(trace)|, owed) && TracksFrom(regen, trace, |old(trace)|)
    {
      var skip: set<FileName> := *;
      var env: Interference := *;
      if env.Changed? {
        env := Refuses; // another writer's record is that writer's to keep safe
      }
      var before := |trace|;
      var r, unproven := Compress(skip, env, owed);
      var crashed: bool := *;
      if crashed && before < |trace| {
        var at: nat := *;
        Crash(if before <= at < |trace| then at else before);
      }
    }
  }

  // -------------------------------------------------------------------------
  // Two runs that leave what they shouldn't
  // -------------------------------------------------------------------------

  lemma MicOnlyIsSafe(regen: Regen, stem: string, audio: Samples)
    ensures var d := Durable(map[Wav(stem) := WavFile(audio, true)], Some(map[Mic := Wav(stem)]), map[Mic := Wav(stem)]);
            Safe(regen, d, map[Mic := audio]) && Tracks(regen, d)
  {
  }

  /** A run finishes only if the size of every source's FLAC could be read. */
  lemma FinishingReadsSizes(regen: Regen, fate: Fate, before: Disk, was: Recording, role: Role, disk: Disk, now: Recording,
                            skip: set<FileName>, unproven: set<FileName>, mishaps: set<Mishap>)
    requires role in was && !Derived(role) && was[role].Wav? && Convertible(before, was[role])
    ensures FinishedWell(regen, fate, before, was, disk, now, skip, unproven, mishaps) ==>
              role in now && now[role] == Flac(was[role].stem) && Sizeable(fate, now[role])
  {
  }

  /** So none finishes if no size ever can be. */
  lemma UnreadSizesNeverFinish(regen: Regen, fate: Fate, before: Disk, was: Recording, role: Role, disk: Disk, now: Recording,
                               unproven: set<FileName>, mishaps: set<Mishap>)
    requires role in was && !Derived(role) && was[role].Wav? && Convertible(before, was[role])
    requires forall f, t :: fate(NoSize(f), t)
    ensures !FinishedWell(regen, fate, before, was, disk, now, {}, unproven, mishaps)
  {
    FinishingReadsSizes(regen, fate, before, was, role, disk, now, {}, unproven, mishaps);
  }

  lemma OnlySizesFail(fate: Fate, e: MeetingError, row: Option<Recording>, mishaps: set<Mishap>)
    requires Explained(e, row, Undisturbed, mishaps) && row.Some? && AllInFolder(row.value)
    requires Grew(fate, {}, mishaps) && forall m, t | fate(m, t) :: m.NoSize?
    ensures e.Failed? && e.reason.SizeUnread?
    ensures forall m | m in mishaps :: m.NoSize?
  {
    assert forall m | CanHappen(fate, m) :: m.NoSize?;
  }

  /** A hard failure leaves a FLAC behind when all that goes wrong is that its
      size can't be read: it was put in place, and isn't in the list of those
      to remove. */
  method SizeUnreadLeavesAFlac(regen: Regen, stem: string, audio: Samples)
    returns (s: MeetingStore, flac: FileName, r: Result<(), MeetingError>)
    ensures s.row == Some(map[Mic := Wav(stem)])
    ensures flac.Flac? && r == Err(Failed(SizeUnread(flac.stem))) && flac in s.disk
    ensures forall m | m in s.mishaps :: m.NoSize?
  {
    var rec: Recording, disk: Disk := map[Mic := Wav(stem)], map[Wav(stem) := WavFile(audio, true)];
    s := new MeetingStore(regen, (m: Mishap, t: nat) => m.NoSize?, disk, Some(rec), rec);
    MicOnlyIsSafe(regen, stem, audio);
    var unproven;
    r, unproven := s.Compress({}, Undisturbed, map[Mic := audio]);
    if r.Ok? {
      UnreadSizesNeverFinish(regen, s.fate, disk, rec, Mic, s.disk, s.row.value, unproven, s.mishaps);
    }
    OnlySizesFail(s.fate, r.error, Some(rec), s.mishaps);
    flac := Flac(r.error.reason.stem);
  }

  const NEVER: Fate := (m: Mishap, t: nat) => false

  lemma NothingHappens(mishaps: set<Mishap>)
    requires Grew(NEVER, {}, mishaps)
    ensures mishaps == {}
  {
    assert forall m :: !CanHappen(NEVER, m);
  }

  /** A mic-only capture in the torn state. */
  ghost predicate TornMic(regen: Regen, stem: string, audio: Samples, d: Durable) {
    && d.row == Some(map[Mic := Wav(stem)])
    && Mic in d.manifest && d.manifest[Mic] == Flac(stem)
    && Safe(regen, d, map[Mic := audio]) && Tracks(regen, d)
    && Convertible(d.disk, Wav(stem)) && Matches(d.disk, Flac(stem), Wav(stem))
  }

  lemma TornIsTornMic(regen: Regen, stem: string, audio: Samples, start: Durable, d: Durable)
    requires start.manifest == map[Mic := Wav(stem)] && d.row == Some(map[Mic := Wav(stem)])
    requires Mic in d.manifest && d.manifest[Mic] == Flac(stem)
    requires Safe(regen, d, map[Mic := audio]) && Tracks(regen, d) && Leads(regen, start, d, map[Mic := audio])
    ensures TornMic(regen, stem, audio, d)
  {
    assert Ahead(map[Mic := Wav(stem)], d.manifest, Mic);
    assert Heard(regen, d.disk, d.manifest, Mic) == Some(audio);
  }

  method FindTorn(trace: seq<Durable>, was: Recording, next: Recording, ghost regen: Regen, ghost before: Disk) returns (i: nat)
    requires next != was && TearsAt(regen, before, was, next, trace, 0)
    ensures i < |trace| && trace[i].row == Some(was) && trace[i].manifest == next
  {
    i := 0;
    while trace[i].row != Some(was) || trace[i].manifest != next
      invariant 0 <= i < |trace|
      invariant exists k :: i <= k < |trace| && Torn(regen, before, was, trace[k], next)
      decreases |trace| - i
    {
      i := i + 1;
    }
  }

  /** Undisturbed and with nothing going wrong, a run succeeds. */
  lemma NothingFails(regen: Regen, before: Durable, now: Durable, e: MeetingError)
    requires before.row.Some? && AllInFolder(before.row.value)
    ensures !FailedWell(regen, before, now, e, Undisturbed, {})
  {
  }

  /** A run of a mic-only capture, undisturbed and with nothing going wrong. */
  method FinishMicOnly(regen: Regen, stem: string, audio: Samples) returns (s: MeetingStore, ghost start: Durable)
    ensures fresh(s) && s.regen == regen && s.fate == NEVER
    ensures start == Durable(map[Wav(stem) := WavFile(audio, true)], Some(map[Mic := Wav(stem)]), map[Mic := Wav(stem)])
    ensures s.row.Some? && Mic in s.row.value && s.row.value[Mic] == Flac(stem)
    ensures TearsAt(regen, start.disk, map[Mic := Wav(stem)], s.row.value, s.trace, 0)
    ensures SafeFrom(regen, s.trace, 0, map[Mic := audio]) && TracksFrom(regen, s.trace, 0)
    ensures LeadsFrom(regen, start, s.trace, 0, map[Mic := audio])
  {
    var rec: Recording, disk: Disk := map[Mic := Wav(stem)], map[Wav(stem) := WavFile(audio, true)];
    s := new MeetingStore(regen, NEVER, disk, Some(rec), rec);
    start := s.Now();
    MicOnlyIsSafe(regen, stem, audio);
    var r, unproven := s.Compress({}, Undisturbed, map[Mic := audio]);
    NothingHappens(s.mishaps);
    if r.Err? {
      NothingFails(regen, start, s.Now(), r.error);
    } else {
      FinishingReadsSizes(regen, s.fate, disk, rec, Mic, s.disk, s.row.value, {}, unproven, s.mishaps);
    }
  }

  /** The same but for a crash between the manifest and the row. */
  method TearMicOnly(regen: Regen, stem: string, audio: Samples) returns (s: MeetingStore)
    ensures fresh(s) && s.regen == regen && s.fate == NEVER && TornMic(regen, stem, audio, s.Now())
  {
    ghost var start;
    s, start := FinishMicOnly(regen, stem, audio);
    var i := FindTorn(s.trace, map[Mic := Wav(stem)], s.row.value, regen, start.disk);
    s.Crash(i);
    TornIsTornMic(regen, stem, audio, start, s.Now());
  }

  lemma UnreadableLoses(regen: Regen, stem: string, audio: Samples, torn: Durable, now: Durable, e: MeetingError)
    requires TornMic(regen, stem, audio, torn) && FailedWell(regen, torn, now, e, Unreadable, {})
    ensures now.row == torn.row && now.manifest == torn.manifest && Flac(stem) !in now.disk
    ensures Heard(regen, now.disk, now.manifest, Mic) == None
  {
    var was := torn.row.value;
    DisturbedIsRefused(regen, torn, was, now, e, Unreadable);
    TookUnlessDropped(regen, torn.disk, was, Mic);
    assert PutInPlace(regen, torn.disk, was, e, stem);
  }

  /** After a crash between the manifest and the row, a run that can't read the
      row at its commit removes the FLAC it reused, and with it the audio the
      manifest names; the row still has the WAV. */
  method TornThenUnreadable(regen: Regen, stem: string, audio: Samples) returns (s: MeetingStore)
    ensures s.mishaps == {} && s.row == Some(map[Mic := Wav(stem)])
    ensures Heard(regen, s.disk, s.row.value, Mic) == Some(audio)
    ensures Mic in s.manifest && s.manifest[Mic] == Flac(stem) && Flac(stem) !in s.disk
    ensures Heard(regen, s.disk, s.manifest, Mic) == None
  {
    s := TearMicOnly(regen, stem, audio);
    ghost var torn := s.Now();
    var r, unproven := s.Compress({}, Unreadable, map[Mic := audio]);
    NothingHappens(s.mishaps);
    UnreadableLoses(regen, stem, audio, torn, s.Now(), r.error);
  }
}
