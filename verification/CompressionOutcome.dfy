// The commit, the deletes and the clean-up, what every durable state they pass
// through promises, and what a run leaves when it succeeds or fails.
module CompressionOutcome {
  import opened Wrappers
  import opened Recordings
  import opened Manifests
  import opened CompressionPlan
  import opened CompressionProgress

  // -------------------------------------------------------------------------
  // Leftovers, commit and deletes
  // -------------------------------------------------------------------------

  /** Deleting the WAV `w` loses nothing: some role of `rec` still gives its audio. */
  ghost predicate StillHeard(regen: Regen, disk: Disk, rec: Recording, audio: Samples) {
    exists role :: Heard(regen, disk, rec, role) == Some(audio)
  }

  ghost predicate Expendable(regen: Regen, disk: Disk, rec: Recording, w: FileName) {
    && w.Wav? && w !in rec.Values
    && (ReadFile(disk, w).Sound? ==> StillHeard(regen, disk, rec, ReadFile(disk, w).audio))
  }

  ghost predicate SafeFrom(regen: Regen, t: seq<Durable>, from: nat, owed: map<Role, Samples>) {
    forall i | from <= i < |t| :: Safe(regen, t[i], owed)
  }

  /** The manifest never falls behind the row: a new row is what the manifest
      already says, and a new manifest gives the audio too; so does every
      manifest of a run that began with the manifest and the row the same. */
  ghost predicate Leads(regen: Regen, start: Durable, d: Durable, owed: map<Role, Samples>) {
    && (d.manifest == start.manifest || Owes(regen, d.disk, d.manifest, owed))
    && (d.row == None || d.row == start.row || d.row == Some(d.manifest))
    && (start.row == Some(start.manifest) ==> Owes(regen, d.disk, d.manifest, owed))
  }

  ghost predicate LeadsFrom(regen: Regen, start: Durable, t: seq<Durable>, from: nat, owed: map<Role, Samples>) {
    forall i | from <= i < |t| :: Leads(regen, start, t[i], owed)
  }

  /** Steps that only touch files `rec` doesn't name keep it safe. */
  lemma UnreferencedStepsAreSafe(regen: Regen, t: seq<Durable>, from: nat, base: Durable, rec: Recording,
                                 names: set<FileName>, owed: map<Role, Samples>)
    requires base.row == Some(rec) && WellFormed(rec) && Owes(regen, base.disk, rec, owed)
    requires names !! rec.Values && OnlyFiles(t, from, base, names)
    ensures SafeFrom(regen, t, from, owed)
    ensures base.manifest == rec ==> forall start :: LeadsFrom(regen, start, t, from, owed)
  {
    forall i | from <= i < |t|
      ensures Safe(regen, t[i], owed) && (base.manifest == rec ==> forall start :: Leads(regen, start, t[i], owed))
    {
      HeardFrame(regen, base.disk, t[i].disk, rec, names, owed);
    }
  }

  lemma UnrecordedStepsLead(regen: Regen, start: Durable, t: seq<Durable>, from: nat, base: Durable,
                            names: set<FileName>, owed: map<Role, Samples>)
    requires base.manifest == start.manifest && (base.row == None || base.row == start.row)
    requires OnlyFiles(t, from, base, names)
    requires start.row == Some(start.manifest) ==> Owes(regen, base.disk, base.manifest, owed) && names !! base.manifest.Values
    ensures LeadsFrom(regen, start, t, from, owed)
  {
    forall i | from <= i < |t|
      ensures Leads(regen, start, t[i], owed)
    {
      if start.row == Some(start.manifest) {
        HeardFrame(regen, base.disk, t[i].disk, base.manifest, names, owed);
      }
    }
  }

  /** A planned WAV's audio is owed, and so given by any record that gives
      what is owed. */
  lemma PlannedWavIsHeard(run: Run, disk: Disk, next: Recording, w: FileName)
    requires Grounded(run) && w.Wav? && w in run.planned.Values
    requires ReadFile(disk, w) == ReadFile(run.start.disk, w) && ReadFile(disk, w).Sound?
    requires Owes(run.regen, disk, next, run.owed)
    ensures StillHeard(run.regen, disk, next, ReadFile(disk, w).audio)
  {
    var r :| r in run.planned && run.planned[r] == w;
    assert r in run.owed;
    assert Heard(run.regen, run.start.disk, run.planned, r) == Some(run.owed[r]);
    assert Heard(run.regen, disk, next, r) == Some(run.owed[r]);
  }

  /** Every WAV the run will delete gave a planned role its audio, so the
      record-to-be gives it. */
  lemma DoomedIsExpendable(run: Run, t: seq<Durable>, now: Durable, d: Draft, w: FileName)
    requires Grounded(run) && Progress(run, t, now, d, {}) && w in d.toDelete
    ensures Expendable(run.regen, now.disk, d.next, w)
  {
    WavsAreOutside(run.planned);
    SameRead(run.start.disk, now.disk, Workspace(run.planned), w);
    if ReadFile(now.disk, w).Sound? {
      PlannedWavIsHeard(run, now.disk, d.next, w);
    }
  }

  function Names(files: seq<FileName>): set<FileName> {
    set f | f in files
  }

  /** Nothing but the files of `doomed` went, and each of them did unless its
      removal was refused. */
  ghost predicate Swept(before: Disk, after: Disk, doomed: seq<FileName>, mishaps: set<Mishap>) {
    && SameBut(before, after, Names(doomed))
    && (forall n | n in after :: n in before && after[n] == before[n])
    && (forall w | w in doomed && w in after :: Refused(w) in mishaps)
  }

  ghost predicate NoWavRefused(mishaps: set<Mishap>) {
    forall s :: Refused(Wav(s)) !in mishaps
  }

  lemma StemsDiffer(role: Role, q: Role)
    ensures CaptureStem(role) == CaptureStem(q) ==> role == q
  {
    assert "recording.mic"[10] == 'm' && "recording.system"[10] == 's' && "recording.playback"[10] == 'p';
    assert "recording.mixed"[10] == 'm' && |"recording.mixed"| != |"recording.mic"|;
  }

  /** A leftover that the record gives: its FLAC matches it, or it regenerates. */
  predicate Provable(regen: Regen, disk: Disk, rec: Recording, role: Role) {
    var twin := Wav(CaptureStem(role));
    if role in rec then Matches(disk, rec[role], twin) else RegeneratesTo(regen, disk, rec, role, twin)
  }

  /** Every file reported unproven is a leftover whose comparison did not match,
      failed, or was interrupted. */
  ghost predicate Unproven(regen: Regen, disk: Disk, rec: Recording, unproven: set<FileName>, mishaps: set<Mishap>) {
    forall w | w in unproven ::
      (exists role :: LeftoverCandidate(disk, rec, role) && w == Wav(CaptureStem(role)) && !Provable(regen, disk, rec, role))
      || Misread(w) in mishaps || Stop in mishaps
  }

  /** Deleting other files, none of which the record names, proves nothing more. */
  lemma UnprovenStays(regen: Regen, before: Disk, after: Disk, rec: Recording, doomed: seq<FileName>,
                      unproven: set<FileName>, was: set<Mishap>, mishaps: set<Mishap>)
    requires Unproven(regen, before, rec, unproven, was) && was <= mishaps
    requires Swept(before, after, doomed, mishaps) && Names(doomed) !! rec.Values && Names(doomed) !! unproven
    ensures Unproven(regen, after, rec, unproven, mishaps)
  {
    forall w | w in unproven && Misread(w) !in was && Stop !in was
      ensures exists role :: LeftoverCandidate(after, rec, role) && w == Wav(CaptureStem(role)) && !Provable(regen, after, rec, role)
    {
      var role :| LeftoverCandidate(before, rec, role) && w == Wav(CaptureStem(role)) && !Provable(regen, before, rec, role);
      RegeneratedFrame(regen, before, after, rec, Names(doomed), role);
      assert role in rec ==> rec[role] in rec.Values;
      assert LeftoverCandidate(after, rec, role);
    }
  }

  /** The row as the commit finds it. */
  function RowAfter(env: Interference, planned: Recording): Option<Recording> {
    match env
    case MeetingDeleted => None
    case Changed(rec) => Some(rec)
    case _ => Some(planned)
  }

  /** What the commit answers when it doesn't go through. */
  function RefusalOf(env: Interference): MeetingError {
    match env
    case MeetingDeleted => Gone
    case AudioDeleted => Gone
    case Refuses => Busy
    case Changed(_) => Busy
    case Unreadable => Failed(StorageFailed)
    case Undisturbed => Failed(ReplaceFailed)
  }

  lemma PlannedStaysSafe(run: Run, t: seq<Durable>, now: Durable, disk: Disk)
    requires Grounded(run) && SameBut(run.start.disk, disk, Workspace(run.planned))
    requires now.disk == disk && now.row == Some(run.planned)
    ensures Safe(run.regen, now, run.owed)
  {
    WorkspaceIsUnreferenced(run.planned);
    HeardFrame(run.regen, run.start.disk, disk, run.planned, Workspace(run.planned), run.owed);
  }

  lemma ContainedIsSafe(run: Run, t: seq<Durable>, now: Durable)
    requires Grounded(run) && Contained(run, t, now)
    ensures SafeFrom(run.regen, t, |run.past|, run.owed) && LeadsFrom(run.regen, run.start, t, |run.past|, run.owed)
  {
    WorkspaceIsUnreferenced(run.planned);
    UnreferencedStepsAreSafe(run.regen, t, |run.past|, run.start, run.planned, Workspace(run.planned), run.owed);
  }

  /** Nothing but WAVs and the record's own FLAC and temp names is ever touched. */
  ghost predicate ForeignKept(rec: Recording, before: Disk, after: Disk) {
    forall n: FileName | !n.Wav? && n !in Workspace(rec) :: SameAt(before, after, n)
  }

  /** A run that committed and deleted. */
  ghost predicate Finished(run: Run, disk: Disk, row: Option<Recording>, d: Draft) {
    && row == Some(d.next) && WellFormed(d.next)
    && Owes(run.regen, disk, d.next, run.owed)
    && (forall r | r in d.next :: r in run.planned && Followed(run.start.disk, disk, run.planned[r], d.next[r]))
    && (forall w | w in run.start.disk && w.Wav? && w !in disk ::
          ReadFile(run.start.disk, w).Sound? ==> StillHeard(run.regen, disk, d.next, ReadFile(run.start.disk, w).audio))
    && (forall r | r in d.next && d.next[r].Wav? :: !Convertible(disk, d.next[r]))
    && ForeignKept(run.planned, run.start.disk, disk)
  }

  /** A role keeps its file, or has that WAV's exact samples as FLAC. */
  ghost predicate Followed(before: Disk, after: Disk, was: FileName, now: FileName) {
    || now == was
    || (was.Wav? && now == Flac(was.stem) && Convertible(before, was) && now in after
        && after[now] == FlacFile(before[was].audio))
  }

  lemma ExpendableIsUnreferenced(regen: Regen, disk: Disk, rec: Recording, doomed: seq<FileName>)
    requires forall w | w in doomed :: Expendable(regen, disk, rec, w)
    ensures Names(doomed) !! rec.Values
  {
  }

  lemma AllExpendable(run: Run, t: seq<Durable>, now: Durable, d: Draft, leftovers: seq<FileName>)
    requires Grounded(run) && Progress(run, t, now, d, {})
    requires forall w | w in leftovers :: Expendable(run.regen, now.disk, d.next, w)
    ensures forall w | w in d.toDelete + leftovers :: Expendable(run.regen, now.disk, d.next, w)
  {
    forall w | w in d.toDelete
      ensures Expendable(run.regen, now.disk, d.next, w)
    {
      DoomedIsExpendable(run, t, now, d, w);
    }
  }

  lemma CommittedRunIsFinished(run: Run, t: seq<Durable>, now: Durable, d: Draft, leftovers: seq<FileName>,
                               disk: Disk, row: Option<Recording>, mishaps: set<Mishap>)
    requires Grounded(run) && Progress(run, t, now, d, {}) && SettledTo(run, d.next, |ROLES|)
    requires forall w | w in leftovers :: Expendable(run.regen, now.disk, d.next, w)
    requires row == Some(d.next) && Swept(now.disk, disk, d.toDelete + leftovers, mishaps)
    ensures Finished(run, disk, row, d)
  {
    var doomed := d.toDelete + leftovers;
    AllExpendable(run, t, now, d, leftovers);
    ExpendableIsUnreferenced(run.regen, now.disk, d.next, doomed);
    HeardFrame(run.regen, now.disk, disk, d.next, Names(doomed), run.owed);
    RolesFollowed(run, t, now, d, disk, Names(doomed));
    DeletedIsHeard(run, t, now, d, doomed, disk, mishaps);
    UnconvertibleStays(run, t, now, d, disk);
    ForeignStays(run, t, now, doomed, disk);
  }

  lemma ForeignStays(run: Run, t: seq<Durable>, now: Durable, doomed: seq<FileName>, disk: Disk)
    requires Contained(run, t, now) && SameBut(now.disk, disk, Names(doomed))
    requires forall w | w in doomed :: w.Wav?
    ensures ForeignKept(run.planned, run.start.disk, disk)
  {
  }

  lemma DeletedIsHeard(run: Run, t: seq<Durable>, now: Durable, d: Draft, doomed: seq<FileName>, disk: Disk, mishaps: set<Mishap>)
    requires Contained(run, t, now) && Swept(now.disk, disk, doomed, mishaps) && Names(doomed) !! d.next.Values
    requires forall w | w in doomed :: Expendable(run.regen, now.disk, d.next, w)
    ensures forall w | w in run.start.disk && w.Wav? && w !in disk && ReadFile(run.start.disk, w).Sound? ::
              StillHeard(run.regen, disk, d.next, ReadFile(run.start.disk, w).audio)
  {
    HeardFrame(run.regen, now.disk, disk, d.next, Names(doomed), map[]);
    forall w | w in run.start.disk && w.Wav? && w !in disk && ReadFile(run.start.disk, w).Sound?
      ensures StillHeard(run.regen, disk, d.next, ReadFile(run.start.disk, w).audio)
    {
      SameRead(run.start.disk, now.disk, Workspace(run.planned), w);
      assert w in doomed;
      var role :| Heard(run.regen, now.disk, d.next, role) == Some(ReadFile(now.disk, w).audio);
      assert Heard(run.regen, disk, d.next, role) == Some(ReadFile(now.disk, w).audio);
    }
  }

  lemma RoleFollowed(run: Run, t: seq<Durable>, now: Durable, d: Draft, disk: Disk, names: set<FileName>, r: Role)
    requires Contained(run, t, now) && Accounted(run, now.disk, d, {}) && r in d.next && r in run.planned
    requires Repoints(run.planned, d, r)
    requires SameBut(now.disk, disk, names) && d.next[r] !in names
    ensures Followed(run.start.disk, disk, run.planned[r], d.next[r])
  {
    if d.next[r] != run.planned[r] {
      assert Matches(now.disk, d.next[r], run.planned[r]);
      SameRead(run.start.disk, now.disk, Workspace(run.planned), run.planned[r]);
    }
  }

  lemma RolesFollowed(run: Run, t: seq<Durable>, now: Durable, d: Draft, disk: Disk, names: set<FileName>)
    requires Progress(run, t, now, d, {}) && SameBut(now.disk, disk, names) && names !! d.next.Values
    ensures forall r | r in d.next :: r in run.planned && Followed(run.start.disk, disk, run.planned[r], d.next[r])
  {
    forall r | r in d.next
      ensures r in run.planned && Followed(run.start.disk, disk, run.planned[r], d.next[r])
    {
      assert d.next[r] in d.next.Values;
      RoleFollowed(run, t, now, d, disk, names, r);
    }
  }

  lemma UnconvertibleStays(run: Run, t: seq<Durable>, now: Durable, d: Draft, disk: Disk)
    requires Contained(run, t, now) && SettledTo(run, d.next, |ROLES|)
    requires forall n | n in disk :: n in now.disk && disk[n] == now.disk[n]
    ensures forall r | r in d.next && d.next[r].Wav? :: !Convertible(disk, d.next[r])
  {
    SameWavs(run, t, now);
    forall r | r in d.next && d.next[r].Wav?
      ensures !Convertible(disk, d.next[r])
    {
      assert Settled(run, d.next, r);
    }
  }

  /** Planner and worker agree: once a run has committed, deleted what it meant
      to and reported what it couldn't prove, there is nothing left to do. */
  lemma NothingLeft(run: Run, t: seq<Durable>, now: Durable, d: Draft, leftovers: seq<FileName>,
                    skip: set<FileName>, unproven: set<FileName>, disk: Disk, mishaps: set<Mishap>)
    requires Contained(run, t, now) && SettledTo(run, d.next, |ROLES|)
    requires Swept(now.disk, disk, d.toDelete + leftovers, mishaps) && NoWavRefused(mishaps)
    requires forall role | LeftoverCandidate(now.disk, d.next, role) ::
               Wav(CaptureStem(role)) in d.toDelete || Wav(CaptureStem(role)) in leftovers
               || Wav(CaptureStem(role)) in skip + unproven
    ensures !HasWork(disk, d.next, skip + unproven)
  {
    UnconvertibleStays(run, t, now, d, disk);
    forall role
      ensures !RoleHasWork(disk, d.next, role, skip + unproven)
    {
      if LeftoverCandidate(disk, d.next, role) {
        assert LeftoverCandidate(now.disk, d.next, role);
        assert Wav(CaptureStem(role)) in disk;
      }
    }
  }

  /** The record gives the audio of `role`, by the FLAC of capture's own WAV or,
      naming no file for it, by a rebuild. */
  ghost predicate GivesBack(regen: Regen, disk: Disk, rec: Recording, role: Role) {
    FileOf(rec, role) in {None, Some(Flac(CaptureStem(role)))} && Heard(regen, disk, rec, role).Some?
  }

  /** A WAV that can be compared with what the record gives for `role`. */
  ghost predicate Comparable(disk: Disk, rec: Recording, role: Role, wav: FileName) {
    && wav in disk && disk[wav].WavFile?
    && (role in rec ==> disk[wav].asCaptured && rec[role] in disk && disk[rec[role]].FlacFile?)
  }

  /** Nothing of what capture wrote is forgotten: a WAV of its that no role names,
      though the record gives the role's audio, is skipped, reported, or couldn't
      be removed; and it is reported only if it can't be compared, holds
      something else, or there was a fault. */
  ghost predicate NoneForgotten(regen: Regen, disk: Disk, now: Recording, skip: set<FileName>, unproven: set<FileName>,
                                mishaps: set<Mishap>) {
    forall role | Wav(CaptureStem(role)) in disk && Wav(CaptureStem(role)) !in now.Values && GivesBack(regen, disk, now, role) ::
      var twin := Wav(CaptureStem(role));
      || twin in skip || Refused(twin) in mishaps
      || (twin in unproven
          && (|| Misread(twin) in mishaps || Stop in mishaps || !Comparable(disk, now, role, twin)
              || Heard(regen, disk, now, role) != Some(disk[twin].audio)))
  }

  lemma GivenBackIsCandidate(regen: Regen, disk: Disk, rec: Recording, role: Role)
    requires Wav(CaptureStem(role)) in disk && Wav(CaptureStem(role)) !in rec.Values && GivesBack(regen, disk, rec, role)
    ensures LeftoverCandidate(disk, rec, role)
  {
    forall r | r in rec
      ensures rec[r] != Wav(CaptureStem(role))
    {
      assert rec[r] in rec.Values;
    }
  }

  lemma NothingIsForgotten(regen: Regen, before: Disk, d: Draft, skip: set<FileName>, leftovers: seq<FileName>,
                           unproven: set<FileName>, disk: Disk, mishaps: set<Mishap>)
    requires Sorted(regen, before, d, skip, leftovers, unproven, |ROLES|, mishaps)
    requires Swept(before, disk, d.toDelete + leftovers, mishaps) && Unproven(regen, disk, d.next, unproven, mishaps)
    ensures NoneForgotten(regen, disk, d.next, skip, unproven, mishaps)
  {
    forall role | Wav(CaptureStem(role)) in disk && Wav(CaptureStem(role)) !in d.next.Values && GivesBack(regen, disk, d.next, role)
      ensures var twin := Wav(CaptureStem(role));
              twin in skip || Refused(twin) in mishaps || twin in unproven
      ensures var twin := Wav(CaptureStem(role));
              (twin in unproven && Misread(twin) !in mishaps && Stop !in mishaps && Comparable(disk, d.next, role, twin)) ==>
                Heard(regen, disk, d.next, role) != Some(disk[twin].audio)
    {
      var twin := Wav(CaptureStem(role));
      GivenBackIsCandidate(regen, disk, d.next, role);
      assert LeftoverCandidate(before, d.next, role);
      if twin in unproven && Misread(twin) !in mishaps && Stop !in mishaps {
        var q :| LeftoverCandidate(disk, d.next, q) && twin == Wav(CaptureStem(q)) && !Provable(regen, disk, d.next, q);
        StemsDiffer(q, role);
      }
    }
  }

  /** The WAVs the roles gave up are gone, but those whose removal was refused. */
  ghost predicate ReplacedGone(was: Recording, disk: Disk, now: Recording, mishaps: set<Mishap>) {
    forall r | r in was && FileOf(now, r) != Some(was[r]) && was[r] in disk :: Refused(was[r]) in mishaps
  }

  ghost predicate KeepsWavs(before: Disk, after: Disk) {
    forall n | n in before && n.Wav? :: n in after && after[n] == before[n]
  }

  /** What a failed run leaves of the FLACs it put in place: only FLACs that
      match their WAVs; and after a hard failure or a deleted meeting none but
      one whose removal was refused, or the one whose size couldn't be read. */
  ghost predicate FlacsAfterError(before: Disk, after: Disk, e: MeetingError, mishaps: set<Mishap>) {
    && (forall s | Flac(s) in after && !(Flac(s) in before && after[Flac(s)] == before[Flac(s)]) ::
          && Matches(after, Flac(s), Wav(s))
          && (CleansUp(e) ==> Refused(Flac(s)) in mishaps || Flac(s) in Unlisted(e)))
    && (forall f | f in Unlisted(e) :: f.Flac? && f in after && Matches(after, f, Wav(f.stem)))
  }

  /** A run that failed with `e` (a stop apart) had put the FLAC of `stem` in
      place, and would remove it. */
  ghost predicate PutInPlace(regen: Regen, before: Disk, was: Recording, e: MeetingError, stem: string) {
    Took(regen, before, was, RolesDone(was, e), stem)
  }

  /** ...so after an error it is gone only if the run had put it in place and
      removes what it put there; and when it does remove that, all of it goes but
      what was refused, and no FLAC but the one it failed at is touched besides. */
  ghost predicate Reclaimed(regen: Regen, before: Disk, was: Recording, after: Disk, e: MeetingError, mishaps: set<Mishap>) {
    forall s | Misread(Wav(s)) !in mishaps ::
      if CleansUp(e) && PutInPlace(regen, before, was, e, s) then
        && (Refused(Flac(s)) !in mishaps ==> Flac(s) !in after)
        && (Flac(s) in before && Matches(before, Flac(s), Wav(s)) && Flac(s) in after ==> after[Flac(s)] == before[Flac(s)])
      else if CleansUp(e) && FileAt(e) != Some(s) then SameAt(before, after, Flac(s))
      else Flac(s) in before && Matches(before, Flac(s), Wav(s)) ==> Flac(s) in after && after[Flac(s)] == before[Flac(s)]
  }

  // -------------------------------------------------------------------------
  // The manifest through a run
  // -------------------------------------------------------------------------

  /** What every durable state of a run from its start on promises. */
  ghost predicate GoodTrace(run: Run, t: seq<Durable>) {
    && run.past <= t
    && SafeFrom(run.regen, t, |run.past|, run.owed)
    && LeadsFrom(run.regen, run.start, t, |run.past|, run.owed)
    && (Tracks(run.regen, run.start) ==> TracksFrom(run.regen, t, |run.past|))
  }

  /** And the state it is in. */
  ghost predicate GoodNow(run: Run, now: Durable) {
    Safe(run.regen, now, run.owed) && (Tracks(run.regen, run.start) ==> Tracks(run.regen, now))
  }

  lemma PlannedStaysTracked(run: Run, at: Durable)
    requires Grounded(run) && Tracks(run.regen, run.start)
    requires SameBut(run.start.disk, at.disk, Workspace(run.planned)) && FlacsVerified(run.start.disk, at.disk)
    requires at.manifest == run.start.manifest && (at.row == None || at.row == Some(run.planned))
    ensures Tracks(run.regen, at)
  {
    WorkspaceIsUnreferenced(run.planned);
    FollowsStays(run.regen, run.start.disk, at.disk, run.planned, run.start.manifest, Workspace(run.planned));
  }

  lemma ContainedIsGoodNow(run: Run, t: seq<Durable>, now: Durable, d: Draft)
    requires Grounded(run) && Contained(run, t, now) && FlacsVerified(run.start.disk, now.disk)
    ensures GoodNow(run, now)
  {
    PlannedStaysSafe(run, t, now, now.disk);
    if Tracks(run.regen, run.start) {
      PlannedStaysTracked(run, now);
    }
  }

  /** A state of a good trace is good. */
  lemma LastIsGood(run: Run, t: seq<Durable>, now: Durable)
    requires GoodTrace(run, t) && |run.past| < |t| && t[|t| - 1] == now
    ensures GoodNow(run, now)
  {
  }

  lemma ContainedIsGood(run: Run, t: seq<Durable>, now: Durable)
    requires Grounded(run) && Contained(run, t, now)
    ensures GoodTrace(run, t)
  {
    ContainedIsSafe(run, t, now);
    if Tracks(run.regen, run.start) {
      forall i | |run.past| <= i < |t|
        ensures Tracks(run.regen, t[i])
      {
        PlannedStaysTracked(run, t[i]);
      }
    }
  }

  /** The manifest a commit writes follows the planned record, with every FLAC
      it is ahead with in the folder. */
  lemma NextFollowsPlanned(run: Run, t: seq<Durable>, now: Durable, d: Draft)
    requires Grounded(run) && Progress(run, t, now, d, {})
    ensures Follows(run.regen, now.disk, run.planned, d.next) && Kept(now.disk, run.planned, d.next)
  {
    RecordSourceIsSame(run, now.disk, d, Mic);
    RecordSourceIsSame(run, now.disk, d, System);
    WorkspaceIsUnreferenced(run.planned);
    HeardFrame(run.regen, run.start.disk, now.disk, run.planned, Workspace(run.planned), run.owed);
    forall r | r in d.next && d.next[r] != run.planned[r]
      ensures Ahead(run.planned, d.next, r) && Matches(now.disk, d.next[r], run.planned[r])
    {
    }
    forall r | r in run.planned && r !in d.next
      ensures Derived(r) && IsV2(d.next)
      ensures Regenerated(run.regen, now.disk, run.planned, r) == Heard(run.regen, now.disk, run.planned, r)
    {
      assert Heard(run.regen, now.disk, d.next, r) == Some(run.owed[r]);
    }
  }

  /** Deleting files the row doesn't name, and no file but listed ones. */
  lemma DeletesTrack(regen: Regen, t: seq<Durable>, from: nat, base: Durable, row: Recording, names: set<FileName>)
    requires OnlyFiles(t, from, base, names) && VerifiedFrom(base.disk, t, from)
    requires base.row == Some(row) && Tracks(regen, base) && names !! row.Values
    ensures TracksFrom(regen, t, from)
  {
    forall i | from <= i < |t|
      ensures Tracks(regen, t[i])
    {
      FollowsStays(regen, base.disk, t[i].disk, row, base.manifest, names);
    }
  }

  /** What a successful run did to the record `was` on `before`. */
  ghost predicate Committed(regen: Regen, before: Disk, was: Recording, after: Disk, now: Recording) {
    && WellFormed(now)
    && (forall role | Heard(regen, before, was, role).Some? ::
          Heard(regen, after, now, role) == Heard(regen, before, was, role))
    && (forall r | r in now :: r in was && Followed(before, after, was[r], now[r]))
    && (forall w | w in before && w.Wav? && w !in after && ReadFile(before, w).Sound? ::
          StillHeard(regen, after, now, ReadFile(before, w).audio))
    && (forall r | r in now && now[r].Wav? :: !Convertible(after, now[r]))
    && ForeignKept(was, before, after)
  }

  /** The audio of every role that gives any. */
  ghost function EverythingHeard(regen: Regen, disk: Disk, rec: Recording): map<Role, Samples> {
    map role: Role | Heard(regen, disk, rec, role).Some? :: Heard(regen, disk, rec, role).value
  }

  lemma StartsGrounded(run: Run, t: seq<Durable>, now: Durable)
    requires WellFormed(run.planned) && run.start == now && now.row == Some(run.planned) && run.past == t
    requires run.owed == EverythingHeard(run.regen, now.disk, run.planned)
    ensures Grounded(run) && Progress(run, t, now, Draft(run.planned, [], []), {})
  {
  }

  lemma OwedIncludes(run: Run, owed: map<Role, Samples>)
    requires Grounded(run) && Owes(run.regen, run.start.disk, run.planned, owed)
    ensures forall r | r in owed :: r in run.owed && run.owed[r] == owed[r]
  {
    forall r | r in owed
      ensures r in run.owed && run.owed[r] == owed[r]
    {
      assert Heard(run.regen, run.start.disk, run.planned, r) == Some(owed[r]);
    }
  }

  lemma OwesLessAt(run: Run, at: Durable, owed: map<Role, Samples>)
    requires Grounded(run) && Owes(run.regen, run.start.disk, run.planned, owed)
    requires Safe(run.regen, at, run.owed)
    ensures Safe(run.regen, at, owed)
  {
    OwedIncludes(run, owed);
  }

  /** Being owed everything the record gave covers any `owed` it satisfied. */
  lemma OwesLess(run: Run, t: seq<Durable>, owed: map<Role, Samples>)
    requires Grounded(run) && Owes(run.regen, run.start.disk, run.planned, owed)
    requires SafeFrom(run.regen, t, |run.past|, run.owed) && LeadsFrom(run.regen, run.start, t, |run.past|, run.owed)
    ensures SafeFrom(run.regen, t, |run.past|, owed) && LeadsFrom(run.regen, run.start, t, |run.past|, owed)
  {
    forall i | |run.past| <= i < |t|
      ensures Safe(run.regen, t[i], owed) && Leads(run.regen, run.start, t[i], owed)
    {
      OwesLessAt(run, t[i], owed);
      if Owes(run.regen, t[i].disk, t[i].manifest, run.owed) {
        OwedIncludes(run, owed);
      }
    }
  }

  lemma FinishedIsCommitted(run: Run, disk: Disk, row: Option<Recording>, d: Draft)
    requires Grounded(run) && Finished(run, disk, row, d)
    ensures Committed(run.regen, run.start.disk, run.planned, disk, d.next)
  {
    forall role | Heard(run.regen, run.start.disk, run.planned, role).Some?
      ensures Heard(run.regen, disk, d.next, role) == Heard(run.regen, run.start.disk, run.planned, role)
    {
      assert role in run.owed;
    }
  }

  /** Error or no error, before the commit no WAV and no foreign file changed;
      and removing FLACs doesn't change that. */
  lemma FailureKeepsWavs(run: Run, disk: Disk, files: seq<FileName>, disk': Disk)
    requires SameBut(run.start.disk, disk, Workspace(run.planned))
    requires SameBut(disk, disk', Names(files)) && forall f | f in files :: f.Flac?
    ensures KeepsWavs(run.start.disk, disk')
    ensures forall s :: (Wav(s) in disk' <==> Wav(s) in disk) && (Wav(s) in disk ==> disk'[Wav(s)] == disk[Wav(s)])
  {
    WavsAreOutside(run.planned);
    forall n: FileName | !n.Flac?
      ensures n !in Names(files)
    {
    }
  }

  // -------------------------------------------------------------------------
  // The commit and the clean-up
  // -------------------------------------------------------------------------

  /** A state the commit passes through before any delete: the manifest first,
      then the row. */
  lemma CommitStepIsGood(run: Run, t: seq<Durable>, now: Durable, d: Draft, at: Durable)
    requires Grounded(run) && Progress(run, t, now, d, {})
    requires at.disk == now.disk && at.manifest == d.next && at.row in {Some(run.planned), Some(d.next)}
    ensures Safe(run.regen, at, run.owed) && Leads(run.regen, run.start, at, run.owed) && Tracks(run.regen, at)
  {
    NextFollowsPlanned(run, t, now, d);
    SameFollows(run.regen, now.disk, d.next);
    PlannedStaysSafe(run, t, Durable(at.disk, Some(run.planned), at.manifest), now.disk);
  }

  /** The state the deletes start from. */
  lemma CommittedIsGood(run: Run, t: seq<Durable>, now: Durable, d: Draft, base: Durable)
    requires Grounded(run) && Progress(run, t, now, d, {})
    requires base.disk == now.disk && base.row == Some(d.next)
    requires base.manifest == if d.next == run.planned then run.start.manifest else d.next
    ensures Safe(run.regen, base, run.owed) && Leads(run.regen, run.start, base, run.owed)
    ensures Tracks(run.regen, run.start) ==> Tracks(run.regen, base)
  {
    CommitStepIsGood(run, t, now, d, Durable(base.disk, base.row, d.next));
    if d.next == run.planned && Tracks(run.regen, run.start) {
      AccountedIsVerified(run, now.disk, d);
      PlannedStaysTracked(run, base);
    }
  }

  lemma GoodTraceGrows(run: Run, t: seq<Durable>, at: Durable)
    requires GoodTrace(run, t)
    requires Safe(run.regen, at, run.owed) && Leads(run.regen, run.start, at, run.owed)
    requires Tracks(run.regen, run.start) ==> Tracks(run.regen, at)
    ensures GoodTrace(run, t + [at])
  {
  }

  lemma CommitStepExtends(run: Run, t: seq<Durable>, now: Durable, d: Draft, trace: seq<Durable>, at: Durable)
    requires Grounded(run) && Progress(run, t, now, d, {}) && GoodTrace(run, trace)
    requires at.disk == now.disk && at.manifest == d.next && at.row in {Some(run.planned), Some(d.next)}
    ensures GoodTrace(run, trace + [at])
  {
    CommitStepIsGood(run, t, now, d, at);
    GoodTraceGrows(run, trace, at);
  }

  /** The states the commit's writes pass through, and the one they end in. */
  ghost predicate Replaced(t: seq<Durable>, t': seq<Durable>, was: Durable, now: Durable, planned: Recording, next: Recording,
                           ok: bool, mishaps: set<Mishap>) {
    var torn, done := Durable(was.disk, Some(planned), next), Durable(was.disk, Some(next), next);
    if ok then if next == planned then t' == t && now == was else t' == t + [torn] + [done] && now == done
    else
      && next != planned
      && (|| (WriteFailed in mishaps && t' == t && now == was)
          || (WriteFailed in mishaps && t' == t + [torn] && now == torn)
          || (RereadFailed in mishaps && t' == t + [torn] + [done] && now == done))
  }

  /** However the commit's writes end, every state they passed through is good. */
  lemma ReplacedIsGood(run: Run, t: seq<Durable>, was: Durable, d: Draft, t': seq<Durable>, now: Durable, ok: bool,
                       mishaps: set<Mishap>)
    requires Grounded(run) && Progress(run, t, was, d, {}) && GoodTrace(run, t) && GoodNow(run, was)
    requires was.row == Some(run.planned) && Replaced(t, t', was, now, run.planned, d.next, ok, mishaps)
    ensures GoodTrace(run, t') && GoodNow(run, now)
  {
    var torn, done := Durable(was.disk, Some(run.planned), d.next), Durable(was.disk, Some(d.next), d.next);
    CommitStepExtends(run, t, was, d, t, torn);
    LastIsGood(run, t + [torn], torn);
    CommitStepExtends(run, t, was, d, t + [torn], done);
    LastIsGood(run, t + [torn] + [done], done);
  }

  lemma ReplacedEnds(run: Run, t: seq<Durable>, was: Durable, next: Recording, t': seq<Durable>, now: Durable, ok: bool,
                     mishaps: set<Mishap>)
    requires was.row == Some(run.planned) && was.manifest == run.start.manifest
    requires Replaced(t, t', was, now, run.planned, next, ok, mishaps)
    ensures t <= t' && forall i | |t| <= i < |t'| :: t'[i].disk == was.disk
    ensures now.disk == was.disk
    ensures ok ==> now.row == Some(next) && now.manifest == if next == run.planned then run.start.manifest else next
    ensures ok && next != run.planned ==> |t| < |t'| && t'[|t|] == Durable(was.disk, Some(run.planned), next)
    ensures !ok ==> NotCommitted(run.planned, was, now, next, Undisturbed, mishaps)
  {
  }

  lemma GoodTraceJoins(run: Run, t: seq<Durable>, t': seq<Durable>)
    requires GoodTrace(run, t) && t <= t'
    requires SafeFrom(run.regen, t', |t|, run.owed) && LeadsFrom(run.regen, run.start, t', |t|, run.owed)
    requires Tracks(run.regen, run.start) ==> TracksFrom(run.regen, t', |t|)
    ensures GoodTrace(run, t')
  {
  }

  /** Removing files changes no FLAC that stays. */
  lemma SweptIsVerified(before: Disk, after: Disk)
    requires forall n | n in after :: n in before && after[n] == before[n]
    ensures FlacsVerified(before, after)
  {
  }

  ghost predicate ShrinksFrom(before: Disk, t: seq<Durable>, from: nat) {
    forall i | from <= i < |t| :: forall n | n in t[i].disk :: n in before && t[i].disk[n] == before[n]
  }

  /** From `base` on only files of `doomed` went, one step each, and `after` is
      the state that left. */
  ghost predicate Deletes(t: seq<Durable>, t': seq<Durable>, base: Durable, after: Durable, doomed: seq<FileName>,
                          mishaps: set<Mishap>) {
    && t <= t' && OnlyFiles(t', |t|, base, Names(doomed)) && ShrinksFrom(base.disk, t', |t|)
    && Swept(base.disk, after.disk, doomed, mishaps)
    && (if t' == t then after == base else t'[|t'| - 1] == after)
  }

  lemma ShrinkingIsVerified(before: Disk, t: seq<Durable>, from: nat)
    requires ShrinksFrom(before, t, from)
    ensures VerifiedFrom(before, t, from)
  {
    forall i | from <= i < |t|
      ensures FlacsVerified(before, t[i].disk)
    {
      SweptIsVerified(before, t[i].disk);
    }
  }

  lemma EndsGood(run: Run, t: seq<Durable>, t': seq<Durable>, base: Durable, after: Durable)
    requires GoodTrace(run, t) && GoodTrace(run, t') && GoodNow(run, base) && t <= t'
    requires if t' == t then after == base else t'[|t'| - 1] == after
    ensures GoodNow(run, after)
  {
    if t' != t {
      LastIsGood(run, t', after);
    }
  }

  /** The deletes of a committed run: `base` is the state they start from. */
  lemma DeletesAreGood(run: Run, t: seq<Durable>, t': seq<Durable>, base: Durable, after: Durable, d: Draft,
                       doomed: seq<FileName>, mishaps: set<Mishap>)
    requires GoodTrace(run, t) && Deletes(t, t', base, after, doomed, mishaps)
    requires base.row == Some(d.next) && Names(doomed) !! d.next.Values
    requires GoodNow(run, base) && Leads(run.regen, run.start, base, run.owed)
    requires base.manifest == d.next || (base.manifest == run.start.manifest && base.row == run.start.row)
    ensures GoodTrace(run, t') && GoodNow(run, after)
  {
    ShrinkingIsVerified(base.disk, t', |t|);
    UnreferencedStepsAreSafe(run.regen, t', |t|, base, d.next, Names(doomed), run.owed);
    if base.manifest != d.next {
      UnrecordedStepsLead(run.regen, run.start, t', |t|, base, Names(doomed), run.owed);
    }
    if Tracks(run.regen, run.start) {
      DeletesTrack(run.regen, t', |t|, base, d.next, Names(doomed));
    }
    GoodTraceJoins(run, t, t');
    EndsGood(run, t, t', base, after);
  }

  /** A committed run deletes only what the new record still gives. */
  lemma CommittedDeletesAreGood(run: Run, t: seq<Durable>, now: Durable, d: Draft, leftovers: seq<FileName>,
                                at: seq<Durable>, base: Durable, t': seq<Durable>, after: Durable, mishaps: set<Mishap>)
    requires Grounded(run) && Progress(run, t, now, d, {}) && GoodTrace(run, at)
    requires forall w | w in leftovers :: Expendable(run.regen, now.disk, d.next, w)
    requires base.disk == now.disk && base.row == Some(d.next)
    requires base.manifest == if d.next == run.planned then run.start.manifest else d.next
    requires Deletes(at, t', base, after, d.toDelete + leftovers, mishaps)
    ensures GoodTrace(run, t') && GoodNow(run, after)
  {
    AllExpendable(run, t, now, d, leftovers);
    ExpendableIsUnreferenced(run.regen, now.disk, d.next, d.toDelete + leftovers);
    CommittedIsGood(run, t, now, d, base);
    DeletesAreGood(run, at, t', base, after, d, d.toDelete + leftovers, mishaps);
  }

  /** The removals of a failed run. */
  lemma CleanUpIsGood(run: Run, t: seq<Durable>, t': seq<Durable>, base: Durable, after: Durable, files: seq<FileName>,
                      mishaps: set<Mishap>)
    requires Grounded(run) && GoodTrace(run, t) && GoodNow(run, base) && Deletes(t, t', base, after, files, mishaps)
    requires Names(files) <= Workspace(run.planned)
    requires SameBut(run.start.disk, base.disk, Workspace(run.planned)) && FlacsVerified(run.start.disk, base.disk)
    requires base.manifest == run.start.manifest && (base.row == None || base.row == Some(run.planned))
    ensures GoodTrace(run, t') && GoodNow(run, after)
  {
    WorkspaceIsUnreferenced(run.planned);
    HeardFrame(run.regen, run.start.disk, base.disk, run.planned, Workspace(run.planned), run.owed);
    UnrecordedStepsLead(run.regen, run.start, t', |t|, base, Names(files), run.owed);
    if base.row == Some(run.planned) {
      UnreferencedStepsAreSafe(run.regen, t', |t|, base, run.planned, Names(files), run.owed);
    }
    if Tracks(run.regen, run.start) {
      CleanUpTracks(run, t', |t|, base, Names(files));
    }
    GoodTraceJoins(run, t, t');
    EndsGood(run, t, t', base, after);
  }

  lemma CleanUpTracks(run: Run, t: seq<Durable>, from: nat, base: Durable, names: set<FileName>)
    requires Grounded(run) && Tracks(run.regen, run.start)
    requires OnlyFiles(t, from, base, names) && ShrinksFrom(base.disk, t, from) && names <= Workspace(run.planned)
    requires SameBut(run.start.disk, base.disk, Workspace(run.planned)) && FlacsVerified(run.start.disk, base.disk)
    requires base.manifest == run.start.manifest && (base.row == None || base.row == Some(run.planned))
    ensures TracksFrom(run.regen, t, from)
  {
    WavsAreOutside(run.planned);
    forall i | from <= i < |t|
      ensures Tracks(run.regen, t[i])
    {
      StillVerified(run, base.disk, t[i].disk);
      PlannedStaysTracked(run, t[i]);
    }
  }

  lemma StillVerified(run: Run, at: Disk, after: Disk)
    requires SameBut(run.start.disk, at, Workspace(run.planned)) && FlacsVerified(run.start.disk, at)
    requires forall n | n in after :: n in at && after[n] == at[n]
    requires forall w: FileName | w.Wav? && w in at :: w in after
    ensures FlacsVerified(run.start.disk, after)
  {
  }

  // -------------------------------------------------------------------------
  // How a run ends
  // -------------------------------------------------------------------------

  /** What an error leaves of the FLACs, once the run's own were swept (or, for
      a stop, a refusal or a failed commit, were meant to stay). */
  lemma FailureLeavesFlacs(run: Run, disk: Disk, d: Draft, e: MeetingError, disk': Disk, mishaps: set<Mishap>)
    requires Accounted(run, disk, d, Unlisted(e))
    requires if CleansUp(e) then Swept(disk, disk', d.uncommitted, mishaps) else disk' == disk
    requires forall f | f in Unlisted(e) :: f !in d.uncommitted && f.Flac? && f in disk && Matches(disk, f, Wav(f.stem))
    requires forall s :: (Wav(s) in disk' <==> Wav(s) in disk) && (Wav(s) in disk ==> disk'[Wav(s)] == disk[Wav(s)])
    ensures FlacsAfterError(run.start.disk, disk', e, mishaps)
  {
  }

  lemma FailureReclaims(run: Run, disk: Disk, uncommitted: seq<FileName>, e: MeetingError, disk': Disk,
                        was: set<Mishap>, mishaps: set<Mishap>)
    requires Reused(run.start.disk, disk, was) && was <= mishaps
    requires CleansUp(e) ==> Tallied(run, disk, uncommitted, RolesDone(run.planned, e), FileAt(e), was)
    requires if CleansUp(e) then Swept(disk, disk', uncommitted, mishaps) else disk' == disk
    ensures Reclaimed(run.regen, run.start.disk, run.planned, disk', e, mishaps)
  {
  }

  /** The folder at an error, before any clean-up. */
  ghost predicate FailedFiles(run: Run, disk: Disk, d: Draft, e: MeetingError, mishaps: set<Mishap>) {
    && SameBut(run.start.disk, disk, Workspace(run.planned)) && FlacsVerified(run.start.disk, disk)
    && Accounted(run, disk, d, Unlisted(e)) && Reused(run.start.disk, disk, mishaps)
    && (forall f | f in Unlisted(e) :: f !in d.uncommitted && f.Flac? && f in disk && Matches(disk, f, Wav(f.stem)))
    && FailsAt(run, disk, d, e, mishaps) && Tidied(run.start.disk, disk, mishaps)
    && (forall f | f in d.uncommitted :: f in Workspace(run.planned))
  }

  /** Row and manifest after an error. They change only under a commit, which
      writes the manifest, writes the row and reads it back, and can fail at
      each; or by what disturbed it. */
  ghost predicate FailedRecord(regen: Regen, before: Durable, was: Recording, row: Option<Recording>, manifest: Recording,
                               e: MeetingError, env: Interference, mishaps: set<Mishap>) {
    && (Caused(e, mishaps) || (!env.Undisturbed? && e == RefusalOf(env)))
    && (!env.Undisturbed? && e == RefusalOf(env) ==> row == RowAfter(env, was))
    && (|| row == Some(was)
        || (row == RowAfter(env, was) && e == RefusalOf(env))
        || (row == Some(manifest) && e == Failed(ReplaceFailed) && RereadFailed in mishaps
            && Fits(regen, before.disk, was, manifest, |ROLES|, mishaps)))
    && (|| manifest == before.manifest
        || (e == Failed(ReplaceFailed) && Fits(regen, before.disk, was, manifest, |ROLES|, mishaps)))
  }

  /** An error before any clean-up. */
  ghost predicate FailedInner(run: Run, now: Durable, d: Draft, e: MeetingError, env: Interference, mishaps: set<Mishap>) {
    && FailedFiles(run, now.disk, d, e, mishaps)
    && FailedRecord(run.regen, run.start, run.planned, now.row, now.manifest, e, env, mishaps)
    && (CleansUp(e) ==> now.manifest == run.start.manifest && (now.row == None || now.row == Some(run.planned)))
  }

  lemma FailingIsFailed(run: Run, fate: Fate, t: seq<Durable>, now: Durable, d: Draft, e: MeetingError, env: Interference,
                        mishaps: set<Mishap>)
    requires Grounded(run) && FailsStanding(run, fate, t, now, d, e, mishaps)
    ensures FailedInner(run, now, d, e, env, mishaps)
  {
    UnlistedIsVerified(run, now.disk, d, Unlisted(e));
    UncommittedIsWorkspace(run, now.disk, d, Unlisted(e));
  }

  lemma UncommittedIsWorkspace(run: Run, disk: Disk, d: Draft, unlisted: set<FileName>)
    requires Accounted(run, disk, d, unlisted)
    ensures forall f | f in d.uncommitted :: f in Workspace(run.planned)
  {
    forall f | f in d.uncommitted
      ensures f in Workspace(run.planned)
    {
      var r :| r in run.planned && run.planned[r] == Wav(f.stem);
    }
  }

  /** A refused or failed commit. */
  lemma RefusedIsFailed(run: Run, fate: Fate, t: seq<Durable>, before: Durable, now: Durable, d: Draft, env: Interference,
                        was: set<Mishap>, mishaps: set<Mishap>)
    requires Grounded(run) && Standing(run, fate, t, before, d, {}, was) && DoneTo(run, before.disk, d, |ROLES|, was)
    requires Grew(fate, was, mishaps) && now.disk == before.disk
    requires NotCommitted(run.planned, before, now, d.next, env, mishaps)
    ensures FailedInner(run, now, d, RefusalOf(env), env, mishaps)
  {
    RefusedLeavesFiles(run, fate, t, before, d, RefusalOf(env), was, mishaps);
    StillDone(run, before.disk, d, |ROLES|, was, mishaps);
    RefusedLeavesRecord(run, before, now, d, env, mishaps);
  }

  lemma RefusedLeavesFiles(run: Run, fate: Fate, t: seq<Durable>, before: Durable, d: Draft, e: MeetingError,
                           was: set<Mishap>, mishaps: set<Mishap>)
    requires Standing(run, fate, t, before, d, {}, was) && DoneTo(run, before.disk, d, |ROLES|, was) && was <= mishaps
    requires FileAt(e) == None && Unlisted(e) == {} && RolesDone(run.planned, e) == |ROLES|
    ensures FailedFiles(run, before.disk, d, e, mishaps)
  {
    AccountedIsVerified(run, before.disk, d);
    UncommittedIsWorkspace(run, before.disk, d, {});
    ReusedStill(run.start.disk, before.disk, was, mishaps);
    StillDone(run, before.disk, d, |ROLES|, was, mishaps);
  }

  lemma RefusedLeavesRecord(run: Run, before: Durable, now: Durable, d: Draft, env: Interference, mishaps: set<Mishap>)
    requires before.manifest == run.start.manifest
    requires Fits(run.regen, run.start.disk, run.planned, d.next, |ROLES|, mishaps)
    requires NotCommitted(run.planned, before, now, d.next, env, mishaps)
    ensures FailedRecord(run.regen, run.start, run.planned, now.row, now.manifest, RefusalOf(env), env, mishaps)
    ensures CleansUp(RefusalOf(env)) ==>
              now.manifest == run.start.manifest && (now.row == None || now.row == Some(run.planned))
  {
  }

  /** Row and manifest after a commit of `next` that didn't go through. */
  ghost predicate NotCommitted(planned: Recording, before: Durable, now: Durable, next: Recording, env: Interference,
                               mishaps: set<Mishap>) {
    if !env.Undisturbed? then now.row == RowAfter(env, planned) && now.manifest == before.manifest
    else
      || (WriteFailed in mishaps && now.row == Some(planned) && now.manifest in {before.manifest, next})
      || (RereadFailed in mishaps && now.row == Some(next) && now.manifest == next)
  }

  /** Torn in the commit: the manifest is written and the row is not, every FLAC
      the manifest is ahead with is there, and no WAV is gone. */
  ghost predicate Torn(regen: Regen, before: Disk, was: Recording, at: Durable, next: Recording) {
    && at.row == Some(was) && at.manifest == next
    && Follows(regen, at.disk, was, next) && Kept(at.disk, was, next)
    && KeepsWavs(before, at.disk)
  }

  lemma CommitTears(run: Run, t: seq<Durable>, now: Durable, d: Draft, trace: seq<Durable>)
    requires Grounded(run) && Progress(run, t, now, d, {}) && t <= trace
    requires |t| < |trace| && trace[|t|] == Durable(now.disk, Some(run.planned), d.next)
    ensures exists i :: |run.past| <= i < |trace| && Torn(run.regen, run.start.disk, run.planned, trace[i], d.next)
  {
    NextFollowsPlanned(run, t, now, d);
    WavsAreOutside(run.planned);
    assert Torn(run.regen, run.start.disk, run.planned, trace[|t|], d.next);
  }

  /** A source that could be converted was. */
  ghost predicate SourcesConverted(before: Disk, was: Recording, now: Recording) {
    forall r | r in was && !Derived(r) && was[r].Wav? && Convertible(before, was[r]) ::
      r in now && now[r] == Flac(was[r].stem)
  }

  lemma SettledIsConverted(run: Run, disk: Disk, d: Draft)
    requires Faithful(run, disk, d) && SettledTo(run, d.next, |ROLES|)
    ensures SourcesConverted(run.start.disk, run.planned, d.next)
    ensures forall r | r in d.next && r in run.planned && d.next[r] != run.planned[r] :: d.next[r] in d.uncommitted
  {
    forall r | r in run.planned && !Derived(r) && run.planned[r].Wav? && Convertible(run.start.disk, run.planned[r])
      ensures r in d.next && d.next[r] == Flac(run.planned[r].stem)
    {
      assert Settled(run, d.next, r);
    }
  }

  /** An error is one the code has a reason for. */
  ghost predicate Explained(e: MeetingError, row: Option<Recording>, env: Interference, mishaps: set<Mishap>) {
    || Caused(e, mishaps)
    || (row.None? && e.Gone?)
    || (row.Some? && !AllInFolder(row.value) && e == Failed(OutsideFolder))
    || (row.Some? && AllInFolder(row.value) && !env.Undisturbed? && e == RefusalOf(env))
  }

  /** What a failed run of the record `was` leaves in the folder: only its own
      FLAC and temp names ever changed. */
  ghost predicate LeavesFiles(regen: Regen, before: Disk, was: Recording, after: Disk, e: MeetingError, mishaps: set<Mishap>) {
    && SameBut(before, after, Workspace(was)) && Tidied(before, after, mishaps)
    && FlacsAfterError(before, after, e, mishaps)
    && Reclaimed(regen, before, was, after, e, mishaps)
    && (FileAt(e).Some? ==> FailsOnWav(before, was, FileAt(e).value))
  }

  /** What a failed run leaves. */
  ghost predicate FailedWell(regen: Regen, before: Durable, now: Durable, e: MeetingError, env: Interference, mishaps: set<Mishap>) {
    && Explained(e, before.row, env, mishaps)
    && (|| (now == before && TurnedAway(before.row, e, mishaps))
        || (before.row.Some?
            && LeavesFiles(regen, before.disk, before.row.value, now.disk, e, mishaps)
            && FailedRecord(regen, before, before.row.value, now.row, now.manifest, e, env, mishaps)))
  }

  /** The run ended before it touched anything. */
  predicate TurnedAway(row: Option<Recording>, e: MeetingError, mishaps: set<Mishap>) {
    row.None? || e == Failed(OutsideFolder) || (e == Busy && Unusable in mishaps)
  }

  lemma TurnedAwayIsWell(regen: Regen, now: Durable, e: MeetingError, env: Interference, mishaps: set<Mishap>)
    requires Explained(e, now.row, env, mishaps) && TurnedAway(now.row, e, mishaps)
    ensures FailedWell(regen, now, now, e, env, mishaps)
  {
  }

  lemma FailureLeavesFiles(run: Run, disk: Disk, d: Draft, e: MeetingError, was: set<Mishap>, disk': Disk, mishaps: set<Mishap>)
    requires FailedFiles(run, disk, d, e, was) && was <= mishaps
    requires if CleansUp(e) then Swept(disk, disk', d.uncommitted, mishaps) else disk' == disk
    ensures LeavesFiles(run.regen, run.start.disk, run.planned, disk', e, mishaps)
  {
    FailureKeepsWavs(run, disk, d.uncommitted, disk');
    FailureLeavesFlacs(run, disk, d, e, disk', mishaps);
    FailureReclaims(run, disk, d.uncommitted, e, disk', was, mishaps);
    TidyAfterSweep(run.start.disk, disk, disk', was, mishaps);
  }

  lemma TidyAfterSweep(before: Disk, disk: Disk, disk': Disk, was: set<Mishap>, mishaps: set<Mishap>)
    requires Tidied(before, disk, was) && was <= mishaps && forall n | n in disk' :: n in disk
    ensures Tidied(before, disk', mishaps)
  {
  }

  lemma FailureIsWell(run: Run, now: Durable, d: Draft, e: MeetingError, env: Interference, was: set<Mishap>,
                      after: Durable, mishaps: set<Mishap>)
    requires Grounded(run) && AllInFolder(run.planned) && FailedInner(run, now, d, e, env, was) && was <= mishaps
    requires after.row == now.row && after.manifest == now.manifest
    requires if CleansUp(e) then Swept(now.disk, after.disk, d.uncommitted, mishaps) else after.disk == now.disk
    ensures FailedWell(run.regen, run.start, after, e, env, mishaps)
  {
    FailureLeavesFiles(run, now.disk, d, e, was, after.disk, mishaps);
  }

  /** A hard failure, but for one of the commit's own writes, or the meeting gone. */
  predicate FailsHard(e: MeetingError) {
    match e
    case Gone => true
    case Failed(ReplaceFailed) => false
    case Failed(_) => true
    case _ => false
  }

  /** After that the FLAC of every convertible source before the one it failed at
      is gone, unless its removal was refused; a source found gone, or one whose
      meeting couldn't be read, counts all of them. */
  lemma EarlierFlacsAreTakenBack(regen: Regen, before: Durable, now: Durable, e: MeetingError, env: Interference,
                                 mishaps: set<Mishap>, role: Role)
    requires before.row.Some? && AllInFolder(before.row.value) && FailedWell(regen, before, now, e, env, mishaps) && FailsHard(e)
    requires var was := before.row.value;
             && role in was && !Derived(role) && was[role].Wav? && Convertible(before.disk, was[role])
             && IndexOf(role) < RolesDone(was, e) && Misread(was[role]) !in mishaps
    ensures var flac := Flac(before.row.value[role].stem);
            flac in now.disk ==> Refused(flac) in mishaps
  {
    var was, stem := before.row.value, before.row.value[role].stem;
    assert FileOf(was, role) == Some(Wav(stem)) && Destined(regen, before.disk, was, role) == Some(Flac(stem));
    assert PutInPlace(regen, before.disk, was, e, stem);
  }

  /** A run that cleans up after itself leaves the FLACs of WAVs it never came to
      as it found them: all of them, if it failed before the first conversion. */
  lemma LaterFlacsAreUntouched(regen: Regen, before: Durable, now: Durable, e: MeetingError, env: Interference,
                               mishaps: set<Mishap>, stem: string)
    requires before.row.Some? && FailedWell(regen, before, now, e, env, mishaps) && FailsHard(e)
    requires RolesDone(before.row.value, e) <= IndexOfWav(before.row.value, stem) && FileAt(e) != Some(stem)
    requires Misread(Wav(stem)) !in mishaps
    ensures SameAt(before.disk, now.disk, Flac(stem))
  {
    assert forall r :: FileOf(before.row.value, r) == Some(Wav(stem)) ==> RolesDone(before.row.value, e) <= IndexOf(r);
  }

  lemma FailureKeepsFollowing(regen: Regen, before: Disk, was: Recording, manifest: Recording, after: Disk, e: MeetingError,
                              mishaps: set<Mishap>)
    requires WellFormed(was) && Follows(regen, before, was, manifest)
    requires LeavesFiles(regen, before, was, after, e, mishaps)
    ensures Follows(regen, after, was, manifest)
  {
    WorkspaceIsUnreferenced(was);
    FollowsStays(regen, before, after, was, manifest, Workspace(was));
  }

  /** A failed run loses a manifest that was ahead of the row exactly when it
      removes a FLAC the manifest is ahead with: one it had put in place by the
      time of a hard failure or of finding the meeting or its audio deleted. */
  lemma LosesTheManifestExactlyWhen(regen: Regen, before: Disk, was: Recording, manifest: Recording, after: Disk,
                                    e: MeetingError, mishaps: set<Mishap>)
    requires WellFormed(was) && Follows(regen, before, was, manifest) && Kept(before, was, manifest)
    requires LeavesFiles(regen, before, was, after, e, mishaps)
    requires forall r | Ahead(was, manifest, r) :: Misread(was[r]) !in mishaps && Refused(manifest[r]) !in mishaps
    ensures GivesToo(regen, after, was, manifest) <==>
            !(CleansUp(e) && exists r :: Ahead(was, manifest, r) && PutInPlace(regen, before, was, e, was[r].stem))
  {
    FailureKeepsFollowing(regen, before, was, manifest, after, e, mishaps);
    ManifestGivesExactlyWhen(regen, after, was, manifest);
    forall r | Ahead(was, manifest, r)
      ensures manifest[r] in after <==> !(CleansUp(e) && PutInPlace(regen, before, was, e, was[r].stem))
    {
      var s := was[r].stem;
      assert Matches(before, Flac(s), Wav(s));
    }
  }

  /** What the commit finds that makes the run remove what it put in place. */
  predicate Discards(env: Interference) {
    env.Unreadable? || env.MeetingDeleted? || env.AudioDeleted?
  }

  /** A run in which nothing goes wrong but that its commit finds the meeting
      disturbed loses such a manifest exactly when it can't read the meeting or
      finds it or its audio deleted, and the manifest is ahead at a role that
      isn't dropped. */
  lemma DisturbedLosesTheManifestExactlyWhen(regen: Regen, before: Durable, was: Recording, now: Durable, e: MeetingError,
                                             env: Interference)
    requires before.row == Some(was) && AllInFolder(was) && WellFormed(was)
    requires Follows(regen, before.disk, was, before.manifest) && Kept(before.disk, was, before.manifest)
    requires FailedWell(regen, before, now, e, env, {})
    ensures GivesToo(regen, now.disk, was, before.manifest) <==>
            !(Discards(env) && exists r :: Ahead(was, before.manifest, r) && !Droppable(regen, before.disk, was, r))
  {
    DisturbedIsRefused(regen, before, was, now, e, env);
    LosesTheManifestExactlyWhen(regen, before.disk, was, before.manifest, now.disk, e, {});
    forall r | Ahead(was, before.manifest, r)
      ensures PutInPlace(regen, before.disk, was, e, was[r].stem) <==> !Droppable(regen, before.disk, was, r)
    {
      assert Matches(before.disk, before.manifest[r], was[r]);
      TookUnlessDropped(regen, before.disk, was, r);
    }
  }

  /** What a run in which nothing else goes wrong answers to a disturbance: a
      meeting that can't be read is a failure, one that is gone or has lost its
      audio is gone, one in use or changed is busy; and without one it succeeds. */
  lemma DisturbedAnswers(regen: Regen, before: Durable, now: Durable, e: MeetingError, env: Interference)
    requires before.row.Some? && AllInFolder(before.row.value) && FailedWell(regen, before, now, e, env, {})
    ensures match env
            case Unreadable => e.Failed? && e.reason.StorageFailed?
            case MeetingDeleted => e.Gone?
            case AudioDeleted => e.Gone?
            case Refuses => e.Busy?
            case Changed(_) => e.Busy?
            case Undisturbed => false
    ensures now.row == match env
                       case MeetingDeleted => None
                       case Changed(rec) => Some(rec)
                       case _ => before.row
  {
  }

  lemma DisturbedIsRefused(regen: Regen, before: Durable, was: Recording, now: Durable, e: MeetingError, env: Interference)
    requires before.row == Some(was) && AllInFolder(was) && FailedWell(regen, before, now, e, env, {})
    ensures !env.Undisturbed? && e == RefusalOf(env) && LeavesFiles(regen, before.disk, was, now.disk, e, {})
    ensures CleansUp(e) <==> Discards(env)
    ensures RolesDone(was, e) == |ROLES|
  {
  }

  /** Of all the roles of a record, a convertible one takes its FLAC unless dropped. */
  lemma TookUnlessDropped(regen: Regen, before: Disk, was: Recording, role: Role)
    requires WellFormed(was) && role in was && was[role].Wav? && Convertible(before, was[role])
    ensures Took(regen, before, was, |ROLES|, was[role].stem) <==> !Droppable(regen, before, was, role)
  {
    var s := was[role].stem;
    if Droppable(regen, before, was, role) {
      forall r | FileOf(was, r) == Some(Wav(s))
        ensures r == role
      {
      }
    } else {
      assert IndexOf(role) < |ROLES| && FileOf(was, role) == Some(Wav(s));
    }
  }

  /** A FLAC no role took is as it was. */
  ghost predicate UntakenStay(regen: Regen, before: Disk, was: Recording, after: Disk, mishaps: set<Mishap>) {
    forall s | Misread(Wav(s)) !in mishaps && !Took(regen, before, was, |ROLES|, s) :: SameAt(before, after, Flac(s))
  }

  lemma DeletesLeaveTheRest(run: Run, disk: Disk, d: Draft, doomed: seq<FileName>, disk': Disk, was: set<Mishap>, mishaps: set<Mishap>)
    requires DoneTo(run, disk, d, |ROLES|, was) && was <= mishaps
    requires Swept(disk, disk', doomed, mishaps) && forall w | w in doomed :: w.Wav?
    ensures UntakenStay(run.regen, run.start.disk, run.planned, disk', mishaps) && Tidied(run.start.disk, disk', mishaps)
  {
    TidyAfterSweep(run.start.disk, disk, disk', was, mishaps);
  }

  /** What a run that succeeded leaves: all the audio, no WAV it could convert
      or delete, and in the end no work for the planner. */
  ghost predicate FinishedWell(regen: Regen, fate: Fate, before: Disk, was: Recording, disk: Disk, now: Recording,
                               skip: set<FileName>, unproven: set<FileName>, mishaps: set<Mishap>) {
    && Committed(regen, before, was, disk, now)
    && SourcesConverted(before, was, now) && Fits(regen, before, was, now, |ROLES|, mishaps)
    && UntakenStay(regen, before, was, disk, mishaps) && Tidied(before, disk, mishaps)
    && (forall r | r in now && r in was && now[r] != was[r] :: Sizeable(fate, now[r]))
    && Unproven(regen, disk, now, unproven, mishaps)
    && NoneForgotten(regen, disk, now, skip, unproven, mishaps) && ReplacedGone(was, disk, now, mishaps)
    && (NoWavRefused(mishaps) ==> !HasWork(disk, now, skip + unproven))
  }

  /** The commit's manifest write is a state of its own. */
  ghost predicate TearsAt(regen: Regen, before: Disk, was: Recording, now: Recording, t: seq<Durable>, from: nat) {
    now != was ==> exists i :: from <= i < |t| && Torn(regen, before, was, t[i], now)
  }

  /** What becomes of the leftovers: deleted only if the record gives their
      audio, else reported or skipped. */
  ghost predicate Sorted(regen: Regen, disk: Disk, d: Draft, skip: set<FileName>, leftovers: seq<FileName>,
                         unproven: set<FileName>, n: nat, mishaps: set<Mishap>) {
    && (forall w | w in leftovers :: Expendable(regen, disk, d.next, w))
    && Unproven(regen, disk, d.next, unproven, mishaps)
    && (forall w | w in unproven :: w !in d.toDelete && w !in leftovers)
    && (forall role | IndexOf(role) < n && LeftoverCandidate(disk, d.next, role) ::
          Wav(CaptureStem(role)) in d.toDelete || Wav(CaptureStem(role)) in leftovers
          || Wav(CaptureStem(role)) in skip + unproven)
    && (forall w | w in leftovers || w in unproven :: exists role :: IndexOf(role) < n && w == Wav(CaptureStem(role)))
  }

  lemma CommittedWell(run: Run, fate: Fate, t: seq<Durable>, before: Durable, d: Draft, leftovers: seq<FileName>,
                      skip: set<FileName>, unproven: set<FileName>, was: set<Mishap>, trace: seq<Durable>, disk: Disk,
                      mishaps: set<Mishap>)
    requires Grounded(run) && Standing(run, fate, t, before, d, {}, was) && was <= mishaps
    requires DoneTo(run, before.disk, d, |ROLES|, was)
    requires Sorted(run.regen, before.disk, d, skip, leftovers, unproven, |ROLES|, was)
    requires Swept(before.disk, disk, d.toDelete + leftovers, mishaps) && t <= trace
    requires d.next != run.planned ==> |t| < |trace| && trace[|t|] == Durable(before.disk, Some(run.planned), d.next)
    ensures FinishedWell(run.regen, fate, run.start.disk, run.planned, disk, d.next, skip, unproven, mishaps)
    ensures TearsAt(run.regen, run.start.disk, run.planned, d.next, trace, |run.past|)
  {
    if d.next != run.planned {
      CommitTears(run, t, before, d, trace);
    }
    CommittedRunIsFinished(run, t, before, d, leftovers, disk, Some(d.next), mishaps);
    FinishedIsCommitted(run, disk, Some(d.next), d);
    SettledIsConverted(run, before.disk, d);
    AllExpendable(run, t, before, d, leftovers);
    ExpendableIsUnreferenced(run.regen, before.disk, d.next, d.toDelete + leftovers);
    UnprovenStays(run.regen, before.disk, disk, d.next, d.toDelete + leftovers, unproven, was, mishaps);
    DeletesLeaveTheRest(run, before.disk, d, d.toDelete + leftovers, disk, was, mishaps);
    NothingIsForgotten(run.regen, before.disk, d, skip, leftovers, unproven, disk, mishaps);
    if NoWavRefused(mishaps) {
      NothingLeft(run, t, before, d, leftovers, skip, unproven, disk, mishaps);
    }
  }

  lemma StartsStanding(run: Run, fate: Fate, t: seq<Durable>, now: Durable)
    requires WellFormed(run.planned) && run.start == now && now.row == Some(run.planned) && run.past == t
    requires run.owed == EverythingHeard(run.regen, now.disk, run.planned)
    ensures Grounded(run) && Standing(run, fate, t, now, Draft(run.planned, [], []), {}, {})
  {
    StartsGrounded(run, t, now);
  }

  lemma UnlistedIsVerified(run: Run, disk: Disk, d: Draft, unlisted: set<FileName>)
    requires Accounted(run, disk, d, unlisted)
    ensures FlacsVerified(run.start.disk, disk)
  {
  }

  /** What a run promises of everything its record gave it promises of less. */
  lemma PromisesLess(run: Run, t: seq<Durable>, now: Durable, owed: map<Role, Samples>)
    requires Grounded(run) && Owes(run.regen, run.start.disk, run.planned, owed) && GoodTrace(run, t)
    ensures SafeFrom(run.regen, t, |run.past|, owed) && LeadsFrom(run.regen, run.start, t, |run.past|, owed)
    ensures GoodNow(run, now) ==> Safe(run.regen, now, owed)
  {
    OwesLess(run, t, owed);
    if GoodNow(run, now) {
      OwesLessAt(run, now, owed);
    }
  }
}
