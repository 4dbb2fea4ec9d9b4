// What holds of a run between its start and its commit: what it may have
// written, how far it is, and how it stands when it fails on the way.
module CompressionProgress {
  import opened Wrappers
  import opened Recordings
  import opened Manifests
  import opened CompressionPlan

  // -------------------------------------------------------------------------
  // The protocol
  // -------------------------------------------------------------------------

  /** From `from` on, the trace only ever changed the files `names`. */
  ghost predicate OnlyFiles(t: seq<Durable>, from: nat, start: Durable, names: set<FileName>) {
    && from <= |t|
    && forall i | from <= i < |t| ::
         t[i].row == start.row && t[i].manifest == start.manifest && SameBut(start.disk, t[i].disk, names)
  }

  /** A durable state whose record (if the meeting still has one) gives every
      role the audio it captured. */
  ghost predicate Safe(regen: Regen, d: Durable, owed: map<Role, Samples>) {
    d.row.Some? ==> WellFormed(d.row.value) && Owes(regen, d.disk, d.row.value, owed)
  }

  /** The run's working copy: the record to commit, the WAVs to delete once it
      has, and the FLACs put in place but not committed yet. */
  datatype Draft = Draft(next: Recording, toDelete: seq<FileName>, uncommitted: seq<FileName>)

  ghost predicate Repoints(planned: Recording, d: Draft, r: Role)
    requires r in d.next && r in planned
  {
    d.next[r] == planned[r]
    || (planned[r].Wav? && d.next[r] == Flac(planned[r].stem) && d.next[r] in d.uncommitted)
  }

  function Repointed(planned: Recording, next: Recording, role: Role, flac: FileName): Recording
    requires role in planned
  {
    next + map q | q in planned && (q == role || (!Derived(role) && Derived(q) && planned[q] == planned[role])) :: flac
  }

  lemma RepointedIsSubstitute(planned: Recording, d: Draft, role: Role, stem: string)
    requires WellFormed(planned) && WellFormed(d.next)
    requires forall r | r in d.next :: r in planned && Repoints(planned, d, r)
    requires !Derived(role) ==> forall q | q in planned && Derived(q) :: q in d.next
    requires role in d.next && d.next[role] == planned[role] == Wav(stem)
    requires Derived(role) ==> forall q | q in d.next && q != role :: d.next[q] != planned[role]
    ensures Repointed(planned, d.next, role, Flac(stem)) == Substitute(d.next, Wav(stem), Flac(stem))
  {
  }

  /** A FLAC put in place whose size couldn't be read is in no list. */
  function Unlisted(e: MeetingError): set<FileName> {
    if e.Failed? && e.reason.SizeUnread? then {Flac(e.reason.stem)} else {}
  }

  predicate Uncommitting(e: MeetingError) {
    e.Stopped? || (e.Failed? && !e.reason.ReplaceFailed?)
  }

  /** The errors after which the run removes what it put in place. */
  predicate CleansUp(e: MeetingError) {
    e.Gone? || (e.Failed? && !e.reason.ReplaceFailed?)
  }

  // -------------------------------------------------------------------------
  // What holds between the start of a run and its commit
  // -------------------------------------------------------------------------

  /** A run's fixed points: the trace before it, where it started, the record
      it planned with, and the audio that record owes. */
  datatype Run = Run(regen: Regen, past: seq<Durable>, start: Durable, planned: Recording, owed: map<Role, Samples>)

  /** The run started from its own planned record, and owes what that record gives. */
  ghost predicate Grounded(run: Run) {
    && WellFormed(run.planned) && run.start.row == Some(run.planned)
    && (forall r :: r in run.owed <==> Heard(run.regen, run.start.disk, run.planned, r).Some?)
    && Owes(run.regen, run.start.disk, run.planned, run.owed)
  }

  ghost predicate VerifiedFrom(before: Disk, t: seq<Durable>, from: nat) {
    forall i | from <= i < |t| :: FlacsVerified(before, t[i].disk)
  }

  /** Only the run's own workspace has changed, and no FLAC ever appeared that
      doesn't match its WAV. */
  ghost predicate Contained(run: Run, t: seq<Durable>, now: Durable) {
    && run.past <= t && OnlyFiles(t, |run.past|, run.start, Workspace(run.planned))
    && VerifiedFrom(run.start.disk, t, |run.past|)
    && now.row == run.start.row && now.manifest == run.start.manifest
    && SameBut(run.start.disk, now.disk, Workspace(run.planned))
  }

  /** The record-to-be names the planned files or their FLACs, drops only
      derived roles, and gives every role its audio. */
  ghost predicate Faithful(run: Run, disk: Disk, d: Draft) {
    && WellFormed(d.next) && Owes(run.regen, disk, d.next, run.owed)
    && (forall r | r in d.next :: r in run.planned && Repoints(run.planned, d, r))
    && (forall r | r in run.planned && r !in d.next :: Derived(r) && IsV2(d.next) && r in run.owed)
  }

  /** What will be deleted is a planned WAV nobody will reference, and every file
      a role gave up is among it. */
  ghost predicate Doomed(run: Run, d: Draft) {
    && (forall w | w in d.toDelete :: w.Wav? && w in run.planned.Values && w !in d.next.Values)
    && (forall r | r in run.planned && FileOf(d.next, r) != Some(run.planned[r]) :: run.planned[r] in d.toDelete)
  }

  /** Every FLAC in the folder was put there, verified, by this run (or is
      `unlisted`), or is as the run found it. */
  ghost predicate Accounted(run: Run, disk: Disk, d: Draft, unlisted: set<FileName>) {
    && (forall f | f in d.uncommitted ::
          f.Flac? && Wav(f.stem) in run.planned.Values && Wav(f.stem) !in d.next.Values && Matches(disk, f, Wav(f.stem)))
    && (forall f | f in unlisted && f in disk && f !in d.uncommitted ::
          f.Flac? && (Matches(disk, f, Wav(f.stem)) || (f in run.start.disk && disk[f] == run.start.disk[f])))
    && (forall s | Flac(s) in disk ::
          || Flac(s) in d.uncommitted || Flac(s) in unlisted
          || (Flac(s) in run.start.disk && disk[Flac(s)] == run.start.disk[Flac(s)]))
  }

  ghost predicate Progress(run: Run, t: seq<Durable>, now: Durable, d: Draft, unlisted: set<FileName>) {
    && WellFormed(run.planned)
    && Contained(run, t, now)
    && Faithful(run, now.disk, d)
    && Doomed(run, d)
    && Accounted(run, now.disk, d, unlisted)
  }

  lemma WavsAreOutside(rec: Recording)
    ensures forall w | w in Workspace(rec) :: !w.Wav?
  {
  }

  lemma SameRead(before: Disk, after: Disk, names: set<FileName>, w: FileName)
    requires SameBut(before, after, names) && w !in names
    ensures ReadFile(before, w) == ReadFile(after, w)
  {
  }

  /** A FLAC that matched at some step still does. */
  ghost predicate Lasts(t: seq<Durable>, from: nat, disk: Disk, stem: string) {
    forall i | from <= i < |t| && Matches(t[i].disk, Flac(stem), Wav(stem)) :: Matches(disk, Flac(stem), Wav(stem))
  }

  /** From state `now` to `now'`, logged in `t'`, only one file's FLAC and temp
      name were written. */
  ghost predicate WroteFlac(t: seq<Durable>, t': seq<Durable>, now: Durable, now': Durable, stem: string) {
    && t <= t' && OnlyFiles(t', |t|, now, {Flac(stem), Temp(stem)})
    && VerifiedFrom(now.disk, t', |t|) && Lasts(t', |t|, now'.disk, stem)
    && now'.row == now.row && now'.manifest == now.manifest
    && SameBut(now.disk, now'.disk, {Flac(stem), Temp(stem)})
  }

  /** Steps that only write the temp name. */
  lemma TempStepsWroteFlac(t: seq<Durable>, t': seq<Durable>, now: Durable, now': Durable, stem: string)
    requires t <= t' && OnlyFiles(t', |t|, now, {Temp(stem)})
    requires now'.row == now.row && now'.manifest == now.manifest && SameBut(now.disk, now'.disk, {Temp(stem)})
    ensures WroteFlac(t, t', now, now', stem)
  {
  }

  /** One more step of the same kind. */
  lemma WroteFlacThen(t: seq<Durable>, t': seq<Durable>, now: Durable, mid: Durable, next: Durable, stem: string)
    requires WroteFlac(t, t', now, mid, stem)
    requires next.row == mid.row && next.manifest == mid.manifest && SameBut(mid.disk, next.disk, {Flac(stem), Temp(stem)})
    requires FlacsVerified(now.disk, next.disk)
    requires Matches(mid.disk, Flac(stem), Wav(stem)) ==> Matches(next.disk, Flac(stem), Wav(stem))
    ensures WroteFlac(t, t' + [next], now, next, stem)
  {
  }

  lemma WroteFlacMore(t: seq<Durable>, mid: seq<Durable>, t': seq<Durable>, now: Durable, at: Durable, now': Durable,
                      stem: string)
    requires WroteFlac(t, mid, now, at, stem) && WroteFlac(mid, t', at, now', stem)
    requires FlacsVerified(now.disk, at.disk) && Flac(stem) !in at.disk
    ensures WroteFlac(t, t', now, now', stem)
  {
    forall i | |t| <= i < |t'|
      ensures FlacsVerified(now.disk, t'[i].disk)
    {
      if i < |mid| {
        assert t'[i] == mid[i];
      } else {
        VerifiedAgain(now.disk, at.disk, t'[i].disk, stem);
      }
    }
  }

  lemma VerifiedAgain(before: Disk, at: Disk, after: Disk, stem: string)
    requires FlacsVerified(before, at) && FlacsVerified(at, after) && SameBut(at, after, {Flac(stem), Temp(stem)})
    ensures FlacsVerified(before, after)
  {
  }

  /** Removing the temp name undoes no verification. */
  lemma TempGone(before: Disk, at: Disk, after: Disk, stem: string)
    requires SameBut(before, at, {Flac(stem), Temp(stem)}) && after == at - {Temp(stem)}
    requires Flac(stem) in at ==> Matches(at, Flac(stem), Wav(stem))
    ensures FlacsVerified(before, after)
  {
  }

  lemma StemIsFresh(run: Run, t: seq<Durable>, now: Durable, d: Draft, stem: string)
    requires Progress(run, t, now, d, {}) && Wav(stem) in d.next.Values && Wav(stem) in run.planned.Values
    ensures Flac(stem) in Workspace(run.planned) && Temp(stem) in Workspace(run.planned)
    ensures {Flac(stem), Temp(stem)} !! d.next.Values
    ensures Flac(stem) !in d.uncommitted
  {
    var q :| q in d.next && d.next[q] == Wav(stem);
  }

  /** FLACs verified since some point of the run are verified since its start. */
  lemma VerifiedSinceStart(run: Run, disk: Disk, d: Draft, disk': Disk, stem: string)
    requires Accounted(run, disk, d, {})
    requires SameBut(disk, disk', {Flac(stem), Temp(stem)}) && FlacsVerified(disk, disk')
    ensures FlacsVerified(run.start.disk, disk')
  {
    forall s | Flac(s) in disk' && !Matches(disk', Flac(s), Wav(s))
      ensures Flac(s) in run.start.disk && run.start.disk[Flac(s)] == disk'[Flac(s)]
    {
      assert Flac(s) in disk && disk[Flac(s)] == disk'[Flac(s)];
      assert Wav(s) in disk ==> Wav(s) in disk' && disk'[Wav(s)] == disk[Wav(s)];
    }
  }

  lemma ContainedAfter(run: Run, t: seq<Durable>, t': seq<Durable>, now: Durable, now': Durable, d: Draft, stem: string)
    requires Contained(run, t, now) && Accounted(run, now.disk, d, {}) && WroteFlac(t, t', now, now', stem)
    requires {Flac(stem), Temp(stem)} <= Workspace(run.planned)
    ensures Contained(run, t', now')
  {
    forall i | |run.past| <= i < |t'|
      ensures FlacsVerified(run.start.disk, t'[i].disk)
    {
      if i < |t| {
        assert t'[i] == t[i];
      } else {
        VerifiedSinceStart(run, now.disk, d, t'[i].disk, stem);
      }
    }
  }

  lemma AccountedAfter(run: Run, disk: Disk, disk': Disk, d: Draft, d': Draft, stem: string)
    requires Accounted(run, disk, d, {}) && SameBut(disk, disk', {Flac(stem), Temp(stem)})
    requires Matches(disk', Flac(stem), Wav(stem)) && Wav(stem) in run.planned.Values
    requires Flac(stem) !in d.uncommitted
    requires d'.uncommitted == d.uncommitted + [Flac(stem)]
    requires d'.next == Substitute(d.next, Wav(stem), Flac(stem))
    ensures Accounted(run, disk', d', {})
  {
    forall s | Wav(s) in d'.next.Values
      ensures Wav(s) in d.next.Values && s != stem
    {
      var q :| q in d'.next && d'.next[q] == Wav(s);
      assert d.next[q] == Wav(s);
    }
  }

  lemma DoomedAfter(run: Run, d: Draft, d': Draft, stem: string)
    requires Doomed(run, d) && Wav(stem) in run.planned.Values && Wav(stem) in d.next.Values
    requires d'.next == Substitute(d.next, Wav(stem), Flac(stem)) && d'.toDelete == d.toDelete + [Wav(stem)]
    ensures Doomed(run, d')
  {
    forall w: FileName | w.Wav? && w in d'.next.Values
      ensures w in d.next.Values && w != Wav(stem)
    {
      var q :| q in d'.next && d'.next[q] == w;
      assert d.next[q] == w;
    }
    forall r | r in run.planned && FileOf(d'.next, r) != Some(run.planned[r])
      ensures run.planned[r] in d'.toDelete
    {
      if FileOf(d.next, r) != Some(run.planned[r]) {
        assert run.planned[r] in d.toDelete;
      }
    }
  }

  lemma AfterConversion(run: Run, t: seq<Durable>, t': seq<Durable>, now: Durable, now': Durable, d: Draft, stem: string)
    requires Progress(run, t, now, d, {}) && WroteFlac(t, t', now, now', stem)
    requires Wav(stem) in d.next.Values && Wav(stem) in run.planned.Values
    requires Matches(now'.disk, Flac(stem), Wav(stem))
    ensures Progress(run, t', now',
              Draft(Substitute(d.next, Wav(stem), Flac(stem)), d.toDelete + [Wav(stem)], d.uncommitted + [Flac(stem)]), {})
  {
    var d' := Draft(Substitute(d.next, Wav(stem), Flac(stem)), d.toDelete + [Wav(stem)], d.uncommitted + [Flac(stem)]);
    StemIsFresh(run, t, now, d, stem);
    ContainedAfter(run, t, t', now, now', d, stem);
    HeardFrame(run.regen, now.disk, now'.disk, d.next, {Flac(stem), Temp(stem)}, run.owed);
    ConversionKeepsAudio(run.regen, now'.disk, d.next, stem, run.owed);
    DoomedAfter(run, d, d', stem);
    AccountedAfter(run, now.disk, now'.disk, d, d', stem);
  }

  lemma AccountedAfterFailure(run: Run, disk: Disk, disk': Disk, d: Draft, stem: string, unlisted: set<FileName>)
    requires Accounted(run, disk, d, {}) && SameBut(disk, disk', {Flac(stem), Temp(stem)})
    requires Flac(stem) !in d.uncommitted && unlisted <= {Flac(stem)}
    requires Flac(stem) in disk' ==>
               || (Flac(stem) in disk && disk'[Flac(stem)] == disk[Flac(stem)])
               || (unlisted == {Flac(stem)} && Matches(disk', Flac(stem), Wav(stem)))
    ensures Accounted(run, disk', d, unlisted)
  {
  }

  lemma AfterFailedConversion(run: Run, t: seq<Durable>, t': seq<Durable>, now: Durable, now': Durable, d: Draft,
                              stem: string, e: MeetingError)
    requires Progress(run, t, now, d, {}) && WroteFlac(t, t', now, now', stem)
    requires Wav(stem) in d.next.Values && Wav(stem) in run.planned.Values
    requires Unlisted(e) <= {Flac(stem)}
    requires Flac(stem) in now'.disk ==>
               || (Flac(stem) in now.disk && now'.disk[Flac(stem)] == now.disk[Flac(stem)])
               || (Unlisted(e) == {Flac(stem)} && Matches(now'.disk, Flac(stem), Wav(stem)))
    ensures Progress(run, t', now', d, Unlisted(e))
  {
    StemIsFresh(run, t, now, d, stem);
    ContainedAfter(run, t, t', now, now', d, stem);
    HeardFrame(run.regen, now.disk, now'.disk, d.next, {Flac(stem), Temp(stem)}, run.owed);
    AccountedAfterFailure(run, now.disk, now'.disk, d, stem, Unlisted(e));
  }

  lemma DoomedAfterDrop(run: Run, d: Draft, role: Role)
    requires Doomed(run, d) && role in d.next && role in run.planned && d.next[role] == run.planned[role] && d.next[role].Wav?
    requires d.next[role] !in (d.next - {role}).Values
    ensures Doomed(run, Draft(d.next - {role}, d.toDelete + [d.next[role]], d.uncommitted))
  {
    var next := d.next - {role};
    forall w | w in next.Values
      ensures w in d.next.Values
    {
      var q :| q in next && next[q] == w;
      assert d.next[q] == w;
    }
    forall r | r in run.planned && FileOf(next, r) != Some(run.planned[r])
      ensures run.planned[r] in d.toDelete + [d.next[role]]
    {
      if r != role {
        assert FileOf(next, r) == FileOf(d.next, r);
      }
    }
  }

  lemma AfterDrop(run: Run, t: seq<Durable>, now: Durable, d: Draft, role: Role)
    requires Progress(run, t, now, d, {})
    requires role in d.next && role in run.planned && d.next[role] == run.planned[role]
    requires Derived(role) && IsV2(d.next) && d.next[role].Wav?
    requires Regenerated(run.regen, now.disk, d.next, role) == Heard(run.regen, now.disk, d.next, role)
    requires Heard(run.regen, now.disk, d.next, role).Some? && role in run.owed
    ensures Progress(run, t, now, Draft(d.next - {role}, d.toDelete + [d.next[role]], d.uncommitted), {})
  {
    WellFormedWithout(d.next, role);
    DroppingKeepsAudio(run.regen, now.disk, d.next, role, run.owed);
    assert (d.next - {role}).Values <= d.next.Values;
    DoomedAfterDrop(run, d, role);
  }

  /** Every FLAC is verified, or as the run found it. */
  lemma AccountedIsVerified(run: Run, disk: Disk, d: Draft)
    requires Accounted(run, disk, d, {})
    ensures FlacsVerified(run.start.disk, disk)
  {
  }

  lemma RecordSourceIsSame(run: Run, disk: Disk, d: Draft, role: Role)
    requires Faithful(run, disk, d) && Accounted(run, disk, d, {}) && !Derived(role)
    ensures SourceOf(disk, d.next, role) == SourceOf(disk, run.planned, role)
  {
    if role in d.next && d.next[role] != run.planned[role] {
      assert Matches(disk, d.next[role], Wav(d.next[role].stem));
    }
  }

  lemma StrayRemoved(run: Run, t: seq<Durable>, before: Durable, t': seq<Durable>, now: Durable, stem: string)
    requires Progress(run, t, before, Draft(run.planned, [], []), {}) && Temp(stem) in Workspace(run.planned)
    requires now.row == before.row && now.manifest == before.manifest
    requires (now == before && t' == t) || (now.disk == before.disk - {Temp(stem)} && t' == t + [now])
    ensures Progress(run, t', now, Draft(run.planned, [], []), {})
  {
    WorkspaceIsUnreferenced(run.planned);
    HeardFrame(run.regen, before.disk, now.disk, run.planned, {Temp(stem)}, run.owed);
    AccountedIsVerified(run, before.disk, Draft(run.planned, [], []));
    TempGoneStaysVerified(run.start.disk, before.disk, now.disk, stem);
    assert Accounted(run, now.disk, Draft(run.planned, [], []), {});
  }

  lemma TempGoneStaysVerified(before: Disk, at: Disk, after: Disk, stem: string)
    requires FlacsVerified(before, at) && (after == at || after == at - {Temp(stem)})
    ensures FlacsVerified(before, after)
  {
  }

  /** A planned WAV that can be read is owed. */
  lemma PlannedWavIsOwed(run: Run, t: seq<Durable>, now: Durable, role: Role)
    requires Grounded(run) && Contained(run, t, now) && role in run.planned && run.planned[role].Wav?
    requires ReadFile(now.disk, run.planned[role]).Sound?
    ensures role in run.owed
  {
    WavsAreOutside(run.planned);
    SameRead(run.start.disk, now.disk, Workspace(run.planned), run.planned[role]);
    assert Heard(run.regen, run.start.disk, run.planned, role).Some?;
  }

  /** `role` no longer names a WAV that could be converted. */
  ghost predicate Settled(run: Run, next: Recording, role: Role) {
    role in next && next[role].Wav? ==> !Convertible(run.start.disk, next[role])
  }

  ghost predicate SettledTo(run: Run, next: Recording, n: nat) {
    forall r | IndexOf(r) < n :: Settled(run, next, r)
  }

  /** The roles from `n` on are still in the record, the sources as planned. */
  ghost predicate Pending(planned: Recording, next: Recording, n: nat) {
    forall r | r in planned && n <= IndexOf(r) :: r in next && (!Derived(r) ==> next[r] == planned[r])
  }

  /** A source that couldn't be converted is no one's convertible file. */
  lemma OnlySharerIsSettled(run: Run, d: Draft, role: Role)
    requires WellFormed(d.next) && role in d.next && Derived(role) && Convertible(run.start.disk, d.next[role])
    requires d.next[role].Wav?
    requires SettledTo(run, d.next, 2)
    ensures forall q | q in d.next && q != role :: d.next[q] != d.next[role]
  {
    assert Settled(run, d.next, Mic) && Settled(run, d.next, System);
  }

  /** Roles that are one file are converted together. */
  lemma SharersFollow(planned: Recording, d: Draft, role: Role, sharer: Role)
    requires role in planned && sharer in planned && planned[sharer] == planned[role]
    requires role in d.next && d.next[role] == planned[role]
    requires sharer in d.next && Repoints(planned, d, sharer)
    requires forall f | f in d.uncommitted :: f.Flac? && Wav(f.stem) !in d.next.Values
    ensures d.next[sharer] == planned[sharer]
  {
    assert d.next[role] in d.next.Values;
  }

  /** Nor was it, in the planned record, an earlier role's. */
  lemma OnlySharerIsFirst(run: Run, disk: Disk, d: Draft, role: Role)
    requires WellFormed(run.planned) && Faithful(run, disk, d) && Accounted(run, disk, d, {})
    requires role in d.next && Derived(role) && d.next[role].Wav? && d.next[role] == run.planned[role]
    requires forall q | q in d.next && q != role :: d.next[q] != d.next[role]
    ensures IndexOfWav(run.planned, run.planned[role].stem) == IndexOf(role)
  {
    if Mic in run.planned && run.planned[Mic] == run.planned[role] {
      SharersFollow(run.planned, d, role, Mic);
    }
    FirstUnlessMic(run.planned, role);
  }

  lemma FirstUnlessMic(rec: Recording, role: Role)
    requires WellFormed(rec) && role in rec && rec[role].Wav?
    requires Mic in rec && role != Mic ==> rec[Mic] != rec[role]
    ensures IndexOfWav(rec, rec[role].stem) == IndexOf(role)
  {
  }

  lemma SameWavs(run: Run, t: seq<Durable>, now: Durable)
    requires Contained(run, t, now)
    ensures forall w: FileName | w.Wav? :: Convertible(now.disk, w) <==> Convertible(run.start.disk, w)
  {
  }

  /** A derived role that followed a source, or whose file isn't a WAV or isn't
      there, has nothing to settle. */
  lemma NothingToSettle(run: Run, t: seq<Durable>, now: Durable, d: Draft, role: Role)
    requires Contained(run, t, now) && Faithful(run, now.disk, d)
    requires role in run.planned ==> role in d.next
    requires role !in run.planned || !run.planned[role].Wav? || d.next[role] != run.planned[role]
             || run.planned[role] !in now.disk
    ensures Settled(run, d.next, role)
  {
    SameWavs(run, t, now);
  }

  // -------------------------------------------------------------------------
  // FLACs and temp files
  // -------------------------------------------------------------------------

  /** A FLAC that was there before the run and matches its WAV, which no
      comparison failed on, is reused as it is... */
  ghost predicate Reused(before: Disk, after: Disk, mishaps: set<Mishap>) {
    forall s | Flac(s) in before && Matches(before, Flac(s), Wav(s)) && Misread(Wav(s)) !in mishaps ::
      Flac(s) in after && after[Flac(s)] == before[Flac(s)]
  }

  /** No FLAC that matched its WAV at some step of the run, and no comparison
      failed on, has gone. */
  ghost predicate FlacsLast(t: seq<Durable>, from: nat, disk: Disk, mishaps: set<Mishap>) {
    forall i, s | from <= i < |t| && Matches(t[i].disk, Flac(s), Wav(s)) && Misread(Wav(s)) !in mishaps ::
      Matches(disk, Flac(s), Wav(s))
  }

  /** No temp file is left, capture's own or one the run wrote, but one whose
      removal was refused. */
  ghost predicate Tidied(before: Disk, after: Disk, mishaps: set<Mishap>) {
    && NoNewTemps(before, after, mishaps)
    && StraysGone(after, |ROLES|, mishaps)
  }

  ghost predicate NoNewTemps(before: Disk, after: Disk, mishaps: set<Mishap>) {
    forall s | Temp(s) in after :: Temp(s) in before || Refused(Temp(s)) in mishaps
  }

  ghost predicate StraysGone(disk: Disk, n: nat, mishaps: set<Mishap>) {
    forall r | IndexOf(r) < n && Temp(CaptureStem(r)) in disk :: Refused(Temp(CaptureStem(r))) in mishaps
  }

  lemma ReusedAfter(before: Disk, at: Disk, after: Disk, was: set<Mishap>, mishaps: set<Mishap>, stem: string)
    requires Reused(before, at, was) && was <= mishaps
    requires forall s :: Wav(s) in before ==> Wav(s) in at && at[Wav(s)] == before[Wav(s)]
    requires SameBut(at, after, {Flac(stem), Temp(stem)})
    requires Matches(at, Flac(stem), Wav(stem)) && Misread(Wav(stem)) !in mishaps ==>
               Flac(stem) in after && after[Flac(stem)] == at[Flac(stem)]
    ensures Reused(before, after, mishaps)
  {
  }

  lemma ReusedStill(before: Disk, disk: Disk, was: set<Mishap>, mishaps: set<Mishap>)
    requires Reused(before, disk, was) && was <= mishaps
    ensures Reused(before, disk, mishaps)
  {
  }

  lemma FlacsLastAfter(t: seq<Durable>, t': seq<Durable>, from: nat, now: Durable, now': Durable, stem: string,
                       was: set<Mishap>, mishaps: set<Mishap>)
    requires from <= |t| && FlacsLast(t, from, now.disk, was) && was <= mishaps && WroteFlac(t, t', now, now', stem)
    requires Matches(now.disk, Flac(stem), Wav(stem)) && Misread(Wav(stem)) !in mishaps ==>
               Flac(stem) in now'.disk && now'.disk[Flac(stem)] == now.disk[Flac(stem)]
    ensures FlacsLast(t', from, now'.disk, mishaps)
  {
    forall i, s | from <= i < |t'| && Matches(t'[i].disk, Flac(s), Wav(s)) && Misread(Wav(s)) !in mishaps
      ensures Matches(now'.disk, Flac(s), Wav(s))
    {
      if i < |t| {
        assert t'[i] == t[i];
      }
    }
  }

  lemma FlacsLastStays(t: seq<Durable>, t': seq<Durable>, from: nat, disk: Disk, was: set<Mishap>, mishaps: set<Mishap>)
    requires from <= |t| && FlacsLast(t, from, disk, was) && was <= mishaps && t <= t'
    requires forall i | |t| <= i < |t'| :: t'[i].disk == disk
    ensures FlacsLast(t', from, disk, mishaps)
  {
  }

  lemma WavsStay(run: Run, t: seq<Durable>, now: Durable)
    requires Contained(run, t, now)
    ensures forall s :: Wav(s) in run.start.disk ==> Wav(s) in now.disk && now.disk[Wav(s)] == run.start.disk[Wav(s)]
  {
    WavsAreOutside(run.planned);
  }

  // -------------------------------------------------------------------------
  // Role by role
  // -------------------------------------------------------------------------

  /** The run's own FLACs are exactly those the first `n` roles took, and no
      other FLAC changed but that of the WAV it failed at. */
  ghost predicate Tallied(run: Run, disk: Disk, uncommitted: seq<FileName>, n: nat, failing: Option<string>, mishaps: set<Mishap>) {
    forall s | Misread(Wav(s)) !in mishaps ::
      && (Flac(s) in uncommitted <==> Took(run.regen, run.start.disk, run.planned, n, s))
      && (Flac(s) in uncommitted || failing == Some(s) || SameAt(run.start.disk, disk, Flac(s)))
  }

  /** The run is done with the first `n` roles. */
  ghost predicate DoneTo(run: Run, disk: Disk, d: Draft, n: nat, mishaps: set<Mishap>) {
    && Fits(run.regen, run.start.disk, run.planned, d.next, n, mishaps)
    && Tallied(run, disk, d.uncommitted, n, None, mishaps)
    && SettledTo(run, d.next, n) && Pending(run.planned, d.next, n)
    && Tidied(run.start.disk, disk, mishaps)
  }

  /** Where the run is when it fails with an error that makes it clean up. */
  ghost predicate FailsAt(run: Run, disk: Disk, d: Draft, e: MeetingError, mishaps: set<Mishap>) {
    CleansUp(e) ==>
      && Tallied(run, disk, d.uncommitted, RolesDone(run.planned, e), FileAt(e), mishaps)
      && (FileAt(e).Some? ==> FailsOnWav(run.start.disk, run.planned, FileAt(e).value))
  }

  /** It was converting a WAV of the record. */
  ghost predicate FailsOnWav(before: Disk, was: Recording, stem: string) {
    Wav(stem) in was.Values && Convertible(before, Wav(stem))
  }

  lemma StartsAtNone(run: Run, disk: Disk, mishaps: set<Mishap>)
    requires StartsTidy(run.start.disk, disk, |ROLES|, mishaps)
    ensures DoneTo(run, disk, Draft(run.planned, [], []), 0, mishaps)
  {
  }

  /** No FLAC touched yet, and the temp files of the first `n` roles gone. */
  ghost predicate StartsTidy(before: Disk, disk: Disk, n: nat, mishaps: set<Mishap>) {
    && (forall s :: SameAt(before, disk, Flac(s)))
    && NoNewTemps(before, disk, mishaps) && StraysGone(disk, n, mishaps)
  }

  lemma TidiesOne(before: Disk, disk: Disk, disk': Disk, i: nat, was: set<Mishap>, mishaps: set<Mishap>)
    requires i < |ROLES| && StartsTidy(before, disk, i, was) && was <= mishaps
    requires disk' == disk || disk' == disk - {Temp(CaptureStem(ROLES[i]))}
    requires Temp(CaptureStem(ROLES[i])) in disk' ==> Refused(Temp(CaptureStem(ROLES[i]))) in mishaps
    ensures StartsTidy(before, disk', i + 1, mishaps)
  {
    RoleIndex(i);
    RoleAt(ROLES[i]);
  }

  /** Mishaps only weaken it. */
  lemma StillDone(run: Run, disk: Disk, d: Draft, n: nat, was: set<Mishap>, mishaps: set<Mishap>)
    requires DoneTo(run, disk, d, n, was) && was <= mishaps
    ensures DoneTo(run, disk, d, n, mishaps)
  {
  }

  /** A role that needs nothing: it has its file, and if that is a FLAC taken
      over from a WAV, it was another's too. */
  lemma PassedBy(run: Run, disk: Disk, d: Draft, role: Role, mishaps: set<Mishap>)
    requires DoneTo(run, disk, d, IndexOf(role), mishaps) && Settled(run, d.next, role)
    requires role in run.planned && Misread(run.planned[role]) !in mishaps ==>
               && FileOf(d.next, role) == Destined(run.regen, run.start.disk, run.planned, role)
               && (role in d.next && d.next[role] != run.planned[role] ==> d.next[role] in d.uncommitted)
    ensures DoneTo(run, disk, d, IndexOf(role) + 1, mishaps)
  {
    RoleAt(role);
    forall s | Misread(Wav(s)) !in mishaps
      ensures Took(run.regen, run.start.disk, run.planned, IndexOf(role) + 1, s) ==> Flac(s) in d.uncommitted
      ensures Took(run.regen, run.start.disk, run.planned, IndexOf(role), s) ==>
                Took(run.regen, run.start.disk, run.planned, IndexOf(role) + 1, s)
    {
    }
  }

  lemma DroppedAt(run: Run, disk: Disk, d: Draft, role: Role, toDelete: seq<FileName>, mishaps: set<Mishap>)
    requires DoneTo(run, disk, d, IndexOf(role), mishaps) && Droppable(run.regen, run.start.disk, run.planned, role)
    ensures DoneTo(run, disk, Draft(d.next - {role}, toDelete, d.uncommitted), IndexOf(role) + 1, mishaps)
  {
    RoleAt(role);
    DroppedTallies(run, disk, d.uncommitted, role, mishaps);
  }

  lemma DroppedTallies(run: Run, disk: Disk, uncommitted: seq<FileName>, role: Role, mishaps: set<Mishap>)
    requires Tallied(run, disk, uncommitted, IndexOf(role), None, mishaps)
    requires Droppable(run.regen, run.start.disk, run.planned, role)
    ensures Tallied(run, disk, uncommitted, IndexOf(role) + 1, None, mishaps)
  {
    forall s
      ensures Took(run.regen, run.start.disk, run.planned, IndexOf(role) + 1, s) <==>
              Took(run.regen, run.start.disk, run.planned, IndexOf(role), s)
    {
      TookNext(run, role, s);
    }
  }

  lemma ConvertedAt(run: Run, disk: Disk, disk': Disk, d: Draft, d': Draft, role: Role, stem: string,
                    was: set<Mishap>, mishaps: set<Mishap>)
    requires WellFormed(run.planned) && DoneTo(run, disk, d, IndexOf(role), was) && was <= mishaps
    requires SameBut(disk, disk', {Flac(stem), Temp(stem)})
    requires FileOf(run.planned, role) == FileOf(d.next, role) == Some(Wav(stem)) && Convertible(run.start.disk, Wav(stem))
    requires Droppable(run.regen, run.start.disk, run.planned, role) ==> Misread(Wav(stem)) in mishaps
    requires d'.next == Substitute(d.next, Wav(stem), Flac(stem)) && d'.uncommitted == d.uncommitted + [Flac(stem)]
    requires Temp(stem) in disk' ==> Temp(stem) in disk || Refused(Temp(stem)) in mishaps
    ensures DoneTo(run, disk', d', IndexOf(role) + 1, mishaps)
  {
    RoleAt(role);
    StillTidy(run.start.disk, disk, disk', stem, was, mishaps);
    ConvertedFits(run, d.next, role, stem, was, mishaps);
    ConvertedTallies(run, disk, disk', d.uncommitted, role, stem, was, mishaps);
  }

  lemma StillTidy(before: Disk, disk: Disk, disk': Disk, stem: string, was: set<Mishap>, mishaps: set<Mishap>)
    requires Tidied(before, disk, was) && was <= mishaps && SameBut(disk, disk', {Flac(stem), Temp(stem)})
    requires Temp(stem) in disk' ==> Temp(stem) in disk || Refused(Temp(stem)) in mishaps
    ensures Tidied(before, disk', mishaps)
  {
  }

  lemma ConvertedFits(run: Run, next: Recording, role: Role, stem: string, was: set<Mishap>, mishaps: set<Mishap>)
    requires Fits(run.regen, run.start.disk, run.planned, next, IndexOf(role), was) && was <= mishaps
    requires FileOf(run.planned, role) == FileOf(next, role) == Some(Wav(stem)) && Convertible(run.start.disk, Wav(stem))
    requires Droppable(run.regen, run.start.disk, run.planned, role) ==> Misread(Wav(stem)) in mishaps
    ensures Fits(run.regen, run.start.disk, run.planned, Substitute(next, Wav(stem), Flac(stem)), IndexOf(role) + 1, mishaps)
  {
    RoleAt(role);
    forall r | r in run.planned && IndexOf(r) < IndexOf(role) && Misread(run.planned[r]) !in mishaps
      ensures FileOf(Substitute(next, Wav(stem), Flac(stem)), r) == Destined(run.regen, run.start.disk, run.planned, r)
    {
      assert FileOf(next, r) == Destined(run.regen, run.start.disk, run.planned, r);
    }
  }

  lemma ConvertedTallies(run: Run, disk: Disk, disk': Disk, uncommitted: seq<FileName>, role: Role, stem: string,
                         was: set<Mishap>, mishaps: set<Mishap>)
    requires Tallied(run, disk, uncommitted, IndexOf(role), None, was) && was <= mishaps
    requires SameBut(disk, disk', {Flac(stem), Temp(stem)})
    requires FileOf(run.planned, role) == Some(Wav(stem)) && Convertible(run.start.disk, Wav(stem))
    requires Droppable(run.regen, run.start.disk, run.planned, role) ==> Misread(Wav(stem)) in mishaps
    ensures Tallied(run, disk', uncommitted + [Flac(stem)], IndexOf(role) + 1, None, mishaps)
  {
    forall s | Misread(Wav(s)) !in mishaps
      ensures Flac(s) in uncommitted + [Flac(stem)] <==> Took(run.regen, run.start.disk, run.planned, IndexOf(role) + 1, s)
    {
      TookNext(run, role, s);
    }
  }

  /** The next role takes its own file's FLAC, if any. */
  lemma TookNext(run: Run, role: Role, s: string)
    ensures Took(run.regen, run.start.disk, run.planned, IndexOf(role) + 1, s) <==>
              || Took(run.regen, run.start.disk, run.planned, IndexOf(role), s)
              || (FileOf(run.planned, role) == Some(Wav(s)) && Destined(run.regen, run.start.disk, run.planned, role) == Some(Flac(s)))
  {
    RoleAt(role);
  }

  lemma FailedAt(run: Run, disk: Disk, disk': Disk, d: Draft, role: Role, stem: string, e: MeetingError,
                 was: set<Mishap>, mishaps: set<Mishap>)
    requires DoneTo(run, disk, d, IndexOf(role), was) && was <= mishaps
    requires SameBut(disk, disk', {Flac(stem), Temp(stem)})
    requires role in run.planned && run.planned[role] == Wav(stem) && Convertible(run.start.disk, Wav(stem))
    requires IndexOfWav(run.planned, stem) == IndexOf(role) && (e.Stopped? || FileAt(e) == Some(stem))
    ensures FailsAt(run, disk', d, e, mishaps)
  {
  }

  /** The sources as they are in the record-to-be regenerate what they did in
      the planned one. */
  lemma RegeneratesAsPlanned(run: Run, t: seq<Durable>, now: Durable, d: Draft, role: Role)
    requires Progress(run, t, now, d, {})
    ensures Regenerated(run.regen, now.disk, d.next, role) == Regenerated(run.regen, run.start.disk, run.planned, role)
  {
    RecordSourceIsSame(run, now.disk, d, Mic);
    RecordSourceIsSame(run, now.disk, d, System);
    WorkspaceIsUnreferenced(run.planned);
    RegeneratedFrame(run.regen, run.start.disk, now.disk, run.planned, Workspace(run.planned), role);
  }

  lemma RegeneratesToAsPlanned(run: Run, t: seq<Durable>, now: Durable, d: Draft, role: Role, wav: FileName)
    requires Progress(run, t, now, d, {}) && wav.Wav?
    ensures RegeneratesTo(run.regen, now.disk, d.next, role, wav) <==> RegeneratesTo(run.regen, run.start.disk, run.planned, role, wav)
  {
    RegeneratesAsPlanned(run, t, now, d, role);
    WavsAreOutside(run.planned);
  }

  lemma NoSourceShares(run: Run, disk: Disk, d: Draft, role: Role)
    requires WellFormed(run.planned) && Faithful(run, disk, d) && Accounted(run, disk, d, {}) && IsV2(d.next)
    requires role in d.next && Derived(role) && d.next[role] == run.planned[role] && d.next[role].Wav?
    ensures forall q | q in run.planned && !Derived(q) :: run.planned[q] != run.planned[role]
  {
    if Mic in run.planned && run.planned[Mic] == run.planned[role] {
      SharersFollow(run.planned, d, role, Mic);
    }
  }

  lemma V2AsPlanned(run: Run, t: seq<Durable>, now: Durable, d: Draft, role: Role)
    requires Progress(run, t, now, d, {}) && !Derived(role) && SettledTo(run, d.next, 2)
    ensures FlacToBe(run.start.disk, run.planned, role) <==> role in d.next && d.next[role].Flac?
  {
    assert Settled(run, d.next, role);
    SameWavs(run, t, now);
  }

  /** Whether a derived WAV may be dropped was settled by what the run found. */
  lemma DroppableAsPlanned(run: Run, t: seq<Durable>, now: Durable, d: Draft, role: Role)
    requires Progress(run, t, now, d, {}) && SettledTo(run, d.next, 2)
    requires role in d.next && Derived(role) && d.next[role] == run.planned[role] && d.next[role].Wav?
    ensures Droppable(run.regen, run.start.disk, run.planned, role) <==>
              IsV2(d.next) && RegeneratesTo(run.regen, now.disk, d.next, role, run.planned[role])
  {
    RegeneratesToAsPlanned(run, t, now, d, role, run.planned[role]);
    V2AsPlanned(run, t, now, d, Mic);
    V2AsPlanned(run, t, now, d, System);
    if IsV2(d.next) {
      NoSourceShares(run, now.disk, d, role);
    }
  }

  /** A derived role with nothing to settle has the file destined for it. */
  lemma NothingToSettleFits(run: Run, t: seq<Durable>, now: Durable, d: Draft, role: Role, mishaps: set<Mishap>)
    requires Progress(run, t, now, d, {}) && Derived(role) && DoneTo(run, now.disk, d, IndexOf(role), mishaps)
    requires role !in run.planned || !run.planned[role].Wav? || d.next[role] != run.planned[role]
             || run.planned[role] !in now.disk
    ensures DoneTo(run, now.disk, d, IndexOf(role) + 1, mishaps)
  {
    NothingToSettle(run, t, now, d, role);
    SameWavs(run, t, now);
    if role in run.planned && run.planned[role].Wav? && Misread(run.planned[role]) !in mishaps {
      if d.next[role] != run.planned[role] {
        FollowedASource(run, now.disk, d, role, mishaps);
      } else {
        WavsAreOutside(run.planned);
        SameRead(run.start.disk, now.disk, Workspace(run.planned), run.planned[role]);
      }
    }
    PassedBy(run, now.disk, d, role, mishaps);
  }

  /** Only a source's conversion changes the file of a role not yet settled. */
  lemma FollowedASource(run: Run, disk: Disk, d: Draft, role: Role, mishaps: set<Mishap>)
    requires WellFormed(run.planned) && Tallied(run, disk, d.uncommitted, IndexOf(role), None, mishaps)
    requires Derived(role) && role in run.planned && run.planned[role].Wav? && Misread(run.planned[role]) !in mishaps
    requires role in d.next && d.next[role] != run.planned[role] && Repoints(run.planned, d, role)
    ensures d.next[role] in d.uncommitted
    ensures FileOf(d.next, role) == Destined(run.regen, run.start.disk, run.planned, role)
  {
    var s := run.planned[role].stem;
    assert d.next[role] == Flac(s);
    var r :| IndexOf(r) < IndexOf(role) && FileOf(run.planned, r) == Some(Wav(s))
             && Destined(run.regen, run.start.disk, run.planned, r) == Some(Flac(s));
    assert r == Mic;
  }

  // -------------------------------------------------------------------------
  // How a run stands
  // -------------------------------------------------------------------------

  /** The size of this FLAC can be read at some moment. */
  ghost predicate Sizeable(fate: Fate, flac: FileName) {
    exists t :: !fate(NoSize(flac), t)
  }

  ghost predicate Standing(run: Run, fate: Fate, t: seq<Durable>, now: Durable, d: Draft, unlisted: set<FileName>,
                           mishaps: set<Mishap>) {
    && Progress(run, t, now, d, unlisted)
    && Reused(run.start.disk, now.disk, mishaps) && Grew(fate, {}, mishaps)
    && FlacsLast(t, |run.past|, now.disk, mishaps)
    && forall f | f in d.uncommitted :: Sizeable(fate, f)
  }

  ghost predicate FailsStanding(run: Run, fate: Fate, t: seq<Durable>, now: Durable, d: Draft, e: MeetingError,
                                mishaps: set<Mishap>) {
    && Standing(run, fate, t, now, d, Unlisted(e), mishaps) && Uncommitting(e) && Caused(e, mishaps)
    && FailsAt(run, now.disk, d, e, mishaps) && Tidied(run.start.disk, now.disk, mishaps)
    && forall f | f in Unlisted(e) :: f !in d.uncommitted && f.Flac? && f in now.disk && Matches(now.disk, f, Wav(f.stem))
  }

  /** A run stands as it did when only mishaps were added... */
  lemma StillStands(run: Run, fate: Fate, t: seq<Durable>, now: Durable, d: Draft, was: set<Mishap>, mishaps: set<Mishap>)
    requires Standing(run, fate, t, now, d, {}, was) && Grew(fate, was, mishaps)
    ensures Standing(run, fate, t, now, d, {}, mishaps)
  {
  }

  /** ...and fails with one of them. */
  lemma PlainlyFails(run: Run, fate: Fate, t: seq<Durable>, now: Durable, d: Draft, e: MeetingError,
                     was: set<Mishap>, mishaps: set<Mishap>)
    requires Standing(run, fate, t, now, d, {}, was) && Grew(fate, was, mishaps)
    requires Caused(e, mishaps) && Uncommitting(e) && Unlisted(e) == {} && FailsAt(run, now.disk, d, e, mishaps)
    requires Tidied(run.start.disk, now.disk, mishaps)
    ensures FailsStanding(run, fate, t, now, d, e, mishaps)
  {
    StillStands(run, fate, t, now, d, was, mishaps);
  }

  lemma StrayGoneStands(run: Run, fate: Fate, t: seq<Durable>, before: Durable, t': seq<Durable>, now: Durable, stem: string,
                        was: set<Mishap>, mishaps: set<Mishap>)
    requires Standing(run, fate, t, before, Draft(run.planned, [], []), {}, was) && Temp(stem) in Workspace(run.planned)
    requires now.row == before.row && now.manifest == before.manifest && Grew(fate, was, mishaps)
    requires (now == before && t' == t) || (now.disk == before.disk - {Temp(stem)} && t' == t + [now])
    ensures Standing(run, fate, t', now, Draft(run.planned, [], []), {}, mishaps)
  {
    StrayRemoved(run, t, before, t', now, stem);
  }

  lemma ConvertedStands(run: Run, fate: Fate, t: seq<Durable>, t': seq<Durable>, now: Durable, now': Durable, d: Draft,
                        stem: string, was: set<Mishap>, mishaps: set<Mishap>)
    requires Standing(run, fate, t, now, d, {}, was) && WroteFlac(t, t', now, now', stem)
    requires Wav(stem) in d.next.Values && Wav(stem) in run.planned.Values
    requires Matches(now'.disk, Flac(stem), Wav(stem)) && Sizeable(fate, Flac(stem)) && Grew(fate, was, mishaps)
    requires Matches(now.disk, Flac(stem), Wav(stem)) && Misread(Wav(stem)) !in mishaps ==>
               Flac(stem) in now'.disk && now'.disk[Flac(stem)] == now.disk[Flac(stem)]
    ensures Standing(run, fate, t', now',
              Draft(Substitute(d.next, Wav(stem), Flac(stem)), d.toDelete + [Wav(stem)], d.uncommitted + [Flac(stem)]), {}, mishaps)
  {
    WavsStay(run, t, now);
    ReusedAfter(run.start.disk, now.disk, now'.disk, was, mishaps, stem);
    FlacsLastAfter(t, t', |run.past|, now, now', stem, was, mishaps);
    AfterConversion(run, t, t', now, now', d, stem);
  }

  lemma UnconvertedFails(run: Run, fate: Fate, t: seq<Durable>, t': seq<Durable>, now: Durable, now': Durable, d: Draft,
                         stem: string, e: MeetingError, was: set<Mishap>, mishaps: set<Mishap>)
    requires Standing(run, fate, t, now, d, {}, was) && WroteFlac(t, t', now, now', stem)
    requires Wav(stem) in d.next.Values && Wav(stem) in run.planned.Values
    requires Caused(e, mishaps) && Uncommitting(e) && Unlisted(e) <= {Flac(stem)} && Grew(fate, was, mishaps)
    requires FailsAt(run, now'.disk, d, e, mishaps) && Tidied(run.start.disk, now'.disk, mishaps)
    requires Unlisted(e) != {} ==> Matches(now'.disk, Flac(stem), Wav(stem))
    requires Unlisted(e) == {} && Flac(stem) in now'.disk ==>
               Flac(stem) in now.disk && now'.disk[Flac(stem)] == now.disk[Flac(stem)]
    requires Matches(now.disk, Flac(stem), Wav(stem)) && Misread(Wav(stem)) !in mishaps ==>
               Flac(stem) in now'.disk && now'.disk[Flac(stem)] == now.disk[Flac(stem)]
    ensures FailsStanding(run, fate, t', now', d, e, mishaps)
  {
    WavsStay(run, t, now);
    ReusedAfter(run.start.disk, now.disk, now'.disk, was, mishaps, stem);
    FlacsLastAfter(t, t', |run.past|, now, now', stem, was, mishaps);
    StemIsFresh(run, t, now, d, stem);
    AfterFailedConversion(run, t, t', now, now', d, stem, e);
  }

  /** What converting one file leaves, whether it went well or not: nothing
      else changed, a FLAC that matched and was compared without a fault is as
      it was, and any new one matches. */
  ghost predicate Converted(fate: Fate, t: seq<Durable>, t': seq<Durable>, now: Durable, now': Durable, stem: string,
                            r: Result<(), MeetingError>, was: set<Mishap>, mishaps: set<Mishap>) {
    && WroteFlac(t, t', now, now', stem)
    && Grew(fate, was, mishaps)
    && (Matches(now.disk, Flac(stem), Wav(stem)) && Misread(Wav(stem)) !in mishaps ==>
          Flac(stem) in now'.disk && now'.disk[Flac(stem)] == now.disk[Flac(stem)])
    && (Temp(stem) in now'.disk ==> Temp(stem) in now.disk || Refused(Temp(stem)) in mishaps)
    && (r.Ok? ==> Matches(now'.disk, Flac(stem), Wav(stem)) && Sizeable(fate, Flac(stem)))
    && (r.Ok? && Unharmed(was) ==> Unharmed(mishaps))
    && (r.Err? ==>
          && Caused(r.error, mishaps) && (r.error.Stopped? || FileAt(r.error) == Some(stem))
          && (Unlisted(r.error) != {} ==> Matches(now'.disk, Flac(stem), Wav(stem)))
          && (Unlisted(r.error) == {} && Flac(stem) in now'.disk ==>
                Flac(stem) in now.disk && now'.disk[Flac(stem)] == now.disk[Flac(stem)]))
  }

  /** Role `role`, next in turn, has its WAV to convert. */
  ghost predicate InTurn(run: Run, disk: Disk, d: Draft, role: Role, stem: string, was: set<Mishap>) {
    && DoneTo(run, disk, d, IndexOf(role), was)
    && role in run.planned && role in d.next && d.next[role] == run.planned[role] == Wav(stem)
    && Convertible(disk, Wav(stem)) && IndexOfWav(run.planned, stem) == IndexOf(role)
    && (Derived(role) ==> forall q | q in d.next && q != role :: d.next[q] != Wav(stem))
  }

  lemma SourceStays(run: Run, t: seq<Durable>, now: Durable, d: Draft, role: Role, mishaps: set<Mishap>)
    requires Progress(run, t, now, d, {}) && DoneTo(run, now.disk, d, IndexOf(role), mishaps) && !Derived(role)
    requires role !in run.planned || !run.planned[role].Wav? || !Convertible(now.disk, run.planned[role])
    ensures DoneTo(run, now.disk, d, IndexOf(role) + 1, mishaps)
  {
    SameWavs(run, t, now);
    PassedBy(run, now.disk, d, role, mishaps);
  }

  lemma SourceInTurn(run: Run, disk: Disk, d: Draft, role: Role, mishaps: set<Mishap>)
    requires WellFormed(run.planned) && DoneTo(run, disk, d, IndexOf(role), mishaps) && !Derived(role)
    requires role in run.planned && run.planned[role].Wav? && Convertible(disk, run.planned[role])
    ensures InTurn(run, disk, d, role, run.planned[role].stem, mishaps)
  {
    FirstUnlessMic(run.planned, role);
  }

  lemma DerivedStays(run: Run, t: seq<Durable>, now: Durable, d: Draft, role: Role, mishaps: set<Mishap>)
    requires Progress(run, t, now, d, {}) && DoneTo(run, now.disk, d, IndexOf(role), mishaps) && Derived(role)
    requires role in d.next && role in run.planned && d.next[role] == run.planned[role]
    requires !Convertible(now.disk, run.planned[role]) && run.planned[role].Wav?
    requires Droppable(run.regen, run.start.disk, run.planned, role) ==> Misread(run.planned[role]) in mishaps
    ensures DoneTo(run, now.disk, d, IndexOf(role) + 1, mishaps)
  {
    SameWavs(run, t, now);
    PassedBy(run, now.disk, d, role, mishaps);
  }

  lemma DerivedInTurn(run: Run, t: seq<Durable>, now: Durable, d: Draft, role: Role, mishaps: set<Mishap>)
    requires Progress(run, t, now, d, {}) && DoneTo(run, now.disk, d, IndexOf(role), mishaps) && Derived(role)
    requires role in d.next && role in run.planned && d.next[role] == run.planned[role]
    requires run.planned[role].Wav? && Convertible(now.disk, run.planned[role])
    ensures InTurn(run, now.disk, d, role, run.planned[role].stem, mishaps)
  {
    SameWavs(run, t, now);
    OnlySharerIsSettled(run, d, role);
    OnlySharerIsFirst(run, now.disk, d, role);
  }

  lemma RoleConverted(run: Run, fate: Fate, t: seq<Durable>, t': seq<Durable>, now: Durable, now': Durable, d: Draft,
                      role: Role, stem: string, was: set<Mishap>, mishaps: set<Mishap>)
    requires Standing(run, fate, t, now, d, {}, was) && InTurn(run, now.disk, d, role, stem, was)
    requires Droppable(run.regen, run.start.disk, run.planned, role) ==> Misread(Wav(stem)) in was
    requires Converted(fate, t, t', now, now', stem, Ok(()), was, mishaps)
    ensures var d' := Draft(Substitute(d.next, Wav(stem), Flac(stem)), d.toDelete + [Wav(stem)], d.uncommitted + [Flac(stem)]);
            Standing(run, fate, t', now', d', {}, mishaps) && DoneTo(run, now'.disk, d', IndexOf(role) + 1, mishaps)
    ensures Repointed(run.planned, d.next, role, Flac(stem)) == Substitute(d.next, Wav(stem), Flac(stem))
  {
    RepointedIsSubstitute(run.planned, d, role, stem);
    var d' := Draft(Substitute(d.next, Wav(stem), Flac(stem)), d.toDelete + [Wav(stem)], d.uncommitted + [Flac(stem)]);
    SameWavs(run, t, now);
    ConvertedStands(run, fate, t, t', now, now', d, stem, was, mishaps);
    ConvertedAt(run, now.disk, now'.disk, d, d', role, stem, was, mishaps);
  }

  lemma ErrorsOfAFile(e: MeetingError, stem: string)
    requires e.Stopped? || FileAt(e) == Some(stem)
    ensures Uncommitting(e) && Unlisted(e) <= {Flac(stem)}
  {
  }

  lemma RoleUnconverted(run: Run, fate: Fate, t: seq<Durable>, t': seq<Durable>, now: Durable, now': Durable, d: Draft,
                        role: Role, stem: string, e: MeetingError, was: set<Mishap>, mishaps: set<Mishap>)
    requires Standing(run, fate, t, now, d, {}, was) && InTurn(run, now.disk, d, role, stem, was)
    requires Converted(fate, t, t', now, now', stem, Err(e), was, mishaps)
    ensures FailsStanding(run, fate, t', now', d, e, mishaps)
  {
    SameWavs(run, t, now);
    ErrorsOfAFile(e, stem);
    FailedAt(run, now.disk, now'.disk, d, role, stem, e, was, mishaps);
    StillTidy(run.start.disk, now.disk, now'.disk, stem, was, mishaps);
    UnconvertedFails(run, fate, t, t', now, now', d, stem, e, was, mishaps);
  }

  lemma StillThere(run: Run, fate: Fate, t: seq<Durable>, now: Durable, d: Draft, n: nat, was: set<Mishap>, mishaps: set<Mishap>)
    requires Standing(run, fate, t, now, d, {}, was) && DoneTo(run, now.disk, d, n, was) && Grew(fate, was, mishaps)
    ensures Standing(run, fate, t, now, d, {}, mishaps) && DoneTo(run, now.disk, d, n, mishaps)
  {
    StillStands(run, fate, t, now, d, was, mishaps);
    StillDone(run, now.disk, d, n, was, mishaps);
  }

  lemma RoleDropped(run: Run, fate: Fate, t: seq<Durable>, now: Durable, d: Draft, role: Role, mishaps: set<Mishap>)
    requires Grounded(run) && Standing(run, fate, t, now, d, {}, mishaps) && DoneTo(run, now.disk, d, IndexOf(role), mishaps)
    requires role in d.next && role in run.planned && d.next[role] == run.planned[role] && d.next[role].Wav?
    requires Derived(role) && IsV2(d.next) && RegeneratesTo(run.regen, now.disk, d.next, role, d.next[role])
    ensures var d' := Draft(d.next - {role}, d.toDelete + [d.next[role]], d.uncommitted);
            Standing(run, fate, t, now, d', {}, mishaps) && DoneTo(run, now.disk, d', IndexOf(role) + 1, mishaps)
  {
    SourcesAreSettled(run, d.next, IndexOf(role));
    DroppableAsPlanned(run, t, now, d, role);
    DroppedStands(run, fate, t, now, d, role, mishaps);
    DroppedAt(run, now.disk, d, role, d.toDelete + [d.next[role]], mishaps);
  }

  lemma SourcesAreSettled(run: Run, next: Recording, n: nat)
    requires SettledTo(run, next, n) && 2 <= n
    ensures SettledTo(run, next, 2)
  {
  }

  /** A role that isn't dropped doesn't regenerate, or its comparison failed. */
  lemma RoleDiffers(run: Run, t: seq<Durable>, now: Durable, d: Draft, role: Role, mishaps: set<Mishap>)
    requires Progress(run, t, now, d, {}) && DoneTo(run, now.disk, d, IndexOf(role), mishaps) && Derived(role)
    requires role in d.next && role in run.planned && d.next[role] == run.planned[role] && d.next[role].Wav?
    requires !IsV2(d.next) || !RegeneratesTo(run.regen, now.disk, d.next, role, d.next[role]) || Misread(d.next[role]) in mishaps
    ensures Droppable(run.regen, run.start.disk, run.planned, role) ==> Misread(run.planned[role]) in mishaps
  {
    SourcesAreSettled(run, d.next, IndexOf(role));
    DroppableAsPlanned(run, t, now, d, role);
  }

  lemma DroppedStands(run: Run, fate: Fate, t: seq<Durable>, now: Durable, d: Draft, role: Role, mishaps: set<Mishap>)
    requires Grounded(run) && Standing(run, fate, t, now, d, {}, mishaps)
    requires role in d.next && role in run.planned && d.next[role] == run.planned[role]
    requires Derived(role) && IsV2(d.next) && RegeneratesTo(run.regen, now.disk, d.next, role, d.next[role]) && d.next[role].Wav?
    ensures Standing(run, fate, t, now, Draft(d.next - {role}, d.toDelete + [d.next[role]], d.uncommitted), {}, mishaps)
  {
    PlannedWavIsOwed(run, t, now, role);
    AfterDrop(run, t, now, d, role);
  }
}
