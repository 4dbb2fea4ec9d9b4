// What survives a crash, and what the folder's manifest is worth. The manifest
// is written before the row, so after a crash between the two it may name FLACs
// the row doesn't name yet.
module Manifests {
  import opened Wrappers
  import opened Recordings

  /** What survives a crash: the folder, `recording_json` (`None` when there is
      no such meeting, or no recording) and the folder's manifest. */
  datatype Durable = Durable(disk: Disk, row: Option<Recording>, manifest: Recording)

  /** The manifest is ahead of the row at a role: it names the FLAC of the WAV
      the row names. */
  predicate Ahead(row: Recording, manifest: Recording, role: Role) {
    && role in row && role in manifest && manifest[role] != row[role]
    && row[role].Wav? && manifest[role] == Flac(row[role].stem)
  }

  /** What a commit that was torn leaves, whatever happened since: the manifest
      names the row's files, or the FLACs of WAVs the row still has, which match
      them if they are there; and it dropped only what regenerates. */
  ghost predicate Follows(regen: Regen, disk: Disk, row: Recording, manifest: Recording) {
    && manifest.Keys <= row.Keys
    && (forall r | r in manifest && manifest[r] != row[r] ::
          && Ahead(row, manifest, r)
          && Readable(disk, row[r])
          && (manifest[r] in disk ==> Matches(disk, manifest[r], row[r])))
    && (forall r | r in row && r !in manifest ::
          Derived(r) && IsV2(manifest) && Regenerated(regen, disk, row, r) == Heard(regen, disk, row, r))
  }

  predicate Readable(disk: Disk, name: FileName) {
    name in disk && !disk[name].Broken?
  }

  /** Every FLAC the manifest is ahead with is in the folder. */
  ghost predicate Kept(disk: Disk, row: Recording, manifest: Recording) {
    forall r | Ahead(row, manifest, r) :: manifest[r] in disk
  }

  ghost predicate Tracks(regen: Regen, d: Durable) {
    d.row.Some? ==> Follows(regen, d.disk, d.row.value, d.manifest)
  }

  ghost predicate TracksFrom(regen: Regen, t: seq<Durable>, from: nat) {
    forall i | from <= i < |t| :: Tracks(regen, t[i])
  }

  /** The manifest gives every role the audio the row gives it. */
  ghost predicate GivesToo(regen: Regen, disk: Disk, row: Recording, manifest: Recording) {
    forall role | Heard(regen, disk, row, role).Some? ::
      Heard(regen, disk, manifest, role) == Heard(regen, disk, row, role)
  }

  lemma KeptSourcesAreSame(regen: Regen, disk: Disk, row: Recording, manifest: Recording, role: Role)
    requires Follows(regen, disk, row, manifest) && Kept(disk, row, manifest) && !Derived(role)
    ensures SourceOf(disk, manifest, role) == SourceOf(disk, row, role)
  {
  }

  lemma KeptGivesToo(regen: Regen, disk: Disk, row: Recording, manifest: Recording)
    requires Follows(regen, disk, row, manifest) && Kept(disk, row, manifest)
    ensures GivesToo(regen, disk, row, manifest)
  {
    KeptSourcesAreSame(regen, disk, row, manifest, Mic);
    KeptSourcesAreSame(regen, disk, row, manifest, System);
    assert IsV2(row) ==> IsV2(manifest) by {
      assert forall r | r in row && !Derived(r) :: r in manifest;
    }
    forall role | Heard(regen, disk, row, role).Some?
      ensures Heard(regen, disk, manifest, role) == Heard(regen, disk, row, role)
    {
      if role in manifest && manifest[role] != row[role] {
        assert Ahead(row, manifest, role);
      }
    }
  }

  /** A manifest the commit left ahead of the row gives every role its audio if
      and only if every FLAC it is ahead with is still in the folder. */
  lemma ManifestGivesExactlyWhen(regen: Regen, disk: Disk, row: Recording, manifest: Recording)
    requires Follows(regen, disk, row, manifest)
    ensures GivesToo(regen, disk, row, manifest) <==> Kept(disk, row, manifest)
  {
    if Kept(disk, row, manifest) {
      KeptGivesToo(regen, disk, row, manifest);
    } else {
      var r :| Ahead(row, manifest, r) && manifest[r] !in disk;
      assert Heard(regen, disk, row, r).Some?;
    }
  }

  /** A manifest that is the row follows it, with nothing to lose. */
  lemma SameFollows(regen: Regen, disk: Disk, row: Recording)
    ensures Follows(regen, disk, row, row) && Kept(disk, row, row)
  {
  }

  /** Every FLAC of `after` matches its WAV, or is as it was before. */
  ghost predicate FlacsVerified(before: Disk, after: Disk) {
    forall s | Flac(s) in after ::
      Matches(after, Flac(s), Wav(s)) || (Flac(s) in before && before[Flac(s)] == after[Flac(s)])
  }

  /** A manifest goes on following the row while files the row doesn't name
      come and go, as long as no FLAC appears that doesn't match its WAV. */
  lemma FollowsStays(regen: Regen, before: Disk, after: Disk, row: Recording, manifest: Recording, names: set<FileName>)
    requires Follows(regen, before, row, manifest)
    requires SameBut(before, after, names) && names !! row.Values && FlacsVerified(before, after)
    ensures Follows(regen, after, row, manifest)
  {
    HeardFrame(regen, before, after, row, names, map[]);
    forall r | r in manifest && manifest[r] != row[r]
      ensures Ahead(row, manifest, r) && Readable(after, row[r])
      ensures manifest[r] in after ==> Matches(after, manifest[r], row[r])
    {
      assert row[r] in row.Values;
    }
    forall r | r in row && r !in manifest
      ensures Regenerated(regen, after, row, r) == Heard(regen, after, row, r)
    {
      RegeneratedFrame(regen, before, after, row, names, r);
    }
  }

  lemma RegeneratedFrame(regen: Regen, before: Disk, after: Disk, rec: Recording, names: set<FileName>, role: Role)
    requires SameBut(before, after, names) && names !! rec.Values
    ensures Regenerated(regen, before, rec, role) == Regenerated(regen, after, rec, role)
  {
    forall r | r in rec
      ensures SourceOf(before, rec, r) == SourceOf(after, rec, r)
    {
      assert rec[r] in rec.Values;
    }
  }
}
