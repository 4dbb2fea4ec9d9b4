// What a meeting's recording is: four roles that may each name a file in the
// meeting's folder, and what a reader hears for a role, stored or regenerated.
module Recordings {
  import opened Wrappers

  datatype Samples = Samples(rate: nat, channels: nat, pcm: seq<int>)

  /** `asCaptured`: the WAV is in the exact layout capture writes, so it may be
      converted without losing anything about it. */
  datatype Content = WavFile(audio: Samples, asCaptured: bool) | FlacFile(audio: Samples) | Broken

  /** A name directly inside the meeting's folder (`Temp` is the hidden name a
      file is encoded under), or a path anywhere else. */
  datatype FileName = Wav(stem: string) | Flac(stem: string) | Temp(stem: string) | Other(name: string) | Outside(path: string)

  datatype Role = Mic | System | Mixed | Playback

  type Recording = map<Role, FileName>
  type Disk = map<FileName, Content>

  /** How a derived role is rebuilt from the two channels; `None` when it can't be. */
  type Regen = (Role, Option<Samples>, Option<Samples>) -> Option<Samples>

  const ROLES: seq<Role> := [Mic, System, Mixed, Playback]

  function IndexOf(role: Role): (i: nat)
    ensures i < |ROLES| && ROLES[i] == role
  {
    match role
    case Mic => 0
    case System => 1
    case Mixed => 2
    case Playback => 3
  }

  function CaptureStem(role: Role): string {
    match role
    case Mic => "recording.mic"
    case System => "recording.system"
    case Mixed => "recording.mixed"
    case Playback => "recording.playback"
  }

  predicate Derived(role: Role) {
    role.Mixed? || role.Playback?
  }

  /** Storage v2: with a FLAC source, derived files may be dropped. */
  predicate IsV2(rec: Recording) {
    (Mic in rec && rec[Mic].Flac?) || (System in rec && rec[System].Flac?)
  }

  predicate AllInFolder(rec: Recording) {
    forall r | r in rec :: !rec[r].Outside?
  }

  /** Only mic and playback, and only without a system channel, may be one file;
      no role is stored under the FLAC name another role's WAV would
      take, and none under a hidden temp name. */
  ghost predicate WellFormed(rec: Recording) {
    && (forall r, q | r in rec && q in rec && r != q && rec[r] == rec[q] ::
          System !in rec && (r.Mic? || r.Playback?) && (q.Mic? || q.Playback?))
    && (forall r, q | r in rec && q in rec && rec[r].Wav? :: rec[q] != Flac(rec[r].stem))
    && (forall r | r in rec :: !rec[r].Temp?)
  }

  // -------------------------------------------------------------------------
  // What a reader hears
  // -------------------------------------------------------------------------

  datatype Source = Absent | Damaged | Sound(audio: Samples)
  {
    function Audio(): Option<Samples> {
      if Sound? then Some(audio) else None
    }
  }

  function ReadFile(disk: Disk, name: FileName): Source {
    if name !in disk then Absent
    else if disk[name].Broken? then Damaged
    else Sound(disk[name].audio)
  }

  function SourceOf(disk: Disk, rec: Recording, role: Role): Source {
    if role in rec then ReadFile(disk, rec[role]) else Absent
  }

  function Regenerated(regen: Regen, disk: Disk, rec: Recording, role: Role): Option<Samples> {
    var mic, system := SourceOf(disk, rec, Mic), SourceOf(disk, rec, System);
    if mic.Damaged? || system.Damaged? || (mic.Absent? && system.Absent?) then None
    else regen(role, mic.Audio(), system.Audio())
  }

  /** A rebuild takes what there is of the two channels: one may be missing, but
      not both, and neither may be damaged. */
  lemma RegeneratedIs(regen: Regen, disk: Disk, rec: Recording, role: Role)
    ensures var mic, system := SourceOf(disk, rec, Mic), SourceOf(disk, rec, System);
            && (mic.Sound? && system.Sound? ==> Regenerated(regen, disk, rec, role) == regen(role, Some(mic.audio), Some(system.audio)))
            && (mic.Sound? && system.Absent? ==> Regenerated(regen, disk, rec, role) == regen(role, Some(mic.audio), None))
            && (mic.Absent? && system.Sound? ==> Regenerated(regen, disk, rec, role) == regen(role, None, Some(system.audio)))
            && (mic.Damaged? || system.Damaged? || (mic.Absent? && system.Absent?) ==> Regenerated(regen, disk, rec, role) == None)
  {
  }

  /** The audio a role of the recording has: its file's, or, for a dropped
      derived file of a storage-v2 recording, what the sources regenerate. */
  function Heard(regen: Regen, disk: Disk, rec: Recording, role: Role): Option<Samples> {
    if role in rec then ReadFile(disk, rec[role]).Audio()
    else if Derived(role) && IsV2(rec) then Regenerated(regen, disk, rec, role)
    else None
  }

  /** `rec` on `disk` gives every role exactly the audio `owed` says it captured. */
  ghost predicate Owes(regen: Regen, disk: Disk, rec: Recording, owed: map<Role, Samples>) {
    forall r | r in owed :: Heard(regen, disk, rec, r) == Some(owed[r])
  }

  /** `flac` holds exactly the samples of the convertible WAV `wav`. */
  predicate Matches(disk: Disk, flac: FileName, wav: FileName) {
    && wav in disk && disk[wav].WavFile? && disk[wav].asCaptured
    && flac in disk && disk[flac] == FlacFile(disk[wav].audio)
  }

  ghost predicate SameBut(before: Disk, after: Disk, names: set<FileName>) {
    forall n | n !in names :: (n in before <==> n in after) && (n in before ==> before[n] == after[n])
  }

  /** The names compressing `rec` may write to before it commits. */
  ghost function Workspace(rec: Recording): set<FileName> {
    (set r | r in rec && rec[r].Wav? :: Flac(rec[r].stem))
    + (set r | r in rec && rec[r].Wav? :: Temp(rec[r].stem))
    + {Temp(CaptureStem(Mic)), Temp(CaptureStem(System)), Temp(CaptureStem(Mixed)), Temp(CaptureStem(Playback))}
  }

  /** The record after every role that named `from` names `to` instead. */
  function Substitute(rec: Recording, from: FileName, to: FileName): Recording {
    map r | r in rec :: if rec[r] == from then to else rec[r]
  }

  // -------------------------------------------------------------------------
  // What keeps the audio
  // -------------------------------------------------------------------------

  lemma WorkspaceIsUnreferenced(rec: Recording)
    requires WellFormed(rec)
    ensures Workspace(rec) !! rec.Values
  {
  }

  /** What a recording sounds like depends only on the files it names. */
  lemma HeardFrame(regen: Regen, before: Disk, after: Disk, rec: Recording, names: set<FileName>, owed: map<Role, Samples>)
    requires SameBut(before, after, names) && names !! rec.Values
    ensures Owes(regen, before, rec, owed) <==> Owes(regen, after, rec, owed)
    ensures forall role :: Heard(regen, before, rec, role) == Heard(regen, after, rec, role)
  {
    forall role
      ensures SourceOf(before, rec, role) == SourceOf(after, rec, role)
    {
      if role in rec {
        assert rec[role] in rec.Values;
      }
    }
  }

  /** A verified conversion: whoever read the WAV now reads the FLAC. */
  lemma ConversionKeepsAudio(regen: Regen, disk: Disk, rec: Recording, stem: string, owed: map<Role, Samples>)
    requires WellFormed(rec) && Wav(stem) in rec.Values && Matches(disk, Flac(stem), Wav(stem))
    requires Owes(regen, disk, rec, owed)
    ensures Owes(regen, disk, Substitute(rec, Wav(stem), Flac(stem)), owed)
    ensures WellFormed(Substitute(rec, Wav(stem), Flac(stem)))
    ensures Wav(stem) !in Substitute(rec, Wav(stem), Flac(stem)).Values
  {
    var next := Substitute(rec, Wav(stem), Flac(stem));
    var owner :| owner in rec && rec[owner] == Wav(stem);
    forall role
      ensures SourceOf(disk, rec, role) == SourceOf(disk, next, role)
    {
    }
    forall role | Heard(regen, disk, rec, role).Some?
      ensures Heard(regen, disk, next, role) == Heard(regen, disk, rec, role)
    {
    }
  }

  lemma WellFormedWithout(rec: Recording, role: Role)
    requires WellFormed(rec) && role in rec && Derived(role) && IsV2(rec) && rec[role].Wav?
    ensures WellFormed(rec - {role}) && IsV2(rec - {role})
    ensures rec[role] !in (rec - {role}).Values
  {
    DroppedFileIsItsOwn(rec, role);
    var next := rec - {role};
    assert forall r | r in next :: r in rec && next[r] == rec[r];
  }

  /** In a record with a FLAC source, a derived WAV is no other role's file. */
  lemma DroppedFileIsItsOwn(rec: Recording, role: Role)
    requires WellFormed(rec) && role in rec && Derived(role) && IsV2(rec) && rec[role].Wav?
    ensures forall r | r in rec && r != role :: rec[r] != rec[role]
  {
  }

  /** A derived file that regenerates to what it holds may be dropped. */
  lemma DroppingKeepsAudio(regen: Regen, disk: Disk, rec: Recording, role: Role, owed: map<Role, Samples>)
    requires role in rec && Derived(role) && IsV2(rec) && IsV2(rec - {role})
    requires Regenerated(regen, disk, rec, role) == Heard(regen, disk, rec, role)
    requires Owes(regen, disk, rec, owed)
    ensures Owes(regen, disk, rec - {role}, owed)
  {
    var next := rec - {role};
    assert SourceOf(disk, rec, Mic) == SourceOf(disk, next, Mic);
    assert SourceOf(disk, rec, System) == SourceOf(disk, next, System);
    forall r | r in owed
      ensures Heard(regen, disk, next, r) == Some(owed[r])
    {
      assert Heard(regen, disk, rec, r) == Some(owed[r]);
    }
  }

  /** The layouts the app stores: two channels, a mic-only capture whose
      playback is the mic file, an import. */
  lemma CaptureLayoutsAreWellFormed()
    ensures WellFormed(map[Mic := Wav("recording.mic"), System := Wav("recording.system"),
                           Mixed := Wav("recording.mixed"), Playback := Wav("recording.playback")])
    ensures WellFormed(map[Mic := Wav("recording.mic"), Mixed := Wav("recording.mixed"), Playback := Wav("recording.mic")])
    ensures WellFormed(map[Mixed := Wav("recording.mixed")])
  {
    assert "recording.mic"[10] != "recording.system"[10];
    assert "recording.mixed"[11] != "recording.mic"[11] || "recording.mixed"[12] != "recording.mic"[12];
    assert "recording.playback"[10] != "recording.mic"[10] && "recording.playback"[10] != "recording.system"[10];
  }

  /** Why sharing is limited to mic-only captures: where a playback is the mic
      file of a two-channel recording whose mic isn't a FLAC, it may regenerate
      to what it holds, and dropping it, deleting its file and all, takes the
      mic's audio with it. */
  lemma SharedPlaybackInTwoChannelsIsUnsafe(mic: string, system: string, audio: Samples, other: Samples)
    ensures var rec := map[Mic := Wav(mic), System := Flac(system), Playback := Wav(mic)];
            var disk := map[Wav(mic) := WavFile(audio, false), Flac(system) := FlacFile(other)];
            var regen: Regen := (role: Role, m: Option<Samples>, s: Option<Samples>) => m;
            && !WellFormed(rec) && IsV2(rec)
            && Regenerated(regen, disk, rec, Playback) == Heard(regen, disk, rec, Playback)
            && Heard(regen, disk, rec, Mic) == Some(audio)
            && Heard(regen, disk - {rec[Playback]}, rec - {Playback}, Mic) == None
  {
    var rec := map[Mic := Wav(mic), System := Flac(system), Playback := Wav(mic)];
    assert rec[Mic] == rec[Playback] && System in rec;
  }
}
