// The part of storage an approval writes to, and the validation every write
// goes through again at the time of the click.
module Library {
  import opened Wrappers
  import Texts

  /** Bounds on the text of an inserted block and of an action item. */
  const MAX_INSERT_CHARS: nat := 8000
  const MAX_ITEM_CHARS: nat := 400

  datatype Approval =
    | Insert(noteId: string, markdown: string, segmentIds: seq<string>)
    | ActionItem(meetingId: string, text: string, owner: Option<string>, segmentIds: seq<string>)

  datatype Block = Block(markdown: string, sourceIds: seq<string>)

  datatype Item = Item(meetingId: string, text: string, owner: Option<string>, sourceIds: seq<string>)

  datatype Applied = Note(blocks: seq<Block>) | MeetingItem(item: Item)

  /** `transcripts`: a meeting's transcript segment ids, in order. `people`: its
      speakers' labels and attendees' names. */
  datatype Lib = Lib(
    notes: map<string, seq<Block>>,
    noteMeetings: map<string, seq<string>>,
    transcripts: map<string, seq<string>>,
    people: map<string, set<string>>,
    localNotes: set<string>,
    localMeetings: set<string>,
    items: seq<Item>)

  /** A note's transcript segments: segment id to meeting id, a later meeting's
      over an earlier one's. */
  function SegmentsOf(lib: Lib, meetings: seq<string>): map<string, string> {
    if meetings == [] then map[]
    else
      var last := meetings[|meetings| - 1];
      var before := SegmentsOf(lib, meetings[..|meetings| - 1]);
      if last in lib.transcripts then before + map id | id in lib.transcripts[last] :: last else before
  }

  function NoteSegments(lib: Lib, noteId: string): map<string, string> {
    if noteId in lib.noteMeetings then SegmentsOf(lib, lib.noteMeetings[noteId]) else map[]
  }

  ghost predicate NoRepeats(ids: seq<string>) {
    forall i, j | 0 <= i < j < |ids| :: ids[i] != ids[j]
  }

  /** `kept` is the distinct ids of `ids` that `ok` accepts, in the order they
      first appear. */
  ghost predicate Filtered(ids: seq<string>, ok: set<string>, kept: seq<string>) {
    && NoRepeats(kept)
    && (forall id :: id in kept <==> id in ids && id in ok)
    && (forall i, j | 0 <= i < j < |kept| :: FirstAt(ids, kept[i]) < FirstAt(ids, kept[j]))
  }

  function FirstAt(ids: seq<string>, id: string): (i: nat)
    ensures i <= |ids| && (i < |ids| <==> id in ids)
    ensures i < |ids| ==> ids[i] == id
    ensures forall k | 0 <= k < i :: ids[k] != id
  {
    if ids == [] || ids[0] == id then 0 else 1 + FirstAt(ids[1..], id)
  }

  /** The white space Rust's `trim` takes. */
  predicate IsSpace(c: char) {
    || c in "\t\n\r "
    || c in "\U{0B}\U{0C}\U{85}\U{A0}\U{1680}\U{2028}\U{2029}\U{202F}\U{205F}\U{3000}"
    || '\U{2000}' <= c <= '\U{200A}'
  }

  /** The owner as typed, trimmed; a blank one is none. */
  function OwnerOf(owner: Option<string>): Option<string> {
    if owner.Some? && Texts.Trim(IsSpace, owner.value) != "" then Some(Texts.Trim(IsSpace, owner.value)) else None
  }

  /** The trimmed `owner` names one of these people, in any case. */
  predicate Names(people: set<string>, owner: string) {
    exists p | p in people :: Texts.Lower(Texts.Trim(IsSpace, p)) == Texts.Lower(owner)
  }

  /** What the validation accepts: text that isn't empty or too long, of a note
      (or meeting) that is there; for a note, ids that are all its own, and no
      Keep-local meeting's unless it is Keep local too; for an item, at least
      one id of the meeting's, and nobody or one of its people as owner. */
  ghost predicate Accepted(a: Approval, clean: string -> string, lib: Lib) {
    match a
    case Insert(noteId, markdown, ids) =>
      && clean(markdown) != "" && |clean(markdown)| <= MAX_INSERT_CHARS && noteId in lib.notes
      && (forall id | id in ids :: id in NoteSegments(lib, noteId))
      && (noteId in lib.localNotes || forall id | id in ids :: NoteSegments(lib, noteId)[id] !in lib.localMeetings)
    case ActionItem(meetingId, text, owner, ids) =>
      && clean(text) != "" && |clean(text)| <= MAX_ITEM_CHARS && meetingId in lib.transcripts
      && (exists id | id in ids :: id in Segments(lib, meetingId))
      && (OwnerOf(owner).Some? ==> meetingId in lib.people && Names(lib.people[meetingId], OwnerOf(owner).value))
  }

  /** What applying `a` wrote: one block or one item, added at the end, of the
      cleaned text, citing exactly the approval's ids that are the note's (or
      meeting's) own, each once; nothing else changed. */
  ghost predicate Wrote(a: Approval, clean: string -> string, before: Lib, after: Lib, result: Applied) {
    && Accepted(a, clean, before)
    && match a
       case Insert(noteId, markdown, ids) =>
         (exists kept ::
            && Filtered(ids, NoteSegments(before, noteId).Keys, kept)
            && result == Note(before.notes[noteId] + [Block(clean(markdown), kept)])
            && after == before.(notes := before.notes[noteId := before.notes[noteId] + [Block(clean(markdown), kept)]]))
       case ActionItem(meetingId, text, owner, ids) =>
         (exists kept ::
            && kept != [] && Filtered(ids, Segments(before, meetingId), kept)
            && result == MeetingItem(Item(meetingId, clean(text), OwnerOf(owner), kept))
            && after == before.(items := before.items + [Item(meetingId, clean(text), OwnerOf(owner), kept)]))
  }

  function Segments(lib: Lib, meetingId: string): set<string>
    requires meetingId in lib.transcripts
  {
    set id | id in lib.transcripts[meetingId]
  }

  // -------------------------------------------------------------------------
  // What the library keeps
  // -------------------------------------------------------------------------

  /** Of the meetings whose transcripts have the segment, `k` is the last. */
  ghost predicate LastMeetingOf(lib: Lib, meetings: seq<string>, id: string, k: int) {
    && 0 <= k < |meetings| && meetings[k] in lib.transcripts && id in lib.transcripts[meetings[k]]
    && forall j | k < j < |meetings| && meetings[j] in lib.transcripts :: id !in lib.transcripts[meetings[j]]
  }

  /** A note's segments are those of its meetings' transcripts, each the last
      such meeting's. */
  lemma {:induction false} SegmentIs(lib: Lib, meetings: seq<string>, id: string)
    ensures id in SegmentsOf(lib, meetings) <==> exists k :: LastMeetingOf(lib, meetings, id, k)
    ensures forall k | LastMeetingOf(lib, meetings, id, k) :: id in SegmentsOf(lib, meetings) && SegmentsOf(lib, meetings)[id] == meetings[k]
    decreases |meetings|
  {
    if meetings != [] {
      var n := |meetings| - 1;
      SegmentIs(lib, meetings[..n], id);
      if meetings[n] in lib.transcripts && id in lib.transcripts[meetings[n]] {
        assert LastMeetingOf(lib, meetings, id, n);
        assert forall k | LastMeetingOf(lib, meetings, id, k) :: k == n;
      } else {
        assert forall k :: LastMeetingOf(lib, meetings, id, k) <==> LastMeetingOf(lib, meetings[..n], id, k);
      }
    }
  }

  /** What may be cited in a note: a segment of one of its meetings, and not of a
      Keep-local one unless the note is Keep local too. */
  ghost predicate MayCite(lib: Lib, noteId: string, id: string) {
    && noteId in lib.noteMeetings
    && exists k ::
         && LastMeetingOf(lib, lib.noteMeetings[noteId], id, k)
         && (noteId in lib.localNotes || lib.noteMeetings[noteId][k] !in lib.localMeetings)
  }

  ghost predicate SourcedBlock(lib: Lib, noteId: string, b: Block) {
    0 < |b.markdown| <= 8000 && NoRepeats(b.sourceIds) && forall id | id in b.sourceIds :: MayCite(lib, noteId, id)
  }

  /** An item cites its meeting's transcript at least once; its owner, if it has
      one, is one of the meeting's people. */
  ghost predicate SourcedItem(lib: Lib, item: Item) {
    && 0 < |item.text| <= 400 && item.meetingId in lib.transcripts
    && item.sourceIds != [] && NoRepeats(item.sourceIds)
    && (forall id | id in item.sourceIds :: id in lib.transcripts[item.meetingId])
    && (item.owner.Some? ==>
          && item.owner.value != "" && item.meetingId in lib.people
          && exists p | p in lib.people[item.meetingId] :: SameName(p, item.owner.value))
  }

  /** The same letters, in any ASCII case, but for white space around `p`. */
  ghost predicate SameName(p: string, owner: string) {
    exists low, high | 0 <= low <= high <= |p| ::
      && Texts.AllSpace(IsSpace, p[..low]) && Texts.AllSpace(IsSpace, p[high..])
      && high - low == |owner|
      && forall i | 0 <= i < |owner| :: SameLetter(p[low..high][i], owner[i])
  }

  predicate SameLetter(c: char, d: char) {
    || c == d
    || ('A' <= c <= 'Z' && d as int == c as int + 32)
    || ('A' <= d <= 'Z' && c as int == d as int + 32)
  }

  ghost predicate Sourced(lib: Lib) {
    && (forall noteId | noteId in lib.notes :: forall b | b in lib.notes[noteId] :: SourcedBlock(lib, noteId, b))
    && (forall item | item in lib.items :: SourcedItem(lib, item))
  }

  lemma NamesSame(people: set<string>, owner: string)
    ensures Names(people, owner) ==> exists p | p in people :: SameName(p, owner)
  {
    if Names(people, owner) {
      var p :| p in people && Texts.Lower(Texts.Trim(IsSpace, p)) == Texts.Lower(owner);
      var low, high := Texts.TrimTakesSpace(IsSpace, p);
      forall i | 0 <= i < |owner|
        ensures SameLetter(p[low..high][i], owner[i])
      {
        assert Texts.Lower(p[low..high])[i] == Texts.Lower(owner)[i];
        LowerSame(p[low..high][i], owner[i]);
      }
      assert SameName(p, owner);
    }
  }

  lemma SameIsNamed(people: set<string>, p: string, owner: string)
    requires p in people && SameName(p, owner) && owner != "" && !IsSpace(owner[0]) && !IsSpace(owner[|owner| - 1])
    ensures Names(people, owner)
  {
    var low, high :| 0 <= low <= high <= |p|
      && Texts.AllSpace(IsSpace, p[..low]) && Texts.AllSpace(IsSpace, p[high..]) && high - low == |owner|
      && forall i | 0 <= i < |owner| :: SameLetter(p[low..high][i], owner[i]);
    LettersLower(p[low..high], owner);
    assert p[low] == p[low..high][0] && p[high - 1] == p[low..high][|owner| - 1];
    Texts.TrimIs(IsSpace, p, low, high);
  }

  lemma LettersLower(name: string, owner: string)
    requires |name| == |owner| > 0 && forall i | 0 <= i < |owner| :: SameLetter(name[i], owner[i])
    requires !IsSpace(owner[0]) && !IsSpace(owner[|owner| - 1])
    ensures Texts.Lower(name) == Texts.Lower(owner) && !IsSpace(name[0]) && !IsSpace(name[|name| - 1])
  {
    forall i | 0 <= i < |owner|
      ensures Texts.Lower(name)[i] == Texts.Lower(owner)[i]
    {
      assert SameLetter(name[i], owner[i]);
    }
    assert SameLetter(name[0], owner[0]) && SameLetter(name[|name| - 1], owner[|owner| - 1]);
  }

  lemma LowerSame(c: char, d: char)
    requires Texts.LowerChar(c) == Texts.LowerChar(d)
    ensures SameLetter(c, d)
  {
  }

  lemma InsertIsSourced(noteId: string, markdown: string, ids: seq<string>, clean: string -> string, lib: Lib, kept: seq<string>)
    requires Accepted(Insert(noteId, markdown, ids), clean, lib) && Filtered(ids, NoteSegments(lib, noteId).Keys, kept)
    ensures SourcedBlock(lib, noteId, Block(clean(markdown), kept))
  {
    forall id | id in kept
      ensures MayCite(lib, noteId, id)
    {
      assert id in ids && id in NoteSegments(lib, noteId);
      SegmentIs(lib, lib.noteMeetings[noteId], id);
    }
  }

  lemma ItemIsSourced(meetingId: string, text: string, owner: Option<string>, ids: seq<string>, clean: string -> string, lib: Lib,
                      kept: seq<string>)
    requires Accepted(ActionItem(meetingId, text, owner, ids), clean, lib)
    requires kept != [] && Filtered(ids, Segments(lib, meetingId), kept)
    ensures SourcedItem(lib, Item(meetingId, clean(text), OwnerOf(owner), kept))
  {
    if OwnerOf(owner).Some? {
      NamesSame(lib.people[meetingId], OwnerOf(owner).value);
    }
  }

  /** Whatever is written cites what it may: every block's and item's text and
      sources hold up against the library, before and after. */
  lemma WritingKeepsSourced(a: Approval, clean: string -> string, before: Lib, after: Lib, result: Applied)
    requires Wrote(a, clean, before, after, result) && Sourced(before)
    ensures Sourced(after)
  {
    match a
    case Insert(noteId, markdown, ids) =>
      var kept :| Filtered(ids, NoteSegments(before, noteId).Keys, kept)
                  && after == before.(notes := before.notes[noteId := before.notes[noteId] + [Block(clean(markdown), kept)]]);
      InsertIsSourced(noteId, markdown, ids, clean, before, kept);
      forall n, b | n in after.notes && b in after.notes[n]
        ensures SourcedBlock(after, n, b)
      {
        assert SourcedBlock(before, n, b);
        SameSources(before, after, n, b);
      }
      forall item | item in after.items
        ensures SourcedItem(after, item)
      {
        assert SourcedItem(before, item);
      }
    case ActionItem(meetingId, text, owner, ids) =>
      var kept :| kept != [] && Filtered(ids, Segments(before, meetingId), kept)
                  && after == before.(items := before.items + [Item(meetingId, clean(text), OwnerOf(owner), kept)]);
      ItemIsSourced(meetingId, text, owner, ids, clean, before, kept);
      forall n, b | n in after.notes && b in after.notes[n]
        ensures SourcedBlock(after, n, b)
      {
        assert SourcedBlock(before, n, b);
        SameSources(before, after, n, b);
      }
      forall item | item in after.items
        ensures SourcedItem(after, item)
      {
        assert SourcedItem(before, item);
      }
  }

  lemma SameSources(before: Lib, after: Lib, noteId: string, b: Block)
    requires SourcedBlock(before, noteId, b)
    requires after.noteMeetings == before.noteMeetings && after.transcripts == before.transcripts
    requires after.localNotes == before.localNotes && after.localMeetings == before.localMeetings
    ensures SourcedBlock(after, noteId, b)
  {
    forall id | id in b.sourceIds
      ensures MayCite(after, noteId, id)
    {
      assert MayCite(before, noteId, id);
      var k :| LastMeetingOf(before, before.noteMeetings[noteId], id, k)
               && (noteId in before.localNotes || before.noteMeetings[noteId][k] !in before.localMeetings);
      assert LastMeetingOf(after, after.noteMeetings[noteId], id, k);
    }
  }

  /** A blank owner is none; any other is kept without the white space around it. */
  lemma OwnerIsTrimmed(owner: string)
    ensures OwnerOf(Some(owner)).None? <==> Texts.AllSpace(IsSpace, owner)
    ensures OwnerOf(Some(owner)).Some? ==>
              exists low, high | 0 <= low < high <= |owner| ::
                && OwnerOf(Some(owner)).value == owner[low..high]
                && Texts.AllSpace(IsSpace, owner[..low]) && Texts.AllSpace(IsSpace, owner[high..])
                && !IsSpace(owner[low]) && !IsSpace(owner[high - 1])
    ensures OwnerOf(None) == None
  {
    var low, high := Texts.TrimTakesSpace(IsSpace, owner);
    if low == high {
      assert owner == owner[..low] + owner[high..];
    } else {
      assert !Texts.AllSpace(IsSpace, owner);
    }
  }

  /** And nothing that would hold up is turned down. */
  lemma SourcedIsAccepted(a: Approval, clean: string -> string, lib: Lib)
    requires match a
             case Insert(noteId, markdown, ids) =>
               0 < |clean(markdown)| <= 8000 && noteId in lib.notes && forall id | id in ids :: MayCite(lib, noteId, id)
             case ActionItem(meetingId, text, owner, ids) =>
               && 0 < |clean(text)| <= 400 && meetingId in lib.transcripts
               && (exists id | id in ids :: id in lib.transcripts[meetingId])
               && (OwnerOf(owner).Some? ==>
                     meetingId in lib.people && exists p | p in lib.people[meetingId] :: SameName(p, OwnerOf(owner).value))
    ensures Accepted(a, clean, lib)
  {
    if a.ActionItem? && OwnerOf(a.owner).Some? {
      var p :| p in lib.people[a.meetingId] && SameName(p, OwnerOf(a.owner).value);
      OwnerIsTrimmed(a.owner.value);
      SameIsNamed(lib.people[a.meetingId], p, OwnerOf(a.owner).value);
    }
    if a.Insert? {
      forall id | id in a.segmentIds
        ensures id in NoteSegments(lib, a.noteId)
        ensures a.noteId in lib.localNotes || NoteSegments(lib, a.noteId)[id] !in lib.localMeetings
      {
        assert MayCite(lib, a.noteId, id);
        SegmentIs(lib, lib.noteMeetings[a.noteId], id);
      }
    }
  }

  /** By code point. */
  lemma SpaceIs(c: char)
    ensures IsSpace(c) <==>
              || 9 <= c as int <= 13 || c as int in {0x20, 0x85, 0xA0, 0x1680, 0x2028, 0x2029, 0x202F, 0x205F, 0x3000}
              || 0x2000 <= c as int <= 0x200A
  {
  }

  class Storage {
    /** Trims, removes links and addresses; "" when nothing is left. */
    const clean: string -> string
    var lib: Lib

    constructor (clean: string -> string, lib: Lib)
      ensures this.clean == clean && this.lib == lib
    {
      this.clean, this.lib := clean, lib;
    }

    /** Written if it is accepted and the write itself goes through (`writes`);
        else nothing is. */
    method Apply(a: Approval, writes: bool) returns (r: Option<Applied>)
      modifies this
      ensures r.Some? <==> Accepted(a, clean, old(lib)) && writes
      ensures r.Some? ==> Wrote(a, clean, old(lib), lib, r.value)
      ensures r.None? ==> lib == old(lib)
      ensures Sourced(old(lib)) ==> Sourced(lib)
    {
      ghost var before := lib;
      match a {
        case Insert(noteId, markdown, ids) =>
          r := ApplyInsert(noteId, markdown, ids, writes);
        case ActionItem(meetingId, text, owner, ids) =>
          r := ApplyItem(meetingId, text, owner, ids, writes);
      }
      if r.Some? && Sourced(before) {
        WritingKeepsSourced(a, clean, before, lib, r.value);
      }
    }

    method ApplyInsert(noteId: string, markdown: string, ids: seq<string>, writes: bool) returns (r: Option<Applied>)
      modifies this
      ensures r.Some? <==> Accepted(Insert(noteId, markdown, ids), clean, old(lib)) && writes
      ensures r.Some? ==> Wrote(Insert(noteId, markdown, ids), clean, old(lib), lib, r.value)
      ensures r.None? ==> lib == old(lib)
    {
      var text := clean(markdown);
      if text == "" || |text| > MAX_INSERT_CHARS || noteId !in lib.notes {
        return None;
      }
      var known := NoteSegments(lib, noteId);
      if exists id | id in ids :: id !in known {
        return None;
      }
      var local := noteId in lib.localNotes;
      if !local && exists id | id in ids :: known[id] in lib.localMeetings {
        return None;
      }
      var kept := Distinct(ids, known.Keys);
      if !writes {
        return None;
      }
      var blocks := lib.notes[noteId] + [Block(text, kept)];
      lib := lib.(notes := lib.notes[noteId := blocks]);
      return Some(Note(blocks));
    }

    method ApplyItem(meetingId: string, itemText: string, owner: Option<string>, ids: seq<string>, writes: bool)
      returns (r: Option<Applied>)
      modifies this
      ensures r.Some? <==> Accepted(ActionItem(meetingId, itemText, owner, ids), clean, old(lib)) && writes
      ensures r.Some? ==> Wrote(ActionItem(meetingId, itemText, owner, ids), clean, old(lib), lib, r.value)
      ensures r.None? ==> lib == old(lib)
    {
      var text := clean(itemText);
      if text == "" || |text| > MAX_ITEM_CHARS || meetingId !in lib.transcripts {
        return None;
      }
      var kept := Distinct(ids, Segments(lib, meetingId));
      if kept == [] {
        assert forall id | id in ids :: id !in kept;
        return None;
      }
      assert kept[0] in kept;
      var named := OwnerOf(owner);
      if named.Some? && !(meetingId in lib.people && Names(lib.people[meetingId], named.value)) {
        return None;
      }
      if !writes {
        return None;
      }
      var item := Item(meetingId, text, named, kept);
      lib := lib.(items := lib.items + [item]);
      return Some(MeetingItem(item));
    }
  }

  /** The id filter: known ids, each once, in order of first appearance. */
  method Distinct(ids: seq<string>, ok: set<string>) returns (kept: seq<string>)
    ensures Filtered(ids, ok, kept)
  {
    kept := [];
    for i := 0 to |ids|
      invariant NoRepeats(kept)
      invariant forall id :: id in kept <==> id in ids[..i] && id in ok
      invariant forall k | 0 <= k < |kept| :: FirstAt(ids, kept[k]) < i
      invariant forall k, m | 0 <= k < m < |kept| :: FirstAt(ids, kept[k]) < FirstAt(ids, kept[m])
    {
      assert ids[..i + 1] == ids[..i] + [ids[i]];
      if ids[i] in ok && ids[i] !in kept {
        assert FirstAt(ids, ids[i]) == i;
        kept := kept + [ids[i]];
      }
    }
    assert ids[..|ids|] == ids;
  }
}
