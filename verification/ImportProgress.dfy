// From the one percentage a transcription reports to a status for each
// imported file, each file taking the stretch its length has in the whole.
module ImportProgress {
  import opened Wrappers

  datatype Status = WaitingFile | Transcribing | Done

  type FileId = string

  /** `boundaries`: where each file ends on the joined timeline. */
  function Total(boundaries: seq<real>): real {
    if boundaries == [] then 0.0 else boundaries[|boundaries| - 1]
  }

  /** There is a timeline to map the percentage with. */
  predicate Usable(count: nat, boundaries: seq<real>) {
    Total(boundaries) > 0.0 && count == |boundaries|
  }

  /** The timeline can be used when it has an end, after its start, for each file. */
  lemma UsableExactlyWhen(count: nat, boundaries: seq<real>)
    ensures Usable(count, boundaries) <==>
              count == |boundaries| > 0 && boundaries[|boundaries| - 1] > 0.0
  {
  }

  function Percent(ms: real, total: real): real
    requires total > 0.0
  {
    ms / total * 100.0
  }

  predicate Reached(boundaries: seq<real>, i: nat, pct: real)
    requires i < |boundaries| && Total(boundaries) > 0.0
  {
    pct >= Percent(boundaries[i], Total(boundaries)) - 0.5
  }

  /** The first file not reached, or the number of files. */
  function Active(boundaries: seq<real>, pct: real, from: nat := 0): (k: nat)
    requires from <= |boundaries| && Total(boundaries) > 0.0
    ensures from <= k <= |boundaries|
    ensures forall i | from <= i < k :: Reached(boundaries, i, pct)
    ensures k < |boundaries| ==> !Reached(boundaries, k, pct)
    decreases |boundaries| - from
  {
    if from == |boundaries| || !Reached(boundaries, from, pct) then from else Active(boundaries, pct, from + 1)
  }

  function StatusOf(boundaries: seq<real>, pct: real, i: nat): Status
    requires i < |boundaries| && Total(boundaries) > 0.0
  {
    if Reached(boundaries, i, pct) then Done
    else if i == Active(boundaries, pct) then Transcribing
    else WaitingFile
  }

  function Round(x: real): int {
    (x + 0.5).Floor
  }

  /** How far `pct` is into a file's own share of the timeline. */
  function PctWithin(pct: real, startFrac: real, endFrac: real): int {
    var share := endFrac - startFrac;
    if share <= 0.0 then 0
    else
      var p := Round((pct - startFrac) / share * 100.0);
      if p < 0 then 0 else if p > 99 then 99 else p
  }

  function FilePct(boundaries: seq<real>, pct: real, i: nat): int
    requires i < |boundaries| && Total(boundaries) > 0.0
  {
    var total := Total(boundaries);
    PctWithin(pct, Percent(if i == 0 then 0.0 else boundaries[i - 1], total), Percent(boundaries[i], total))
  }

  ghost predicate LastOfItsId(files: seq<FileId>, i: nat)
    requires i < |files|
  {
    forall j | i < j < |files| :: files[j] != files[i]
  }

  /** One status after another, a file listed twice keeping the last. */
  function Keyed(files: seq<FileId>, statuses: seq<Status>): (m: map<FileId, Status>)
    requires |files| == |statuses|
    ensures m.Keys == set id | id in files
  {
    if files == [] then map[]
    else
      var n := |files| - 1;
      assert files == files[..n] + [files[n]];
      Keyed(files[..n], statuses[..n])[files[n] := statuses[n]]
  }

  lemma {:induction false} KeyedAt(files: seq<FileId>, statuses: seq<Status>, i: nat)
    requires |files| == |statuses| && i < |files| && LastOfItsId(files, i)
    ensures files[i] in Keyed(files, statuses) && Keyed(files, statuses)[files[i]] == statuses[i]
  {
    var n := |files| - 1;
    if i < n {
      assert files[n] != files[i];
      KeyedAt(files[..n], statuses[..n], i);
    }
  }

  lemma KeyedMore(files: seq<FileId>, statuses: seq<Status>, file: FileId, status: Status)
    requires |files| == |statuses|
    ensures Keyed(files + [file], statuses + [status]) == Keyed(files, statuses)[file := status]
  {
    assert (files + [file])[..|files|] == files && (statuses + [status])[..|files|] == statuses;
  }

  function AllStatuses(boundaries: seq<real>, pct: real, n: nat): (r: seq<Status>)
    requires n <= |boundaries| && Total(boundaries) > 0.0
    ensures |r| == n && forall i | 0 <= i < n :: r[i] == StatusOf(boundaries, pct, i)
  {
    seq(n, i requires 0 <= i < n => StatusOf(boundaries, pct, i))
  }

  /** Without a usable timeline every file reads as being transcribed. */
  method MapProgress(files: seq<FileId>, boundaries: seq<real>, pct: real)
    returns (statuses: map<FileId, Status>, activePct: Option<int>)
    ensures statuses.Keys == set id | id in files
    ensures !Usable(|files|, boundaries) ==>
              activePct == None && forall id | id in files :: statuses[id] == Transcribing
    ensures Usable(|files|, boundaries) ==>
              && (forall i | 0 <= i < |files| && LastOfItsId(files, i) ::
                    statuses[files[i]] == StatusOf(boundaries, pct, i))
              && activePct == (if Active(boundaries, pct) == |files| then None
                               else Some(FilePct(boundaries, pct, Active(boundaries, pct))))
  {
    if Total(boundaries) <= 0.0 || |files| != |boundaries| {
      statuses := AllTranscribing(files);
      return statuses, None;
    }
    statuses, activePct := MapUsable(files, boundaries, pct);
    forall i | 0 <= i < |files| && LastOfItsId(files, i)
      ensures statuses[files[i]] == StatusOf(boundaries, pct, i)
    {
      KeyedAt(files, AllStatuses(boundaries, pct, |files|), i);
    }
  }

  method AllTranscribing(files: seq<FileId>) returns (statuses: map<FileId, Status>)
    ensures statuses.Keys == set id | id in files
    ensures forall id | id in files :: statuses[id] == Transcribing
  {
    statuses := map[];
    for i := 0 to |files|
      invariant statuses.Keys == set id | id in files[..i]
      invariant forall id | id in statuses :: statuses[id] == Transcribing
    {
      statuses := statuses[files[i] := Transcribing];
      assert files[..i + 1] == files[..i] + [files[i]];
    }
    assert files[..|files|] == files;
  }

  method ActivePct(pct: real, startFrac: real, endFrac: real) returns (p: int)
    ensures p == PctWithin(pct, startFrac, endFrac)
  {
    var share := endFrac - startFrac;
    if share > 0.0 {
      var rounded := Round((pct - startFrac) / share * 100.0);
      return if rounded < 0 then 0 else if rounded > 99 then 99 else rounded;
    }
    return 0;
  }

  method MapUsable(files: seq<FileId>, boundaries: seq<real>, pct: real)
    returns (statuses: map<FileId, Status>, activePct: Option<int>)
    requires Usable(|files|, boundaries)
    ensures statuses == Keyed(files, AllStatuses(boundaries, pct, |files|))
    ensures activePct == if Active(boundaries, pct) == |files| then None
                         else Some(FilePct(boundaries, pct, Active(boundaries, pct)))
  {
    statuses, activePct := map[], None;
    var total := Total(boundaries);
    var prevEnd := 0.0;
    var activeSeen := false;
    ghost var active := Active(boundaries, pct);
    for i := 0 to |files|
      invariant prevEnd == if i == 0 then 0.0 else boundaries[i - 1]
      invariant activeSeen <==> active < i
      invariant activePct == if active < i then Some(FilePct(boundaries, pct, active)) else None
      invariant statuses == Keyed(files[..i], AllStatuses(boundaries, pct, i))
    {
      var endFrac := Percent(boundaries[i], total);
      var reached := pct >= endFrac - 0.5;
      assert reached == Reached(boundaries, i, pct);
      var status: Status;
      if reached {
        status := Done;
      } else if !activeSeen {
        activeSeen := true;
        status := Transcribing;
        var p := ActivePct(pct, Percent(prevEnd, total), endFrac);
        activePct := Some(p);
      } else {
        status := WaitingFile;
      }
      StatusesMore(files, boundaries, pct, i, status);
      statuses := statuses[files[i] := status];
      prevEnd := boundaries[i];
    }
    assert files[..|files|] == files;
  }

  lemma StatusesMore(files: seq<FileId>, boundaries: seq<real>, pct: real, i: nat, status: Status)
    requires Usable(|files|, boundaries) && i < |files| && status == StatusOf(boundaries, pct, i)
    ensures Keyed(files[..i + 1], AllStatuses(boundaries, pct, i + 1))
            == Keyed(files[..i], AllStatuses(boundaries, pct, i))[files[i] := status]
  {
    assert files[..i + 1] == files[..i] + [files[i]];
    assert AllStatuses(boundaries, pct, i + 1) == AllStatuses(boundaries, pct, i) + [status];
    KeyedMore(files[..i], AllStatuses(boundaries, pct, i), files[i], status);
  }

  // -------------------------------------------------------------------------
  // What the statuses look like
  // -------------------------------------------------------------------------

  predicate Nondecreasing(boundaries: seq<real>) {
    forall i, j | 0 <= i <= j < |boundaries| :: boundaries[i] <= boundaries[j]
  }

  lemma PercentOrder(a: real, b: real, total: real)
    requires total > 0.0
    ensures a <= b <==> Percent(a, total) <= Percent(b, total)
  {
    assert Percent(a, total) - Percent(b, total) == (a - b) / total * 100.0;
  }

  /** The first `k` files done, then one being transcribed, then waiting ones. */
  ghost predicate OrderedAt(boundaries: seq<real>, pct: real, k: nat)
    requires Total(boundaries) > 0.0
  {
    forall i | 0 <= i < |boundaries| ::
      StatusOf(boundaries, pct, i) == if i < k then Done else if i == k then Transcribing else WaitingFile
  }

  ghost predicate InOrder(boundaries: seq<real>, pct: real)
    requires Total(boundaries) > 0.0
  {
    exists k :: OrderedAt(boundaries, pct, k)
  }

  /** The files read in that order at every percentage if and only if no file
      ends before the one it follows. */
  lemma InOrderExactlyWhen(boundaries: seq<real>)
    requires Total(boundaries) > 0.0
    ensures (forall pct :: InOrder(boundaries, pct)) <==> Nondecreasing(boundaries)
  {
    var total := Total(boundaries);
    if Nondecreasing(boundaries) {
      forall pct
        ensures InOrder(boundaries, pct)
      {
        NondecreasingIsInOrder(boundaries, pct);
      }
    } else {
      var i, j :| 0 <= i <= j < |boundaries| && boundaries[i] > boundaries[j];
      var pct := Percent(boundaries[j], total) - 0.5;
      PercentOrder(boundaries[i], boundaries[j], total);
      assert StatusOf(boundaries, pct, j) == Done && StatusOf(boundaries, pct, i) != Done;
      assert i < j;
      assert forall k :: !OrderedAt(boundaries, pct, k);
      assert !InOrder(boundaries, pct);
    }
  }

  lemma NondecreasingIsInOrder(boundaries: seq<real>, pct: real)
    requires Total(boundaries) > 0.0 && Nondecreasing(boundaries)
    ensures InOrder(boundaries, pct)
  {
    var k := Active(boundaries, pct);
    forall i | 0 <= i < |boundaries|
      ensures StatusOf(boundaries, pct, i) == if i < k then Done else if i == k then Transcribing else WaitingFile
    {
      if i > k {
        PercentOrder(boundaries[k], boundaries[i], Total(boundaries));
      }
    }
    assert OrderedAt(boundaries, pct, k);
  }

  /** The "k" of "k of n": the file being transcribed, or the last. */
  function Position(boundaries: seq<real>, pct: real): nat
    requires Total(boundaries) > 0.0
  {
    (if Active(boundaries, pct) < |boundaries| then Active(boundaries, pct) else |boundaries| - 1) + 1
  }

  /** It counts the files that are done, and the one being transcribed if there is one. */
  lemma PositionCounts(boundaries: seq<real>, pct: real, i: nat)
    requires Total(boundaries) > 0.0 && i < |boundaries|
    ensures StatusOf(boundaries, pct, i) == Transcribing ==> Position(boundaries, pct) == i + 1
    ensures (forall j | 0 <= j < |boundaries| :: StatusOf(boundaries, pct, j) == Done) ==> Position(boundaries, pct) == |boundaries|
  {
    var k := Active(boundaries, pct);
    assert k < |boundaries| ==> StatusOf(boundaries, pct, k) == Transcribing;
  }

  method FindTranscribing(files: seq<FileId>, statuses: map<FileId, Status>) returns (found: Option<nat>)
    requires forall i | 0 <= i < |files| :: files[i] in statuses
    ensures found.Some? ==> found.value < |files| && statuses[files[found.value]] == Transcribing
    ensures forall i | 0 <= i < (if found.Some? then found.value else |files|) :: statuses[files[i]] != Transcribing
  {
    for i := 0 to |files|
      invariant forall j | 0 <= j < i :: statuses[files[j]] != Transcribing
    {
      if statuses[files[i]] == Transcribing {
        return Some(i);
      }
    }
    return None;
  }

  /** The position the queue's header shows. */
  method RollingPosition(files: seq<FileId>, boundaries: seq<real>, pct: real) returns (k: nat)
    requires forall i | 0 <= i < |files| :: LastOfItsId(files, i)
    ensures Usable(|files|, boundaries) ==> k == Position(boundaries, pct)
    ensures !Usable(|files|, boundaries) ==> k == if files == [] then 0 else 1
  {
    var statuses, _ := MapProgress(files, boundaries, pct);
    assert forall i | 0 <= i < |files| :: files[i] in statuses;
    var found := FindTranscribing(files, statuses);
    k := if found.Some? then found.value + 1 else |files|;
    if Usable(|files|, boundaries) {
      ghost var a := Active(boundaries, pct);
      assert a < |files| ==> statuses[files[a]] == StatusOf(boundaries, pct, a);
      if found.Some? {
        assert StatusOf(boundaries, pct, found.value) == Transcribing;
      }
    } else if files != [] {
      assert statuses[files[0]] == Transcribing;
    }
  }

  /** A higher percentage moves no file backwards and no position down. */
  lemma ProgressOnlyGrows(boundaries: seq<real>, pct: real, later: real, i: nat)
    requires Total(boundaries) > 0.0 && Nondecreasing(boundaries) && pct <= later && i < |boundaries|
    ensures StatusOf(boundaries, pct, i) == Done ==> StatusOf(boundaries, later, i) == Done
    ensures StatusOf(boundaries, pct, i) == Transcribing ==> StatusOf(boundaries, later, i) != WaitingFile
    ensures Position(boundaries, pct) <= Position(boundaries, later)
  {
    var k, l := Active(boundaries, pct), Active(boundaries, later);
    assert l < k ==> Reached(boundaries, l, pct);
    NondecreasingIsInOrder(boundaries, pct);
    NondecreasingIsInOrder(boundaries, later);
  }

  lemma SignOf(x: real, total: real)
    requires total > 0.0
    ensures x * total >= 0.0 <==> x >= 0.0
  {
  }

  lemma PercentIs(ms: real, total: real, pct: real)
    requires total > 0.0
    ensures pct >= Percent(ms, total) - 0.5 <==> (pct + 0.5) * total >= ms * 100.0
  {
    assert Percent(ms, total) * total == ms * 100.0;
    SignOf(pct + 0.5 - Percent(ms, total), total);
    assert (pct + 0.5 - Percent(ms, total)) * total == (pct + 0.5) * total - Percent(ms, total) * total;
  }

  /** Of the whole timeline, the percentage is at a file's end, or within half a
      percent of it: then the file is done. The first that isn't is being
      transcribed, all others wait. */
  lemma StatusExactly(boundaries: seq<real>, pct: real, i: nat)
    requires Total(boundaries) > 0.0 && i < |boundaries|
    ensures var whole := boundaries[|boundaries| - 1];
            var reached := (pct + 0.5) * whole >= boundaries[i] * 100.0;
            StatusOf(boundaries, pct, i) ==
            if reached then Done
            else if forall j | 0 <= j < i :: (pct + 0.5) * whole >= boundaries[j] * 100.0 then Transcribing
            else WaitingFile
  {
    var whole := Total(boundaries);
    forall j | 0 <= j < |boundaries|
      ensures Reached(boundaries, j, pct) <==> (pct + 0.5) * whole >= boundaries[j] * 100.0
    {
      PercentIs(boundaries[j], whole, pct);
    }
  }

  lemma DivideOrder(a: real, b: real, share: real)
    requires a <= b && share > 0.0
    ensures a / share * 100.0 <= b / share * 100.0
  {
    assert (b - a) / share >= 0.0;
    assert b / share - a / share == (b - a) / share;
  }

  /** Nor does the file's own percentage fall while it is being transcribed;
      and it never reads 100. */
  lemma FilePctOnlyGrows(boundaries: seq<real>, pct: real, later: real, i: nat)
    requires Total(boundaries) > 0.0 && pct <= later && i < |boundaries|
    ensures 0 <= FilePct(boundaries, pct, i) <= FilePct(boundaries, later, i) <= 99
  {
    var start := Percent(if i == 0 then 0.0 else boundaries[i - 1], Total(boundaries));
    var share := Percent(boundaries[i], Total(boundaries)) - start;
    if share > 0.0 {
      DivideOrder(pct - start, later - start, share);
    }
  }

  /** And it is the file's share so far, to the nearest percent below 100. */
  lemma FilePctIsNearest(boundaries: seq<real>, pct: real, i: nat)
    requires Total(boundaries) > 0.0 && i < |boundaries|
    ensures var start := Percent(if i == 0 then 0.0 else boundaries[i - 1], Total(boundaries));
            var share := Percent(boundaries[i], Total(boundaries)) - start;
            share > 0.0 && 0.0 <= (pct - start) / share * 100.0 < 99.5 ==>
              (pct - start) / share * 100.0 - 0.5 < FilePct(boundaries, pct, i) as real
              <= (pct - start) / share * 100.0 + 0.5
  {
  }

  /** Before its share begins, or if it has none, a file reads 0; near its end 99. */
  lemma FilePctAtTheEnds(boundaries: seq<real>, pct: real, i: nat)
    requires Total(boundaries) > 0.0 && i < |boundaries|
    ensures var start := Percent(if i == 0 then 0.0 else boundaries[i - 1], Total(boundaries));
            var share := Percent(boundaries[i], Total(boundaries)) - start;
            && (share <= 0.0 || (pct - start) / share * 100.0 < 0.5 ==> FilePct(boundaries, pct, i) == 0)
            && (share > 0.0 && (pct - start) / share * 100.0 >= 98.5 ==> FilePct(boundaries, pct, i) == 99)
  {
  }

  lemma WholeIsHundred(total: real)
    requires total > 0.0
    ensures Percent(total, total) == 100.0
  {
    assert total / total == 1.0;
  }

  /** Everything is done exactly from 99.5 percent on. */
  lemma AllDoneExactlyWhen(boundaries: seq<real>, pct: real)
    requires Total(boundaries) > 0.0 && Nondecreasing(boundaries)
    ensures (forall i | 0 <= i < |boundaries| :: StatusOf(boundaries, pct, i) == Done) <==> pct >= 99.5
  {
    var n := |boundaries| - 1;
    WholeIsHundred(Total(boundaries));
    if pct >= 99.5 {
      forall i | 0 <= i < |boundaries|
        ensures StatusOf(boundaries, pct, i) == Done
      {
        PercentOrder(boundaries[i], boundaries[n], Total(boundaries));
      }
    } else {
      assert StatusOf(boundaries, pct, n) != Done;
    }
  }
}
