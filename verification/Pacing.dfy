// The pacing of the embedding worker, in milliseconds: a rest after every
// batch that stored something, which a content write may cut short, but never
// twice in a row.
module Pacing {
  import opened Wrappers

  const REST_RATIO: nat := 1

  const MIN_REST: nat := 250

  const SETTLE: nat := 2000

  const SETTLE_MAX: nat := 20000

  function Min(a: nat, b: nat): nat {
    if a <= b then a else b
  }

  function Max(a: nat, b: nat): nat {
    if a >= b then a else b
  }

  function RestAfter(took: nat): nat {
    Max(took * REST_RATIO, MIN_REST)
  }

  function Sum(ns: seq<nat>): nat {
    if ns == [] then 0 else Sum(ns[..|ns| - 1]) + ns[|ns| - 1]
  }

  lemma SumIs(ns: seq<nat>, n: nat)
    ensures Sum([]) == 0 && Sum(ns + [n]) == Sum(ns) + n
  {
    assert (ns + [n])[..|ns|] == ns;
  }

  // -------------------------------------------------------------------------
  // Waiting for writes to settle
  // -------------------------------------------------------------------------

  /** The writes before the first one that comes more than `quiet` after the
      write before it; `gaps` are the times from one write to the next. */
  function Burst(gaps: seq<nat>, quiet: nat): (n: nat)
    ensures n <= |gaps| && forall k | 0 <= k < n :: gaps[k] <= quiet
    ensures n < |gaps| ==> gaps[n] > quiet
  {
    if gaps == [] || gaps[0] > quiet then 0 else 1 + Burst(gaps[1..], quiet)
  }

  lemma {:induction false} BurstIsTheOne(gaps: seq<nat>, quiet: nat, n: nat)
    requires n <= |gaps| && forall k | 0 <= k < n :: gaps[k] <= quiet
    requires n < |gaps| ==> gaps[n] > quiet
    ensures n == Burst(gaps, quiet)
  {
    if n > 0 {
      BurstIsTheOne(gaps[1..], quiet, n - 1);
    }
  }

  lemma {:induction false} SumGrows(ns: seq<nat>, i: nat, j: nat)
    requires i <= j <= |ns|
    ensures Sum(ns[..i]) <= Sum(ns[..j])
    decreases j - i
  {
    if i < j {
      SumGrows(ns, i, j - 1);
      assert ns[..j][..j - 1] == ns[..j - 1];
    }
  }

  /** It ends when the burst of writes has been over for `quiet`, or at `max`,
      whichever comes first. */
  method Settle(gaps: seq<nat>, quiet: nat, max: nat) returns (took: nat)
    ensures took == Min(max, Sum(gaps[..Burst(gaps, quiet)]) + quiet)
  {
    took := 0;
    var heard := 0;
    while took < max
      invariant heard <= |gaps| && took <= max
      invariant forall k | 0 <= k < heard :: gaps[k] <= quiet
      invariant took == Sum(gaps[..heard])
      decreases |gaps| - heard
    {
      var wait := Min(quiet, max - took);
      if heard == |gaps| || gaps[heard] > wait {
        if heard == |gaps| || gaps[heard] > quiet {
          BurstIsTheOne(gaps, quiet, heard);
        } else {
          SumGrows(gaps, heard + 1, Burst(gaps, quiet));
          assert gaps[..heard + 1][..heard] == gaps[..heard];
        }
        return took + wait;
      }
      took := took + gaps[heard];
      heard := heard + 1;
      assert gaps[..heard][..heard - 1] == gaps[..heard - 1];
    }
    SumGrows(gaps, heard, Burst(gaps, quiet));
  }

  // -------------------------------------------------------------------------
  // Resting after a batch
  // -------------------------------------------------------------------------

  /** What is written during a rest: when the first write comes, and the gaps
      between the writes after it. */
  datatype Writes = Writes(first: Option<nat>, gaps: seq<nat>)

  predicate Cuts(rest: nat, mayCut: bool, w: Writes) {
    mayCut && w.first.Some? && w.first.value <= rest
  }

  /** A write may cut the rest short, and then waits for writes to settle.
      The flag it gives back is the next rest's leave to be cut. */
  method RestBetweenBatches(rest: nat, mayCut: bool, w: Writes, quiet: nat, max: nat)
    returns (took: nat, next: bool)
    ensures next == !Cuts(rest, mayCut, w)
    ensures next ==> took == rest
    ensures !next ==> took == w.first.value + Min(max, Sum(w.gaps[..Burst(w.gaps, quiet)]) + quiet) <= rest + max
  {
    if !mayCut {
      return rest, true;
    }
    if w.first.Some? && w.first.value <= rest {
      var settled := Settle(w.gaps, quiet, max);
      return w.first.value + settled, false;
    }
    return rest, true;
  }

  /** How one turn of the worker ends. `work` is how long the batch took. */
  datatype Turn =
    | Stored(work: nat, writes: Writes)
    | NothingStored(work: nat)
    | Abandoned(work: nat)
    | Failed(work: nat)
    | NoBatch(waited: nat) // stepped aside, nothing pending, or no server

  /** A rest: the batch it follows took `work`. */
  datatype Rest = Rest(work: nat, took: nat, cut: bool)

  /** The rest after a batch that stored something. */
  ghost predicate RestOf(work: nat, writes: Writes, mayCut: bool, rest: Rest) {
    && rest.work == work
    && rest.cut == Cuts(RestAfter(work), mayCut, writes)
    && (!rest.cut ==> rest.took == RestAfter(work))
    && (rest.cut ==>
          rest.took == writes.first.value + Min(SETTLE_MAX, Sum(writes.gaps[..Burst(writes.gaps, SETTLE)]) + SETTLE))
  }

  /** In milliseconds: an uncut rest is as long as the batch took, a quarter of a
      second at least. A write in that time cuts it, if it may be cut; it then
      goes on until nothing has been written for two seconds, or for twenty
      seconds after that write. */
  lemma RestsLast(work: nat, writes: Writes, mayCut: bool, rest: Rest, n: nat)
    requires RestOf(work, writes, mayCut, rest)
    requires n <= |writes.gaps| && forall k | 0 <= k < n :: writes.gaps[k] <= 2000
    requires n < |writes.gaps| ==> writes.gaps[n] > 2000
    ensures var full := if work >= 250 then work else 250;
            && (rest.cut <==> mayCut && writes.first.Some? && writes.first.value <= full)
            && (!rest.cut ==> rest.took == full)
            && (rest.cut && Sum(writes.gaps[..n]) <= 18000 ==> rest.took == writes.first.value + Sum(writes.gaps[..n]) + 2000)
            && (rest.cut && Sum(writes.gaps[..n]) > 18000 ==> rest.took == writes.first.value + 20000)
  {
    BurstIsTheOne(writes.gaps, 2000, n);
  }

  /** What the rests of a run are: only a batch that stored something is rested
      after, and only an uncut rest lets the next one be cut. */
  ghost predicate Paced(turns: seq<Turn>, rests: seq<Rest>, mayCut: bool)
    decreases |turns|
  {
    if turns == [] then rests == []
    else if !turns[0].Stored? then Paced(turns[1..], rests, mayCut)
    else
      && rests != [] && RestOf(turns[0].work, turns[0].writes, mayCut, rests[0])
      && Paced(turns[1..], rests[1..], !rests[0].cut)
  }

  lemma {:induction false} PacedAppend(turns: seq<Turn>, rests: seq<Rest>, mayCut: bool, next: bool, turn: Turn, rest: Rest)
    requires Paced(turns, rests, mayCut) && next == CutNext(rests, mayCut)
    requires turn.Stored? ==> RestOf(turn.work, turn.writes, next, rest)
    ensures Paced(turns + [turn], if turn.Stored? then rests + [rest] else rests, mayCut)
    decreases |turns|
  {
    if turns == [] {
      assert (turns + [turn])[1..] == [];
    } else {
      assert (turns + [turn])[1..] == turns[1..] + [turn];
      if turns[0].Stored? {
        assert (rests + [rest])[1..] == rests[1..] + [rest];
        PacedAppend(turns[1..], rests[1..], !rests[0].cut, next, turn, rest);
      } else {
        PacedAppend(turns[1..], rests, mayCut, next, turn, rest);
      }
    }
  }

  /** Whether the rest after these may be cut. */
  function CutNext(rests: seq<Rest>, mayCut: bool): bool {
    if rests == [] then mayCut else !rests[|rests| - 1].cut
  }

  /** The worker's loop, over any turns. */
  method RunWorker(turns: seq<Turn>) returns (rests: seq<Rest>)
    ensures Paced(turns, rests, true)
  {
    rests := [];
    var restMayBeCut := true;
    var i := 0;
    while i < |turns|
      invariant 0 <= i <= |turns|
      invariant Paced(turns[..i], rests, true)
      invariant restMayBeCut == CutNext(rests, true)
    {
      ghost var before := rests;
      assert turns[..i + 1] == turns[..i] + [turns[i]];
      match turns[i] {
        case Stored(work, writes) =>
          var took, next := RestBetweenBatches(RestAfter(work), restMayBeCut, writes, SETTLE, SETTLE_MAX);
          PacedAppend(turns[..i], rests, true, restMayBeCut, turns[i], Rest(work, took, !next));
          rests, restMayBeCut := rests + [Rest(work, took, !next)], next;
        case _ =>
          PacedAppend(turns[..i], rests, true, restMayBeCut, turns[i], Rest(0, 0, false));
      }
      i := i + 1;
    }
    assert turns[..i] == turns;
  }

  // -------------------------------------------------------------------------
  // What that means over a whole run
  // -------------------------------------------------------------------------

  /** No two rests in a row are cut short, however steadily it is written. */
  lemma {:induction false} NeverTwoCutsInARow(turns: seq<Turn>, rests: seq<Rest>, mayCut: bool, k: nat)
    requires Paced(turns, rests, mayCut) && k < |rests|
    ensures rests[k].cut ==> if k == 0 then mayCut else !rests[k - 1].cut
    ensures !rests[k].cut ==> rests[k].took >= MIN_REST && rests[k].took >= rests[k].work
    decreases |turns|
  {
    if turns != [] {
      if !turns[0].Stored? {
        NeverTwoCutsInARow(turns[1..], rests, mayCut, k);
      } else if k > 0 {
        NeverTwoCutsInARow(turns[1..], rests[1..], !rests[0].cut, k - 1);
      }
    }
  }

  function CutCount(rests: seq<Rest>): nat {
    if rests == [] then 0 else (if rests[0].cut then 1 else 0) + CutCount(rests[1..])
  }

  /** The time the fully rested batches took. */
  function RestedWork(rests: seq<Rest>): nat {
    if rests == [] then 0 else (if rests[0].cut then 0 else rests[0].work) + RestedWork(rests[1..])
  }

  function TotalRest(rests: seq<Rest>): nat {
    if rests == [] then 0 else rests[0].took + TotalRest(rests[1..])
  }

  /** Cut rests outnumber full ones by one at most, and the worker rests at
      least as long as its fully rested batches took, and a minimum for each. */
  lemma {:induction false} RestsCoverTheWork(turns: seq<Turn>, rests: seq<Rest>, mayCut: bool)
    requires Paced(turns, rests, mayCut)
    ensures CutCount(rests) <= |rests| - CutCount(rests) + (if mayCut then 1 else 0)
    ensures TotalRest(rests) >= RestedWork(rests)
    ensures TotalRest(rests) >= MIN_REST * (|rests| - CutCount(rests))
    decreases |turns|
  {
    if turns != [] {
      if !turns[0].Stored? {
        RestsCoverTheWork(turns[1..], rests, mayCut);
      } else {
        RestsCoverTheWork(turns[1..], rests[1..], !rests[0].cut);
      }
    }
  }
}
