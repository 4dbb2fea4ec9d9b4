// The confirm cards on screen: proposals arrive one by one and in listings
// that may be stale, and each is shown once, unless it has settled.
module ProposalList {
  type Id = string

  datatype Card = Card(id: Id, body: string)

  function Ids(cards: seq<Card>): set<Id> {
    set c | c in cards :: c.id
  }

  lemma IdsAppend(cards: seq<Card>, c: Card)
    ensures Ids(cards + [c]) == Ids(cards) + {c.id}
  {
    assert forall x :: x in cards + [c] <==> x in cards || x == c;
  }

  /** What is added of `incoming`: in order, the first of each id that is
      neither shown nor settled. */
  function Added(current: seq<Card>, incoming: seq<Card>, settled: set<Id>): seq<Card> {
    if incoming == [] then []
    else
      var last := incoming[|incoming| - 1];
      var before := Added(current, incoming[..|incoming| - 1], settled);
      if last.id in settled + Ids(current) + Ids(before) then before else before + [last]
  }

  method MergeProposals(current: seq<Card>, incoming: seq<Card>, settled: set<Id>) returns (r: seq<Card>)
    ensures r == current + Added(current, incoming, settled)
  {
    var seen := Ids(current);
    var added: seq<Card> := [];
    for i := 0 to |incoming|
      invariant added == Added(current, incoming[..i], settled)
      invariant seen == Ids(current) + Ids(added)
    {
      var p := incoming[i];
      assert incoming[..i + 1][..i] == incoming[..i];
      if p.id !in seen && p.id !in settled {
        IdsAppend(added, p);
        seen := seen + {p.id};
        added := added + [p];
      }
    }
    assert incoming[..|incoming|] == incoming;
    r := if |added| > 0 then current + added else current;
  }

  /** Every card is shown once, those that were shown stay, and of the incoming
      ones exactly those that haven't settled are shown. */
  lemma {:induction false} AddedAreNew(current: seq<Card>, incoming: seq<Card>, settled: set<Id>)
    ensures var added := Added(current, incoming, settled);
            && (forall i, j | 0 <= i < j < |added| :: added[i].id != added[j].id)
            && Ids(added) == Ids(incoming) - settled - Ids(current)
    decreases |incoming|
  {
    if incoming != [] {
      var n := |incoming| - 1;
      var before, last := Added(current, incoming[..n], settled), incoming[n];
      AddedAreNew(current, incoming[..n], settled);
      IdsAppend(incoming[..n], last);
      IdsAppend(before, last);
      assert incoming[..n] + [last] == incoming;
      assert forall i | 0 <= i < |before| :: before[i] in before && before[i].id in Ids(before);
    }
  }

  lemma {:induction false} NothingToAdd(current: seq<Card>, incoming: seq<Card>, settled: set<Id>)
    requires Ids(incoming) <= settled + Ids(current)
    ensures Added(current, incoming, settled) == []
  {
    if incoming != [] {
      var n := |incoming| - 1;
      IdsAppend(incoming[..n], incoming[n]);
      assert incoming[..n] + [incoming[n]] == incoming;
      NothingToAdd(current, incoming[..n], settled);
    }
  }

  /** Merging a listing that was merged before, with whatever has settled
      since, changes nothing. */
  lemma StaleListingAddsNothing(current: seq<Card>, incoming: seq<Card>, settled: set<Id>, later: set<Id>)
    requires settled <= later
    ensures Added(current + Added(current, incoming, settled), incoming, later) == []
  {
    var added := Added(current, incoming, settled);
    AddedAreNew(current, incoming, settled);
    assert Ids(current + added) == Ids(current) + Ids(added) by {
      assert forall x :: x in current + added <==> x in current || x in added;
    }
    NothingToAdd(current + added, incoming, later);
  }
}
