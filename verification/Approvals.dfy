// Writes an Ask answer offers for approval, held by id for a limited time.
// Registering and approving each run under one mutex.
module Approvals {
  import opened Wrappers
  import opened Library

  /** How many milliseconds after it expires an entry may still be held. */
  const KEEP_AFTER_EXPIRY: int := 60 * 60 * 1000

  const MAX_PENDING: nat := 500

  datatype Kind = InsertKind | ActionItemKind

  function KindOf(a: Approval): Kind {
    match a
    case Insert(_, _, _) => InsertKind
    case ActionItem(_, _, _, _) => ActionItemKind
  }

  datatype Pending = Pending(approval: Approval, expiresAt: int, applied: Option<Applied>)

  type Held = map<string, Pending>

  datatype Outcome = AppliedNow | AlreadyApplied | Expired | Unknown | WrongKind | Rejected

  // -------------------------------------------------------------------------
  // Pruning
  // -------------------------------------------------------------------------

  predicate InWindow(p: Pending, now: int) {
    p.expiresAt + KEEP_AFTER_EXPIRY > now
  }

  function Live(m: Held, now: int): Held {
    map k | k in m && InWindow(m[k], now) :: m[k]
  }

  ghost predicate Submap(a: Held, b: Held) {
    forall k | k in a :: k in b && a[k] == b[k]
  }

  /** No key among `keys` expires before `k`. */
  predicate Soonest(m: Held, keys: set<string>, k: string)
    requires keys <= m.Keys && k in m
  {
    forall q | q in keys :: m[k].expiresAt <= m[q].expiresAt
  }

  /** `after` is what pruning may leave of `before`: only entries within their
      keep window, fewer than the maximum, those evicted for space expiring no
      later than any survivor, and no more evicted than it takes. */
  ghost predicate Pruned(before: Held, after: Held, now: int) {
    && Submap(after, Live(before, now))
    && |after| < MAX_PENDING
    && (forall k, q | k in Live(before, now) && k !in after && q in after :: before[k].expiresAt <= before[q].expiresAt)
    && (after == Live(before, now) || |after| == MAX_PENDING - 1)
  }

  lemma {:induction false} SoonestAmong(m: Held, keys: set<string>)
    requires keys <= m.Keys && keys != {}
    ensures exists k :: k in keys && Soonest(m, keys, k)
    decreases keys
  {
    var k :| k in keys;
    var rest := keys - {k};
    if rest == {} {
      assert keys == {k};
      assert Soonest(m, keys, k);
    } else {
      SoonestAmong(m, rest);
      var j :| j in rest && Soonest(m, rest, j);
      if m[j].expiresAt <= m[k].expiresAt {
        assert Soonest(m, keys, j);
      } else {
        assert Soonest(m, keys, k);
      }
    }
  }

  // -------------------------------------------------------------------------
  // Registering and approving
  // -------------------------------------------------------------------------

  /** Registering an id again changes nothing but a later expiry, and that only
      as long as it wasn't applied. */
  function Registered(m: Held, id: string, approval: Approval, expiresAt: int): Held {
    if id !in m then m[id := Pending(approval, expiresAt, None)]
    else if m[id].applied.None? && expiresAt > m[id].expiresAt then m[id := m[id].(expiresAt := expiresAt)]
    else m
  }

  /** How approving `id` ends on a pruned map; `answer` is what the write would
      return now (it is only asked when the outcome is `AppliedNow` or `Rejected`). */
  function OutcomeOf(m: Held, id: string, want: Kind, now: int, answer: Option<Applied>): Outcome {
    if id !in m then Unknown
    else if KindOf(m[id].approval) != want then WrongKind
    else if m[id].applied.Some? then AlreadyApplied
    else if now > m[id].expiresAt then Expired
    else if answer.Some? then AppliedNow
    else Rejected
  }

  /** A held approval is for its own command: the other one's click changes nothing. */
  lemma WrongCommand(m: Held, id: string, now: int, answer: Option<Applied>)
    requires id in m
    ensures m[id].approval.Insert? ==> OutcomeOf(m, id, ActionItemKind, now, answer) == WrongKind
    ensures m[id].approval.ActionItem? ==> OutcomeOf(m, id, InsertKind, now, answer) == WrongKind
    ensures m[id].approval.Insert? ==> OutcomeOf(m, id, InsertKind, now, answer) != WrongKind
    ensures m[id].approval.ActionItem? ==> OutcomeOf(m, id, ActionItemKind, now, answer) != WrongKind
  {
  }

  class Approvals {
    var pending: Held

    constructor ()
      ensures pending == map[]
    {
      pending := map[];
    }

    method Prune(now: int)
      modifies this
      ensures Pruned(old(pending), pending, now)
    {
      pending := Live(pending, now);
      ghost var live := pending;
      while |pending| >= MAX_PENDING
        invariant Submap(pending, live)
        invariant forall k, q | k in live && k !in pending && q in pending :: live[k].expiresAt <= live[q].expiresAt
        invariant pending == live || |pending| >= MAX_PENDING - 1
        decreases |pending|
      {
        SoonestAmong(pending, pending.Keys);
        var first :| first in pending.Keys && Soonest(pending, pending.Keys, first);
        ghost var before := pending;
        pending := pending - {first};
        assert pending.Keys == before.Keys - {first};
      }
    }

    method Hold(id: string, approval: Approval, expiresAt: int, now: int) returns (ghost pruned: Held)
      modifies this
      ensures Pruned(old(pending), pruned, now)
      ensures pending == Registered(pruned, id, approval, expiresAt)
    {
      Prune(now);
      pruned := pending;
      if id !in pending {
        pending := pending[id := Pending(approval, expiresAt, None)];
      }
      if pending[id].applied.None? && expiresAt > pending[id].expiresAt {
        pending := pending[id := pending[id].(expiresAt := expiresAt)];
      }
    }

    /** Write it, if storage as it is now still accepts it, or give the result of
        the write it had before. `writes`: a write that is accepted goes through. */
    method Approve(storage: Storage, id: string, want: Kind, now: int, writes: bool)
      returns (r: Option<Applied>, outcome: Outcome, ghost pruned: Held, ghost answer: Option<Applied>)
      modifies this, storage
      ensures Pruned(old(pending), pruned, now)
      ensures outcome == OutcomeOf(pruned, id, want, now, answer)
      ensures pending == if outcome.AppliedNow? then pruned[id := pruned[id].(applied := answer)] else pruned
      ensures r == match outcome
                   case AppliedNow => answer
                   case AlreadyApplied => pruned[id].applied
                   case _ => None
      ensures outcome.AppliedNow? ==> Wrote(pruned[id].approval, storage.clean, old(storage.lib), storage.lib, r.value)
      ensures !outcome.AppliedNow? ==> storage.lib == old(storage.lib)
      ensures Sourced(old(storage.lib)) ==> Sourced(storage.lib)
      ensures outcome.AppliedNow? || outcome.Rejected? ==>
                (outcome.AppliedNow? <==> Accepted(pruned[id].approval, storage.clean, old(storage.lib)) && writes)
    {
      Prune(now);
      pruned, answer := pending, None;
      if id !in pending {
        return None, Unknown, pruned, answer;
      }
      var p := pending[id];
      if KindOf(p.approval) != want {
        return None, WrongKind, pruned, answer;
      }
      if p.applied.Some? {
        return p.applied, AlreadyApplied, pruned, answer;
      }
      if now > p.expiresAt {
        return None, Expired, pruned, answer;
      }
      r := storage.Apply(p.approval, writes);
      answer := r;
      if r.None? {
        return None, Rejected, pruned, answer;
      }
      pending := pending[id := p.(applied := r)];
      outcome := AppliedNow;
    }
  }
}
