// Whole runs of the approvals map: any mix of registrations and approvals,
// each of which prunes first.
module ApprovalRuns {
  import opened Wrappers
  import opened Library
  import opened Approvals

  /** One call, with the map pruning left it and, for an approval, what the
      write would answer. */
  datatype Call =
    | Register(id: string, approval: Approval, expiresAt: int, now: int, pruned: Held)
    | Approve(id: string, want: Kind, now: int, answer: Option<Applied>, pruned: Held)

  function Ends(c: Call): Outcome
    requires c.Approve?
  {
    OutcomeOf(c.pruned, c.id, c.want, c.now, c.answer)
  }

  function After(c: Call): Held {
    match c
    case Register(id, approval, expiresAt, _, pruned) => Registered(pruned, id, approval, expiresAt)
    case Approve(id, _, _, answer, pruned) =>
      if Ends(c).AppliedNow? then pruned[id := pruned[id].(applied := answer)] else pruned
  }

  predicate Writes(c: Call, id: string) {
    c.Approve? && c.id == id && Ends(c).AppliedNow?
  }

  /** What an approval returns to the caller. */
  function Returns(c: Call): Option<Applied>
    requires c.Approve?
  {
    match Ends(c)
    case AppliedNow => c.answer
    case AlreadyApplied => c.pruned[c.id].applied
    case _ => None
  }

  ghost predicate Steps(before: Held, c: Call, after: Held) {
    Pruned(before, c.pruned, c.now) && after == After(c)
  }

  /** The map before each call, and after the last. */
  ghost predicate IsRun(states: seq<Held>, calls: seq<Call>) {
    && |states| == |calls| + 1
    && forall i {:trigger calls[i]} | 0 <= i < |calls| :: Steps(states[i], calls[i], states[i + 1])
  }

  lemma RunGrows(states: seq<Held>, calls: seq<Call>, c: Call, after: Held)
    requires IsRun(states, calls) && Steps(states[|calls|], c, after)
    ensures IsRun(states + [after], calls + [c])
  {
  }

  // -------------------------------------------------------------------------
  // Size
  // -------------------------------------------------------------------------

  lemma CallKeepsKeys(c: Call)
    ensures After(c).Keys <= c.pruned.Keys + {c.id}
  {
  }

  lemma CallKeepsSize(before: Held, c: Call)
    requires Pruned(before, c.pruned, c.now)
    ensures |After(c)| <= MAX_PENDING
  {
    CallKeepsKeys(c);
    SubsetIsSmaller(After(c).Keys, c.pruned.Keys + {c.id});
    assert |After(c)| == |After(c).Keys| && |c.pruned| == |c.pruned.Keys|;
  }

  /** The map never holds more than the maximum, in any run from an empty one. */
  lemma {:induction false} RunIsBounded(states: seq<Held>, calls: seq<Call>, i: nat)
    requires IsRun(states, calls) && states[0] == map[]
    requires i <= |calls|
    ensures |states[i]| <= MAX_PENDING
  {
    if i > 0 {
      CallKeepsSize(states[i - 1], calls[i - 1]);
    }
  }

  // -------------------------------------------------------------------------
  // At most one write
  // -------------------------------------------------------------------------

  /** `q` is a later state of the entry `p`. */
  ghost predicate Continues(p: Pending, q: Pending) {
    && q.approval == p.approval
    && p.expiresAt <= q.expiresAt
    && (p.applied.Some? ==> q == p)
  }

  lemma CallContinues(before: Held, c: Call, id: string)
    requires Pruned(before, c.pruned, c.now)
    requires id in c.pruned
    ensures id in before && id in After(c) && Continues(before[id], After(c)[id])
    ensures Writes(c, id) ==> before[id].applied.None? && c.now <= before[id].expiresAt
    ensures Writes(c, id) ==> After(c)[id] == before[id].(applied := c.answer) && c.answer.Some?
    ensures before[id].applied != After(c)[id].applied ==> Writes(c, id)
  {
    assert id in Live(before, c.now);
  }

  /** The id survives every pruning of the calls from `i` up to `j`. */
  ghost predicate HeldThrough(calls: seq<Call>, id: string, i: nat, j: nat)
    requires i <= j <= |calls|
  {
    forall k | i <= k < j :: id in calls[k].pruned
  }

  lemma {:induction false} ContinuesFrom(p: Pending, q: Pending, r: Pending)
    requires Continues(p, q) && Continues(q, r)
    ensures Continues(p, r)
  {
  }

  lemma CallAt(states: seq<Held>, calls: seq<Call>, id: string, k: nat)
    requires IsRun(states, calls) && k < |calls| && id in calls[k].pruned
    ensures id in states[k] && id in states[k + 1]
    ensures Continues(states[k][id], states[k + 1][id])
    ensures states[k][id].applied != states[k + 1][id].applied
            ==> Writes(calls[k], id) && states[k + 1][id].applied == calls[k].answer
  {
    CallContinues(states[k], calls[k], id);
  }

  lemma {:induction false} StaysHeld(states: seq<Held>, calls: seq<Call>, id: string, i: nat, j: nat)
    requires IsRun(states, calls)
    requires i <= j <= |calls| && HeldThrough(calls, id, i, j)
    requires id in states[i]
    ensures id in states[j] && Continues(states[i][id], states[j][id])
    decreases j - i
  {
    if i < j {
      StaysHeld(states, calls, id, i, j - 1);
      CallAt(states, calls, id, j - 1);
      var p, q, r := states[i][id], states[j - 1][id], states[j][id];
      ContinuesFrom(p, q, r);
    }
  }

  /** For as long as an approval stays in the map: it is written at most once,
      never past its expiry, and every later approval of its kind returns what
      that one write returned. */
  lemma {:induction false} WritesAtMostOnce(states: seq<Held>, calls: seq<Call>, id: string, i: nat, j: nat)
    requires IsRun(states, calls)
    requires i < j < |calls| && HeldThrough(calls, id, i, j + 1)
    requires Writes(calls[i], id)
    ensures calls[i].now <= states[i][id].expiresAt
    ensures !Writes(calls[j], id)
    ensures calls[j].Approve? && calls[j].id == id && calls[j].want == calls[i].want
            ==> Ends(calls[j]).AlreadyApplied? && Returns(calls[j]) == calls[i].answer
    ensures calls[j].Approve? && calls[j].id == id && calls[j].want != calls[i].want
            ==> Ends(calls[j]).WrongKind? && Returns(calls[j]).None?
  {
    CallContinues(states[i], calls[i], id);
    StaysHeld(states, calls, id, i + 1, j);
    CallContinues(states[j], calls[j], id);
    assert Pruned(states[j], calls[j].pruned, calls[j].now);
    assert id in Live(states[j], calls[j].now);
    assert calls[j].pruned[id] == states[j][id];
  }

  /** The expiry can grow until the write and is fixed from then on; what is
      approved never changes. */
  lemma {:induction false} ExpiryGrowsUntilTheWrite(states: seq<Held>, calls: seq<Call>, id: string, i: nat, j: nat)
    requires IsRun(states, calls)
    requires i <= j <= |calls| && HeldThrough(calls, id, i, j)
    requires id in states[i]
    ensures id in states[j]
    ensures states[j][id].approval == states[i][id].approval
    ensures states[i][id].expiresAt <= states[j][id].expiresAt
    ensures states[i][id].applied.Some? ==> states[j][id] == states[i][id]
    ensures states[i][id].applied.None? && states[j][id].applied.Some?
            ==> exists k :: i <= k < j && Writes(calls[k], id) && calls[k].answer == states[j][id].applied
    decreases j - i
  {
    StaysHeld(states, calls, id, i, j);
    if i < j {
      ExpiryGrowsUntilTheWrite(states, calls, id, i, j - 1);
      CallAt(states, calls, id, j - 1);
    }
  }

  /** Asking for it again lets a button live on: for as long as an id stays in
      the map, no approval up to the latest expiry it was registered with is
      turned down as unknown or expired. */
  lemma {:induction false} RegisteredLivesOn(states: seq<Held>, calls: seq<Call>, id: string, i: nat, j: nat)
    requires IsRun(states, calls)
    requires i < j < |calls| && HeldThrough(calls, id, i + 1, j + 1)
    requires calls[i].Register? && calls[i].id == id
    requires calls[j].Approve? && calls[j].id == id && calls[j].now <= calls[i].expiresAt
    ensures !Ends(calls[j]).Unknown? && !Ends(calls[j]).Expired?
  {
    assert states[i + 1] == After(calls[i]);
    StaysHeld(states, calls, id, i + 1, j);
    CallAt(states, calls, id, j);
    assert Pruned(states[j], calls[j].pruned, calls[j].now);
    assert calls[j].pruned[id] == Live(states[j], calls[j].now)[id];
  }

  lemma PrunesToLive(before: Held, after: Held, now: int)
    requires |after| <= 1
    requires forall k :: k in after <==> k in before && InWindow(before[k], now)
    requires forall k | k in after :: after[k] == before[k]
    ensures Pruned(before, after, now)
  {
    assert after == Live(before, now);
  }

  /** Registering on a map whose entries are all past their windows, and
      approving at once, writes. */
  lemma RegisterAndApprove(before: Held, id: string, approval: Approval, now: int, result: Applied)
    requires forall k | k in before :: !InWindow(before[k], now)
    ensures var held: Held := map[id := Pending(approval, now, None)];
            var approve := Approve(id, KindOf(approval), now, Some(result), held);
            && Steps(before, Register(id, approval, now, now, map[]), held)
            && Steps(held, approve, map[id := Pending(approval, now, Some(result))])
            && Writes(approve, id)
  {
    var held: Held := map[id := Pending(approval, now, None)];
    PrunesToLive(before, map[], now);
    PrunesToLive(held, held, now);
  }

  /** The same at the end of a run. */
  lemma WritesNext(states: seq<Held>, calls: seq<Call>, id: string, approval: Approval, now: int, result: Applied)
    returns (states': seq<Held>, calls': seq<Call>)
    requires IsRun(states, calls) && forall k | k in states[|calls|] :: !InWindow(states[|calls|][k], now)
    ensures IsRun(states', calls') && |calls'| == |calls| + 2 && calls <= calls' && states'[0] == states[0]
    ensures Writes(calls'[|calls| + 1], id)
    ensures states'[|calls| + 2] == map[id := Pending(approval, now, Some(result))]
  {
    var held: Held := map[id := Pending(approval, now, None)];
    var register, approve := Register(id, approval, now, now, map[]), Approve(id, KindOf(approval), now, Some(result), held);
    RegisterAndApprove(states[|calls|], id, approval, now, result);
    RunGrows(states, calls, register, held);
    RunGrows(states + [held], calls + [register], approve, map[id := Pending(approval, now, Some(result))]);
    states' := states + [held] + [map[id := Pending(approval, now, Some(result))]];
    calls' := calls + [register] + [approve];
  }

  /** Once forgotten, the same id registered again is written again: staying in
      the map is what the guarantee rests on. */
  lemma ForgottenIsWrittenAgain(id: string, approval: Approval, first: Applied, second: Applied)
    ensures exists states, calls ::
      IsRun(states, calls) && |calls| == 4 && states[0] == map[] && Writes(calls[1], id) && Writes(calls[3], id)
  {
    var states, calls := WritesNext([map[]], [], id, approval, 0, first);
    var states', calls' := WritesNext(states, calls, id, approval, KEEP_AFTER_EXPIRY, second);
    assert calls'[1] == calls[1];
  }

  /** While there is room an entry is kept for an hour past its expiry, and no
      longer; times are in milliseconds. */
  lemma KeptForAnHour(m: Held, id: string, now: int, after: Held)
    requires Pruned(m, after, now) && id in m && |m| < 500
    ensures id in after <==> now < m[id].expiresAt + 3_600_000
    ensures id in after ==> after[id] == m[id]
  {
    var live := Live(m, now);
    SubsetIsSmaller(live.Keys, m.Keys);
    if after != live {
      SubsetIsSame(after.Keys, live.Keys);
    }
  }

  // -------------------------------------------------------------------------
  // What pruning can forget
  // -------------------------------------------------------------------------

  lemma ForgetsOnlySoonest(m: Held, id: string, now: int, after: Held)
    requires id in m && |m| <= MAX_PENDING
    requires Pruned(m, after, now) && id !in after
    ensures !InWindow(m[id], now)
            || (|Live(m, now)| == MAX_PENDING && Soonest(m, Live(m, now).Keys, id))
  {
    var live := Live(m, now);
    SubsetIsSmaller(live.Keys, m.Keys);
    if InWindow(m[id], now) {
      assert id in live;
      assert after.Keys <= live.Keys - {id};
      SubsetIsSame(after.Keys, live.Keys - {id});
    }
  }

  /** Approving an id can lose that very id to the pruning it starts with, and
      exactly when its keep window is over, or the map is full of entries
      inside their windows and none of them expires before it. */
  lemma MayForget(m: Held, id: string, now: int)
    requires id in m && |m| <= MAX_PENDING
    ensures (exists after :: Pruned(m, after, now) && id !in after)
            <==> !InWindow(m[id], now)
                 || (|Live(m, now)| == MAX_PENDING && Soonest(m, Live(m, now).Keys, id))
  {
    if after :| Pruned(m, after, now) && id !in after {
      ForgetsOnlySoonest(m, id, now, after);
    }
    if !InWindow(m[id], now) {
      SomePruning(m, now);
    } else if |Live(m, now)| == MAX_PENDING && Soonest(m, Live(m, now).Keys, id) {
      EvictingIsPruning(m, id, now);
    }
  }

  /** Evicting one soonest-expiring entry from a full map is a pruning. */
  lemma EvictingIsPruning(m: Held, id: string, now: int)
    requires |Live(m, now)| == MAX_PENDING
    requires id in Live(m, now) && Soonest(m, Live(m, now).Keys, id)
    ensures Pruned(m, Live(m, now) - {id}, now)
  {
    var after := Live(m, now) - {id};
    assert after.Keys == Live(m, now).Keys - {id};
  }

  function Id(n: nat): (id: string)
    ensures |id| == n + 1
  {
    seq(n + 1, _ => 'a')
  }

  /** The map after `n` registrations at time 0, each to live a little longer. */
  function Filled(approval: Approval, n: nat): Held {
    if n == 0 then map[] else Filled(approval, n - 1)[Id(n - 1) := Pending(approval, n - 1, None)]
  }

  lemma {:induction false} FilledHolds(approval: Approval, n: nat)
    ensures forall k | k in Filled(approval, n) ::
              1 <= |k| <= n && Filled(approval, n)[k] == Pending(approval, |k| - 1, None)
    ensures n > 0 ==> Id(0) in Filled(approval, n)
    ensures |Filled(approval, n)| == n
  {
    if n > 0 {
      FilledHolds(approval, n - 1);
      assert Filled(approval, n).Keys == Filled(approval, n - 1).Keys + {Id(n - 1)};
    }
  }

  lemma FilledIsLive(approval: Approval, n: nat)
    ensures Live(Filled(approval, n), 0) == Filled(approval, n)
  {
    FilledHolds(approval, n);
  }

  lemma FillingStep(approval: Approval, n: nat)
    requires n < MAX_PENDING
    ensures Steps(Filled(approval, n), Register(Id(n), approval, n, 0, Filled(approval, n)), Filled(approval, n + 1))
  {
    FilledHolds(approval, n);
    FilledIsLive(approval, n);
  }

  lemma EvictingStep(approval: Approval, answer: Option<Applied>)
    ensures var full := Filled(approval, MAX_PENDING);
            var approve := Approve(Id(0), KindOf(approval), 0, answer, full - {Id(0)});
            Steps(full, approve, full - {Id(0)}) && Ends(approve).Unknown?
  {
    var full := Filled(approval, MAX_PENDING);
    FilledHolds(approval, MAX_PENDING);
    FilledIsLive(approval, MAX_PENDING);
    assert Soonest(full, full.Keys, Id(0));
    EvictingIsPruning(full, Id(0), 0);
  }

  function Filling(approval: Approval, n: nat): (calls: seq<Call>)
    ensures |calls| == n
  {
    if n == 0 then [] else Filling(approval, n - 1) + [Register(Id(n - 1), approval, n - 1, 0, Filled(approval, n - 1))]
  }

  lemma {:induction false} FillingRun(approval: Approval, n: nat) returns (states: seq<Held>)
    requires n <= MAX_PENDING
    ensures IsRun(states, Filling(approval, n)) && states[0] == map[] && states[n] == Filled(approval, n)
  {
    if n == 0 {
      states := [map[]];
    } else {
      var register := Register(Id(n - 1), approval, n - 1, 0, Filled(approval, n - 1));
      states := FillingRun(approval, n - 1);
      FillingStep(approval, n - 1);
      RunGrows(states, Filling(approval, n - 1), register, Filled(approval, n));
      states := states + [Filled(approval, n)];
    }
  }

  /** A run that loses an id to the pruning of its own approval: the map is full
      of live entries, it expires the soonest, and it is asked for in time. */
  lemma FullMapForgets(approval: Approval, answer: Option<Applied>)
    ensures var last := Approve(Id(0), KindOf(approval), 0, answer, Filled(approval, MAX_PENDING) - {Id(0)});
            && (exists states :: IsRun(states, Filling(approval, MAX_PENDING) + [last]) && states[0] == map[])
            && Ends(last).Unknown?
  {
    var left := Filled(approval, MAX_PENDING) - {Id(0)};
    var last := Approve(Id(0), KindOf(approval), 0, answer, left);
    EvictingStep(approval, answer);
    var states := FillingRun(approval, MAX_PENDING);
    RunGrows(states, Filling(approval, MAX_PENDING), last, left);
    assert (states + [left])[0] == map[];
  }

  lemma SubsetIsSmaller<T>(a: set<T>, b: set<T>)
    requires a <= b
    ensures |a| <= |b|
  {
    assert b == a + (b - a);
  }

  lemma SubsetIsSame<T>(a: set<T>, b: set<T>)
    requires a <= b && |a| >= |b|
    ensures a == b
  {
    assert b == a + (b - a);
  }

  lemma SomePruning(m: Held, now: int)
    requires |m| <= MAX_PENDING
    ensures exists after :: Pruned(m, after, now)
  {
    var live := Live(m, now);
    SubsetIsSmaller(live.Keys, m.Keys);
    if |live| < MAX_PENDING {
      assert Pruned(m, live, now);
    } else {
      SoonestAmong(m, live.Keys);
      var first :| first in live.Keys && Soonest(m, live.Keys, first);
      EvictingIsPruning(m, first, now);
    }
  }
}
