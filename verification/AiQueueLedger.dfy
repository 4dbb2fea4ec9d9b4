// A ledger beside the AI pass queue: each entry also remembers when it was
// first queued, what was pushed for it, and every start and give-back. Erasing
// the ledger gives back the queue itself, so what holds of every ledger holds
// of every run.
module AiQueueLedger {
  import opened Wrappers
  import opened AiQueue
  import opened AiQueueRuns

  /** `ticket`: the order of first queueing. `entered`: the attempts it came with. */
  datatype Entry = Entry(job: Job, ticket: nat, pushed: seq<Kind>, entered: u32, starts: nat, givebacks: nat)

  datatype Ledger = Ledger(
    pending: seq<Entry>,
    running: Option<(Entry, bool)>,
    halted: bool,
    held: seq<Entry>,
    nextTicket: nat,
    started: seq<nat>) // the tickets of the passes started, in order

  function Jobs(entries: seq<Entry>): (jobs: seq<Job>)
    ensures |jobs| == |entries| && forall i | 0 <= i < |jobs| :: jobs[i] == entries[i].job
  {
    seq(|entries|, i requires 0 <= i < |entries| => entries[i].job)
  }

  function Erase(l: Ledger): State {
    State(Jobs(l.pending),
          if l.running.Some? then Some(Pass(l.running.value.0.job, l.running.value.1)) else None,
          l.halted, Jobs(l.held))
  }

  // -------------------------------------------------------------------------
  // The operations, keeping the ledger
  // -------------------------------------------------------------------------

  function WithPush(e: Entry, kind: Kind): Entry {
    e.(job := e.job.(kind := Fuller(e.job.kind, kind)), pushed := e.pushed + [kind])
  }

  function WithStart(e: Entry): Entry {
    e.(job := e.job.(attempts := SaturatingInc(e.job.attempts)), starts := e.starts + 1)
  }

  function WithReturn(e: Entry): Entry {
    e.(job := e.job.(attempts := SaturatingDec(e.job.attempts)), givebacks := e.givebacks + 1)
  }

  function EntriesWithout(entries: seq<Entry>, id: string): seq<Entry> {
    if entries == [] then []
    else if entries[0].job.meetingId == id then EntriesWithout(entries[1..], id)
    else [entries[0]] + EntriesWithout(entries[1..], id)
  }

  function EntriesAhead(front: seq<Entry>, queue: seq<Entry>): seq<Entry> {
    if front == [] then queue
    else
      var rest := EntriesAhead(front[1..], queue);
      if Has(Jobs(rest), front[0].job.meetingId) then rest else [front[0]] + rest
  }

  function HeldEntries(l: Ledger): seq<Entry> {
    (if l.running.Some? then [WithReturn(l.running.value.0)] else []) + l.pending
  }

  function Record(l: Ledger, op: Op): Ledger {
    match op
    case Push(job) =>
      if l.halted then l
      else
        var i := IndexOf(Jobs(l.pending), job.meetingId);
        if i < |l.pending| then l.(pending := l.pending[i := WithPush(l.pending[i], job.kind)])
        else l.(pending := l.pending + [Entry(job, l.nextTicket, [job.kind], job.attempts, 0, 0)], nextTicket := l.nextTicket + 1)
    case Next =>
      if l.halted || l.pending == [] then l
      else
        l.(pending := l.pending[1..], running := Some((WithStart(l.pending[0]), false)),
           started := l.started + [l.pending[0].ticket])
    case Finish => l.(running := None)
    case RemovePending(id) => l.(pending := EntriesWithout(l.pending, id))
    case CancelRunning(id) =>
      if l.running.Some? && l.running.value.0.job.meetingId == id then l.(running := Some((l.running.value.0, true))) else l
    case Halt =>
      var l' := if l.halted then l else l.(halted := true, pending := [], held := l.held + HeldEntries(l));
      if l.running.Some? then l'.(running := Some((l.running.value.0, true))) else l'
    case Resume => l.(halted := false, held := [], pending := EntriesAhead(l.held, l.pending))
    case DiscardHeld => l.(held := [])
  }

  function RecordAll(l: Ledger, ops: seq<Op>): Ledger
    decreases |ops|
  {
    if ops == [] then l else RecordAll(Record(l, ops[0]), ops[1..])
  }

  const EMPTY: Ledger := Ledger([], None, false, [], 0, [])

  // -------------------------------------------------------------------------
  // The ledger never changes what the queue does
  // -------------------------------------------------------------------------

  lemma {:induction false} EraseWithout(entries: seq<Entry>, id: string)
    ensures Jobs(EntriesWithout(entries, id)) == Without(Jobs(entries), id)
  {
    if entries != [] {
      EraseWithout(entries[1..], id);
      assert Jobs(entries)[1..] == Jobs(entries[1..]);
    }
  }

  lemma {:induction false} EraseAhead(front: seq<Entry>, queue: seq<Entry>)
    ensures Jobs(EntriesAhead(front, queue)) == Ahead(Jobs(front), Jobs(queue))
  {
    if front != [] {
      EraseAhead(front[1..], queue);
      assert Jobs(front)[1..] == Jobs(front[1..]);
    }
  }

  lemma ErasePush(l: Ledger, job: Job)
    ensures Erase(Record(l, Push(job))) == Pushed(Erase(l), job)
  {
    var i := IndexOf(Jobs(l.pending), job.meetingId);
    if !l.halted && i < |l.pending| {
      assert Jobs(l.pending[i := WithPush(l.pending[i], job.kind)])
          == Jobs(l.pending)[i := WithPush(l.pending[i], job.kind).job];
    } else if !l.halted {
      var e := Entry(job, l.nextTicket, [job.kind], job.attempts, 0, 0);
      assert Jobs(l.pending + [e]) == Jobs(l.pending) + [job];
    }
  }

  lemma EraseHalt(l: Ledger)
    ensures Erase(Record(l, Halt)) == Halted(Erase(l))
  {
    assert Jobs(HeldEntries(l)) == HeldBy(Erase(l));
    assert Jobs(l.held + HeldEntries(l)) == Jobs(l.held) + Jobs(HeldEntries(l));
    assert Jobs([]) == [];
  }

  lemma EraseNext(l: Ledger)
    ensures Erase(Record(l, Next)) == Started(Erase(l))
  {
    if l.pending != [] {
      assert Jobs(l.pending)[1..] == Jobs(l.pending[1..]);
    }
  }

  lemma EraseRecord(l: Ledger, op: Op)
    ensures Erase(Record(l, op)) == Apply(Erase(l), op)
  {
    match op
    case Push(job) => ErasePush(l, job);
    case Next => EraseNext(l);
    case RemovePending(id) => EraseWithout(l.pending, id);
    case Halt => EraseHalt(l);
    case Resume =>
      EraseAhead(l.held, l.pending);
      assert Jobs([]) == [];
    case DiscardHeld => assert Jobs([]) == [];
    case Finish =>
    case CancelRunning(_) =>
  }

  /** Every run of the queue is the erasure of a run of the ledger. */
  lemma {:induction false} EraseRun(l: Ledger, ops: seq<Op>)
    ensures Erase(RecordAll(l, ops)) == Run(Erase(l), ops)
    decreases |ops|
  {
    if ops != [] {
      EraseRecord(l, ops[0]);
      EraseRun(Record(l, ops[0]), ops[1..]);
    }
  }

  // -------------------------------------------------------------------------
  // What each entry's account says
  // -------------------------------------------------------------------------

  ghost predicate HighestPushed(kind: Kind, pushed: seq<Kind>) {
    kind in pushed && forall k | k in pushed :: Rank(k) <= Rank(kind)
  }

  /** Its kind is the highest-ranked one pushed for it since it was queued, and,
      below saturation, its attempts are those it entered with plus its starts
      minus the starts given back. */
  ghost predicate Balanced(e: Entry) {
    && HighestPushed(e.job.kind, e.pushed)
    && e.givebacks <= e.starts
    && (e.entered + e.starts <= U32_MAX ==> e.job.attempts + e.givebacks == e.entered + e.starts)
  }

  lemma PushBalances(e: Entry, kind: Kind)
    requires Balanced(e)
    ensures Balanced(WithPush(e, kind))
  {
    assert (e.pushed + [kind])[|e.pushed|] == kind;
    assert forall k | k in e.pushed :: k in e.pushed + [kind];
  }

  /** An entry with a start still to give back has an attempt to give back. */
  lemma ReturnBalances(e: Entry)
    requires Balanced(e) && e.givebacks < e.starts
    ensures Balanced(WithReturn(e))
  {
  }

  // -------------------------------------------------------------------------
  // First queued, first started
  // -------------------------------------------------------------------------

  ghost predicate Ordered(entries: seq<Entry>) {
    forall i, j | 0 <= i < j < |entries| ::
      entries[i].ticket < entries[j].ticket
      || (entries[i].ticket == entries[j].ticket && entries[i].job.meetingId == entries[j].job.meetingId)
  }

  ghost predicate StrictlyOrdered(entries: seq<Entry>) {
    forall i, j | 0 <= i < j < |entries| :: entries[i].ticket < entries[j].ticket
  }

  ghost predicate Within(entries: seq<Entry>, low: nat, high: nat) {
    forall i | 0 <= i < |entries| :: low <= entries[i].ticket < high
  }

  ghost predicate NonDecreasing(tickets: seq<nat>) {
    forall i, j | 0 <= i < j < |tickets| :: tickets[i] <= tickets[j]
  }

  function LastStarted(l: Ledger): nat {
    if l.started == [] then 0 else l.started[|l.started| - 1]
  }

  ghost predicate AllBalanced(entries: seq<Entry>) {
    forall i | 0 <= i < |entries| :: Balanced(entries[i])
  }

  ghost predicate SameMeeting(entries: seq<Entry>, r: Entry) {
    forall i | 0 <= i < |entries| && entries[i].ticket == r.ticket :: entries[i].job.meetingId == r.job.meetingId
  }

  ghost predicate Accounts(l: Ledger) {
    && AllBalanced(l.pending) && AllBalanced(l.held)
    && (l.running.Some? ==> Balanced(l.running.value.0) && l.running.value.0.givebacks < l.running.value.0.starts)
  }

  ghost predicate Tickets(l: Ledger) {
    && StrictlyOrdered(l.pending) && Ordered(l.held)
    && Within(l.pending, LastStarted(l), l.nextTicket) && Within(l.held, LastStarted(l), l.nextTicket)
    && NonDecreasing(l.started) && LastStarted(l) <= l.nextTicket
    && (l.running.Some? ==>
          && l.started != [] && l.running.value.0.ticket == LastStarted(l) && LastStarted(l) < l.nextTicket
          && SameMeeting(l.pending, l.running.value.0) && SameMeeting(l.held, l.running.value.0))
  }

  ghost predicate LedgerInv(l: Ledger) {
    Inv(Erase(l)) && Accounts(l) && Tickets(l)
  }

  lemma {:induction false} WithoutIsSubsequence(entries: seq<Entry>, id: string)
    ensures forall e | e in EntriesWithout(entries, id) :: e in entries
    ensures StrictlyOrdered(entries) ==> StrictlyOrdered(EntriesWithout(entries, id))
  {
    if entries != [] {
      var rest := EntriesWithout(entries[1..], id);
      WithoutIsSubsequence(entries[1..], id);
      if StrictlyOrdered(entries) {
        TailIsOrdered(entries);
        PrependOrdered(entries[0], entries[1..], rest);
      }
    }
  }

  lemma TailIsOrdered(entries: seq<Entry>)
    requires entries != []
    ensures StrictlyOrdered(entries) ==> StrictlyOrdered(entries[1..])
    ensures Ordered(entries) ==> Ordered(entries[1..])
  {
    var rest := entries[1..];
    assert forall i | 0 <= i < |rest| :: rest[i] == entries[i + 1];
    forall i, j | 0 <= i < j < |rest|
      ensures StrictlyOrdered(entries) ==> rest[i].ticket < rest[j].ticket
      ensures Ordered(entries) ==> rest[i].ticket < rest[j].ticket
                                   || (rest[i].ticket == rest[j].ticket && rest[i].job.meetingId == rest[j].job.meetingId)
    {
      assert rest[i] == entries[i + 1] && rest[j] == entries[j + 1];
    }
  }

  lemma PrependOrdered(e: Entry, all: seq<Entry>, some: seq<Entry>)
    requires StrictlyOrdered([e] + all) && StrictlyOrdered(some) && forall x | x in some :: x in all
    ensures StrictlyOrdered([e] + some)
  {
    forall x | x in all
      ensures e.ticket < x.ticket
    {
      var k :| 0 <= k < |all| && all[k] == x;
      assert ([e] + all)[0] == e && ([e] + all)[k + 1] == x;
    }
  }

  lemma PrependStrictly(e: Entry, entries: seq<Entry>)
    requires StrictlyOrdered(entries) && forall i | 0 <= i < |entries| :: e.ticket < entries[i].ticket
    ensures StrictlyOrdered([e] + entries)
  {
    var all := [e] + entries;
    forall i, j | 0 <= i < j < |all|
      ensures all[i].ticket < all[j].ticket
    {
      assert all[j] == entries[j - 1];
      if i > 0 {
        assert all[i] == entries[i - 1];
      }
    }
  }

  /** An entry of another meeting, ordered after `front[0]`, came strictly later. */
  lemma LaterIsStrict(front: seq<Entry>, e: Entry)
    requires Ordered(front) && front != [] && e in front[1..] && e.job.meetingId != front[0].job.meetingId
    ensures front[0].ticket < e.ticket
  {
    var k :| 0 <= k < |front[1..]| && front[1..][k] == e;
    assert front[k + 1] == e;
  }

  lemma {:induction false} AheadIsOrdered(front: seq<Entry>)
    requires Ordered(front)
    ensures StrictlyOrdered(EntriesAhead(front, []))
    ensures forall e | e in EntriesAhead(front, []) :: e in front
  {
    if front != [] {
      TailIsOrdered(front);
      AheadIsOrdered(front[1..]);
      var rest := EntriesAhead(front[1..], []);
      if !Has(Jobs(rest), front[0].job.meetingId) {
        forall i | 0 <= i < |rest|
          ensures front[0].ticket < rest[i].ticket
        {
          assert Jobs(rest)[i].meetingId != front[0].job.meetingId;
          assert rest[i] in rest;
          LaterIsStrict(front, rest[i]);
        }
        PrependStrictly(front[0], rest);
      }
    }
  }

  /** What every entry of a list satisfies, some of them satisfy. */
  lemma SomeKeep(some: seq<Entry>, all: seq<Entry>, low: nat, high: nat, r: Entry)
    requires forall e | e in some :: e in all
    ensures AllBalanced(all) ==> AllBalanced(some)
    ensures Within(all, low, high) ==> Within(some, low, high)
    ensures SameMeeting(all, r) ==> SameMeeting(some, r)
  {
    forall i | 0 <= i < |some|
      ensures exists k :: 0 <= k < |all| && all[k] == some[i]
    {
      assert some[i] in all;
    }
  }

  lemma UpgradeKeeps(entries: seq<Entry>, i: nat, kind: Kind, low: nat, high: nat, r: Entry)
    requires i < |entries|
    ensures var entries' := entries[i := WithPush(entries[i], kind)];
            && (AllBalanced(entries) ==> AllBalanced(entries'))
            && (StrictlyOrdered(entries) ==> StrictlyOrdered(entries'))
            && (Within(entries, low, high) ==> Within(entries', low, high))
            && (SameMeeting(entries, r) ==> SameMeeting(entries', r))
  {
    if AllBalanced(entries) {
      PushBalances(entries[i], kind);
    }
  }

  lemma AppendKeeps(entries: seq<Entry>, e: Entry, low: nat, r: Entry)
    requires low <= e.ticket && r.ticket < e.ticket
    ensures var entries' := entries + [e];
            && (AllBalanced(entries) && Balanced(e) ==> AllBalanced(entries'))
            && (StrictlyOrdered(entries) && Within(entries, low, e.ticket) ==> StrictlyOrdered(entries'))
            && (Within(entries, low, e.ticket) ==> Within(entries', low, e.ticket + 1))
            && (SameMeeting(entries, r) ==> SameMeeting(entries', r))
  {
  }

  lemma PrependKeeps(e: Entry, entries: seq<Entry>, high: nat)
    requires StrictlyOrdered(entries) && Within(entries, e.ticket, high) && SameMeeting(entries, e)
    ensures Ordered([e] + entries)
  {
    var all := [e] + entries;
    forall i, j | 0 <= i < j < |all|
      ensures all[i].ticket < all[j].ticket
              || (all[i].ticket == all[j].ticket && all[i].job.meetingId == all[j].job.meetingId)
    {
      assert all[j] == entries[j - 1];
      if i > 0 {
        assert all[i] == entries[i - 1];
      }
    }
  }

  /** The entry running, or one whose ticket nothing else can have. */
  ghost function Runner(l: Ledger, other: Entry): Entry {
    if l.running.Some? then l.running.value.0 else other
  }

  lemma PushKeepsLedger(l: Ledger, job: Job)
    requires LedgerInv(l)
    ensures Accounts(Record(l, Push(job))) && Tickets(Record(l, Push(job)))
  {
    var i := IndexOf(Jobs(l.pending), job.meetingId);
    if !l.halted && i < |l.pending| {
      UpgradeKeeps(l.pending, i, job.kind, LastStarted(l), l.nextTicket, Runner(l, l.pending[i]));
    } else if !l.halted {
      assert Jobs(l.held) == [];
      var e := Entry(job, l.nextTicket, [job.kind], job.attempts, 0, 0);
      if l.running.Some? {
        AppendKeeps(l.pending, e, LastStarted(l), l.running.value.0);
      } else {
        FirstTickets(l, e);
      }
    }
  }

  lemma FirstTickets(l: Ledger, e: Entry)
    requires LedgerInv(l) && e.ticket == l.nextTicket && Balanced(e) && LastStarted(l) <= l.nextTicket
    ensures AllBalanced(l.pending + [e]) && StrictlyOrdered(l.pending + [e])
    ensures Within(l.pending + [e], LastStarted(l), l.nextTicket + 1)
  {
  }

  lemma NextKeepsLedger(l: Ledger)
    requires LedgerInv(l)
    ensures Accounts(Record(l, Next)) && Tickets(Record(l, Next))
  {
    if !l.halted && l.pending != [] {
      assert Jobs(l.held) == [];
      TailIsOrdered(l.pending);
      var rest := l.pending[1..];
      assert forall k | 0 <= k < |rest| :: rest[k] == l.pending[k + 1];
      StartBalances(l.pending[0]);
    }
  }

  lemma StartBalances(e: Entry)
    requires Balanced(e)
    ensures Balanced(WithStart(e)) && WithStart(e).givebacks < WithStart(e).starts
  {
  }

  /** What a halt holds, in order and in account. */
  lemma HeldIsKept(l: Ledger)
    requires LedgerInv(l)
    ensures AllBalanced(HeldEntries(l)) && Ordered(HeldEntries(l))
    ensures Within(HeldEntries(l), LastStarted(l), l.nextTicket)
    ensures l.running.Some? ==> SameMeeting(HeldEntries(l), l.running.value.0)
  {
    if l.running.Some? {
      var back := WithReturn(l.running.value.0);
      ReturnBalances(l.running.value.0);
      PrependKeeps(back, l.pending, l.nextTicket);
      assert HeldEntries(l) == [back] + l.pending;
      assert forall k | 0 < k < |HeldEntries(l)| :: HeldEntries(l)[k] == l.pending[k - 1];
    } else {
      assert HeldEntries(l) == l.pending;
    }
  }

  lemma HeldReplaces(l: Ledger, l': Ledger)
    requires Tickets(l) && Accounts(l)
    requires l'.pending == [] && l'.started == l.started && l'.nextTicket == l.nextTicket
    requires l.running.None? ==> l'.running.None?
    requires l.running.Some? ==> l'.running.Some? && l'.running.value.0 == l.running.value.0
    requires AllBalanced(l'.held) && Ordered(l'.held) && Within(l'.held, LastStarted(l), l.nextTicket)
    requires l.running.Some? ==> SameMeeting(l'.held, l.running.value.0)
    ensures Accounts(l') && Tickets(l')
  {
  }

  lemma HaltKeepsLedger(l: Ledger)
    requires LedgerInv(l)
    ensures Accounts(Record(l, Halt)) && Tickets(Record(l, Halt))
  {
    if !l.halted {
      assert Jobs(l.held) == [];
      HeldIsKept(l);
      assert l.held + HeldEntries(l) == HeldEntries(l);
    } else {
      assert Jobs(l.pending) == [];
    }
    HeldReplaces(l, Record(l, Halt));
  }

  lemma ResumeKeepsLedger(l: Ledger)
    requires LedgerInv(l)
    ensures Accounts(Record(l, Resume)) && Tickets(Record(l, Resume))
  {
    if l.halted {
      assert Jobs(l.pending) == [];
      assert l.pending == [];
      AheadIsOrdered(l.held);
      if l.held != [] {
        SomeKeep(EntriesAhead(l.held, []), l.held, LastStarted(l), l.nextTicket, Runner(l, l.held[0]));
      }
    } else {
      assert Jobs(l.held) == [];
    }
  }

  lemma RemoveKeepsLedger(l: Ledger, id: string)
    requires LedgerInv(l)
    ensures Accounts(Record(l, RemovePending(id))) && Tickets(Record(l, RemovePending(id)))
  {
    WithoutIsSubsequence(l.pending, id);
    if l.pending != [] {
      SomeKeep(EntriesWithout(l.pending, id), l.pending, LastStarted(l), l.nextTicket, Runner(l, l.pending[0]));
    }
  }

  lemma RecordKeepsLedger(l: Ledger, op: Op)
    requires LedgerInv(l)
    ensures LedgerInv(Record(l, op))
  {
    EraseRecord(l, op);
    ApplyKeepsInv(Erase(l), op);
    match op
    case Push(job) => PushKeepsLedger(l, job);
    case Next => NextKeepsLedger(l);
    case RemovePending(id) => RemoveKeepsLedger(l, id);
    case Halt => HaltKeepsLedger(l);
    case Resume => ResumeKeepsLedger(l);
    case Finish =>
    case CancelRunning(_) =>
    case DiscardHeld =>
  }

  lemma {:induction false} RunKeepsLedger(l: Ledger, ops: seq<Op>)
    requires LedgerInv(l)
    ensures LedgerInv(RecordAll(l, ops))
    decreases |ops|
  {
    if ops != [] {
      RecordKeepsLedger(l, ops[0]);
      RunKeepsLedger(Record(l, ops[0]), ops[1..]);
    }
  }

  /** Over any run from an empty queue: passes start in the order their
      meetings were first queued, and every entry's account balances. */
  lemma WholeRunAccounting(ops: seq<Op>)
    ensures var l := RecordAll(EMPTY, ops);
            && Erase(l) == Run(State([], None, false, []), ops)
            && NonDecreasing(l.started)
            && StrictlyOrdered(l.pending)
            && (forall e | e in l.pending :: Balanced(e) && LastStarted(l) <= e.ticket)
            && (l.running.Some? ==> Balanced(l.running.value.0) && l.running.value.0.ticket == LastStarted(l))
  {
    assert Erase(EMPTY) == State([], None, false, []);
    RunKeepsLedger(EMPTY, ops);
    EraseRun(EMPTY, ops);
    var l := RecordAll(EMPTY, ops);
  }
}
