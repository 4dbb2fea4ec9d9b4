// Deleting notes behind an Undo toast: a note is hidden at once, its delete
// waits until the toast runs out or is closed, and undo, a later delete, the
// window closing and failing commands may all come in between.
module NoteDeletion {
  import opened Wrappers
  import Runs

  const UNDO_DELETE_MS: nat := 8000

  type NoteId = string

  datatype Item = Item(id: NoteId, title: string)

  /** A waiting delete, and when it was asked for. */
  datatype Waiting = Waiting(item: Item, at: nat)

  /** How far a delete command is: removing the note, reading the list again,
      through, or failed in one of the two. */
  datatype Stage = Removing | Refreshing | Landed | Failed

  datatype Commit = Commit(item: Item, stage: Stage)

  /** `pending`, `timer` (when it fires) and `hidden` are the hooks' own;
      `commits` are the delete commands begun; `now` only grows; `scheduled`,
      `undone` and `deleted` record what was asked for, taken back and removed
      from storage. */
  datatype Deletions = Deletions(
    pending: seq<Waiting>, timer: Option<nat>, hidden: set<NoteId>, mounted: bool,
    commits: seq<Commit>,
    now: nat, scheduled: seq<Item>, undone: seq<Item>, deleted: set<NoteId>)

  datatype Op =
    | Request(item: Item)
    | Undo
    | Flush // the toast is closed
    | Fire  // its timer ran out
    | Unmount
    | Settle(commit: nat, ok: bool) // a command's next promise
    | Tick(ms: nat)

  function Fresh(): Deletions {
    Deletions([], None, {}, true, [], 0, [], [], {})
  }

  function Items(waiting: seq<Waiting>): (r: seq<Item>)
    ensures |r| == |waiting| && forall i | 0 <= i < |r| :: r[i] == waiting[i].item
  {
    seq(|waiting|, i requires 0 <= i < |waiting| => waiting[i].item)
  }

  function Ids(items: seq<Item>): set<NoteId> {
    set x | x in items :: x.id
  }

  function Begun(items: seq<Item>): (r: seq<Commit>)
    ensures |r| == |items| && forall i | 0 <= i < |r| :: r[i] == Commit(items[i], Removing)
  {
    seq(|items|, i requires 0 <= i < |items| => Commit(items[i], Removing))
  }

  predicate Enabled(s: Deletions, op: Op) {
    match op
    case Request(_) => s.mounted
    case Undo => s.mounted
    case Flush => s.mounted
    case Fire => s.timer.Some? && s.timer.value <= s.now
    case Unmount => s.mounted
    case Settle(k, _) => k < |s.commits| && (s.commits[k].stage.Removing? || s.commits[k].stage.Refreshing?)
    case Tick(_) => true
  }

  function RunPending(s: Deletions): Deletions {
    s.(pending := [], timer := None, commits := s.commits + Begun(Items(s.pending)))
  }

  function Settled(s: Deletions, k: nat, ok: bool): Deletions
    requires Enabled(s, Settle(k, ok))
  {
    var c := s.commits[k];
    if !ok then s.(commits := s.commits[k := c.(stage := Failed)], hidden := s.hidden - {c.item.id})
    else if c.stage.Removing? then
      s.(commits := s.commits[k := c.(stage := Refreshing)], deleted := s.deleted + {c.item.id})
    else s.(commits := s.commits[k := c.(stage := Landed)])
  }

  function Apply(s: Deletions, op: Op): Deletions
    requires Enabled(s, op)
  {
    match op
    case Request(item) =>
      s.(hidden := s.hidden + {item.id}, timer := Some(s.now + UNDO_DELETE_MS),
         pending := s.pending + [Waiting(item, s.now)], scheduled := s.scheduled + [item])
    case Undo =>
      s.(pending := [], timer := None, hidden := s.hidden - Ids(Items(s.pending)),
         undone := s.undone + Items(s.pending))
    case Flush => RunPending(s)
    case Fire => RunPending(s)
    case Unmount => s.(mounted := false, timer := None)
    case Settle(k, ok) => Settled(s, k, ok)
    case Tick(ms) => s.(now := s.now + ms)
  }

  // -------------------------------------------------------------------------
  // One fate each, and the full time to undo
  // -------------------------------------------------------------------------

  function Committed(commits: seq<Commit>): (r: seq<Item>)
    ensures |r| == |commits| && forall i | 0 <= i < |r| :: r[i] == commits[i].item
  {
    seq(|commits|, i requires 0 <= i < |commits| => commits[i].item)
  }

  /** Every scheduled delete is waiting, or was begun once, or was undone. */
  ghost predicate Balanced(s: Deletions) {
    multiset(s.scheduled) == multiset(Items(s.pending)) + multiset(Committed(s.commits)) + multiset(s.undone)
  }

  /** While the window is there the timer runs exactly when a delete waits, and
      fires the full time after the last one that does. */
  ghost predicate Timed(s: Deletions) {
    && (forall i | 0 <= i < |s.pending| :: s.pending[i].at <= s.now)
    && (forall i, j | 0 <= i <= j < |s.pending| :: s.pending[i].at <= s.pending[j].at)
    && s.timer == (if s.mounted && s.pending != [] then Some(s.pending[|s.pending| - 1].at + UNDO_DELETE_MS) else None)
  }

  lemma RunPendingKeepsBalance(s: Deletions)
    requires Balanced(s)
    ensures Balanced(RunPending(s))
  {
    assert Items(RunPending(s).pending) == [];
    assert Committed(RunPending(s).commits) == Committed(s.commits) + Items(s.pending);
  }

  lemma ApplyKeepsBalance(s: Deletions, op: Op)
    requires Balanced(s) && Enabled(s, op)
    ensures Balanced(Apply(s, op))
  {
    var s' := Apply(s, op);
    match op
    case Request(item) =>
      assert Items(s'.pending) == Items(s.pending) + [item];
    case Undo =>
      assert Items(s'.pending) == [];
    case Settle(k, ok) =>
      assert Committed(s'.commits) == Committed(s.commits);
    case Tick(_) =>
    case Unmount =>
    case _ => RunPendingKeepsBalance(s);
  }

  lemma ApplyKeepsTimed(s: Deletions, op: Op)
    requires Timed(s) && Enabled(s, op)
    ensures Timed(Apply(s, op))
  {
  }

  function Next(s: Deletions, op: Op): Option<Deletions> {
    if Enabled(s, op) then Some(Apply(s, op)) else None
  }

  ghost predicate Inv(s: Deletions) {
    Balanced(s) && Timed(s)
  }

  lemma RunKeepsInv(ops: seq<Op>, s: Deletions)
    requires Runs.IsRun(Next, Fresh(), ops, s)
    ensures Balanced(s) && Timed(s)
  {
    forall a, op | Inv(a) && Next(a, op).Some?
      ensures Inv(Next(a, op).value)
    {
      ApplyKeepsBalance(a, op);
      ApplyKeepsTimed(a, op);
    }
    Runs.RunKeeps(Next, Inv, Fresh(), ops, s);
  }

  /** In every run, a scheduled delete of a note asked for once has exactly one
      fate: it waits, was begun, or was undone. */
  lemma {:induction false} OneFateEach(ops: seq<Op>, s: Deletions, item: Item)
    requires Runs.IsRun(Next, Fresh(), ops, s)
    requires multiset(s.scheduled)[item] == 1
    ensures multiset(Items(s.pending))[item] + multiset(Committed(s.commits))[item] + multiset(s.undone)[item] == 1
  {
    RunKeepsInv(ops, s);
  }

  /** The timer begins a delete only after the full time to undo it, begins
      every one that waits, and only while the window is there; and it fires
      once the full time since the last request is over. */
  lemma TimerWaitsForEach(ops: seq<Op>, s: Deletions)
    requires Runs.IsRun(Next, Fresh(), ops, s)
    ensures Enabled(s, Fire) ==>
              && s.mounted
              && (forall w | w in s.pending :: w.at + UNDO_DELETE_MS <= s.now)
              && Committed(Apply(s, Fire).commits) == Committed(s.commits) + Items(s.pending)
    ensures Enabled(s, Fire) <==>
              s.mounted && s.pending != [] && s.pending[|s.pending| - 1].at + UNDO_DELETE_MS <= s.now
  {
    RunKeepsInv(ops, s);
  }

  /** After the window closed nothing more is begun or undone. */
  lemma {:induction false} ClosingBeginsNothing(s: Deletions, ops: seq<Op>, s': Deletions)
    requires !s.mounted && s.timer.None? && Runs.IsRun(Next, s, ops, s')
    ensures Committed(s'.commits) == Committed(s.commits) && s'.pending == s.pending && s'.undone == s.undone
    decreases |ops|
  {
    if ops != [] {
      assert Committed(Apply(s, ops[0]).commits) == Committed(s.commits);
      ClosingBeginsNothing(Apply(s, ops[0]), ops[1..], s');
    }
  }

  // -------------------------------------------------------------------------
  // What a run asked for
  // -------------------------------------------------------------------------

  /** What was asked for since the waiting deletes were last undone or begun. */
  function WaitingIn(ops: seq<Op>): seq<Item>
    decreases |ops|
  {
    if ops == [] then []
    else
      var before := WaitingIn(ops[..|ops| - 1]);
      match ops[|ops| - 1]
      case Request(item) => before + [item]
      case Undo => []
      case Flush => []
      case Fire => []
      case _ => before
  }

  function AskedIn(ops: seq<Op>): seq<Item>
    decreases |ops|
  {
    if ops == [] then []
    else AskedIn(ops[..|ops| - 1]) + if ops[|ops| - 1].Request? then [ops[|ops| - 1].item] else []
  }

  /** All that waited when it was undone. */
  function UndoneIn(ops: seq<Op>): seq<Item>
    decreases |ops|
  {
    if ops == [] then []
    else UndoneIn(ops[..|ops| - 1]) + if ops[|ops| - 1].Undo? then WaitingIn(ops[..|ops| - 1]) else []
  }

  /** All that waited when the toast was closed or ran out. */
  function BegunIn(ops: seq<Op>): seq<Item>
    decreases |ops|
  {
    if ops == [] then []
    else BegunIn(ops[..|ops| - 1]) + if ops[|ops| - 1].Flush? || ops[|ops| - 1].Fire? then WaitingIn(ops[..|ops| - 1]) else []
  }

  function TimeIn(ops: seq<Op>): nat
    decreases |ops|
  {
    if ops == [] then 0 else TimeIn(ops[..|ops| - 1]) + if ops[|ops| - 1].Tick? then ops[|ops| - 1].ms else 0
  }

  /** What waits, was undone and was begun is what the run did, in order. */
  lemma {:induction false} DeletionsFollowTheRun(ops: seq<Op>, s: Deletions)
    requires Runs.IsRun(Next, Fresh(), ops, s)
    ensures Items(s.pending) == WaitingIn(ops) && s.scheduled == AskedIn(ops)
    ensures s.undone == UndoneIn(ops) && Committed(s.commits) == BegunIn(ops)
    ensures (s.mounted <==> Unmount !in ops) && s.now == TimeIn(ops)
    decreases |ops|
  {
    if ops != [] {
      var n := |ops| - 1;
      var mid := Runs.RunSplits(Next, Fresh(), ops, s);
      DeletionsFollowTheRun(ops[..n], mid);
      assert ops == ops[..n] + [ops[n]];
      match ops[n] {
        case Request(item) => assert Items(s.pending) == Items(mid.pending) + [item];
        case Undo => assert Items(s.pending) == [];
        case Settle(k, ok) => assert Committed(s.commits) == Committed(mid.commits);
        case Tick(_) =>
        case Unmount =>
        case _ =>
          assert Items(s.pending) == [];
          assert Committed(s.commits) == Committed(mid.commits) + Items(mid.pending);
      }
    }
  }

  /** A command is where its promises brought it: failed by the one that failed,
      else as far as those that went through. */
  lemma {:induction false} StagesFollowTheRun(ops: seq<Op>, s: Deletions, k: nat)
    requires Runs.IsRun(Next, Fresh(), ops, s)
    ensures k < |s.commits| ==>
              && (s.commits[k].stage.Failed? <==> Settle(k, false) in ops)
              && (Settle(k, false) !in ops ==>
                    s.commits[k].stage == match multiset(ops)[Settle(k, true)] case 0 => Removing case 1 => Refreshing case _ => Landed)
    ensures Settle(k, true) in ops || Settle(k, false) in ops ==> k < |s.commits|
    decreases |ops|
  {
    if ops != [] {
      var n := |ops| - 1;
      var mid := Runs.RunSplits(Next, Fresh(), ops, s);
      StagesFollowTheRun(ops[..n], mid, k);
      assert ops == ops[..n] + [ops[n]];
    }
  }

  /** A note is removed from storage exactly when a delete of it was begun whose
      first promise went through. */
  lemma {:induction false} DeletedExactlyWhen(ops: seq<Op>, s: Deletions, id: NoteId)
    requires Runs.IsRun(Next, Fresh(), ops, s)
    ensures id in s.deleted <==> exists k :: 0 <= k < |s.commits| && s.commits[k].item.id == id && Settle(k, true) in ops
    decreases |ops|
  {
    if ops != [] {
      var n := |ops| - 1;
      var mid := Runs.RunSplits(Next, Fresh(), ops, s);
      DeletedExactlyWhen(ops[..n], mid, id);
      assert ops == ops[..n] + [ops[n]];
      assert forall k | 0 <= k < |mid.commits| :: s.commits[k].item == mid.commits[k].item;
      forall k: nat
        ensures Settle(k, true) in ops[..n] ==> k < |mid.commits|
        ensures ops[n] == Settle(k, true) && mid.commits[k].stage.Refreshing? ==> Settle(k, true) in ops[..n]
      {
        StagesFollowTheRun(ops[..n], mid, k);
      }
    }
  }

  // -------------------------------------------------------------------------
  // Hidden notes
  // -------------------------------------------------------------------------

  /** The step brings the note back: an undo of its waiting delete, or a
      failure of its delete command, in removing it or in what follows. */
  predicate BringsBack(s: Deletions, op: Op, id: NoteId) {
    || (op.Undo? && id in Ids(Items(s.pending)))
    || (op.Settle? && !op.ok && op.commit < |s.commits| && s.commits[op.commit].item.id == id)
  }

  lemma ReappearsExactlyWhen(s: Deletions, op: Op, id: NoteId)
    requires Enabled(s, op) && id in s.hidden
    ensures id !in Apply(s, op).hidden <==> BringsBack(s, op, id)
  {
  }

  /** The states of a run, one after another. */
  ghost predicate Brought(s: Deletions, ops: seq<Op>, id: NoteId)
    decreases |ops|
  {
    && ops != [] && Enabled(s, ops[0])
    && (BringsBack(s, ops[0], id) || Brought(Apply(s, ops[0]), ops[1..], id))
  }

  /** A note asked to be deleted is hidden ever after, unless its delete is
      undone or its command fails. */
  lemma {:induction false} HiddenUntilBroughtBack(s: Deletions, ops: seq<Op>, s': Deletions, id: NoteId)
    requires Runs.IsRun(Next, s, ops, s') && id in s.hidden && id !in s'.hidden
    ensures Brought(s, ops, id)
    decreases |ops|
  {
    if ops != [] {
      ReappearsExactlyWhen(s, ops[0], id);
      if !BringsBack(s, ops[0], id) {
        HiddenUntilBroughtBack(Apply(s, ops[0]), ops[1..], s', id);
      }
    }
  }

  /** The note was asked to be deleted once at most, by this item alone. */
  ghost predicate AskedOnce(s: Deletions, item: Item) {
    multiset(s.scheduled)[item] <= 1 && forall x | x in s.scheduled :: x.id == item.id ==> x == item
  }

  /** Its delete was begun and has not failed. */
  ghost predicate Deleting(s: Deletions, item: Item) {
    exists k :: 0 <= k < |s.commits| && s.commits[k].item == item && !s.commits[k].stage.Failed?
  }

  ghost predicate HiddenFits(s: Deletions, item: Item) {
    item.id in s.hidden <==> item in Items(s.pending) || Deleting(s, item)
  }

  lemma TwiceIsTwo(xs: seq<Item>, j: nat, k: nat)
    requires j < k < |xs| && xs[j] == xs[k]
    ensures multiset(xs)[xs[j]] >= 2
  {
    assert xs == xs[..j] + [xs[j]] + xs[j + 1..k] + [xs[k]] + xs[k + 1..];
  }

  /** A delete asked for once doesn't wait and run at the same time, and runs once. */
  lemma NotBoth(s: Deletions, item: Item)
    requires Balanced(s) && multiset(s.scheduled)[item] <= 1
    ensures item !in Items(s.pending) || item !in Committed(s.commits)
    ensures forall j, k | 0 <= j < k < |s.commits| && s.commits[j].item == item :: s.commits[k].item != item
  {
    var waits, begun := Items(s.pending), Committed(s.commits);
    assert (item in waits <==> multiset(waits)[item] > 0) && (item in begun <==> multiset(begun)[item] > 0);
    forall j, k | 0 <= j < k < |s.commits| && s.commits[j].item == s.commits[k].item
      ensures multiset(begun)[s.commits[j].item] >= 2
    {
      TwiceIsTwo(begun, j, k);
    }
  }

  lemma DeletingIsBegun(s: Deletions, item: Item)
    ensures Deleting(s, item) ==> item in Committed(s.commits)
  {
    if k :| 0 <= k < |s.commits| && s.commits[k].item == item {
      assert Committed(s.commits)[k] == item;
    }
  }

  /** What waits or was begun or undone was asked for. */
  lemma OnlyAskedFor(s: Deletions, x: Item)
    requires Balanced(s) && (x in Items(s.pending) || x in Committed(s.commits) || x in s.undone)
    ensures x in s.scheduled
  {
    assert multiset(s.scheduled)[x] > 0;
  }

  lemma RequestFits(s: Deletions, asked: Item, item: Item)
    requires Balanced(s) && Enabled(s, Request(asked)) && AskedOnce(Apply(s, Request(asked)), item)
    requires HiddenFits(s, item)
    ensures HiddenFits(Apply(s, Request(asked)), item)
  {
    var s' := Apply(s, Request(asked));
    assert Items(s'.pending) == Items(s.pending) + [asked];
    assert s'.scheduled[|s.scheduled|] == asked;
    assert Deleting(s', item) <==> Deleting(s, item);
  }

  lemma UndoFits(s: Deletions, item: Item)
    requires Balanced(s) && Enabled(s, Undo) && AskedOnce(s, item) && HiddenFits(s, item)
    ensures HiddenFits(Apply(s, Undo), item)
  {
    var s' := Apply(s, Undo);
    NotBoth(s, item);
    DeletingIsBegun(s', item);
    if item !in Items(s.pending) {
      forall x | x in Items(s.pending)
        ensures x.id != item.id
      {
        OnlyAskedFor(s, x);
      }
      assert Deleting(s', item) <==> Deleting(s, item);
    }
  }

  lemma RunFits(s: Deletions, item: Item)
    requires HiddenFits(s, item)
    ensures HiddenFits(RunPending(s), item)
  {
    var s', n := RunPending(s), |s.commits|;
    if item in Items(s.pending) {
      var i :| 0 <= i < |s.pending| && Items(s.pending)[i] == item;
      assert s'.commits[n + i] == Commit(item, Removing);
    }
    if Deleting(s, item) {
      var k :| 0 <= k < |s.commits| && s.commits[k].item == item && !s.commits[k].stage.Failed?;
      assert s'.commits[k] == s.commits[k];
    }
    if Deleting(s', item) {
      var k :| 0 <= k < |s'.commits| && s'.commits[k].item == item && !s'.commits[k].stage.Failed?;
      assert k >= n ==> Items(s.pending)[k - n] == item;
    }
  }

  lemma SettleFits(s: Deletions, k: nat, ok: bool, item: Item)
    requires Balanced(s) && Enabled(s, Settle(k, ok)) && AskedOnce(s, item) && HiddenFits(s, item)
    ensures HiddenFits(Settled(s, k, ok), item)
  {
    var s', x := Settled(s, k, ok), s.commits[k].item;
    assert Committed(s.commits)[k] == x;
    OnlyAskedFor(s, x);
    NotBoth(s, item);
    if x == item {
      assert s.commits[k].item == item && !s.commits[k].stage.Failed?;
      assert ok ==> s'.commits[k].item == item && !s'.commits[k].stage.Failed?;
      assert forall j | 0 <= j < |s.commits| :: j < k || k < j ==> s.commits[j].item != item;
    } else {
      assert x.id != item.id;
      assert forall j | 0 <= j < |s.commits| :: j != k ==> s'.commits[j] == s.commits[j];
      assert Deleting(s', item) <==> Deleting(s, item);
    }
  }

  lemma StepFits(s: Deletions, op: Op, item: Item)
    requires Balanced(s) && Enabled(s, op) && AskedOnce(Apply(s, op), item) && HiddenFits(s, item)
    ensures HiddenFits(Apply(s, op), item)
  {
    match op
    case Request(asked) => RequestFits(s, asked, item);
    case Undo => UndoFits(s, item);
    case Settle(k, ok) => SettleFits(s, k, ok, item);
    case Tick(_) =>
    case Unmount =>
    case _ => RunFits(s, item);
  }

  lemma {:induction false} AskedOnceBefore(s: Deletions, ops: seq<Op>, s': Deletions, item: Item)
    requires Runs.IsRun(Next, s, ops, s') && AskedOnce(s', item)
    ensures AskedOnce(s, item)
    decreases |ops|
  {
    if ops != [] {
      AskedOnceBefore(Apply(s, ops[0]), ops[1..], s', item);
      if ops[0].Request? {
        assert forall x | x in s.scheduled :: x in Apply(s, ops[0]).scheduled;
      }
    }
  }

  lemma {:induction false} RunKeepsFit(s: Deletions, ops: seq<Op>, s': Deletions, item: Item)
    requires Balanced(s) && Runs.IsRun(Next, s, ops, s') && AskedOnce(s', item) && HiddenFits(s, item)
    ensures HiddenFits(s', item)
    decreases |ops|
  {
    if ops != [] {
      AskedOnceBefore(Apply(s, ops[0]), ops[1..], s', item);
      StepFits(s, ops[0], item);
      ApplyKeepsBalance(s, ops[0]);
      RunKeepsFit(Apply(s, ops[0]), ops[1..], s', item);
    }
  }

  /** In every run, a note asked to be deleted at most once is hidden exactly
      while its delete waits, or was begun and has not failed. */
  lemma HiddenExactlyWhile(ops: seq<Op>, s: Deletions, item: Item)
    requires Runs.IsRun(Next, Fresh(), ops, s) && AskedOnce(s, item)
    ensures item.id in s.hidden <==> item in Items(s.pending) || Deleting(s, item)
  {
    RunKeepsFit(Fresh(), ops, s, item);
  }

  /** A command that fails need not be a failed delete: the note may be gone
      from storage, and reading the list again is what failed. */
  lemma DeletedNoteReappears(item: Item)
    ensures exists ops, s :: Runs.IsRun(Next, Fresh(), ops, s) && item.id in s.deleted && item.id !in s.hidden
  {
    var s1 := Apply(Fresh(), Request(item));
    var s2 := Apply(s1, Flush);
    var s3 := Apply(s2, Settle(0, true));
    var s4 := Apply(s3, Settle(0, false));
    assert Runs.IsRun(Next, s4, [], s4);
    assert Runs.IsRun(Next, s3, [Settle(0, false)], s4);
    var last2 := [Settle(0, true), Settle(0, false)];
    assert last2[1..] == [Settle(0, false)];
    assert Runs.IsRun(Next, s2, last2, s4);
    var last3 := [Flush] + last2;
    assert last3[1..] == last2;
    assert Runs.IsRun(Next, s1, last3, s4);
    var ops := [Request(item)] + last3;
    assert ops[1..] == last3;
    assert Runs.IsRun(Next, Fresh(), ops, s4);
  }

  // -------------------------------------------------------------------------
  // The hooks
  // -------------------------------------------------------------------------

  class Hooks {
    var pending: seq<Waiting>
    var timer: Option<nat>
    var hidden: set<NoteId>
    var mounted: bool
    var commits: seq<Commit>
    var now: nat
    var scheduled: seq<Item>
    var undone: seq<Item>
    var deleted: set<NoteId>

    ghost function Now(): Deletions
      reads this
    {
      Deletions(pending, timer, hidden, mounted, commits, now, scheduled, undone, deleted)
    }

    constructor ()
      ensures Now() == Fresh()
    {
      pending, timer, hidden, mounted, commits := [], None, {}, true, [];
      now, scheduled, undone, deleted := 0, [], [], {};
    }

    method SetHidden(ids: seq<NoteId>, on: bool)
      modifies this`hidden
      ensures hidden == if on then old(hidden) + (set id | id in ids) else old(hidden) - (set id | id in ids)
    {
      var next := hidden;
      for i := 0 to |ids|
        invariant next == if on then hidden + (set id | id in ids[..i]) else hidden - (set id | id in ids[..i])
        invariant hidden == old(hidden)
      {
        next := if on then next + {ids[i]} else next - {ids[i]};
        assert ids[..i + 1] == ids[..i] + [ids[i]];
      }
      assert ids[..|ids|] == ids;
      hidden := next;
    }

    method Take() returns (items: seq<Item>)
      modifies this`pending, this`timer
      ensures items == Items(old(pending)) && pending == [] && timer == None
    {
      items := Items(pending);
      timer := None;
      pending := [];
    }

    method RequestDelete(item: Item)
      requires Enabled(Now(), Request(item))
      modifies this
      ensures Now() == Apply(old(Now()), Request(item))
    {
      SetHidden([item.id], true);
      assert (set id | id in [item.id]) == {item.id};
      pending := pending + [Waiting(item, now)];
      timer := Some(now + UNDO_DELETE_MS);
      scheduled := scheduled + [item];
    }

    method UndoAll() returns (items: seq<Item>)
      requires Enabled(Now(), Undo)
      modifies this
      ensures Now() == Apply(old(Now()), Undo)
      ensures items == Items(old(pending))
    {
      items := Take();
      var ids := seq(|items|, i requires 0 <= i < |items| => items[i].id);
      SetHidden(ids, false);
      assert (set id | id in ids) == Ids(items) by {
        forall x | x in items
          ensures x.id in ids
        {
          var i :| 0 <= i < |items| && items[i] == x;
          assert ids[i] == x.id;
        }
      }
      undone := undone + items;
    }

    /** Run the waiting deletes: the toast's close button, and its timer. */
    method RunWaiting()
      modifies this`pending, this`timer, this`commits
      ensures Now() == RunPending(old(Now()))
    {
      var items := Take();
      for i := 0 to |items|
        invariant commits == old(commits) + Begun(items[..i])
        invariant pending == [] && timer == None
      {
        commits := commits + [Commit(items[i], Removing)];
        assert Begun(items[..i + 1]) == Begun(items[..i]) + [Commit(items[i], Removing)];
      }
      assert items[..|items|] == items;
    }

    method SettleCommit(k: nat, ok: bool)
      requires Enabled(Now(), Settle(k, ok))
      modifies this
      ensures Now() == Apply(old(Now()), Settle(k, ok))
    {
      var c := commits[k];
      if !ok {
        SetHidden([c.item.id], false);
        assert (set id | id in [c.item.id]) == {c.item.id};
        commits := commits[k := c.(stage := Failed)];
      } else if c.stage.Removing? {
        deleted := deleted + {c.item.id};
        commits := commits[k := c.(stage := Refreshing)];
      } else {
        commits := commits[k := c.(stage := Landed)];
      }
    }

    /** The window is closing: drop the timer without deleting. */
    method Close()
      requires Enabled(Now(), Unmount)
      modifies this
      ensures Now() == Apply(old(Now()), Unmount)
    {
      timer := None;
      mounted := false;
    }
  }
}
