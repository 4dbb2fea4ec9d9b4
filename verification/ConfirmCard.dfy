// The confirm card: a connector call waits for the user's answer, clicks race
// with each other, with the timeout and with the turn being cancelled, and one
// native dialog is open at a time. Every lock operation, every point where a
// task may be suspended, and every message is one step.
module ConfirmCard {
  import opened Wrappers
  import Runs

  type Id = string

  type ClickId = nat

  const DIALOG_ARGS_LINES: nat := 40

  const DIALOG_ARGS_CHARS: nat := 3000

  datatype Kind = Read | Write

  /** A call's arguments, known by their two renderings. */
  datatype Args = Args(pretty: string, compact: string)

  /** `accepted`: the arguments without a problem of their own that fit the
      tool's schema. */
  datatype Proposal = Proposal(kind: Kind, args: Args, accepted: iset<Args>)

  datatype Decision = Run(args: Args) | Decline | TimedOut

  /** `Leaving`: it timed out and took its card back, and has not said so yet. */
  datatype Call = Waiting | Elapsed | Leaving | Returned(decision: Decision) | Abandoned

  datatype Action = Deny | AllowOnce | AlwaysAllow

  datatype Dialog = Send(text: string) | Loosen

  datatype Stage =
    | Looked                   // found the card
    | Wants(dialog: Dialog)    // waits for the dialog lock
    | Holds(dialog: Dialog)    // has it, and looks at the card again
    | Shows(dialog: Dialog)    // the dialog is open
    | Settling(decision: Decision)
    | Done

  /** `seen`: the kind the tool had when the click was checked, if it was there. */
  datatype Click = Click(id: Id, action: Action, args: Args, seen: Option<Kind>, stage: Stage)

  datatype Sent = Sent(click: ClickId, decision: Decision)

  /** What a dialog showed, and whether the user allowed it. */
  datatype Shown = Shown(id: Id, dialog: Dialog, allowed: bool)

  datatype Event = Ran | Declined | TimedOutEvent | Withdrawn

  datatype Holder = ByClick(click: ClickId) | SomeoneElse

  datatype State = State(
    proposals: map<Id, Proposal>,
    calls: map<Id, Call>,
    pending: set<Id>,
    clicks: map<ClickId, Click>,
    lock: Option<Holder>,
    answers: map<ClickId, Shown>,   // to the clicks' dialogs
    sent: map<Id, seq<Sent>>,       // decisions put in the call's channel
    events: map<Id, seq<Event>>)    // "settled" events the card got

  /** What the call of a proposal does. */
  datatype CallStep =
    | Propose(proposal: Proposal)
    | Wake     // the decision arrived
    | Elapse   // or ten minutes passed without one
    | GiveUp   // then it takes its card back
    | TellTimedOut
    | Abandon  // or the turn was cancelled

  /** What a click does. */
  datatype ClickStep =
    | Open(id: Id, action: Action, edited: Option<Args>)
    | Check(kindNow: Option<Kind>, planned: bool)
    | TakeLock
    | LookAgain(quiet: bool)
    | Answer(allow: bool, applied: bool)
    | Settle

  datatype Step =
    | OfCall(id: Id, doing: CallStep)
    | OfClick(click: ClickId, clicking: ClickStep)
    | OtherTakesLock // another native dialog
    | OtherDropsLock

  function Init(): State {
    State(map[], map[], {}, map[], None, map[], map[], map[])
  }

  // -------------------------------------------------------------------------
  // What a dialog shows
  // -------------------------------------------------------------------------

  function Newlines(s: string): nat {
    if s == "" then 0 else Newlines(s[..|s| - 1]) + (if s[|s| - 1] == '\n' then 1 else 0)
  }

  /** Lines are ended by a newline; the last one needs none. */
  function Lines(s: string): nat {
    Newlines(s) + (if s != "" && s[|s| - 1] != '\n' then 1 else 0)
  }

  /** Nothing has no lines; a line with its newline is one, and so is what is left
      after the last newline, if anything is. */
  lemma {:induction false} LinesAre(line: string, rest: string)
    requires '\n' !in line
    ensures Lines("") == 0 && Lines(line) == (if line == "" then 0 else 1)
    ensures Lines(line + "\n" + rest) == 1 + Lines(rest)
    decreases |line| + |rest|
  {
    NoNewlines(line);
    if rest == "" {
      assert line + "\n" + rest == line + "\n";
      assert (line + "\n")[..|line|] == line;
    } else {
      var n := |rest| - 1;
      var all := line + "\n" + rest;
      LinesAre(line, rest[..n]);
      assert all[..|all| - 1] == line + "\n" + rest[..n] && all[|all| - 1] == rest[n];
      NewlinesAppend(line + "\n", rest);
      assert (line + "\n")[..|line|] == line;
    }
  }

  lemma {:induction false} NoNewlines(s: string)
    requires '\n' !in s
    ensures Newlines(s) == 0
  {
    if s != "" {
      NoNewlines(s[..|s| - 1]);
    }
  }

  lemma {:induction false} NewlinesAppend(a: string, b: string)
    ensures Newlines(a + b) == Newlines(a) + Newlines(b)
    decreases |b|
  {
    if b == "" {
      assert a + b == a;
    } else {
      NewlinesAppend(a, b[..|b| - 1]);
      assert (a + b)[..|a + b| - 1] == a + b[..|b| - 1];
    }
  }

  /** The arguments in full, or None when they are too long to show. */
  function DialogArgs(args: Args): Option<string> {
    var text := if Lines(args.pretty) <= DIALOG_ARGS_LINES then args.pretty else args.compact;
    if |text| > DIALOG_ARGS_CHARS then None else Some(text)
  }

  /** What is shown is one of the renderings, whole, and fits; they are refused
      only when the one to show doesn't. */
  lemma DialogArgsAreWhole(args: Args)
    ensures DialogArgs(args).Some? ==>
              DialogArgs(args).value in {args.pretty, args.compact} && |DialogArgs(args).value| <= DIALOG_ARGS_CHARS
    ensures Lines(args.pretty) <= DIALOG_ARGS_LINES && |args.pretty| <= DIALOG_ARGS_CHARS ==>
              DialogArgs(args) == Some(args.pretty)
    ensures Lines(args.pretty) > DIALOG_ARGS_LINES && |args.compact| <= DIALOG_ARGS_CHARS ==>
              DialogArgs(args) == Some(args.compact)
  {
  }

  // -------------------------------------------------------------------------
  // Steps
  // -------------------------------------------------------------------------

  function SentTo(s: State, id: Id): seq<Sent> {
    if id in s.sent then s.sent[id] else []
  }

  function EventsOf(s: State, id: Id): seq<Event> {
    if id in s.events then s.events[id] else []
  }


  predicate CallMay(s: State, id: Id, doing: CallStep) {
    match doing
    case Propose(_) => id !in s.proposals
    case Wake => id in s.calls && s.calls[id].Waiting? && SentTo(s, id) != []
    case Elapse => id in s.calls && s.calls[id].Waiting? && SentTo(s, id) == []
    case GiveUp => id in s.calls && s.calls[id].Elapsed?
    case TellTimedOut => id in s.calls && s.calls[id].Leaving?
    case Abandon => id in s.calls && s.calls[id].Waiting?
  }

  predicate ClickMay(s: State, c: ClickId, clicking: ClickStep) {
    match clicking
    case Open(id, _, _) => c !in s.clicks && id in s.pending && id in s.proposals
    case Check(_, _) => c in s.clicks && s.clicks[c].stage.Looked? && s.clicks[c].id in s.proposals
    case TakeLock => c in s.clicks && s.clicks[c].stage.Wants? && s.lock.None?
    case LookAgain(_) => c in s.clicks && s.clicks[c].stage.Holds?
    case Answer(_, _) => c in s.clicks && s.clicks[c].stage.Shows?
    case Settle => c in s.clicks && s.clicks[c].stage.Settling?
  }

  predicate Enabled(s: State, step: Step) {
    match step
    case OfCall(id, doing) => CallMay(s, id, doing)
    case OfClick(c, clicking) => ClickMay(s, c, clicking)
    case OtherTakesLock => s.lock.None?
    case OtherDropsLock => s.lock == Some(SomeoneElse)
  }

  function Emit(s: State, id: Id, event: Event): State {
    s.(events := s.events[id := EventsOf(s, id) + [event]])
  }

  function EventFor(d: Decision): Event {
    if d.Run? then Ran else Declined
  }

  /** A tool that can change data, now or when the call was proposed. */
  predicate AsWrite(k: Click, p: Proposal) {
    p.kind.Write? || k.seen != Some(Read)
  }

  /** Where the checks on the arguments and the tool's kind send a click. */
  ghost function StageAfterCheck(k: Click, p: Proposal, planned: bool): Stage {
    if k.action.Deny? then Settling(Decline)
    else if k.args !in p.accepted then Done
    else if k.action.AlwaysAllow? then
      if AsWrite(k, p) || !planned then Done else Wants(Loosen)
    else if !AsWrite(k, p) then Settling(Run(k.args))
    else
      match DialogArgs(k.args)
      case None => Done
      case Some(text) => Wants(Send(text))
  }

  function AfterCall(s: State, id: Id, doing: CallStep): State
    requires CallMay(s, id, doing)
  {
    match doing
    case Propose(p) =>
      s.(proposals := s.proposals[id := p], calls := s.calls[id := Waiting], pending := s.pending + {id})
    case Wake => s.(calls := s.calls[id := Returned(SentTo(s, id)[0].decision)])
    case Elapse => s.(calls := s.calls[id := Elapsed])
    case GiveUp => s.(calls := s.calls[id := Leaving], pending := s.pending - {id})
    case TellTimedOut => Emit(s, id, TimedOutEvent).(calls := s.calls[id := Returned(TimedOut)])
    case Abandon =>
      var s' := if id in s.pending then Emit(s, id, Withdrawn) else s;
      s'.(calls := s.calls[id := Abandoned], pending := s.pending - {id})
  }

  /** The clicking task's own state after its step. */
  ghost function Moved(s: State, c: ClickId, clicking: ClickStep): Click
    requires ClickMay(s, c, clicking)
  {
    match clicking
    case Open(id, action, edited) =>
      Click(id, action, if edited.Some? then edited.value else s.proposals[id].args, None, Looked)
    case Check(kindNow, planned) =>
      var k := s.clicks[c].(seen := kindNow);
      k.(stage := StageAfterCheck(k, s.proposals[k.id], planned))
    case TakeLock => s.clicks[c].(stage := Holds(s.clicks[c].stage.dialog))
    case LookAgain(quiet) =>
      var k := s.clicks[c];
      k.(stage := if quiet || (k.stage.dialog.Send? && k.id !in s.pending) then Done else Shows(k.stage.dialog))
    case Answer(allow, applied) =>
      var k := s.clicks[c];
      k.(stage := if allow && (k.stage.dialog.Send? || applied) then Settling(Run(k.args)) else Done)
    case Settle => s.clicks[c].(stage := Done)
  }

  /** The decision reaches the call only if the card is still pending. The map's
      lock is held from taking the card out until its event is sent. */
  function Settled(s: State, c: ClickId): State
    requires c in s.clicks && s.clicks[c].stage.Settling?
  {
    var k := s.clicks[c];
    if k.id !in s.pending then s
    else
      Emit(s, k.id, EventFor(k.stage.decision))
      .(pending := s.pending - {k.id}, sent := s.sent[k.id := SentTo(s, k.id) + [Sent(c, k.stage.decision)]])
  }

  ghost function AfterClick(s: State, c: ClickId, clicking: ClickStep): State
    requires ClickMay(s, c, clicking)
  {
    var k := Moved(s, c, clicking);
    var s' := if clicking.Settle? then Settled(s, c) else s;
    s'.(clicks := s.clicks[c := k],
        lock := if clicking.TakeLock? then Some(ByClick(c))
                else if clicking.Answer? || (clicking.LookAgain? && k.stage.Done?) then None
                else s.lock,
        answers := if clicking.Answer? then s.answers[c := Shown(k.id, s.clicks[c].stage.dialog, clicking.allow)]
                   else s.answers)
  }

  ghost function After(s: State, step: Step): State
    requires Enabled(s, step)
  {
    match step
    case OfCall(id, doing) => AfterCall(s, id, doing)
    case OfClick(c, clicking) => AfterClick(s, c, clicking)
    case OtherTakesLock => s.(lock := Some(SomeoneElse))
    case OtherDropsLock => s.(lock := None)
  }

  // -------------------------------------------------------------------------
  // The invariant
  // -------------------------------------------------------------------------

  predicate IsOpen(call: Call) {
    call.Waiting? || call.Elapsed?
  }

  /** One proposal: it is pending exactly while its call is open and undecided,
      and the events are those of the decision and of how the call ended. */
  ghost predicate CallInv(s: State, id: Id)
    requires id in s.calls
  {
    var call, sent := s.calls[id], SentTo(s, id);
    && |sent| <= 1
    && (id in s.pending <==> IsOpen(call) && sent == [])
    && (call.Returned? && !call.decision.TimedOut? ==> sent != [] && sent[0].decision == call.decision)
    && EventsOf(s, id) == Told(call, sent)
  }

  /** The events a proposal's card got. */
  function Told(call: Call, sent: seq<Sent>): seq<Event> {
    (if sent != [] then [EventFor(sent[0].decision)] else [])
    + (if call == Returned(TimedOut) then [TimedOutEvent]
       else if call.Abandoned? && sent == [] then [Withdrawn]
       else [])
  }

  /** A click that may run its call: with arguments that fit, and, for a tool
      that can change data, an allowed dialog that showed them; to set "Always
      allow", an allowed dialog that asked for that. */
  ghost predicate Cleared(s: State, c: ClickId)
    requires c in s.clicks && s.clicks[c].id in s.proposals
  {
    var k, p := s.clicks[c], s.proposals[s.clicks[c].id];
    && k.args in p.accepted
    && !k.action.Deny?
    && (AsWrite(k, p) ==>
          DialogArgs(k.args).Some? && c in s.answers
          && s.answers[c] == Shown(k.id, Send(DialogArgs(k.args).value), true))
    && (k.action.AlwaysAllow? ==> c in s.answers && s.answers[c] == Shown(k.id, Loosen, true))
  }

  ghost predicate DialogFits(k: Click, p: Proposal, dialog: Dialog) {
    && k.args in p.accepted
    && match dialog
       case Send(text) => k.action.AllowOnce? && AsWrite(k, p) && DialogArgs(k.args) == Some(text)
       case Loosen => k.action.AlwaysAllow? && !AsWrite(k, p)
  }

  ghost predicate ClickInv(s: State, c: ClickId)
    requires c in s.clicks
  {
    var k := s.clicks[c];
    && k.id in s.proposals
    && (k.stage.Holds? || k.stage.Shows? <==> s.lock == Some(ByClick(c)))
    && (k.stage.Wants? || k.stage.Holds? || k.stage.Shows? ==> DialogFits(k, s.proposals[k.id], k.stage.dialog))
    && (k.stage.Settling? && k.stage.decision.Run? ==> k.stage.decision.args == k.args && Cleared(s, c))
    && (k.stage.Settling? ==> !k.stage.decision.TimedOut?)
    && (k.action.Deny? ==> k.stage.Looked? || k.stage.Done? || k.stage == Settling(Decline))
  }

  /** What was sent to a call came from a click on its card that may run it. */
  ghost predicate SentOk(s: State, id: Id, x: Sent) {
    && x.click in s.clicks && s.clicks[x.click].stage.Done? && s.clicks[x.click].id == id
    && id in s.proposals
    && !x.decision.TimedOut?
    && (x.decision.Run? ==>
          x.decision.args == s.clicks[x.click].args && Cleared(s, x.click))
  }

  ghost predicate SentInv(s: State, id: Id) {
    forall x | x in SentTo(s, id) :: SentOk(s, id, x)
  }

  /** Nothing is kept of proposals and clicks there never were. */
  ghost predicate Grounded(s: State) {
    && s.calls.Keys == s.proposals.Keys
    && s.pending <= s.proposals.Keys
    && s.sent.Keys <= s.proposals.Keys
    && s.events.Keys <= s.proposals.Keys
    && (s.lock.Some? && s.lock.value.ByClick? ==> s.lock.value.click in s.clicks)
  }

  ghost predicate Inv(s: State) {
    && Grounded(s)
    && (forall id | id in s.calls :: CallInv(s, id))
    && (forall c | c in s.clicks :: ClickInv(s, c))
    && (forall id | id in s.proposals :: SentInv(s, id))
  }

  /** A call looks only at what concerns its own proposal. */
  ghost predicate SameCall(s: State, s': State, id: Id) {
    && id in s.calls && id in s'.calls && s'.calls[id] == s.calls[id]
    && (id in s'.pending <==> id in s.pending)
    && SentTo(s', id) == SentTo(s, id) && EventsOf(s', id) == EventsOf(s, id)
  }

  lemma CallInvFrame(s: State, s': State, id: Id)
    requires id in s.calls && CallInv(s, id) && SameCall(s, s', id)
    ensures CallInv(s', id)
  {
  }

  lemma CallStepKeepsCallInv(s: State, id: Id, doing: CallStep)
    requires CallMay(s, id, doing)
    requires id in s.calls ==> CallInv(s, id) && SentInv(s, id)
    requires id in s.calls <==> id in s.proposals
    requires id !in s.calls ==> SentTo(s, id) == [] && EventsOf(s, id) == []
    ensures CallInv(AfterCall(s, id, doing), id)
  {
    var sent := SentTo(s, id);
    var decided := if sent != [] then [EventFor(sent[0].decision)] else [];
    assert decided + [] == decided;
    if doing.Wake? {
      assert SentOk(s, id, sent[0]);
    }
  }

  lemma SettlingKeepsCallInv(s: State, c: ClickId)
    requires c in s.clicks && s.clicks[c].stage.Settling?
    requires s.clicks[c].id in s.calls && CallInv(s, s.clicks[c].id)
    ensures CallInv(Settled(s, c), s.clicks[c].id)
  {
  }

  lemma CallLeavesOtherCalls(s: State, mine: Id, doing: CallStep, id: Id)
    requires CallMay(s, mine, doing) && id in s.calls && mine != id
    ensures SameCall(s, AfterCall(s, mine, doing), id)
  {
  }

  lemma ClickLeavesOtherCalls(s: State, c: ClickId, clicking: ClickStep, id: Id)
    requires ClickMay(s, c, clicking) && id in s.calls
    requires clicking.Settle? ==> s.clicks[c].id != id
    ensures SameCall(s, AfterClick(s, c, clicking), id)
  {
  }

  lemma SettleStepKeepsCallInv(s: State, c: ClickId)
    requires ClickMay(s, c, Settle) && s.clicks[c].id in s.calls && CallInv(s, s.clicks[c].id)
    ensures CallInv(AfterClick(s, c, Settle), s.clicks[c].id)
  {
    SettlingKeepsCallInv(s, c);
    CallInvFrame(Settled(s, c), AfterClick(s, c, Settle), s.clicks[c].id);
  }

  lemma CallStepKeepsEveryCall(s: State, mine: Id, doing: CallStep, id: Id)
    requires CallMay(s, mine, doing) && id in AfterCall(s, mine, doing).calls
    requires id in s.calls <==> id in s.proposals
    requires id in s.calls ==> CallInv(s, id) && SentInv(s, id)
    requires id !in s.calls ==> SentTo(s, id) == [] && EventsOf(s, id) == []
    ensures CallInv(AfterCall(s, mine, doing), id)
  {
    if mine == id {
      CallStepKeepsCallInv(s, id, doing);
    } else {
      CallLeavesOtherCalls(s, mine, doing, id);
      CallInvFrame(s, AfterCall(s, mine, doing), id);
    }
  }

  lemma ClickStepKeepsEveryCall(s: State, c: ClickId, clicking: ClickStep, id: Id)
    requires ClickMay(s, c, clicking) && id in s.calls && CallInv(s, id)
    ensures CallInv(AfterClick(s, c, clicking), id)
  {
    if clicking.Settle? && s.clicks[c].id == id {
      SettleStepKeepsCallInv(s, c);
    } else {
      ClickLeavesOtherCalls(s, c, clicking, id);
      CallInvFrame(s, AfterClick(s, c, clicking), id);
    }
  }

  lemma StepKeepsCallInv(s: State, step: Step, id: Id)
    requires Grounded(s) && Enabled(s, step) && id in After(s, step).calls
    requires id in s.calls ==> CallInv(s, id) && SentInv(s, id)
    ensures CallInv(After(s, step), id)
  {
    match step {
      case OfCall(mine, doing) => CallStepKeepsEveryCall(s, mine, doing, id);
      case OfClick(c, clicking) => ClickStepKeepsEveryCall(s, c, clicking, id);
      case _ => CallInvFrame(s, After(s, step), id);
    }
  }

  /** A click looks only at its own record, its proposal, its dialog's answer
      and whether the lock is its own. */
  ghost predicate SameClick(s: State, s': State, c: ClickId) {
    && c in s.clicks && c in s'.clicks && s'.clicks[c] == s.clicks[c]
    && (s.clicks[c].id in s.proposals ==>
          s.clicks[c].id in s'.proposals && s'.proposals[s.clicks[c].id] == s.proposals[s.clicks[c].id])
    && (s'.lock == Some(ByClick(c)) <==> s.lock == Some(ByClick(c)))
    && (c in s.answers <==> c in s'.answers) && (c in s.answers ==> s'.answers[c] == s.answers[c])
  }

  lemma ClickInvFrame(s: State, s': State, c: ClickId)
    requires c in s.clicks && ClickInv(s, c) && SameClick(s, s', c)
    ensures ClickInv(s', c)
    ensures s.clicks[c].id in s.proposals && Cleared(s, c) ==> Cleared(s', c)
  {
  }

  lemma OwnStepKeepsClickInv(s: State, c: ClickId, clicking: ClickStep)
    requires ClickMay(s, c, clicking)
    requires c in s.clicks ==> ClickInv(s, c)
    requires c !in s.clicks ==> s.lock != Some(ByClick(c))
    ensures ClickInv(AfterClick(s, c, clicking), c)
  {
  }

  lemma CallLeavesClicks(s: State, id: Id, doing: CallStep, c: ClickId)
    requires CallMay(s, id, doing) && c in s.clicks
    ensures SameClick(s, AfterCall(s, id, doing), c)
  {
  }

  lemma ClickLeavesOtherClicks(s: State, d: ClickId, clicking: ClickStep, c: ClickId)
    requires ClickMay(s, d, clicking) && c in s.clicks && d != c
    requires d in s.clicks ==> ClickInv(s, d)
    ensures SameClick(s, AfterClick(s, d, clicking), c)
  {
  }

  lemma OthersAreSame(s: State, step: Step, c: ClickId)
    requires Enabled(s, step) && c in s.clicks && !(step.OfClick? && step.click == c)
    requires step.OfClick? && step.click in s.clicks ==> ClickInv(s, step.click)
    ensures SameClick(s, After(s, step), c)
  {
    match step
    case OfCall(id, doing) => CallLeavesClicks(s, id, doing, c);
    case OfClick(d, clicking) => ClickLeavesOtherClicks(s, d, clicking, c);
    case _ =>
  }

  lemma StepKeepsClickInv(s: State, step: Step, c: ClickId)
    requires Grounded(s) && Enabled(s, step) && c in After(s, step).clicks
    requires c in s.clicks ==> ClickInv(s, c)
    requires step.OfClick? && step.click in s.clicks ==> ClickInv(s, step.click)
    ensures ClickInv(After(s, step), c)
  {
    if step.OfClick? && step.click == c {
      OwnStepKeepsClickInv(s, c, step.clicking);
    } else {
      OthersAreSame(s, step, c);
      ClickInvFrame(s, After(s, step), c);
    }
  }

  lemma SentGrows(s: State, step: Step, id: Id)
    requires Enabled(s, step)
    ensures SentTo(After(s, step), id) == SentTo(s, id)
            || (step.OfClick? && step.clicking.Settle? && s.clicks[step.click].id == id
                && SentTo(After(s, step), id) == SentTo(s, id) + [Sent(step.click, s.clicks[step.click].stage.decision)])
  {
  }

  lemma StepKeepsSentInv(s: State, step: Step, id: Id)
    requires Enabled(s, step) && id in After(s, step).proposals
    requires SentInv(s, id)
    requires step.OfClick? && step.click in s.clicks ==> ClickInv(s, step.click)
    requires forall x | x in SentTo(s, id) :: x.click in s.clicks ==> ClickInv(s, x.click)
    ensures SentInv(After(s, step), id)
  {
    var s' := After(s, step);
    SentGrows(s, step, id);
    forall x | x in SentTo(s', id)
      ensures SentOk(s', id, x)
    {
      if x in SentTo(s, id) {
        assert SentOk(s, id, x);
        OthersAreSame(s, step, x.click);
        ClickInvFrame(s, s', x.click);
      } else {
        SettlingSendsWhatItMay(s, step.click);
      }
    }
  }

  lemma SettlingSendsWhatItMay(s: State, c: ClickId)
    requires ClickMay(s, c, Settle) && ClickInv(s, c)
    ensures SentOk(AfterClick(s, c, Settle), s.clicks[c].id, Sent(c, s.clicks[c].stage.decision))
  {
  }

  lemma CallKeepsGrounded(s: State, id: Id, doing: CallStep)
    requires Grounded(s) && CallMay(s, id, doing)
    ensures Grounded(AfterCall(s, id, doing))
  {
  }

  lemma ClickKeepsGrounded(s: State, c: ClickId, clicking: ClickStep)
    requires Grounded(s) && ClickMay(s, c, clicking)
    requires c in s.clicks ==> ClickInv(s, c)
    ensures Grounded(AfterClick(s, c, clicking))
  {
  }

  lemma StepKeepsGrounded(s: State, step: Step)
    requires Grounded(s) && Enabled(s, step)
    requires step.OfClick? && step.click in s.clicks ==> ClickInv(s, step.click)
    ensures Grounded(After(s, step))
  {
    match step
    case OfCall(id, doing) => CallKeepsGrounded(s, id, doing);
    case OfClick(c, clicking) => ClickKeepsGrounded(s, c, clicking);
    case _ =>
  }

  lemma StepKeepsInv(s: State, step: Step)
    requires Inv(s) && Enabled(s, step)
    ensures Inv(After(s, step))
  {
    var s' := After(s, step);
    StepKeepsGrounded(s, step);
    forall id | id in s'.calls
      ensures CallInv(s', id)
    {
      StepKeepsCallInv(s, step, id);
    }
    forall c | c in s'.clicks
      ensures ClickInv(s', c)
    {
      StepKeepsClickInv(s, step, c);
    }
    forall id | id in s'.proposals
      ensures SentInv(s', id)
    {
      StepKeepsSentInv(s, step, id);
    }
  }

  // -------------------------------------------------------------------------
  // Over every interleaving
  // -------------------------------------------------------------------------

  ghost function Next(s: State, step: Step): Option<State> {
    if Enabled(s, step) then Some(After(s, step)) else None
  }

  ghost predicate Reachable(s: State) {
    Runs.Reachable(Next, Init(), s)
  }

  lemma NextKeepsInv()
    ensures forall s, step | Inv(s) && Next(s, step).Some? :: Inv(Next(s, step).value)
  {
    forall s, step | Inv(s) && Next(s, step).Some?
      ensures Inv(Next(s, step).value)
    {
      StepKeepsInv(s, step);
    }
  }

  lemma ReachableIsSound(s: State)
    requires Reachable(s)
    ensures Inv(s)
  {
    var steps :| Runs.IsRun(Next, Init(), steps, s);
    NextKeepsInv();
    Runs.RunKeeps(Next, Inv, Init(), steps, s);
  }

  lemma Reaches(s: State, step: Step) returns (s': State)
    requires Reachable(s) && Enabled(s, step)
    ensures s' == After(s, step) && Reachable(s')
  {
    s' := Runs.Reaches(Next, Init(), s, step);
  }

  /** A decision, once sent, is never taken back, changed or followed by another. */
  lemma {:induction false} SentIsFinal(s: State, steps: seq<Step>, s': State, id: Id)
    requires Reachable(s) && Runs.IsRun(Next, s, steps, s')
    ensures |SentTo(s, id)| <= 1 && |SentTo(s', id)| <= 1
    ensures SentTo(s, id) != [] ==> SentTo(s', id) == SentTo(s, id)
    decreases |steps|
  {
    ReachableIsSound(s);
    if steps != [] {
      var next := Reaches(s, steps[0]);
      ReachableIsSound(next);
      SentGrows(s, steps[0], id);
      SentIsFinal(next, steps[1..], s', id);
    }
  }

  /** A call that comes back with a decision comes back with the one sent to it;
      when it has come back, or was abandoned, its card is gone. */
  lemma ReturnsWhatWasSent(s: State, id: Id)
    requires Reachable(s) && id in s.calls && (s.calls[id].Returned? || s.calls[id].Abandoned?)
    ensures id !in s.pending
    ensures s.calls[id].Returned? && !s.calls[id].decision.TimedOut? ==>
              |SentTo(s, id)| == 1 && SentTo(s, id)[0].decision == s.calls[id].decision
  {
    ReachableIsSound(s);
    assert CallInv(s, id);
  }

  lemma CallKeepsGone(s: State, mine: Id, doing: CallStep, id: Id)
    requires CallMay(s, mine, doing) && id in s.proposals && id !in s.pending
    ensures id in AfterCall(s, mine, doing).proposals && id !in AfterCall(s, mine, doing).pending
  {
  }

  lemma ClickKeepsGone(s: State, c: ClickId, clicking: ClickStep, id: Id)
    requires ClickMay(s, c, clicking) && id in s.proposals && id !in s.pending
    ensures id in AfterClick(s, c, clicking).proposals && id !in AfterClick(s, c, clicking).pending
  {
  }

  lemma GoneStaysGone(s: State, step: Step, id: Id)
    requires Enabled(s, step) && id in s.proposals && id !in s.pending
    ensures id in After(s, step).proposals && id !in After(s, step).pending
  {
    match step {
      case OfCall(mine, doing) => CallKeepsGone(s, mine, doing, id);
      case OfClick(c, clicking) => ClickKeepsGone(s, c, clicking, id);
      case _ =>
    }
  }

  lemma MovesToASendDialog(s: State, c: ClickId, clicking: ClickStep)
    requires ClickMay(s, c, clicking)
    requires Moved(s, c, clicking).stage.Shows? && Moved(s, c, clicking).stage.dialog.Send?
    ensures c in s.clicks && s.clicks[c].id == Moved(s, c, clicking).id && s.clicks[c].id in s.pending
  {
  }

  lemma ClicksAfter(s: State, step: Step)
    requires Enabled(s, step)
    ensures After(s, step).clicks
            == if step.OfClick? then s.clicks[step.click := Moved(s, step.click, step.clicking)] else s.clicks
  {
  }

  lemma OpensOnlyWhilePending(s: State, step: Step, clicks: map<ClickId, Click>, c: ClickId)
    requires Enabled(s, step) && clicks == After(s, step).clicks && c in clicks
    requires clicks[c].stage.Shows? && clicks[c].stage.dialog.Send?
    ensures c in s.clicks && s.clicks[c].id == clicks[c].id
    ensures (s.clicks[c].stage.Shows? && s.clicks[c].stage.dialog.Send?) || s.clicks[c].id in s.pending
  {
    ClicksAfter(s, step);
    if step.OfClick? && step.click == c {
      MovesToASendDialog(s, c, step.clicking);
    }
  }

  /** Once a card is gone, no click that waited for the lock opens a dialog for
      it any more. */
  lemma {:induction false} NoDialogOnceGone(s: State, steps: seq<Step>, s': State, id: Id, c: ClickId)
    requires Runs.IsRun(Next, s, steps, s') && id in s.proposals && id !in s.pending
    requires c in s'.clicks && s'.clicks[c].id == id
    requires s'.clicks[c].stage.Shows? && s'.clicks[c].stage.dialog.Send?
    ensures c in s.clicks && s.clicks[c].stage.Shows? && s.clicks[c].stage.dialog.Send?
    decreases |steps|
  {
    if steps != [] {
      var next := After(s, steps[0]);
      GoneStaysGone(s, steps[0], id);
      NoDialogOnceGone(next, steps[1..], s', id, c);
      IdStays(next, steps[1..], s', c);
      OpensOnlyWhilePending(s, steps[0], next.clicks, c);
    }
  }

  lemma {:induction false} IdStays(s: State, steps: seq<Step>, s': State, c: ClickId)
    requires Runs.IsRun(Next, s, steps, s') && c in s.clicks
    ensures c in s'.clicks && s'.clicks[c].id == s.clicks[c].id
    decreases |steps|
  {
    if steps != [] {
      IdStaysOnce(s, steps[0], c);
      IdStays(After(s, steps[0]), steps[1..], s', c);
    }
  }

  lemma IdStaysOnce(s: State, step: Step, c: ClickId)
    requires Enabled(s, step) && c in s.clicks
    ensures c in After(s, step).clicks && After(s, step).clicks[c].id == s.clicks[c].id
  {
    match step
    case OfCall(id, doing) => assert AfterCall(s, id, doing).clicks == s.clicks;
    case OfClick(d, clicking) => assert AfterClick(s, d, clicking).clicks == s.clicks[d := Moved(s, d, clicking)];
    case _ =>
  }

  /** At most one of these dialogs is open, and only while its click holds the lock. */
  lemma OneDialogAtATime(s: State, c: ClickId, d: ClickId)
    requires Reachable(s)
    requires c in s.clicks && s.clicks[c].stage.Shows?
    requires d in s.clicks && s.clicks[d].stage.Shows?
    ensures c == d && s.lock == Some(ByClick(c))
  {
    ReachableIsSound(s);
    assert ClickInv(s, c) && ClickInv(s, d);
  }

  /** What the turn sends to the connector's server for a decision: it looks
      once more at Keep local, at the tool (offered, not blocked, its kind
      now), and at the arguments. */
  ghost function SentToServer(p: Proposal, d: Decision, keepLocal: bool, kindNow: Option<Kind>): Option<Args> {
    if d.Run? && !keepLocal && kindNow == Some(p.kind) && d.args in p.accepted then Some(d.args) else None
  }

  /** Of the decisions only one to run sends anything, its own arguments; and it
      does unless the chat is Keep local now, or the tool is gone, is of another
      kind than when the call was proposed, or takes no such arguments. */
  lemma SendsExactlyWhen(p: Proposal, args: Args, keepLocal: bool, kindNow: Option<Kind>)
    ensures SentToServer(p, Decline, keepLocal, kindNow) == None && SentToServer(p, TimedOut, keepLocal, kindNow) == None
    ensures SentToServer(p, Run(args), keepLocal, kindNow) ==
            if keepLocal || kindNow.None? || kindNow.value != p.kind || args !in p.accepted then None else Some(args)
  {
  }

  /** A call that waited for the user reaches a tool that can change data, or
      one that was said to be so when the call was proposed or when the user
      clicked, only with arguments that fit its schema and that a dialog the
      user allowed showed in full; and a call that was set to "Always allow" on
      the card only after a dialog that asked for that. */
  lemma ChangesNeedAnAllowedDialog(s: State, id: Id, keepLocal: bool, kindNow: Option<Kind>)
    requires Reachable(s) && id in s.calls && id in s.proposals && s.calls[id].Returned?
    requires SentToServer(s.proposals[id], s.calls[id].decision, keepLocal, kindNow).Some?
    ensures |SentTo(s, id)| == 1
    ensures var args := SentToServer(s.proposals[id], s.calls[id].decision, keepLocal, kindNow).value;
            var c := SentTo(s, id)[0].click;
            && args in s.proposals[id].accepted
            && c in s.clicks && s.clicks[c].id == id && s.clicks[c].args == args && !s.clicks[c].action.Deny?
            && (kindNow == Some(Write) || s.proposals[id].kind.Write? || s.clicks[c].seen != Some(Read)
                ==> DialogArgs(args).Some? && c in s.answers
                    && s.answers[c] == Shown(id, Send(DialogArgs(args).value), true)
                    && DialogArgs(args).value in {args.pretty, args.compact})
            && (s.clicks[c].action.AlwaysAllow? ==> c in s.answers && s.answers[c] == Shown(id, Loosen, true))
  {
    ReachableIsSound(s);
    assert CallInv(s, id);
    assert SentOk(s, id, SentTo(s, id)[0]);
  }

  // -------------------------------------------------------------------------
  // Where an answer leads
  // -------------------------------------------------------------------------

  /** The click carries the arguments the user left in the card. */
  lemma ClickOpens(s: State, c: ClickId, id: Id, action: Action, edited: Option<Args>)
    requires c !in s.clicks && id in s.pending && id in s.proposals
    ensures var args := if edited.Some? then edited.value else s.proposals[id].args;
            Next(s, OfClick(c, Open(id, action, edited))) == Some(s.(clicks := s.clicks[c := Click(id, action, args, None, Looked)]))
  {
  }

  /** The click `c` decided the call: the card is gone, that decision is the one
      sent, and the card was told so once. */
  ghost predicate Decided(s: State, id: Id, c: ClickId, d: Decision, event: Event) {
    && id !in s.pending && SentTo(s, id) == [Sent(c, d)] && EventsOf(s, id) == [event]
    && c in s.clicks && s.clicks[c].stage.Done?
  }

  /** Nothing about calls and cards changed. */
  ghost predicate Undecided(s: State, s': State) {
    && s'.calls == s.calls && s'.proposals == s.proposals
    && s'.pending == s.pending && s'.sent == s.sent && s'.events == s.events
  }

  ghost predicate Answering(s: State, c: ClickId, action: Action) {
    && Reachable(s) && c in s.clicks && s.clicks[c].stage.Looked? && s.clicks[c].action == action
    && s.clicks[c].id in s.pending && s.clicks[c].id in s.proposals
  }

  lemma SettlingDecides(s: State, c: ClickId) returns (s': State)
    requires Reachable(s) && c in s.clicks && s.clicks[c].stage.Settling? && s.clicks[c].id in s.pending
    ensures Next(s, OfClick(c, Settle)) == Some(s')
    ensures var d := s.clicks[c].stage.decision;
            Decided(s', s.clicks[c].id, c, d, if d.Run? then Ran else Declined)
  {
    ReachableIsSound(s);
    assert CallInv(s, s.clicks[c].id);
    s' := After(s, OfClick(c, Settle));
  }

  /** Saying no declines the call at once. */
  lemma DenyDeclines(s: State, c: ClickId, kindNow: Option<Kind>, planned: bool) returns (s': State)
    requires Answering(s, c, Deny)
    ensures Runs.IsRun(Next, s, [OfClick(c, Check(kindNow, planned)), OfClick(c, Settle)], s')
    ensures Decided(s', s.clicks[c].id, c, Decline, Declined)
  {
    var steps, mid := Runs.OneMore(Next, s, [], s, OfClick(c, Check(kindNow, planned)));
    mid := Reaches(s, OfClick(c, Check(kindNow, planned)));
    s' := SettlingDecides(mid, c);
    steps, s' := Runs.OneMore(Next, s, steps, mid, OfClick(c, Settle));
    assert steps == [OfClick(c, Check(kindNow, planned)), OfClick(c, Settle)];
  }

  /** A tool that only reads, then and now, runs with the arguments that fit. */
  lemma ReadRunsAtOnce(s: State, c: ClickId, planned: bool) returns (s': State)
    requires Answering(s, c, AllowOnce) && s.clicks[c].args in s.proposals[s.clicks[c].id].accepted
    requires s.proposals[s.clicks[c].id].kind.Read?
    ensures Runs.IsRun(Next, s, [OfClick(c, Check(Some(Read), planned)), OfClick(c, Settle)], s')
    ensures Decided(s', s.clicks[c].id, c, Run(s.clicks[c].args), Ran)
  {
    var steps, mid := Runs.OneMore(Next, s, [], s, OfClick(c, Check(Some(Read), planned)));
    mid := Reaches(s, OfClick(c, Check(Some(Read), planned)));
    s' := SettlingDecides(mid, c);
    steps, s' := Runs.OneMore(Next, s, steps, mid, OfClick(c, Settle));
    assert steps == [OfClick(c, Check(Some(Read), planned)), OfClick(c, Settle)];
  }

  /** The dialog a click must have before it may run its call: what it sends,
      for a tool that can change data then or now; the permission, for one that
      only reads and is to be allowed always. */
  ghost predicate NeedsDialog(k: Click, p: Proposal, kindNow: Option<Kind>, planned: bool, dialog: Dialog) {
    && k.args in p.accepted
    && match k.action
       case Deny => false
       case AllowOnce => (p.kind.Write? || kindNow != Some(Read)) && dialog.Send? && DialogArgs(k.args) == Some(dialog.text)
       case AlwaysAllow => p.kind.Read? && kindNow == Some(Read) && planned && dialog.Loosen?
  }

  /** Such a click opens that dialog, and nothing is decided yet. */
  lemma DialogOpens(s: State, c: ClickId, kindNow: Option<Kind>, planned: bool, dialog: Dialog) returns (s': State)
    requires c in s.clicks && s.clicks[c].stage.Looked? && s.clicks[c].id in s.pending && s.clicks[c].id in s.proposals
    requires NeedsDialog(s.clicks[c], s.proposals[s.clicks[c].id], kindNow, planned, dialog) && s.lock.None?
    ensures Runs.IsRun(Next, s, [OfClick(c, Check(kindNow, planned)), OfClick(c, TakeLock), OfClick(c, LookAgain(false))], s')
    ensures Undecided(s, s') && s'.answers == s.answers && s'.lock == Some(ByClick(c))
    ensures s'.clicks == s.clicks[c := s.clicks[c].(seen := kindNow, stage := Shows(dialog))]
  {
    var steps;
    steps, s' := Runs.OneMore(Next, s, [], s, OfClick(c, Check(kindNow, planned)));
    steps, s' := Runs.OneMore(Next, s, steps, s', OfClick(c, TakeLock));
    steps, s' := Runs.OneMore(Next, s, steps, s', OfClick(c, LookAgain(false)));
    assert steps == [OfClick(c, Check(kindNow, planned)), OfClick(c, TakeLock), OfClick(c, LookAgain(false))];
  }

  /** Allowed there (and the permission set, if it was asked for), the call runs
      with the click's arguments; the lock is free again. */
  lemma AllowedIsSent(s: State, c: ClickId) returns (s': State)
    requires Reachable(s) && c in s.clicks && s.clicks[c].stage.Shows? && s.clicks[c].id in s.pending
    ensures Runs.IsRun(Next, s, [OfClick(c, Answer(true, true)), OfClick(c, Settle)], s')
    ensures Decided(s', s.clicks[c].id, c, Run(s.clicks[c].args), Ran) && s'.lock.None?
    ensures s'.answers == s.answers[c := Shown(s.clicks[c].id, s.clicks[c].stage.dialog, true)]
  {
    var steps, mid := Runs.OneMore(Next, s, [], s, OfClick(c, Answer(true, true)));
    mid := Reaches(s, OfClick(c, Answer(true, true)));
    s' := SettlingDecides(mid, c);
    steps, s' := Runs.OneMore(Next, s, steps, mid, OfClick(c, Settle));
    assert steps == [OfClick(c, Answer(true, true)), OfClick(c, Settle)];
  }

  /** Refused there, or the permission couldn't be set: the click is over and the
      card stays as it is. Only the dialog of a permission minds `applied`. */
  lemma RefusedStaysOpen(s: State, c: ClickId, allow: bool, applied: bool)
    requires c in s.clicks && s.clicks[c].stage.Shows?
    ensures Next(s, OfClick(c, Answer(allow, applied))).Some?
    ensures var s' := Next(s, OfClick(c, Answer(allow, applied))).value;
            && Undecided(s, s') && s'.lock.None?
            && s'.answers == s.answers[c := Shown(s.clicks[c].id, s.clicks[c].stage.dialog, allow)]
            && s'.clicks == s.clicks[c := s.clicks[c].(stage :=
                 if !allow || (s.clicks[c].stage.dialog.Loosen? && !applied) then Done else Settling(Run(s.clicks[c].args)))]
  {
  }

  /** A click that may not run as it is: the arguments don't fit, the permission
      is for a tool that can change data or can't be planned, or the arguments
      can't be shown whole. It is over, and the card stays as it is. */
  lemma UnfitStaysOpen(s: State, c: ClickId, kindNow: Option<Kind>, planned: bool)
    requires c in s.clicks && s.clicks[c].stage.Looked? && s.clicks[c].id in s.proposals && !s.clicks[c].action.Deny?
    requires var k, p := s.clicks[c], s.proposals[s.clicks[c].id];
             var canChange := p.kind.Write? || kindNow != Some(Read);
             || k.args !in p.accepted
             || (k.action.AlwaysAllow? && (canChange || !planned))
             || (k.action.AllowOnce? && canChange && DialogArgs(k.args).None?)
    ensures Next(s, OfClick(c, Check(kindNow, planned))) ==
            Some(s.(clicks := s.clicks[c := s.clicks[c].(seen := kindNow, stage := Done)]))
  {
  }

  /** A click that comes too late sends nothing: one that still wanted to show
      what it sends gives up the lock, one that was allowed ends. */
  lemma TooLateSendsNothing(s: State, c: ClickId, quiet: bool)
    requires c in s.clicks && s.clicks[c].id !in s.pending
    ensures s.clicks[c].stage.Holds? && s.clicks[c].stage.dialog.Send? ==>
              Next(s, OfClick(c, LookAgain(quiet))) == Some(s.(clicks := s.clicks[c := s.clicks[c].(stage := Done)], lock := None))
    ensures s.clicks[c].stage.Settling? ==>
              Next(s, OfClick(c, Settle)) == Some(s.(clicks := s.clicks[c := s.clicks[c].(stage := Done)]))
  {
  }

  /** And once the card is gone no click finds it. */
  lemma GoneIsNotFound(s: State, c: ClickId, id: Id, action: Action, edited: Option<Args>)
    requires id !in s.pending
    ensures Next(s, OfClick(c, Open(id, action, edited))) == None
  {
  }

  /** A dialog that may not be shown just now ends its click too. */
  lemma QuietEndsTheClick(s: State, c: ClickId)
    requires c in s.clicks && s.clicks[c].stage.Holds?
    ensures Next(s, OfClick(c, LookAgain(true))) == Some(s.(clicks := s.clicks[c := s.clicks[c].(stage := Done)], lock := None))
  {
  }

  // -------------------------------------------------------------------------
  // How a call ends
  // -------------------------------------------------------------------------

  lemma ProposedIsPending(s: State, id: Id, p: Proposal)
    requires Reachable(s) && id !in s.proposals
    ensures Next(s, OfCall(id, Propose(p))).Some?
    ensures var s' := Next(s, OfCall(id, Propose(p))).value;
            && s'.proposals == s.proposals[id := p] && s'.calls == s.calls[id := Waiting] && s'.pending == s.pending + {id}
            && SentTo(s', id) == [] && EventsOf(s', id) == []
            && s' == s.(proposals := s'.proposals, calls := s'.calls, pending := s'.pending)
  {
    ReachableIsSound(s);
  }

  /** A decision wakes its call, which comes back with it; it can't time out any more. */
  lemma DecidedComesBack(s: State, id: Id, c: ClickId, d: Decision, event: Event)
    requires Decided(s, id, c, d, event) && id in s.calls && s.calls[id].Waiting?
    ensures Next(s, OfCall(id, Elapse)) == None
    ensures Next(s, OfCall(id, Wake)) == Some(s.(calls := s.calls[id := Returned(d)]))
  {
  }

  lemma PendingIsUntold(s: State, id: Id)
    requires Reachable(s) && id in s.pending
    ensures id in s.calls && SentTo(s, id) == [] && EventsOf(s, id) == []
  {
    ReachableIsSound(s);
    assert CallInv(s, id);
  }

  /** With no decision in ten minutes the call takes its card back and says so. */
  lemma UndecidedTimesOut(s: State, id: Id) returns (s': State)
    requires Reachable(s) && id in s.pending && id in s.calls && s.calls[id].Waiting?
    ensures Runs.IsRun(Next, s, [OfCall(id, Elapse), OfCall(id, GiveUp), OfCall(id, TellTimedOut)], s')
    ensures SentTo(s', id) == []
    ensures s' == s.(calls := s.calls[id := Returned(TimedOut)], pending := s.pending - {id}, events := s.events[id := [TimedOutEvent]])
  {
    PendingIsUntold(s, id);
    TakesItsCardBack(s, id);
    var mid := s.(calls := s.calls[id := Leaving], pending := s.pending - {id});
    s' := After(mid, OfCall(id, TellTimedOut));
    assert EventsOf(s, id) + [TimedOutEvent] == [TimedOutEvent];
    Runs.RunExtends(Next, s, [OfCall(id, Elapse), OfCall(id, GiveUp)], mid, OfCall(id, TellTimedOut));
    assert [OfCall(id, Elapse), OfCall(id, GiveUp)] + [OfCall(id, TellTimedOut)]
        == [OfCall(id, Elapse), OfCall(id, GiveUp), OfCall(id, TellTimedOut)];
  }

  lemma TakesItsCardBack(s: State, id: Id)
    requires id in s.calls && s.calls[id].Waiting? && SentTo(s, id) == []
    ensures Runs.IsRun(Next, s, [OfCall(id, Elapse), OfCall(id, GiveUp)],
                       s.(calls := s.calls[id := Leaving], pending := s.pending - {id}))
  {
    var steps, s' := Runs.OneMore(Next, s, [], s, OfCall(id, Elapse));
    assert s' == s.(calls := s.calls[id := Elapsed]);
    steps, s' := Runs.OneMore(Next, s, steps, s', OfCall(id, GiveUp));
    assert s'.calls == s.calls[id := Leaving];
    assert steps == [OfCall(id, Elapse), OfCall(id, GiveUp)];
  }

  /** A cancelled turn withdraws the card, and tells it so if it was still there. */
  lemma AbandonedIsWithdrawn(s: State, id: Id)
    requires Reachable(s) && id in s.calls && s.calls[id].Waiting?
    ensures var events := if id in s.pending then s.events[id := [Withdrawn]] else s.events;
            Next(s, OfCall(id, Abandon))
            == Some(s.(calls := s.calls[id := Abandoned], pending := s.pending - {id}, events := events))
  {
    if id in s.pending {
      PendingIsUntold(s, id);
      assert EventsOf(s, id) + [Withdrawn] == [Withdrawn];
    }
  }

  /** While another dialog holds the lock no click takes it. */
  lemma OtherDialogsKeepThemWaiting(s: State, c: ClickId)
    requires s.lock.None?
    ensures Next(s, OtherTakesLock).Some?
    ensures var held := Next(s, OtherTakesLock).value;
            && Next(held, OtherDropsLock) == Some(s)
            && Next(held, OfClick(c, TakeLock)) == None && Next(held, OtherTakesLock) == None
  {
  }

  // -------------------------------------------------------------------------
  // The events, and what can happen twice
  // -------------------------------------------------------------------------

  /** A card is told twice that it is settled exactly when the decision was
      sent after the ten minutes had passed and before the call withdrew. */
  lemma SettledTwice(s: State, id: Id)
    requires Reachable(s) && id in s.calls
    ensures |EventsOf(s, id)| <= 2
    ensures |EventsOf(s, id)| == 2 <==> s.calls[id] == Returned(TimedOut) && SentTo(s, id) != []
    ensures |EventsOf(s, id)| == 0 <==> id in s.pending || (s.calls[id].Leaving? && SentTo(s, id) == [])
  {
    ReachableIsSound(s);
    assert CallInv(s, id);
  }

  lemma AllowedReadSettling(id: Id, args: Args) returns (s: State)
    ensures Reachable(s) && id in s.calls && s.calls[id].Waiting? && id in s.pending
    ensures SentTo(s, id) == [] && EventsOf(s, id) == []
    ensures 0 in s.clicks && s.clicks[0] == Click(id, AllowOnce, args, Some(Read), Settling(Run(args)))
  {
    Runs.StartIsReachable(Next, Init());
    s := Reaches(Init(), OfCall(id, Propose(Proposal(Read, args, iset{args}))));
    s := Reaches(s, OfClick(0, Open(id, AllowOnce, None)));
    s := Reaches(s, OfClick(0, Check(Some(Read), true)));
  }

  /** It does happen: the card is told "ran", and then that the call timed out. */
  lemma ClickCanLoseToTheTimeout(id: Id, args: Args) returns (s: State)
    ensures Reachable(s) && id in s.calls && s.calls[id] == Returned(TimedOut)
    ensures EventsOf(s, id) == [Ran, TimedOutEvent]
  {
    s := AllowedReadSettling(id, args);
    s := Reaches(s, OfCall(id, Elapse));
    s := Reaches(s, OfClick(0, Settle));
    s := Reaches(s, OfCall(id, GiveUp));
    s := Reaches(s, OfCall(id, TellTimedOut));
  }

  /** The lock is free again before the allowed click settles its card, so a
      second click that waited for it still opens a second dialog. */
  lemma SecondDialogAfterAnAllow(id: Id, args: Args) returns (s: State)
    requires DialogArgs(args).Some?
    ensures Reachable(s) && 0 in s.clicks && 1 in s.clicks
    ensures s.clicks[0] == Click(id, AllowOnce, args, Some(Write), Settling(Run(args)))
    ensures s.clicks[1] == Click(id, AllowOnce, args, Some(Write), Shows(Send(DialogArgs(args).value)))
  {
    s := TwoClicksWanting(id, args);
    s := Reaches(s, OfClick(0, TakeLock));
    s := Reaches(s, OfClick(0, LookAgain(false)));
    s := Reaches(s, OfClick(0, Answer(true, true)));
    s := Reaches(s, OfClick(1, TakeLock));
    s := Reaches(s, OfClick(1, LookAgain(false)));
  }

  lemma TwoClicksWanting(id: Id, args: Args) returns (s: State)
    requires DialogArgs(args).Some?
    ensures Reachable(s) && s.lock.None? && id in s.pending && s.clicks.Keys == {0, 1}
    ensures s.clicks[0] == s.clicks[1] == Click(id, AllowOnce, args, Some(Write), Wants(Send(DialogArgs(args).value)))
  {
    Runs.StartIsReachable(Next, Init());
    s := Reaches(Init(), OfCall(id, Propose(Proposal(Write, args, iset{args}))));
    s := Reaches(s, OfClick(0, Open(id, AllowOnce, None)));
    s := Reaches(s, OfClick(1, Open(id, AllowOnce, None)));
    s := Reaches(s, OfClick(0, Check(Some(Write), true)));
    s := Reaches(s, OfClick(1, Check(Some(Write), true)));
  }
}
