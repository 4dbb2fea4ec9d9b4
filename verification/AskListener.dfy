// One event listener shared by every mounted Ask view: it is registered
// asynchronously when the first view mounts and closed when the last one goes,
// whenever the registration comes through.
module AskListener {
  import opened Wrappers
  import Runs

  /** Waiting for the runtime, listening, closed again, or refused. */
  datatype Progress = Waiting | Live | Closed | Failed

  datatype Registration = Registration(gen: nat, progress: Progress)

  /** `holders`, `listenGen` and `unlisten` are the store's; `released` says of
      each handle given out whether it was released, and `regs` what became of
      each registration. */
  datatype Listening = Listening(
    holders: int, listenGen: nat, unlisten: Option<nat>,
    released: seq<bool>, regs: seq<Registration>)

  function Fresh(): Listening {
    Listening(0, 0, None, [], [])
  }

  function Marked(regs: seq<Registration>, r: nat, progress: Progress): seq<Registration>
    requires r < |regs|
  {
    regs[r := regs[r].(progress := progress)]
  }

  datatype Op = Retain | Release(handle: nat) | Resolve(reg: nat) | Reject(reg: nat)

  predicate Enabled(s: Listening, op: Op) {
    match op
    case Retain => true
    case Release(h) => h < |s.released| && (s.unlisten.Some? ==> s.unlisten.value < |s.regs|)
    case Resolve(r) => r < |s.regs| && s.regs[r].progress.Waiting?
    case Reject(r) => r < |s.regs| && s.regs[r].progress.Waiting?
  }

  function Apply(s: Listening, op: Op): Listening
    requires Enabled(s, op)
  {
    match op
    case Retain =>
      var t := s.(holders := s.holders + 1, released := s.released + [false]);
      if t.holders == 1 then
        t.(listenGen := s.listenGen + 1, regs := s.regs + [Registration(s.listenGen + 1, Waiting)])
      else t
    case Release(h) =>
      if s.released[h] then s
      else
        var t := s.(holders := s.holders - 1, released := s.released[h := true]);
        if t.holders == 0 then
          t.(listenGen := s.listenGen + 1, unlisten := None,
             regs := if s.unlisten.Some? then Marked(s.regs, s.unlisten.value, Closed) else s.regs)
        else t
    case Resolve(r) =>
      if s.regs[r].gen == s.listenGen && s.holders > 0 then s.(unlisten := Some(r), regs := Marked(s.regs, r, Live))
      else s.(regs := Marked(s.regs, r, Closed))
    case Reject(r) => s.(regs := Marked(s.regs, r, Failed))
  }

  function Unreleased(released: seq<bool>): nat {
    if released == [] then 0
    else Unreleased(released[..|released| - 1]) + (if released[|released| - 1] then 0 else 1)
  }

  /** Registrations are numbered upwards, up to the current generation. */
  ghost predicate Numbered(s: Listening) {
    && (forall r | 0 <= r < |s.regs| :: s.regs[r].gen <= s.listenGen)
    && (forall q, r | 0 <= q < r < |s.regs| :: s.regs[q].gen < s.regs[r].gen)
  }

  /** The live listener is the one kept, and of the current generation. While a
      view holds on, the newest registration is the current one, and it is not
      closed; without a view, none is current. */
  ghost predicate Kept(s: Listening) {
    && (s.unlisten.Some? ==>
          s.unlisten.value < |s.regs| && s.regs[s.unlisten.value] == Registration(s.listenGen, Live))
    && (forall r | 0 <= r < |s.regs| && s.regs[r].progress.Live? :: s.unlisten == Some(r))
    && (s.holders > 0 ==>
          && |s.regs| > 0 && s.regs[|s.regs| - 1].gen == s.listenGen
          && !s.regs[|s.regs| - 1].progress.Closed?)
    && (s.holders == 0 ==> s.unlisten.None? && forall r | 0 <= r < |s.regs| :: s.regs[r].gen < s.listenGen)
  }

  ghost predicate Inv(s: Listening) {
    && s.holders == Unreleased(s.released)
    && Numbered(s)
    && Kept(s)
  }

  lemma {:induction false} ReleasingOne(released: seq<bool>, h: nat)
    requires h < |released| && !released[h]
    ensures Unreleased(released[h := true]) == Unreleased(released) - 1
  {
    var n := |released| - 1;
    if h < n {
      ReleasingOne(released[..n], h);
      assert released[h := true][..n] == released[..n][h := true];
    } else {
      assert released[h := true][..n] == released[..n];
    }
  }

  lemma RetainKeepsNumbers(s: Listening)
    requires Numbered(s) && (s.holders == 0 ==> Kept(s))
    ensures Numbered(Apply(s, Retain))
  {
  }

  lemma RetainKeepsKept(s: Listening)
    requires Kept(s) && s.holders >= 0
    ensures Kept(Apply(s, Retain))
  {
  }

  lemma RetainKeepsInv(s: Listening)
    requires Inv(s)
    ensures Inv(Apply(s, Retain))
  {
    assert (s.released + [false])[..|s.released|] == s.released;
    RetainKeepsNumbers(s);
    RetainKeepsKept(s);
  }

  lemma ReleaseKeepsInv(s: Listening, h: nat)
    requires Inv(s) && Enabled(s, Release(h))
    ensures Inv(Apply(s, Release(h)))
  {
    if !s.released[h] {
      ReleasingOne(s.released, h);
    }
  }

  lemma SettleKeepsInv(s: Listening, op: Op)
    requires Inv(s) && Enabled(s, op) && (op.Resolve? || op.Reject?)
    ensures Inv(Apply(s, op))
  {
    if op.Resolve? && s.regs[op.reg].gen == s.listenGen {
      assert op.reg == |s.regs| - 1;
    }
  }

  lemma ApplyKeepsInv(s: Listening, op: Op)
    requires Inv(s) && Enabled(s, op)
    ensures Inv(Apply(s, op))
  {
    match op
    case Retain => RetainKeepsInv(s);
    case Release(h) => ReleaseKeepsInv(s, h);
    case _ => SettleKeepsInv(s, op);
  }

  function Next(s: Listening, op: Op): Option<Listening> {
    if Enabled(s, op) then Some(Apply(s, op)) else None
  }

  ghost predicate Reachable(s: Listening) {
    Runs.Reachable(Next, Fresh(), s)
  }

  lemma ReachableIsSound(s: Listening)
    requires Reachable(s)
    ensures Inv(s)
  {
    var ops :| Runs.IsRun(Next, Fresh(), ops, s);
    forall a, op | Inv(a) && Next(a, op).Some?
      ensures Inv(Next(a, op).value)
    {
      ApplyKeepsInv(a, op);
    }
    Runs.RunKeeps(Next, Inv, Fresh(), ops, s);
  }

  /** In every interleaving of mounts, releases and late registrations: the
      holders are the handles not yet released; a registration that came
      through is the one kept or is closed; at most one is live, none without a
      holder; and with a holder, the current one is live unless it still waits
      or was refused. */
  lemma ListenersAreAccountedFor(s: Listening)
    requires Reachable(s)
    ensures s.holders == Unreleased(s.released)
    ensures forall r | 0 <= r < |s.regs| :: s.regs[r].progress.Live? <==> s.unlisten == Some(r)
    ensures s.holders == 0 ==> forall r | 0 <= r < |s.regs| :: !s.regs[r].progress.Live?
    ensures s.holders > 0 ==>
              |s.regs| > 0 && s.regs[|s.regs| - 1].gen == s.listenGen
              && (s.regs[|s.regs| - 1].progress.Live? || s.regs[|s.regs| - 1].progress.Waiting?
                  || s.regs[|s.regs| - 1].progress.Failed?)
  {
    ReachableIsSound(s);
  }

  /** A refused registration is not tried again while any view holds on. */
  lemma {:induction false} RefusedStaysRefused(s: Listening, ops: seq<Op>, s': Listening)
    requires Inv(s) && Runs.IsRun(Next, s, ops, s') && s.holders > 0 && s.regs[|s.regs| - 1].progress.Failed?
    requires s'.listenGen == s.listenGen
    ensures s'.holders > 0 && s'.unlisten.None? && |s'.regs| == |s.regs|
    decreases |ops|
  {
    if ops != [] {
      var next := Apply(s, ops[0]);
      ApplyKeepsInv(s, ops[0]);
      GenerationGrows(next, ops[1..], s');
      assert ops[0].Retain? ==> next.regs == s.regs;
      RefusedStaysRefused(next, ops[1..], s');
    }
  }

  lemma {:induction false} GenerationGrows(s: Listening, ops: seq<Op>, s': Listening)
    requires Runs.IsRun(Next, s, ops, s')
    ensures s.listenGen <= s'.listenGen
    decreases |ops|
  {
    if ops != [] {
      GenerationGrows(Apply(s, ops[0]), ops[1..], s');
    }
  }

  function Retains(ops: seq<Op>): nat
    decreases |ops|
  {
    if ops == [] then 0 else Retains(ops[..|ops| - 1]) + if ops[|ops| - 1].Retain? then 1 else 0
  }

  lemma {:induction false} HandlesFollowTheRun(ops: seq<Op>, s: Listening, h: nat)
    requires Runs.IsRun(Next, Fresh(), ops, s)
    ensures |s.released| == Retains(ops)
    ensures h < |s.released| ==> (s.released[h] <==> Release(h) in ops)
    ensures Release(h) in ops ==> h < |s.released|
    decreases |ops|
  {
    if ops != [] {
      var n := |ops| - 1;
      var mid := Runs.RunSplits(Next, Fresh(), ops, s);
      HandlesFollowTheRun(ops[..n], mid, h);
      assert ops == ops[..n] + [ops[n]];
    }
  }

  lemma {:induction false} SettlingFollowsTheRun(ops: seq<Op>, s: Listening, r: nat)
    requires Runs.IsRun(Next, Fresh(), ops, s)
    ensures r < |s.regs| ==> (s.regs[r].progress.Failed? <==> Reject(r) in ops)
    ensures r < |s.regs| ==> (s.regs[r].progress.Waiting? <==> Reject(r) !in ops && Resolve(r) !in ops)
    ensures Reject(r) in ops || Resolve(r) in ops ==> r < |s.regs|
    decreases |ops|
  {
    if ops != [] {
      var n := |ops| - 1;
      var mid := Runs.RunSplits(Next, Fresh(), ops, s);
      SettlingFollowsTheRun(ops[..n], mid, r);
      assert Reachable(mid);
      ReachableIsSound(mid);
      assert ops == ops[..n] + [ops[n]];
    }
  }

  /** What became of each handle and registration is what the run did to it: a
      handle is given out by each mount and released when asked to; a
      registration waits until it comes through or is refused, and is a failure
      only if it was refused. */
  lemma RegistrationsFollowTheRun(ops: seq<Op>, s: Listening, r: nat, h: nat)
    requires Runs.IsRun(Next, Fresh(), ops, s)
    ensures |s.released| == Retains(ops)
    ensures h < |s.released| ==> (s.released[h] <==> Release(h) in ops)
    ensures r < |s.regs| ==> (s.regs[r].progress.Failed? <==> Reject(r) in ops)
    ensures r < |s.regs| ==> (s.regs[r].progress.Waiting? <==> Reject(r) !in ops && Resolve(r) !in ops)
  {
    HandlesFollowTheRun(ops, s, h);
    SettlingFollowsTheRun(ops, s, r);
  }

  /** A registration that comes through goes live if it is the current one and a
      view holds on, and is closed again otherwise. */
  lemma ResolvedIsKeptOrClosed(s: Listening, r: nat)
    requires r < |s.regs| && s.regs[r].progress.Waiting?
    ensures var kept := s.regs[r].gen == s.listenGen && s.holders > 0;
            Next(s, Resolve(r)) == Some(s.(
              unlisten := if kept then Some(r) else s.unlisten,
              regs := s.regs[r := Registration(s.regs[r].gen, if kept then Live else Closed)]))
  {
  }

  // -------------------------------------------------------------------------
  // The store
  // -------------------------------------------------------------------------

  class AskChatStore {
    var holders: int
    var listenGen: nat
    var unlisten: Option<nat>
    var released: seq<bool>
    var regs: seq<Registration>

    ghost function Now(): Listening
      reads this
    {
      Listening(holders, listenGen, unlisten, released, regs)
    }

    constructor ()
      ensures Now() == Fresh()
    {
      holders, listenGen, unlisten, released, regs := 0, 0, None, [], [];
    }

    method CloseListener(r: nat)
      requires r < |regs|
      modifies this`regs
      ensures regs == Marked(old(regs), r, Closed)
    {
      regs := regs[r := regs[r].(progress := Closed)];
    }

    method Retain() returns (handle: nat)
      modifies this
      ensures Now() == Apply(old(Now()), Op.Retain)
      ensures handle == |old(released)| && !released[handle]
    {
      handle := |released|;
      released := released + [false];
      holders := holders + 1;
      if holders == 1 {
        listenGen := listenGen + 1;
        regs := regs + [Registration(listenGen, Waiting)];
      }
    }

    method Release(handle: nat)
      requires Enabled(Now(), Op.Release(handle))
      modifies this
      ensures Now() == Apply(old(Now()), Op.Release(handle))
    {
      if released[handle] {
        return;
      }
      released := released[handle := true];
      holders := holders - 1;
      if holders == 0 {
        listenGen := listenGen + 1;
        if unlisten.Some? {
          CloseListener(unlisten.value);
        }
        unlisten := None;
      }
    }

    /** The registration came through. */
    method Resolve(r: nat)
      requires Enabled(Now(), Op.Resolve(r))
      modifies this
      ensures Now() == Apply(old(Now()), Op.Resolve(r))
    {
      if regs[r].gen == listenGen && holders > 0 {
        unlisten := Some(r);
        regs := regs[r := regs[r].(progress := Live)];
      } else {
        CloseListener(r);
      }
    }
  }
}
