/** Run of api/api.go for one address: a loop that restarts a connection run whenever the finish token
    arrives on a channel of capacity one, and what it does to the status of the address. */
module Reconnect {
  /** Where the loop is: waiting in its select, restarting after a token, or gone. */
  datatype Loop = Selecting | Restarting | Gone

  /** One connection run: has it dialled, has it sent its token, was the token taken. */
  datatype Epoch = Epoch(dialled: bool, finished: bool, taken: bool)

  /** f is the finish channel: the epochs whose tokens it holds. */
  datatype State = State(loop: Loop, ctxDone: bool, f: seq<nat>, online: bool, latch: bool, epochs: seq<Epoch>)

  datatype Step = EndContext | Dialled(k: nat) | DialFails(k: nat) | Finishes(k: nat) | TakeToken | Restart | GiveUp

  const CAPACITY := 1

  /** Run has just started its first run. */
  const INIT := State(Selecting, false, [], false, false, [Epoch(false, false, false)])

  predicate IsLive(s: State, k: nat) {
    k < |s.epochs| && !s.epochs[k].finished
  }

  /** Any live run may act at any time; sending a token needs room on f. */
  predicate Enabled(s: State, step: Step) {
    match step
    case EndContext => !s.ctxDone
    case Dialled(k) => IsLive(s, k) && !s.epochs[k].dialled
    case DialFails(k) => IsLive(s, k) && !s.epochs[k].dialled && |s.f| < CAPACITY
    case Finishes(k) => IsLive(s, k) && s.epochs[k].dialled && |s.f| < CAPACITY
    case TakeToken => s.loop == Selecting && s.f != [] && s.f[0] < |s.epochs|
    case Restart => s.loop == Restarting
    case GiveUp => s.loop == Selecting && s.ctxDone
  }

  function Apply(s: State, step: Step): State
    requires Enabled(s, step)
  {
    match step
    case EndContext => s.(ctxDone := true)
    case Dialled(k) => s.(online := true, latch := true, epochs := s.epochs[k := s.epochs[k].(dialled := true)])
    case DialFails(k) => s.(f := s.f + [k], epochs := s.epochs[k := s.epochs[k].(finished := true)])
    case Finishes(k) => s.(f := s.f + [k], epochs := s.epochs[k := s.epochs[k].(finished := true)])
    case TakeToken =>
      s.(loop := Restarting, f := s.f[1..], online := false, epochs := s.epochs[s.f[0] := s.epochs[s.f[0]].(taken := true)])
    case Restart => s.(loop := Selecting, epochs := s.epochs + [Epoch(false, false, false)])
    case GiveUp => s.(loop := Gone)
  }

  predicate IsServing(e: Epoch) {
    e.dialled && !e.finished
  }

  /** The number of goroutines executing run. */
  ghost function Live(s: State): nat {
    |set k | 0 <= k < |s.epochs| && !s.epochs[k].finished|
  }

  ghost predicate Inv(s: State) {
    && s.epochs != []
    && var n := |s.epochs| - 1; var last := s.epochs[n];
    && (forall i :: 0 <= i < n ==> s.epochs[i].finished && s.epochs[i].taken)
    && (last.taken ==> last.finished)
    && s.f == (if last.finished && !last.taken then [n] else [])
    && (s.loop == Restarting <==> last.taken)
    && (s.online <==> last.dialled && !last.taken)
    && (s.latch <==> EverDialled(s))
  }

  lemma LiveIs(s: State)
    requires Inv(s)
    ensures Live(s) == if s.epochs[|s.epochs| - 1].finished then 0 else 1
  {
    var n := |s.epochs| - 1;
    var live := set k | 0 <= k < |s.epochs| && !s.epochs[k].finished;
    assert live == if s.epochs[n].finished then {} else {n};
  }

  ghost predicate EverDialled(s: State) {
    exists i :: 0 <= i < |s.epochs| && s.epochs[i].dialled
  }

  lemma DialsAreKept(s: State, step: Step)
    requires Enabled(s, step)
    ensures EverDialled(Apply(s, step)) <==> EverDialled(s) || step.Dialled?
  {
    var s' := Apply(s, step);
    if EverDialled(s) {
      var i :| 0 <= i < |s.epochs| && s.epochs[i].dialled;
      assert s'.epochs[i].dialled;
    }
    if step.Dialled? {
      assert s'.epochs[step.k].dialled;
    } else if EverDialled(s') {
      var i :| 0 <= i < |s'.epochs| && s'.epochs[i].dialled;
      assert s.epochs[i].dialled;
    }
  }

  lemma StepKeepsInv(s: State, step: Step)
    requires Inv(s) && Enabled(s, step)
    ensures Inv(Apply(s, step))
    ensures s.latch ==> Apply(s, step).latch
  {
    DialsAreKept(s, step);
    hide EverDialled;
  }

  ghost predicate IsRun(states: seq<State>, steps: seq<Step>) {
    && |states| == |steps| + 1 && states[0] == INIT
    && forall i :: 0 <= i < |steps| ==> Enabled(states[i], steps[i]) && states[i + 1] == Apply(states[i], steps[i])
  }

  lemma {:induction false} RunKeepsInv(states: seq<State>, steps: seq<Step>, i: nat)
    requires IsRun(states, steps) && i < |states|
    ensures Inv(states[i])
  {
    hide Apply, Enabled;
    if i > 0 {
      RunKeepsInv(states, steps, i - 1);
      StepKeepsInv(states[i - 1], steps[i - 1]);
    }
  }

  /** Token conservation, in every run and even after the context ended: one run is live, or its token is
      in the channel, or the loop is restarting; exactly one of the three, exactly once. */
  lemma TokenConservation(states: seq<State>, steps: seq<Step>, i: nat)
    requires IsRun(states, steps) && i < |states|
    ensures Live(states[i]) + |states[i].f| + (if states[i].loop == Restarting then 1 else 0) == 1
  {
    RunKeepsInv(states, steps, i);
    LiveIs(states[i]);
  }

  /** Hence sending the token never blocks: a live run always has room for it. */
  lemma SendNeverBlocks(states: seq<State>, steps: seq<Step>, i: nat, k: nat)
    requires IsRun(states, steps) && i < |states| && IsLive(states[i], k)
    ensures Enabled(states[i], if states[i].epochs[k].dialled then Finishes(k) else DialFails(k))
  {
    RunKeepsInv(states, steps, i);
  }

  /** Two epochs of one address never serve at once. */
  lemma OneEpochServes(states: seq<State>, steps: seq<Step>, i: nat, a: nat, b: nat)
    requires IsRun(states, steps) && i < |states|
    requires a < |states[i].epochs| && b < |states[i].epochs|
    requires IsServing(states[i].epochs[a]) && IsServing(states[i].epochs[b])
    ensures a == b == |states[i].epochs| - 1
  {
    RunKeepsInv(states, steps, i);
  }

  /** The address is online exactly while some dialled epoch has its token not yet taken; that epoch
      serves, unless its token waits in the channel. */
  lemma OnlineIffTokenNotTaken(states: seq<State>, steps: seq<Step>, i: nat)
    requires IsRun(states, steps) && i < |states|
    ensures var s := states[i];
            && (s.online <==> exists k :: 0 <= k < |s.epochs| && s.epochs[k].dialled && !s.epochs[k].taken)
            && (s.online ==> (s.f == [] <==> exists k :: 0 <= k < |s.epochs| && IsServing(s.epochs[k])))
  {
    RunKeepsInv(states, steps, i);
    var s := states[i];
    var last := s.epochs[|s.epochs| - 1];
    assert s.online ==> last.dialled && !last.taken;
    assert s.online && s.f == [] ==> IsServing(last);
  }

  /** The latch says that a dial ever succeeded, and nothing takes that back. */
  lemma {:induction false} LatchNeverFalls(states: seq<State>, steps: seq<Step>, i: nat, j: nat)
    requires IsRun(states, steps) && i <= j < |states|
    ensures states[i].latch ==> states[j].latch
  {
    hide Apply, Enabled;
    if i < j {
      LatchNeverFalls(states, steps, i, j - 1);
      RunKeepsInv(states, steps, j - 1);
      StepKeepsInv(states[j - 1], steps[j - 1]);
    }
  }

  // ----- while the context lasts

  lemma {:induction false} GoneMeansEnded(states: seq<State>, steps: seq<Step>, i: nat)
    requires IsRun(states, steps) && i < |states|
    ensures states[i].loop == Gone ==> states[i].ctxDone
  {
    if i > 0 {
      GoneMeansEnded(states, steps, i - 1);
    }
  }

  /** Until the context ends a connection that was lost always comes back: with no run live, the loop can take
      the token, then the address is offline, and restart, and then one run is live that has yet to dial. */
  lemma ComesBack(states: seq<State>, steps: seq<Step>, i: nat)
    requires IsRun(states, steps) && i < |states| && !states[i].ctxDone && Live(states[i]) == 0
    ensures var s := states[i];
            && (s.loop == Selecting ==> Enabled(s, TakeToken) && Enabled(Apply(s, TakeToken), Restart))
            && (s.loop != Selecting ==> Enabled(s, Restart))
            && var before := if s.loop == Selecting then Apply(s, TakeToken) else s;
               var after := Apply(before, Restart);
               && !before.online && !after.online && after.f == [] && after.loop == Selecting
               && after.epochs == before.epochs + [Epoch(false, false, false)] && Live(after) == 1
  {
    GoneMeansEnded(states, steps, i);
    RunKeepsInv(states, steps, i);
    var s := states[i];
    LiveIs(s);
    if s.loop == Selecting {
      StepKeepsInv(s, TakeToken);
      StepKeepsInv(Apply(s, TakeToken), Restart);
      LiveIs(Apply(Apply(s, TakeToken), Restart));
    } else {
      StepKeepsInv(s, Restart);
      LiveIs(Apply(s, Restart));
    }
  }

  /** The run that is live can dial, which puts the address online; or fail to dial, or finish once it has
      dialled, and leave its token. */
  lemma LiveRunCanAct(states: seq<State>, steps: seq<Step>, i: nat, k: nat)
    requires IsRun(states, steps) && i < |states| && IsLive(states[i], k)
    ensures var s := states[i];
            if s.epochs[k].dialled
            then Enabled(s, Finishes(k)) && Apply(s, Finishes(k)).f == [k] && Live(Apply(s, Finishes(k))) == 0
            else && Enabled(s, Dialled(k)) && Apply(s, Dialled(k)).online && Live(Apply(s, Dialled(k))) == 1
                 && Enabled(s, DialFails(k)) && Apply(s, DialFails(k)).f == [k] && Live(Apply(s, DialFails(k))) == 0
  {
    RunKeepsInv(states, steps, i);
    SendNeverBlocks(states, steps, i, k);
    var s := states[i];
    if s.epochs[k].dialled {
      StepKeepsInv(s, Finishes(k));
      LiveIs(Apply(s, Finishes(k)));
    } else {
      StepKeepsInv(s, Dialled(k));
      LiveIs(Apply(s, Dialled(k)));
      StepKeepsInv(s, DialFails(k));
      LiveIs(Apply(s, DialFails(k)));
    }
  }

  // ----- after the context has ended

  function Last(s: State): Epoch
    requires s.epochs != []
  {
    s.epochs[|s.epochs| - 1]
  }

  lemma GoneStep(s: State, step: Step)
    requires Inv(s) && Enabled(s, step) && s.loop == Gone
    ensures var s' := Apply(s, step);
            && s'.loop == Gone && |s'.epochs| == |s.epochs|
            && (Last(s).dialled ==> Last(s').dialled)
            && (Last(s).finished ==> Last(s').finished && Last(s').dialled == Last(s).dialled)
  {
  }

  /** Once the loop has gone it stays gone and starts no run again; from then on the address is online exactly
      when its last run has dialled, so that it never falls, and rises at most once, should that run still dial. */
  lemma {:induction false} OnlineOnceGone(states: seq<State>, steps: seq<Step>, i: nat, j: nat)
    requires IsRun(states, steps) && i <= j < |states| && states[i].loop == Gone
    ensures states[i].epochs != [] && states[j].epochs != []
    ensures states[j].loop == Gone && |states[j].epochs| == |states[i].epochs|
    ensures states[j].online <==> Last(states[j]).dialled
    ensures states[i].online ==> states[j].online
    ensures Last(states[i]).finished ==> Last(states[j]).finished && Last(states[j]).dialled == Last(states[i]).dialled
  {
    hide Apply, Enabled;
    RunKeepsInv(states, steps, i);
    RunKeepsInv(states, steps, j);
    if i < j {
      OnlineOnceGone(states, steps, i, j - 1);
      RunKeepsInv(states, steps, j - 1);
      GoneStep(states[j - 1], steps[j - 1]);
    }
  }

  /** The status stays online for good, with nothing serving and the token left in the channel, if and only if
      the run that outlived the loop had dialled before it finished. */
  lemma StaleForGoodIff(states: seq<State>, steps: seq<Step>, i: nat, j: nat)
    requires IsRun(states, steps) && i <= j < |states| && states[i].loop == Gone
    requires states[i].epochs != [] && Last(states[i]).finished
    ensures Live(states[j]) == 0 && states[j].f == [|states[i].epochs| - 1]
    ensures states[j].online <==> Last(states[i]).dialled
  {
    OnlineOnceGone(states, steps, i, j);
    RunKeepsInv(states, steps, j);
    LiveIs(states[j]);
  }

  /** Such a run exists: it dials, the context ends, the loop goes, the run finishes. */
  lemma StaleOnlineAfterContextEnds()
    ensures exists states: seq<State>, steps: seq<Step> ::
              IsRun(states, steps) && states[|steps|].loop == Gone && states[|steps|].online
              && states[|steps|].f == [0] && Live(states[|steps|]) == 0
  {
    var s1 := Apply(INIT, Dialled(0));
    var s2 := Apply(s1, EndContext);
    var s3 := Apply(s2, GiveUp);
    var s4 := Apply(s3, Finishes(0));
    var states, steps := [INIT, s1, s2, s3, s4], [Dialled(0), EndContext, GiveUp, Finishes(0)];
    assert IsRun(states, steps);
    RunKeepsInv(states, steps, 4);
    LiveIs(s4);
    assert states[|steps|] == s4;
  }
}
