/** A sweep of the timeout checker or of the teardown, as one run of a connection does it over its own
    map (Connection), is a stretch of steps of the multiplexer, one for every entry it fails. */
module Sweeps {
  import opened Rpc
  import opened Connection
  import opened Multiplexer

  /** A stretch of a run: consecutive steps from any state. */
  ghost predicate IsStretch(timeout: nat, states: seq<Mux>, steps: seq<Step>) {
    && |states| == |steps| + 1
    && forall i :: 0 <= i < |steps| ==>
         Enabled(timeout, states[i], steps[i]) && states[i + 1] == Apply(timeout, states[i], steps[i])
  }

  function StepFor(e: nat, w: nat, fault: Fault): Step {
    if fault == RequestTimedOut then Expire(e, w) else DrainOne(e, w)
  }

  /** The steps fail the entries of connection e that order names, in that order. */
  ghost predicate IsSweep(steps: seq<Step>, e: nat, order: seq<nat>, fault: Fault) {
    && fault != EncodeFailed && |steps| == |order|
    && forall i :: 0 <= i < |order| ==> steps[i] == StepFor(e, order[i], fault)
  }

  /** What was ever sent on a channel. */
  ghost function SaidOn(s: Mux, ch: nat): (rs: seq<Response>)
    requires ch in s.chans
    ensures |rs| == |s.chans[ch].log| && forall i :: 0 <= i < |rs| ==> rs[i] == s.chans[ch].log[i].resp
  {
    seq(|s.chans[ch].log|, i requires 0 <= i < |s.chans[ch].log| => s.chans[ch].log[i].resp)
  }

  /** The responses among sent that go to ch, in order. */
  function To(ch: nat, sent: seq<Delivery>): seq<Response> {
    if sent == [] then []
    else
      var last := sent[|sent| - 1];
      To(ch, sent[..|sent| - 1]) + (if last.ch == ch then [last.resp] else [])
  }

  ghost function Listed(order: seq<nat>): set<nat> {
    set w | w in order
  }

  /** From s to s' the entry of wire id w, and no other, fails. */
  ghost predicate EntryFails(s: Mux, s': Mux, e: nat, w: nat, fault: Fault, ch: nat) {
    && IsEntry(s, e, w) && ch in s.chans && ch in s'.chans && s'.now == s.now && |s'.conns| == |s.conns|
    && s'.conns[e].phase == s.conns[e].phase && s'.conns[e].checking == s.conns[e].checking
    && s'.conns[e].core == Without(s.conns[e].core, {w})
    && var entry := s.conns[e].core.store[w];
       SaidOn(s', ch) == SaidOn(s, ch) + (if entry.ch == ch then [Failed(entry, fault)] else [])
  }

  lemma SweepStep(timeout: nat, s: Mux, e: nat, w: nat, fault: Fault, ch: nat)
    requires fault != EncodeFailed && Enabled(timeout, s, StepFor(e, w, fault)) && ch in s.chans
    ensures EntryFails(s, Apply(timeout, s, StepFor(e, w, fault)), e, w, fault, ch)
  {
    var s' := Apply(timeout, s, StepFor(e, w, fault));
    var entry := s.conns[e].core.store[w];
    if entry.ch == ch {
      assert s'.chans[ch].log == s.chans[ch].log + [Item(Failed(entry, fault), s.conns[e].owner[w])];
    }
  }

  lemma OneMoreTo(ch: nat, sent: seq<Delivery>, d: Delivery)
    ensures To(ch, sent + [d]) == To(ch, sent) + (if d.ch == ch then [d.resp] else [])
  {
    assert (sent + [d])[..|sent|] == sent;
  }

  /** From s to s' the entries in done have failed: the map has lost them, and ch has been sent exactly
      the failures of those of them that were its own, in order. */
  ghost predicate Swept(s: Mux, s': Mux, e: nat, done: seq<nat>, fault: Fault, ch: nat) {
    && e < |s.conns| && |s'.conns| == |s.conns| && ch in s.chans && ch in s'.chans && s'.now == s.now
    && s'.conns[e].phase == s.conns[e].phase && s'.conns[e].checking == s.conns[e].checking
    && s'.conns[e].core == Without(s.conns[e].core, Listed(done))
    && (forall w <- done :: w in s.conns[e].core.store)
    && SaidOn(s', ch) == SaidOn(s, ch) + To(ch, Failures(s.conns[e].core.store, done, fault))
  }

  lemma OneMoreSwept(s0: Mux, s: Mux, s': Mux, e: nat, done: seq<nat>, w: nat, fault: Fault, ch: nat)
    requires Swept(s0, s, e, done, fault, ch) && EntryFails(s, s', e, w, fault, ch)
    ensures Swept(s0, s', e, done + [w], fault, ch)
  {
    hide SaidOn, Failures, To;
    var store := s0.conns[e].core.store;
    assert Listed(done + [w]) == Listed(done) + {w};
    OneMoreRemoved(store, Listed(done), w);
    OneMoreFailed(store, done, fault, w);
    OneMoreTo(ch, Failures(store, done, fault), Delivery(store[w].ch, Failed(store[w], fault)));
  }

  lemma NothingSwept(s: Mux, e: nat, fault: Fault, ch: nat)
    requires e < |s.conns| && ch in s.chans
    ensures Swept(s, s, e, [], fault, ch)
  {
    assert s.conns[e].core.store - Listed([]) == s.conns[e].core.store;
  }

  lemma HasChannel(s0: Mux, s: Mux, e: nat, done: seq<nat>, fault: Fault, ch: nat)
    requires Swept(s0, s, e, done, fault, ch)
    ensures ch in s.chans
  {
  }

  lemma {:induction false} SweepSoFar(timeout: nat, states: seq<Mux>, steps: seq<Step>, e: nat, order: seq<nat>,
                                      fault: Fault, ch: nat, n: nat)
    requires IsStretch(timeout, states, steps) && IsSweep(steps, e, order, fault)
    requires e < |states[0].conns| && ch in states[0].chans && n <= |order|
    ensures Swept(states[0], states[n], e, order[..n], fault, ch)
  {
    hide Apply, Enabled, Swept, StepFor;
    if n > 0 {
      SweepSoFar(timeout, states, steps, e, order, fault, ch, n - 1);
      assert steps[n - 1] == StepFor(e, order[n - 1], fault);
      assert order[..n] == order[..n - 1] + [order[n - 1]];
      HasChannel(states[0], states[n - 1], e, order[..n - 1], fault, ch);
      SweepStep(timeout, states[n - 1], e, order[n - 1], fault, ch);
      OneMoreSwept(states[0], states[n - 1], states[n], e, order[..n - 1], order[n - 1], fault, ch);
    } else {
      NothingSwept(states[0], e, fault, ch);
      assert order[..n] == [];
    }
  }

  /** What a whole sweep leaves behind, with nothing else in between. */
  lemma AllSwept(timeout: nat, states: seq<Mux>, steps: seq<Step>, e: nat, order: seq<nat>, keys: set<nat>,
                 fault: Fault, ch: nat)
    requires IsStretch(timeout, states, steps) && IsSweep(steps, e, order, fault) && Enumerates(order, keys)
    requires e < |states[0].conns| && ch in states[0].chans
    ensures Swept(states[0], states[|order|], e, order, fault, ch) && Listed(order) == keys
  {
    hide Swept, IsStretch, IsSweep;
    SweepSoFar(timeout, states, steps, e, order, fault, ch, |order|);
    assert order[..|order|] == order;
  }

  /** The teardown of Connection.Drain, step by step in the multiplexer: it sends what the method sends,
      empties the map, and lets the run finish. */
  lemma DrainIsItsSteps(timeout: nat, states: seq<Mux>, steps: seq<Step>, e: nat, order: seq<nat>, ch: nat)
    requires IsStretch(timeout, states, steps) && IsSweep(steps, e, order, ConnectionClosed)
    requires e < |states[0].conns| && states[0].conns[e].phase == Draining && ch in states[0].chans
    requires Enumerates(order, states[0].conns[e].core.store.Keys)
    ensures var s, s' := states[0], states[|order|];
            && Swept(s, s', e, order, ConnectionClosed, ch)
            && s'.conns[e].core == Core(s.conns[e].core.next, map[]) && Enabled(timeout, s', Finish(e))
  {
    hide Apply, SaidOn, To, Failures;
    AllSwept(timeout, states, steps, e, order, states[0].conns[e].core.store.Keys, ConnectionClosed, ch);
  }

  /** The tick of Connection.CheckTimeouts, step by step in the multiplexer: it sends what the method
      sends, removes what the method removes, and completes the tick. */
  lemma CheckIsItsSteps(timeout: nat, states: seq<Mux>, steps: seq<Step>, e: nat, order: seq<nat>, ch: nat)
    requires IsStretch(timeout, states, steps) && IsSweep(steps, e, order, RequestTimedOut)
    requires e < |states[0].conns| && states[0].conns[e].checking && ch in states[0].chans
    requires Enumerates(order, ExpiredKeys(states[0].conns[e].core.store, states[0].now, timeout))
    ensures var s, s' := states[0], states[|order|];
            && Swept(s, s', e, order, RequestTimedOut, ch)
            && s'.conns[e].core == Without(s.conns[e].core, ExpiredKeys(s.conns[e].core.store, s.now, timeout))
            && Enabled(timeout, s', Tick(e))
  {
    hide Apply, SaidOn, To, Failures;
    AllSwept(timeout, states, steps, e, order, ExpiredKeys(states[0].conns[e].core.store, states[0].now, timeout),
             RequestTimedOut, ch);
  }
}
