/** How old a pending entry can get (api/api.go, timeoutChecker), in seconds of discrete time. */
module Ageing {
  import opened Connection
  import opened Multiplexer
  import opened Calls

  const TICK := 10

  /** What the last tick of a connection left behind was not yet expired then. */
  ghost predicate Ticked(timeout: nat, s: Mux, e: nat)
    requires e < |s.conns|
  {
    && s.conns[e].lastTick <= s.now
    && forall w <- s.conns[e].core.store ::
         s.conns[e].core.store[w].time <= s.now && s.conns[e].lastTick <= s.conns[e].core.store[w].time + timeout
  }

  ghost predicate TimeInv(timeout: nat, s: Mux) {
    forall e :: 0 <= e < |s.conns| ==> Ticked(timeout, s, e)
  }

  /** What a step does to the map and the last tick of a connection: entries come in with the present time,
      and only a tick moves the last tick. */
  lemma EntriesComeNow(timeout: nat, s: Mux, step: Step, e: nat)
    requires Enabled(timeout, s, step) && e < |s.conns|
    ensures var s' := Apply(timeout, s, step);
            && e < |s'.conns| && s.now <= s'.now && (!step.Advance? ==> s'.now == s.now)
            && (forall w <- s'.conns[e].core.store ::
                  (w in s.conns[e].core.store && s'.conns[e].core.store[w] == s.conns[e].core.store[w])
                  || s'.conns[e].core.store[w].time == s'.now)
            && s'.conns[e].lastTick == (if step == Tick(e) then s.now else s.conns[e].lastTick)
  {
  }

  lemma StepKeepsTimeInv(timeout: nat, s: Mux, step: Step)
    requires TimeInv(timeout, s) && Enabled(timeout, s, step)
    ensures TimeInv(timeout, Apply(timeout, s, step))
  {
    var s' := Apply(timeout, s, step);
    forall e | 0 <= e < |s'.conns| ensures Ticked(timeout, s', e) {
      if e < |s.conns| {
        OldIsTicked(timeout, s, step, e);
      } else {
        assert step.Dial?;
      }
    }
  }

  lemma OldIsTicked(timeout: nat, s: Mux, step: Step, e: nat)
    requires TimeInv(timeout, s) && Enabled(timeout, s, step) && e < |s.conns|
    ensures e < |Apply(timeout, s, step).conns| && Ticked(timeout, Apply(timeout, s, step), e)
  {
    assert Ticked(timeout, s, e);
    EntriesComeNow(timeout, s, step, e);
    if step == Tick(e) {
      TickLeavesNoneExpired(timeout, s, e);
    }
    hide Apply, Enabled;
  }

  lemma TickLeavesNoneExpired(timeout: nat, s: Mux, e: nat)
    requires Enabled(timeout, s, Tick(e))
    ensures forall w <- s.conns[e].core.store :: s.now <= s.conns[e].core.store[w].time + timeout
  {
    forall w | w in s.conns[e].core.store ensures s.now <= s.conns[e].core.store[w].time + timeout {
      assert w !in ExpiredKeys(s.conns[e].core.store, s.now, timeout);
    }
  }

  lemma {:induction false} RunKeepsTimeInv(timeout: nat, states: seq<Mux>, steps: seq<Step>, i: nat)
    requires IsRun(timeout, states, steps) && i < |states|
    ensures TimeInv(timeout, states[i])
  {
    hide Apply, Enabled;
    if i > 0 {
      RunKeepsTimeInv(timeout, states, steps, i - 1);
      StepKeepsTimeInv(timeout, states[i - 1], steps[i - 1]);
    }
  }

  /** In every run: while the last tick of a connection is at most ten seconds old, no entry pending on
      it, and so no call pending there, is older than the timeout plus ten seconds. */
  lemma AgeBound(timeout: nat, states: seq<Mux>, steps: seq<Step>, i: nat, e: nat, w: nat)
    requires IsRun(timeout, states, steps) && i < |states|
    requires e < |states[i].conns| && w in states[i].conns[e].core.store
    requires states[i].now <= states[i].conns[e].lastTick + TICK
    ensures states[i].now - states[i].conns[e].core.store[w].time <= timeout + TICK
    ensures IsEntry(states[i], e, w)
    ensures states[i].now - states[i].tickets[states[i].conns[e].owner[w]].taken <= timeout + TICK
  {
    RunKeepsTimeInv(timeout, states, steps, i);
    assert Ticked(timeout, states[i], e);
    RunKeepsInv(timeout, states, steps, i);
    hide IsRun, TimeInv, Ticked;
    EntryIsItsTickets(states[i], e, w);
  }

  lemma EntryIsItsTickets(s: Mux, e: nat, w: nat)
    requires Inv(s) && e < |s.conns| && w in s.conns[e].core.store
    ensures IsEntry(s, e, w)
    ensures var k := s.tickets[s.conns[e].owner[w]];
            k.place == Pending(e, w) && s.conns[e].core.store[w].time == k.taken
  {
    assert ConnOk(s, e);
    assert TicketOk(s, s.conns[e].owner[w]);
  }
}
