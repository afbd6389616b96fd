/** The main results about pooled channels, over all runs. */
module SessionSafety {
  import opened Rpc
  import opened Connection
  import opened Multiplexer
  import opened Ageing
  import opened Batches
  import opened Sessions
  import opened SessionRuns

  /** The steps of a holder that touch neither the multiplexer nor a channel. */
  predicate IsOwnBusiness(step: SysStep) {
    step.Begin? || step.LookUp? || step.SendRefused? || step.StartCollecting? || step.AllHit? || step.StopWaiting?
  }

  lemma BeginKeeps(cfg: Config, s: Sys, step: SysStep)
    requires SysInv(cfg, s) && SysEnabled(cfg, s, step) && IsOwnBusiness(step)
    ensures SysInv(cfg, SysApply(cfg, s, step))
  {
    var s' := SysApply(cfg, s, step);
    var hd := s.holders[step.h];
    assert HolderOk(s.mux, hd);
    OwnBusinessOk(cfg, s, step);
    SameMuxIsOnlyOn(s.mux, hd.ch);
    hide HolderOk, Inv, TimeInv;
    GoesOn(cfg, s, s', step.h, s'.holders[step.h].mode);
  }

  lemma OwnBusinessOk(cfg: Config, s: Sys, step: SysStep)
    requires Inv(s.mux) && SysEnabled(cfg, s, step) && IsOwnBusiness(step) && HolderOk(s.mux, s.holders[step.h])
    ensures HolderOk(s.mux, SysApply(cfg, s, step).holders[step.h])
  {
    hide Inv, GoodBatch;
    var hd := s.holders[step.h];
    match step {
      case Begin(_, kind, reqs) => BeginOk(s.mux, hd.ch, kind, reqs);
      case LookUp(_) => LookUpOk(s, hd);
      case SendRefused(_) => RefusedIsClean(s.mux, hd);
      case StartCollecting(_) =>
      case AllHit(_) => NothingSentIsClean(s.mux, hd);
      case StopWaiting(_) => StopWaitingOk(s.mux, hd);
    }
  }

  lemma BeginOk(s: Mux, ch: nat, kind: Kind, reqs: seq<Request>)
    requires Clean(s, ch) && CanBegin(kind, reqs, ch)
    ensures BatchOk(s, ch, Batch(kind, reqs, s.chans[ch].head, []))
  {
  }

  /** A lookup adds at most one request, behind those already sent. */
  lemma LookUpOk(s: Sys, hd: Holder)
    requires HolderOk(s.mux, hd) && hd.mode.Sending? && CanLookUp(hd.mode.batch.kind)
    ensures HolderOk(s.mux, hd.(mode := Sending(AfterLookup(s, hd.mode.batch, hd.ch))))
  {
    var b := hd.mode.batch;
    var b' := AfterLookup(s, b, hd.ch);
    LookUpKeeps(hd.ch, b.kind, b.reqs, Found(s, b.kind));
    hide GoodBatch, LookedUp, AskedAfter, Found;
    forall j | 0 <= j < |b'.tickets| ensures IsOf(s.mux, b', j) {
      assert IsOf(s.mux, b, j);
    }
  }

  lemma NothingSentIsClean(s: Mux, hd: Holder)
    requires Inv(s) && HolderOk(s, hd) && hd.mode.Sending? && hd.mode.batch.tickets == []
    ensures Clean(s, hd.ch)
  {
    Balance(s, hd.ch, hd.mode.batch);
  }

  lemma SentNeedsLatch(s: Mux, hd: Holder)
    requires Inv(s) && HolderOk(s, hd) && hd.mode.Sending?
    ensures hd.mode.batch.tickets != [] ==> s.latch
  {
    if hd.mode.batch.tickets != [] {
      assert IsOf(s, hd.mode.batch, 0);
    }
  }

  /** While no connection was ever dialled nothing was ever sent. */
  lemma RefusedIsClean(s: Mux, hd: Holder)
    requires Inv(s) && HolderOk(s, hd) && hd.mode.Sending? && !s.latch
    ensures Clean(s, hd.ch)
  {
    SentNeedsLatch(s, hd);
    NothingSentIsClean(s, hd);
  }

  lemma StopWaitingOk(s: Mux, hd: Holder)
    requires Inv(s) && HolderOk(s, hd) && hd.mode.Collecting? && hd.mode.batch.kind == Single
    ensures HolderOk(s, hd.(mode := Cleaning(hd.mode.batch, s.now)))
  {
    var b := hd.mode.batch;
    assert IsOf(s, b, 0);
    assert TicketOk(s, b.tickets[0]);
  }

  lemma SendKeeps(cfg: Config, s: Sys, step: SysStep)
    requires SysInv(cfg, s) && SysEnabled(cfg, s, step) && step.Send?
    ensures SysInv(cfg, SysApply(cfg, s, step))
  {
    var s' := SysApply(cfg, s, step);
    var hd := s.holders[step.h];
    var b := hd.mode.batch;
    var m := Take(step.conn, b.reqs[|b.tickets|], step.encodes);
    assert HolderOk(s.mux, hd);
    MuxStepKeeps(cfg, s, step);
    TakeIsOnlyOn(cfg.timeout, s.mux, m);
    SendExtendsBatch(cfg.timeout, s.mux, hd.ch, b, m);
    GoesOn(cfg, s, s', step.h, s'.holders[step.h].mode);
  }

  lemma SendExtendsBatch(timeout: nat, s: Mux, ch: nat, b: Batch, m: Step)
    requires Inv(s) && BatchOk(s, ch, b) && |b.tickets| < |b.reqs|
    requires Enabled(timeout, s, m) && (m.Accept? || m.Refuse?) && m.req == b.reqs[|b.tickets|]
    ensures BatchOk(Apply(timeout, s, m), ch, b.(tickets := b.tickets + [|s.tickets|]))
    ensures Apply(timeout, s, m).chans == s.chans
  {
    var s' := Apply(timeout, s, m);
    var b' := b.(tickets := b.tickets + [|s.tickets|]);
    forall j | 0 <= j < |b'.tickets| ensures IsOf(s', b', j) {
      if j < |b.tickets| {
        assert IsOf(s, b, j);
        assert b'.tickets[j] == b.tickets[j];
      }
    }
    forall j | 0 <= j < |b.tickets| ensures b'.tickets[j] < |s.tickets| {
      assert IsOf(s, b, j);
    }
    forall k | b.from <= k < |s'.chans[ch].log| ensures s'.chans[ch].log[k].ticket in b'.tickets {
      assert s.chans[ch].log[k].ticket in b.tickets;
    }
    forall t | 0 <= t < |s'.tickets| && s'.tickets[t].req.ch == ch && IsOpen(s'.tickets[t]) ensures t in b'.tickets {
      if t < |s.tickets| {
        assert t in b.tickets;
      } else {
        assert b'.tickets[|b.tickets|] == t;
      }
    }
  }

  /** When as many replies were read as requests were sent, nothing of the batch is open or unread. */
  lemma AllReadIsClean(s: Mux, ch: nat, b: Batch)
    requires Inv(s) && BatchOk(s, ch, b) && |b.tickets| == |b.reqs|
    requires s.chans[ch].head == b.from + |b.reqs|
    ensures Clean(s, ch)
  {
    Balance(s, ch, b);
    assert ChannelOk(s, ch);
    assert OpenOn(s, ch) == {};
    forall t | 0 <= t < |s.tickets| && s.tickets[t].req.ch == ch ensures !IsOpen(s.tickets[t]) {
      assert t !in OpenOn(s, ch);
    }
  }

  lemma ReadAdvancesBatch(timeout: nat, s: Mux, ch: nat, b: Batch)
    requires Inv(s) && BatchOk(s, ch, b) && Enabled(timeout, s, Consume(ch))
    ensures BatchOk(Apply(timeout, s, Consume(ch)), ch, b)
    ensures s.chans[ch].head < b.from + |b.tickets|
  {
    Balance(s, ch, b);
    var s' := Apply(timeout, s, Consume(ch));
    forall j | 0 <= j < |b.tickets| ensures IsOf(s', b, j) {
      assert IsOf(s, b, j);
    }
  }

  /** The batch after one more of its replies was read. */
  lemma ReadLeavesHolderOk(timeout: nat, s: Mux, hd: Holder, mode: Mode)
    requires Inv(s) && HolderOk(s, hd) && Enabled(timeout, s, Consume(hd.ch))
    requires (hd.mode.Collecting? && exists failed :: mode == AfterReply(hd.mode.batch, hd.mode.got, failed))
             || (hd.mode.Cleaning? && mode == Closing)
    ensures HolderOk(Apply(timeout, s, Consume(hd.ch)), hd.(mode := mode))
  {
    var b := hd.mode.batch;
    var s' := Apply(timeout, s, Consume(hd.ch));
    StepKeepsInv(timeout, s, Consume(hd.ch));
    ReadAdvancesBatch(timeout, s, hd.ch, b);
    if s'.chans[hd.ch].head == b.from + |b.reqs| {
      AllReadIsClean(s', hd.ch, b);
    }
    hide Inv, BatchOk, Clean;
  }

  lemma ReceiveKeeps(cfg: Config, s: Sys, step: SysStep)
    requires SysInv(cfg, s) && SysEnabled(cfg, s, step) && (step.Receive? || step.CleanUp?)
    ensures SysInv(cfg, SysApply(cfg, s, step))
  {
    var s' := SysApply(cfg, s, step);
    var hd := s.holders[step.h];
    MuxStepKeeps(cfg, s, step);
    ChannelStepIsOnlyOn(cfg.timeout, s.mux, Consume(hd.ch));
    assert HolderOk(s.mux, hd);
    hide Inv, TimeInv, HolderOk, PoolOk, ForeignOk, Owned, Enabled, Apply, AfterReply, Lesson, OnlyOn;
    ReadLeavesHolderOk(cfg.timeout, s.mux, hd, s'.holders[step.h].mode);
    GoesOn(cfg, s, s', step.h, s'.holders[step.h].mode);
  }

  lemma BorrowKeeps(cfg: Config, s: Sys, step: SysStep)
    requires SysInv(cfg, s) && SysEnabled(cfg, s, step) && (step.Borrow? || step.BorrowNew?)
    ensures SysInv(cfg, SysApply(cfg, s, step))
  {
    var s' := SysApply(cfg, s, step);
    var c := if step.Borrow? then s.pool[0] else step.ch;
    var m := MuxStep(cfg, s, step).value;
    MuxStepKeeps(cfg, s, step);
    ChannelStepIsOnlyOn(cfg.timeout, s.mux, m);
    if step.Borrow? {
      assert Clean(s.mux, c);
    } else {
      forall t | 0 <= t < |s.mux.tickets| ensures s.mux.tickets[t].req.ch != c {
        assert TicketOk(s.mux, t);
      }
    }
    Takes(cfg, s, s', step.h, c);
  }

  /** With prompt ticks and teardowns an open request is younger than ten minutes. */
  lemma OpenIsYoung(cfg: Config, s: Mux, t: nat)
    requires Inv(s) && TimeInv(cfg.timeout, s) && Prompt(cfg, s) && Sane(cfg)
    requires t < |s.tickets| && IsOpen(s.tickets[t])
    ensures s.now < s.tickets[t].taken + CLEANUP_WAIT
  {
    assert TicketOk(s, t);
    if s.tickets[t].place.Pending? {
      var e := s.tickets[t].place.conn;
      assert ConnOk(s, e) && Ticked(cfg.timeout, s, e);
    }
  }

  /** Hence ten minutes after the wait was given up the reply is not outstanding any more. */
  lemma CleanUpNeverTooEarly(cfg: Config, s: Sys, h: nat)
    requires SysInv(cfg, s) && Prompt(cfg, s.mux) && Sane(cfg)
    requires h in s.holders && s.holders[h].mode.Cleaning?
    requires s.mux.now >= s.holders[h].mode.since + 600
    ensures NothingOpen(s.mux, s.holders[h].ch)
  {
    assert HolderOk(s.mux, s.holders[h]);
    forall t | 0 <= t < |s.mux.tickets| && IsOpen(s.mux.tickets[t])
      ensures s.mux.now < s.mux.tickets[t].taken + CLEANUP_WAIT
    {
      OpenIsYoung(cfg, s.mux, t);
    }
  }

  /** A holder leaves a channel that is clean, or one that it closes. */
  lemma LeavesDone(cfg: Config, s: Sys, step: SysStep)
    requires SysInv(cfg, s) && SysEnabled(cfg, s, step)
    requires step.Return? || step.Abandon? || step.CleanUpExpires? || step.CloseDone?
    ensures var c, s' := s.holders[step.h].ch, NextMux(cfg, s, step);
            && OnlyOn(s.mux, s', c)
            && (NothingOpen(s', c) || IsClosed(s', c))
            && (step.Return? && |s.pool| < cfg.poolSize ==> Clean(s', c))
  {
    var c := s.holders[step.h].ch;
    assert HolderOk(s.mux, s.holders[step.h]);
    var m := MuxStep(cfg, s, step);
    if m.Some? {
      ChannelStepIsOnlyOn(cfg.timeout, s.mux, m.value);
    } else {
      SameMuxIsOnlyOn(s.mux, c);
    }
    hide Inv, TimeInv, PoolOk, ForeignOk, Owned, OnlyOn;
  }

  lemma LeaveKeeps(cfg: Config, s: Sys, step: SysStep)
    requires SysInv(cfg, s) && SysEnabled(cfg, s, step)
    requires step.Return? || step.Abandon? || step.CleanUpExpires? || step.CloseDone?
    ensures SysInv(cfg, SysApply(cfg, s, step))
  {
    var s' := SysApply(cfg, s, step);
    MuxStepKeeps(cfg, s, step);
    LeavesDone(cfg, s, step);
    hide SysInv, Inv, TimeInv, OnlyOn, NothingOpen, IsClosed, Clean, Enabled, Apply;
    LetsGo(cfg, s, s', step.h);
  }

  lemma EvictKeeps(cfg: Config, s: Sys, height: nat)
    requires SysInv(cfg, s)
    ensures SysInv(cfg, SysApply(cfg, s, Evict(height)))
  {
    var s' := SysApply(cfg, s, Evict(height));
    assert forall ch :: Held(s', ch) <==> Held(s, ch) by {
      forall ch ensures Held(s', ch) <==> Held(s, ch) {
        SameHolders(s, s', ch);
      }
    }
    assert forall ch :: IsCaredFor(s', ch) <==> IsCaredFor(s, ch);
  }

  lemma ForeignIsOnlyOn(cfg: Config, s: Sys, step: SysStep, c: nat)
    requires SysInv(cfg, s) && SysEnabled(cfg, s, step)
    requires (step.ForeignSend? && c == step.req.ch) || ((step.ForeignOpen? || step.ForeignReceive?) && c == step.ch)
    ensures OnlyOn(s.mux, NextMux(cfg, s, step), c)
    ensures c in NextMux(cfg, s, step).chans && !NextMux(cfg, s, step).chans[c].closed
    ensures c in s.foreign || c !in s.mux.chans
  {
    var m := MuxStep(cfg, s, step).value;
    if step.ForeignSend? {
      TakeIsOnlyOn(cfg.timeout, s.mux, m);
    } else {
      ChannelStepIsOnlyOn(cfg.timeout, s.mux, m);
    }
    hide Inv, TimeInv, PoolOk, Owned, OnlyOn, HolderOk;
  }

  lemma ForeignKeeps(cfg: Config, s: Sys, step: SysStep)
    requires SysInv(cfg, s) && SysEnabled(cfg, s, step)
    requires step.ForeignOpen? || step.ForeignSend? || step.ForeignReceive?
    ensures SysInv(cfg, SysApply(cfg, s, step))
  {
    hide SysInv, Inv, TimeInv, OnlyOn, Enabled, Apply;
    var s' := SysApply(cfg, s, step);
    var c := if step.ForeignSend? then step.req.ch else step.ch;
    MuxStepKeeps(cfg, s, step);
    ForeignIsOnlyOn(cfg, s, step, c);
    GoesOnOutside(cfg, s, s', c);
  }

  lemma StepKeepsDiscipline(cfg: Config, s: Sys, step: SysStep)
    requires SysInv(cfg, s) && SysEnabled(cfg, s, step)
    ensures SysInv(cfg, SysApply(cfg, s, step))
  {
    match step
    case Inner(st) => InnerKeeps(cfg, s, st);
    case Borrow(_) => BorrowKeeps(cfg, s, step);
    case BorrowNew(_, _) => BorrowKeeps(cfg, s, step);
    case Send(_, _, _) => SendKeeps(cfg, s, step);
    case Receive(_) => ReceiveKeeps(cfg, s, step);
    case CleanUp(_) => ReceiveKeeps(cfg, s, step);
    case Return(_) => LeaveKeeps(cfg, s, step);
    case Abandon(_) => LeaveKeeps(cfg, s, step);
    case CleanUpExpires(_) => LeaveKeeps(cfg, s, step);
    case CloseDone(_) => LeaveKeeps(cfg, s, step);
    case Evict(height) => EvictKeeps(cfg, s, height);
    case ForeignOpen(_, _) => ForeignKeeps(cfg, s, step);
    case ForeignSend(_, _, _) => ForeignKeeps(cfg, s, step);
    case ForeignReceive(_) => ForeignKeeps(cfg, s, step);
    case _ => BeginKeeps(cfg, s, step);
  }

  /** A run of the whole system, whatever the timing. */
  ghost predicate IsSysRun(cfg: Config, states: seq<Sys>, steps: seq<SysStep>) {
    && |states| == |steps| + 1
    && states[0] == INITIAL
    && forall i :: 0 <= i < |steps| ==>
         SysEnabled(cfg, states[i], steps[i]) && states[i + 1] == SysApply(cfg, states[i], steps[i])
  }

  /** A run whose ticks and teardowns are prompt whenever the ten-minute branch is taken. */
  ghost predicate IsPromptRun(cfg: Config, states: seq<Sys>, steps: seq<SysStep>) {
    && IsSysRun(cfg, states, steps) && Sane(cfg)
    && forall i :: 0 <= i < |steps| && steps[i].CleanUpExpires? ==> Prompt(cfg, states[i].mux)
  }

  lemma {:induction false} RunKeepsDiscipline(cfg: Config, states: seq<Sys>, steps: seq<SysStep>, i: nat)
    requires IsSysRun(cfg, states, steps) && i < |states|
    ensures SysInv(cfg, states[i])
  {
    hide SysApply, SysEnabled;
    if i > 0 {
      RunKeepsDiscipline(cfg, states, steps, i - 1);
      StepKeepsDiscipline(cfg, states[i - 1], steps[i - 1]);
    }
  }

  // ----- the results

  /** Whatever the interleaving, when a channel goes back to the pool, is closed by a full pool, or is
      abandoned, no request is outstanding on it and no reply is unread. */
  lemma NothingOutstandingOnReturn(cfg: Config, states: seq<Sys>, steps: seq<SysStep>, i: nat)
    requires IsSysRun(cfg, states, steps) && i < |steps| && (steps[i].Return? || steps[i].Abandon?)
    ensures OpenOn(states[i].mux, states[i].holders[steps[i].h].ch) == {}
    ensures states[i].holders[steps[i].h].ch in states[i].mux.chans
    ensures var c := states[i].mux.chans[states[i].holders[steps[i].h].ch]; c.head == |c.log| && !c.closed
  {
    RunKeepsDiscipline(cfg, states, steps, i);
    assert HolderOk(states[i].mux, states[i].holders[steps[i].h]);
  }

  /** In every state of every run: the requests a borrower has sent in its batch are those still open plus
      those answered since the batch began, and open requests plus unread replies are at most seven. */
  lemma BorrowedChannelsBalance(cfg: Config, states: seq<Sys>, steps: seq<SysStep>, i: nat, h: nat)
    requires IsSysRun(cfg, states, steps) && i < |states| && h in states[i].holders
    ensures var s, ch := states[i].mux, states[i].holders[h].ch;
            && ch in s.chans && s.chans[ch].head <= |s.chans[ch].log|
            && |OpenOn(s, ch)| + (|s.chans[ch].log| - s.chans[ch].head) <= 7
    ensures var s, ch, mode := states[i].mux, states[i].holders[h].ch, states[i].holders[h].mode;
            mode.Sending? || mode.Collecting? || mode.Cleaning? ==>
              |OpenOn(s, ch)| + (|s.chans[ch].log| - mode.batch.from) == |mode.batch.tickets|
  {
    RunKeepsDiscipline(cfg, states, steps, i);
    var hd := states[i].holders[h];
    assert HolderOk(states[i].mux, hd) && ChannelOk(states[i].mux, hd.ch);
    AtMostSeven(states[i].mux, hd);
    if hd.mode.Sending? || hd.mode.Collecting? || hd.mode.Cleaning? {
      Balance(states[i].mux, hd.ch, hd.mode.batch);
    }
  }

  /** A refused send is always the first of its batch: batches are sent whole or not at all. */
  lemma BatchesAreWhole(cfg: Config, states: seq<Sys>, steps: seq<SysStep>, i: nat)
    requires IsSysRun(cfg, states, steps) && i < |steps| && steps[i].SendRefused?
    ensures states[i].holders[steps[i].h].mode.batch.tickets == []
  {
    RunKeepsDiscipline(cfg, states, steps, i);
    var hd := states[i].holders[steps[i].h];
    assert HolderOk(states[i].mux, hd);
    SentNeedsLatch(states[i].mux, hd);
  }

  /** With the timeouts of the two programs, 30 and 60 seconds, and less than 530 seconds of
      scheduling slack, the ten-minute branch never closes a channel whose reply is still to come. */
  lemma CleanUpInTime(cfg: Config, states: seq<Sys>, steps: seq<SysStep>, i: nat)
    requires IsSysRun(cfg, states, steps) && i < |steps| && steps[i].CleanUpExpires?
    requires (cfg.timeout == 30 || cfg.timeout == 60) && cfg.grace < 530 && Prompt(cfg, states[i].mux)
    ensures var s, hd := states[i], states[i].holders[steps[i].h];
            hd.mode.Cleaning? && s.mux.now >= hd.mode.since + 600 && OpenOn(s.mux, hd.ch) == {}
  {
    RunKeepsDiscipline(cfg, states, steps, i);
    CleanUpNeverTooEarly(cfg, states[i], steps[i].h);
  }

  predicate IsTake(m: Option<Step>) {
    m.Some? && (m.value.Accept? || m.value.Refuse?)
  }

  /** Requests are only made on open channels, and only the ten-minute branch can close a channel on which
      one is outstanding. */
  lemma SendsAndCloses(cfg: Config, s: Sys, step: SysStep)
    requires SysInv(cfg, s) && SysEnabled(cfg, s, step)
    ensures var m := MuxStep(cfg, s, step);
            && (IsTake(m) ==> !IsClosed(s.mux, m.value.req.ch))
            && (m.Some? && m.value.CloseChannel? ==>
                  NothingOpen(s.mux, m.value.ch) || ClosesLate(s, step, m.value.ch))
  {
    if step.Send? || step.Return? || step.CloseDone? {
      assert HolderOk(s.mux, s.holders[step.h]);
    }
  }

  /** The ten-minute branch of the cleanup goroutine of ch. */
  predicate ClosesLate(s: Sys, step: SysStep, ch: nat) {
    step.CleanUpExpires? && step.h in s.holders && s.holders[step.h].ch == ch
  }

  lemma OpenOrClosedBefore(timeout: nat, s: Mux, m: Step, t: nat)
    requires Inv(s) && Enabled(timeout, s, m)
    requires var s' := Apply(timeout, s, m);
             t < |s'.tickets| && IsOpen(s'.tickets[t]) && IsClosed(s', s'.tickets[t].req.ch)
    ensures var ch := Apply(timeout, s, m).tickets[t].req.ch;
            && (IsClosed(s, ch) || m == CloseChannel(ch))
            && ((t < |s.tickets| && IsOpen(s.tickets[t]) && s.tickets[t].req.ch == ch)
                || ((m.Accept? || m.Refuse?) && m.req.ch == ch))
  {
    hide Inv;
    if !m.Accept? && !m.Refuse? {
      OnlyAcceptOpens(timeout, s, m);
    }
  }

  /** A request that is outstanding on a closed channel was so before, or this very step closes it late. */
  lemma CutOffBefore(cfg: Config, s: Sys, step: SysStep, t: nat)
    requires SysInv(cfg, s) && SysEnabled(cfg, s, step)
    requires var s' := NextMux(cfg, s, step);
             t < |s'.tickets| && IsOpen(s'.tickets[t]) && IsClosed(s', s'.tickets[t].req.ch)
    ensures var ch := NextMux(cfg, s, step).tickets[t].req.ch;
            && t < |s.mux.tickets| && IsOpen(s.mux.tickets[t]) && s.mux.tickets[t].req.ch == ch
            && (IsClosed(s.mux, ch) || ClosesLate(s, step, ch))
  {
    hide Apply, Enabled, Inv;
    SendsAndCloses(cfg, s, step);
    var m := MuxStep(cfg, s, step);
    if m.Some? {
      OpenOrClosedBefore(cfg.timeout, s.mux, m.value, t);
    }
  }

  /** In every run, when a request is outstanding on a closed channel, the ten-minute branch of that very
      channel closed it, at a moment when the request was outstanding. */
  lemma {:induction false} OnlyLateClosesCutOff(cfg: Config, states: seq<Sys>, steps: seq<SysStep>, i: nat, t: nat) returns (k: nat)
    requires IsSysRun(cfg, states, steps) && i < |states|
    requires t < |states[i].mux.tickets| && IsOpen(states[i].mux.tickets[t])
    requires IsClosed(states[i].mux, states[i].mux.tickets[t].req.ch)
    ensures k < i && ClosesLate(states[k], steps[k], states[i].mux.tickets[t].req.ch)
    ensures t < |states[k].mux.tickets| && IsOpen(states[k].mux.tickets[t])
            && states[k].mux.tickets[t].req.ch == states[i].mux.tickets[t].req.ch
    decreases i
  {
    hide SysApply, SysEnabled, SysInv;
    var s, step := states[i - 1], steps[i - 1];
    ForeignOnlyGrows(cfg, s, step);
    RunKeepsDiscipline(cfg, states, steps, i - 1);
    CutOffBefore(cfg, s, step, t);
    if IsClosed(s.mux, s.mux.tickets[t].req.ch) {
      k := OnlyLateClosesCutOff(cfg, states, steps, i - 1, t);
    } else {
      k := i - 1;
    }
  }

  /** A channel that was closed with nothing outstanding on it. */
  ghost predicate IsShut(s: Mux, ch: nat) {
    IsClosed(s, ch) && NothingOpen(s, ch)
  }

  lemma StepKeepsShut(cfg: Config, s: Sys, step: SysStep, ch: nat)
    requires SysInv(cfg, s) && SysEnabled(cfg, s, step) && IsShut(s.mux, ch)
    ensures IsShut(NextMux(cfg, s, step), ch)
  {
    var m := MuxStep(cfg, s, step);
    if m.Some? {
      ClosedStaysClosed(cfg.timeout, s.mux, m.value, ch);
      hide Apply, Enabled, SysInv, Inv;
      var s' := NextMux(cfg, s, step);
      forall t | 0 <= t < |s'.tickets| && s'.tickets[t].req.ch == ch ensures !IsOpen(s'.tickets[t]) {
        if IsOpen(s'.tickets[t]) {
          CutOffBefore(cfg, s, step, t);
        }
      }
    }
  }

  /** The step closes a channel in Put, or after the last reply its cleanup waited for. */
  predicate ClosesInTime(cfg: Config, s: Sys, step: SysStep) {
    (step.Return? && |s.pool| >= cfg.poolSize) || step.CloseDone?
  }

  lemma ClosedInTimeIsShut(cfg: Config, s: Sys, step: SysStep)
    requires SysInv(cfg, s) && SysEnabled(cfg, s, step) && ClosesInTime(cfg, s, step)
    ensures IsShut(NextMux(cfg, s, step), s.holders[step.h].ch)
  {
    assert HolderOk(s.mux, s.holders[step.h]);
  }

  /** In every run, whatever the timing: a channel closed in Put, or after the last reply its cleanup waited
      for, stays closed and no request is ever outstanding on it again, so its close never meets a send. */
  lemma {:induction false} ClosedInTimeStaysShut(cfg: Config, states: seq<Sys>, steps: seq<SysStep>, i: nat, j: nat)
    requires IsSysRun(cfg, states, steps) && i < j < |states| && ClosesInTime(cfg, states[i], steps[i])
    ensures steps[i].h in states[i].holders && IsShut(states[j].mux, states[i].holders[steps[i].h].ch)
  {
    assert SysEnabled(cfg, states[i], steps[i]);
    hide SysApply, SysInv;
    RunKeepsDiscipline(cfg, states, steps, j - 1);
    ForeignOnlyGrows(cfg, states[j - 1], steps[j - 1]);
    if j == i + 1 {
      ClosedInTimeIsShut(cfg, states[i], steps[i]);
    } else {
      ClosedInTimeStaysShut(cfg, states, steps, i, j - 1);
      StepKeepsShut(cfg, states[j - 1], steps[j - 1], states[i].holders[steps[i].h].ch);
    }
  }

  /** No send meets a closed channel, in any connection's map or in the hands of a run, unless the ten-minute
      branch came too early; which it does not when ticks are prompt at that moment. */
  lemma NoSendOnClosedChannel(cfg: Config, states: seq<Sys>, steps: seq<SysStep>, i: nat, t: nat)
    requires IsPromptRun(cfg, states, steps) && i < |states|
    requires t < |states[i].mux.tickets| && IsOpen(states[i].mux.tickets[t])
    ensures states[i].mux.tickets[t].req.ch in states[i].mux.chans
    ensures !states[i].mux.chans[states[i].mux.tickets[t].req.ch].closed
  {
    RunKeepsDiscipline(cfg, states, steps, i);
    assert TicketOk(states[i].mux, t);
    hide SysApply, SysInv, Prompt, Inv;
    if IsClosed(states[i].mux, states[i].mux.tickets[t].req.ch) {
      var k := OnlyLateClosesCutOff(cfg, states, steps, i, t);
      RunKeepsDiscipline(cfg, states, steps, k);
      CleanUpNeverTooEarly(cfg, states[k], steps[k].h);
    }
  }

  /** In every run: an open request on a channel of the pool finds room there, and outstanding plus unread
      never exceed seven, unless the ten-minute branch closed the channel. */
  lemma PooledChannelsHaveRoom(cfg: Config, states: seq<Sys>, steps: seq<SysStep>, i: nat, t: nat)
    requires IsSysRun(cfg, states, steps) && i < |states|
    requires t < |states[i].mux.tickets| && IsOpen(states[i].mux.tickets[t])
    requires states[i].mux.tickets[t].req.ch !in states[i].foreign
    ensures states[i].mux.tickets[t].req.ch in states[i].mux.chans
    ensures var c := states[i].mux.chans[states[i].mux.tickets[t].req.ch];
            !c.closed ==> HasRoom(c) && |OpenOn(states[i].mux, states[i].mux.tickets[t].req.ch)| + (|c.log| - c.head) <= 7
    ensures states[i].mux.chans[states[i].mux.tickets[t].req.ch].closed ==>
              exists k :: 0 <= k < i && ClosesLate(states[k], steps[k], states[i].mux.tickets[t].req.ch)
  {
    RunKeepsDiscipline(cfg, states, steps, i);
    var s := states[i];
    assert TicketOk(s.mux, t);
    var ch := s.mux.tickets[t].req.ch;
    assert IsCaredFor(s, ch);
    if !IsClosed(s.mux, ch) {
      var h :| h in s.holders && s.holders[h].ch == ch;
      assert HolderOk(s.mux, s.holders[h]);
      AtMostSeven(s.mux, s.holders[h]);
    } else {
      var k := OnlyLateClosesCutOff(cfg, states, steps, i, t);
    }
  }

  lemma EntryIsOpen(s: Mux, e: nat, w: nat)
    requires Inv(s) && IsEntry(s, e, w)
    ensures var t := s.conns[e].owner[w]; IsOpen(s.tickets[t]) && s.tickets[t].req.ch == s.conns[e].core.store[w].ch
  {
    assert ConnOk(s, e) && TicketOk(s, s.conns[e].owner[w]);
  }

  /** In every run no sender under the lock of a response map ever blocks on a channel of the pool: it is not
      full while it is open, so that the branch that drops a reply is never taken; and it is open, in prompt runs. */
  lemma PooledDeliveriesNeverBlock(cfg: Config, states: seq<Sys>, steps: seq<SysStep>, i: nat, e: nat, w: nat)
    requires IsSysRun(cfg, states, steps) && i < |states|
    requires IsEntry(states[i].mux, e, w) && states[i].mux.conns[e].core.store[w].ch !in states[i].foreign
    ensures !EntryChannel(states[i].mux, e, w).closed ==> HasRoom(EntryChannel(states[i].mux, e, w))
    ensures IsPromptRun(cfg, states, steps) ==> CanSend(EntryChannel(states[i].mux, e, w))
  {
    RunKeepsDiscipline(cfg, states, steps, i);
    EntryIsOpen(states[i].mux, e, w);
    var t := states[i].mux.conns[e].owner[w];
    hide SysInv, SysApply, Prompt, Inv;
    PooledChannelsHaveRoom(cfg, states, steps, i, t);
    if IsPromptRun(cfg, states, steps) {
      NoSendOnClosedChannel(cfg, states, steps, i, t);
    }
  }

  /** A request is lost only to a reply that meets a full channel. */
  lemma OnlyFullChannelsLose(timeout: nat, s: Mux, step: Step, t: nat)
    requires Inv(s) && Enabled(timeout, s, step) && t < |s.tickets| && !s.tickets[t].place.Dropped?
    ensures var s' := Apply(timeout, s, step);
            && t < |s'.tickets| && s'.tickets[t].req == s.tickets[t].req
            && (s'.tickets[t].place.Dropped? ==>
                  && step.Reply? && IsEntry(s, step.conn, step.msg.id) && s.conns[step.conn].owner[step.msg.id] == t
                  && s.conns[step.conn].core.store[step.msg.id].ch == s.tickets[t].req.ch
                  && !HasRoom(EntryChannel(s, step.conn, step.msg.id))
                  && !EntryChannel(s, step.conn, step.msg.id).closed)
  {
    if step.Reply? && IsEntry(s, step.conn, step.msg.id) {
      assert ConnOk(s, step.conn);
      assert TicketOk(s, s.conns[step.conn].owner[step.msg.id]);
    }
  }

  lemma TakenIsKept(timeout: nat, s: Mux, step: Step, t: nat)
    requires Enabled(timeout, s, step) && |s.tickets| <= t < |Apply(timeout, s, step).tickets|
    ensures !Apply(timeout, s, step).tickets[t].place.Dropped?
  {
  }

  lemma ForeignOnlyGrows(cfg: Config, s: Sys, step: SysStep)
    requires SysEnabled(cfg, s, step)
    ensures s.foreign <= SysApply(cfg, s, step).foreign
    ensures SysApply(cfg, s, step).mux == NextMux(cfg, s, step)
  {
  }

  /** In every run no request made on a channel of the pool is ever lost: once it is resolved it has its one response. */
  lemma {:induction false} PooledRequestsAreNeverLost(cfg: Config, states: seq<Sys>, steps: seq<SysStep>, i: nat, t: nat)
    requires IsSysRun(cfg, states, steps) && i < |states| && t < |states[i].mux.tickets|
    requires states[i].mux.tickets[t].req.ch !in states[i].foreign
    ensures !states[i].mux.tickets[t].place.Dropped?
  {
    hide SysApply, SysEnabled, Apply, Enabled, SysInv, Inv;
    if i > 0 {
      var s, step := states[i - 1], steps[i - 1];
      ForeignOnlyGrows(cfg, s, step);
      RunKeepsDiscipline(cfg, states, steps, i - 1);
      NextMuxKeeps(cfg, s, step, t);
      if t < |s.mux.tickets| && s.mux.tickets[t].req.ch !in s.foreign {
        PooledRequestsAreNeverLost(cfg, states, steps, i - 1, t);
        if states[i].mux.tickets[t].place.Dropped? {
          var m := MuxStep(cfg, s, step).value;
          PooledDeliveriesNeverBlock(cfg, states, steps, i - 1, m.conn, m.msg.id);
        }
      }
    }
  }

  /** The same for a step of the whole system. */
  lemma NextMuxKeeps(cfg: Config, s: Sys, step: SysStep, t: nat)
    requires SysInv(cfg, s) && SysEnabled(cfg, s, step) && t < |NextMux(cfg, s, step).tickets|
    ensures var s', m := NextMux(cfg, s, step), MuxStep(cfg, s, step);
            && (t >= |s.mux.tickets| ==> !s'.tickets[t].place.Dropped?)
            && (t < |s.mux.tickets| ==> s'.tickets[t].req == s.mux.tickets[t].req)
            && (t < |s.mux.tickets| && !s.mux.tickets[t].place.Dropped? && s'.tickets[t].place.Dropped? ==>
                  && m.Some? && m.value.Reply? && IsEntry(s.mux, m.value.conn, m.value.msg.id)
                  && s.mux.conns[m.value.conn].core.store[m.value.msg.id].ch == s.mux.tickets[t].req.ch
                  && !HasRoom(EntryChannel(s.mux, m.value.conn, m.value.msg.id))
                  && !EntryChannel(s.mux, m.value.conn, m.value.msg.id).closed)
  {
    hide Inv, Apply, Enabled;
    var m := MuxStep(cfg, s, step);
    if m.Some? {
      if t >= |s.mux.tickets| {
        TakenIsKept(cfg.timeout, s.mux, m.value, t);
      } else {
        SameRequest(cfg.timeout, s.mux, m.value, t);
        if !s.mux.tickets[t].place.Dropped? {
          OnlyFullChannelsLose(cfg.timeout, s.mux, m.value, t);
        }
      }
    }
  }

  lemma SameRequest(timeout: nat, s: Mux, step: Step, t: nat)
    requires Inv(s) && Enabled(timeout, s, step) && t < |s.tickets|
    ensures t < |Apply(timeout, s, step).tickets| && Apply(timeout, s, step).tickets[t].req == s.tickets[t].req
  {
    if !step.Accept? && !step.Refuse? {
      OnlyAcceptOpens(timeout, s, step);
    }
  }

  /** Ownership: a channel is with one holder, or in the pool once, never both; the pool never outgrows
      its capacity; what it holds is open and empty, so the drain in Get finds nothing to drop. */
  lemma PoolOwnership(cfg: Config, states: seq<Sys>, steps: seq<SysStep>, i: nat)
    requires IsSysRun(cfg, states, steps) && i < |states|
    ensures |states[i].pool| <= cfg.poolSize && Distinct(states[i].pool)
    ensures forall g, h :: g in states[i].holders && h in states[i].holders && g != h ==>
              states[i].holders[g].ch != states[i].holders[h].ch
    ensures forall h :: h in states[i].holders ==> states[i].holders[h].ch !in states[i].pool
    ensures forall ch :: ch in states[i].pool ==>
              && ch in states[i].mux.chans && !states[i].mux.chans[ch].closed
              && states[i].mux.chans[ch].head == |states[i].mux.chans[ch].log| && OpenOn(states[i].mux, ch) == {}
  {
    RunKeepsDiscipline(cfg, states, steps, i);
    var s := states[i];
    forall h | h in s.holders ensures s.holders[h].ch !in s.pool {
      assert Held(s, s.holders[h].ch);
    }
    forall ch | ch in s.pool ensures Clean(s.mux, ch) && OpenOn(s.mux, ch) == {} {
    }
  }

  ghost predicate IsRetired(s: Sys, ch: nat) {
    || (ch in s.mux.chans && s.mux.chans[ch].closed)
    || (exists h :: h in s.holders && s.holders[h].ch == ch && (s.holders[h].mode.Cleaning? || s.holders[h].mode.Closing?))
  }

  lemma ClosedStaysClosed(timeout: nat, s: Mux, step: Step, ch: nat)
    requires Inv(s) && Enabled(timeout, s, step) && ch in s.chans && s.chans[ch].closed
    ensures var s' := Apply(timeout, s, step); ch in s'.chans && s'.chans[ch].closed
  {
    if step.Accept? || step.Refuse? {
    } else {
      OnlyAcceptOpens(timeout, s, step);
    }
  }

  lemma RetiredStep(cfg: Config, s: Sys, step: SysStep, ch: nat)
    requires SysInv(cfg, s) && SysEnabled(cfg, s, step) && IsRetired(s, ch)
    ensures IsRetired(SysApply(cfg, s, step), ch)
  {
    var m := MuxStep(cfg, s, step);
    if ch in s.mux.chans && s.mux.chans[ch].closed {
      if m.Some? {
        ClosedStaysClosed(cfg.timeout, s.mux, m.value, ch);
      }
    } else {
      var h :| h in s.holders && s.holders[h].ch == ch && (s.holders[h].mode.Cleaning? || s.holders[h].mode.Closing?);
      CleanerGoesOn(cfg, s, step, h);
    }
  }

  /** A cleanup goroutine keeps its channel until it closes it. */
  lemma CleanerGoesOn(cfg: Config, s: Sys, step: SysStep, h: nat)
    requires SysEnabled(cfg, s, step)
    requires h in s.holders && (s.holders[h].mode.Cleaning? || s.holders[h].mode.Closing?)
    ensures IsRetired(SysApply(cfg, s, step), s.holders[h].ch)
  {
    var s' := SysApply(cfg, s, step);
    if (step.CleanUpExpires? || step.CloseDone?) && step.h == h {
      assert s'.mux.chans[s.holders[h].ch].closed;
    } else {
      assert h in s'.holders && s'.holders[h].ch == s.holders[h].ch;
    }
  }

  lemma RetiredIsNotPooled(cfg: Config, s: Sys, ch: nat)
    requires SysInv(cfg, s) && IsRetired(s, ch)
    ensures ch !in s.pool
  {
    assert ch in s.pool ==> Clean(s.mux, ch) && !Held(s, ch);
  }

  lemma {:induction false} StaysRetired(cfg: Config, states: seq<Sys>, steps: seq<SysStep>, i: nat, j: nat, ch: nat)
    requires IsSysRun(cfg, states, steps) && i <= j < |states| && IsRetired(states[i], ch)
    ensures IsRetired(states[j], ch)
  {
    hide SysApply, SysEnabled;
    if i < j {
      StaysRetired(cfg, states, steps, i, j - 1, ch);
      RunKeepsDiscipline(cfg, states, steps, j - 1);
      RetiredStep(cfg, states[j - 1], steps[j - 1], ch);
    }
  }

  /** A channel whose caller stopped waiting is never pooled again. */
  lemma TimedOutNeverPooled(cfg: Config, states: seq<Sys>, steps: seq<SysStep>, i: nat, j: nat, ch: nat)
    requires IsSysRun(cfg, states, steps) && i <= j < |states| && IsRetired(states[i], ch)
    ensures ch !in states[j].pool
  {
    StaysRetired(cfg, states, steps, i, j, ch);
    RunKeepsDiscipline(cfg, states, steps, j);
    RetiredIsNotPooled(cfg, states[j], ch);
  }

  // ----- the pool hands out the channel that came back first

  /** A return appends the channel, open as it is, or closes it for want of room. */
  lemma ReturnAppends(cfg: Config, s: Sys, h: nat)
    requires SysInv(cfg, s) && SysEnabled(cfg, s, SysStep.Return(h))
    ensures var s', ch := SysApply(cfg, s, SysStep.Return(h)), s.holders[h].ch;
            && h !in s'.holders && ch in s'.mux.chans
            && (|s.pool| < cfg.poolSize ==> s'.pool == s.pool + [ch] && !s'.mux.chans[ch].closed)
            && (|s.pool| >= cfg.poolSize ==> s'.pool == s.pool && s'.mux.chans[ch].closed)
  {
    hide Inv, TimeInv;
    assert HolderOk(s.mux, s.holders[h]);
  }

  /** A borrower gets the first channel, with nothing waiting on it. */
  lemma BorrowTakesFirst(cfg: Config, s: Sys, h: nat)
    requires SysInv(cfg, s) && SysEnabled(cfg, s, SysStep.Borrow(h))
    ensures var s' := SysApply(cfg, s, SysStep.Borrow(h));
            && s.pool == [s'.holders[h].ch] + s'.pool && s'.holders[h].mode == Idle && s'.holders[h].ch in s'.mux.chans
            && var c := s'.mux.chans[s'.holders[h].ch]; c.head == |c.log| && !c.closed && c.capacity == 20
  {
    hide Inv, TimeInv, HolderOk;
    assert s.pool[0] in s.pool && Clean(s.mux, s.pool[0]);
  }

  /** Or, when the pool is empty, a new one of capacity 20. */
  lemma BorrowMakesNew(cfg: Config, s: Sys, h: nat, ch: nat)
    requires SysEnabled(cfg, s, SysStep.BorrowNew(h, ch))
    ensures var s' := SysApply(cfg, s, SysStep.BorrowNew(h, ch));
            && s.pool == s'.pool == [] && s'.holders[h] == Holder(ch, Idle)
            && ch !in s.mux.chans && ch in s'.mux.chans && s'.mux.chans[ch] == Channel([], 0, 20, false)
  {
  }

  // ----- no borrower is stuck for want of anything but a reply

  /** At rest a borrower can begin any batch, put its channel back or leave it. */
  lemma RestingCanGoOn(cfg: Config, s: Sys, h: nat, kind: Kind, reqs: seq<Request>)
    requires SysInv(cfg, s) && h in s.holders && s.holders[h].mode == Idle
    ensures SysEnabled(cfg, s, SysStep.Return(h)) && SysEnabled(cfg, s, SysStep.Abandon(h))
    ensures CanBegin(kind, reqs, s.holders[h].ch) ==> SysEnabled(cfg, s, SysStep.Begin(h, kind, reqs))
  {
    hide Inv, TimeInv, CanBegin;
    assert HolderOk(s.mux, s.holders[h]);
  }

  /** Asking, it can make its next lookup, send its next request to any run that listens, be refused while no
      connection was ever up, or end its asking. */
  lemma SendingCanGoOn(cfg: Config, s: Sys, h: nat, e: nat, encodes: bool)
    requires SysInv(cfg, s) && h in s.holders && s.holders[h].mode.Sending?
    ensures var b := s.holders[h].mode.batch;
            if |b.tickets| < |b.reqs| then
              && (s.mux.latch && Listening(s.mux, e) ==> SysEnabled(cfg, s, SysStep.Send(h, e, encodes)))
              && (!s.mux.latch ==> SysEnabled(cfg, s, SysStep.SendRefused(h)))
            else if !AllLooked(b.kind) then SysEnabled(cfg, s, SysStep.LookUp(h))
            else if b.reqs == [] then SysEnabled(cfg, s, SysStep.AllHit(h))
            else SysEnabled(cfg, s, SysStep.StartCollecting(h))
  {
    hide Inv, TimeInv, RequestsUpTo;
    assert HolderOk(s.mux, s.holders[h]);
  }

  /** Reading, it can take a reply as soon as there is one, or give up the wait for a single reply. */
  lemma ReadingCanGoOn(cfg: Config, s: Sys, h: nat)
    requires SysInv(cfg, s) && h in s.holders && s.holders[h].mode.Collecting?
    ensures var hd := s.holders[h];
            && hd.ch in s.mux.chans
            && (s.mux.chans[hd.ch].head < |s.mux.chans[hd.ch].log| ==> SysEnabled(cfg, s, SysStep.Receive(h)))
            && (hd.mode.batch.kind == Single ==> SysEnabled(cfg, s, SysStep.StopWaiting(h)))
  {
    hide Inv, TimeInv, GoodBatch;
    assert HolderOk(s.mux, s.holders[h]);
  }

  /** The cleanup goroutine can take the reply once it is there, or give up when ten minutes have passed. */
  lemma CleaningCanGoOn(cfg: Config, s: Sys, h: nat)
    requires SysInv(cfg, s) && h in s.holders && s.holders[h].mode.Cleaning?
    ensures var hd := s.holders[h];
            && hd.ch in s.mux.chans
            && (s.mux.chans[hd.ch].head < |s.mux.chans[hd.ch].log| ==> SysEnabled(cfg, s, SysStep.CleanUp(h)))
            && (s.mux.now >= hd.mode.since + 600 ==> SysEnabled(cfg, s, SysStep.CleanUpExpires(h)))
  {
    hide Inv, TimeInv, GoodBatch;
    assert HolderOk(s.mux, s.holders[h]);
  }

  /** After the reply it can close the channel. */
  lemma ClosingCanGoOn(cfg: Config, s: Sys, h: nat)
    requires SysInv(cfg, s) && h in s.holders && s.holders[h].mode.Closing?
    ensures SysEnabled(cfg, s, SysStep.CloseDone(h))
  {
    hide Inv, TimeInv;
    assert HolderOk(s.mux, s.holders[h]);
  }
}
