/** The flows inside the interleaved system: a holder of a channel does, step by step, what the automaton
    of Batches allows, so a holder that runs a flow is back at rest when the flow returns. */
module FlowsInSystem {
  import opened Rpc
  import opened Multiplexer
  import opened Batches
  import opened Sessions
  import opened SessionRuns
  import opened SessionSafety
  import F = Flows
  import C = Conduct
  import DS = DecodeStore
  import OR = OtherReplies

  function StageOf(mode: Mode): Stage {
    match mode
    case Idle => Resting
    case Sending(b) => Asking(b.kind, b.reqs, |b.tickets|)
    case Collecting(b, got) => Reading(b.kind, b.reqs, got)
    case Cleaning(_, _) => Leaving
    case Closing => Leaving
  }

  /** The steps by which a holder acts on its channel. */
  predicate IsAct(step: SysStep) {
    step.Begin? || step.LookUp? || step.Send? || step.SendRefused? || step.StartCollecting? || step.AllHit?
    || step.Receive? || step.StopWaiting?
  }

  predicate IsActOf(step: SysStep, h: nat) {
    IsAct(step) && step.h == h
  }

  function ActOf(cfg: Config, s: Sys, step: SysStep): Act
    requires SysEnabled(cfg, s, step) && IsAct(step)
  {
    match step
    case Begin(_, kind, reqs) => Act.Begin(kind, reqs)
    case LookUp(h) => Act.LookUp(Found(s, s.holders[h].mode.batch.kind))
    case Send(h, _, _) => Act.Send(s.holders[h].mode.batch.reqs[|s.holders[h].mode.batch.tickets|])
    case SendRefused(_) => Act.SendRefused
    case StartCollecting(_) => StartReading
    case AllHit(_) => Act.AllHit
    case Receive(h) => Read(Taken(cfg, s, h))
    case _ => GiveUp
  }

  ghost predicate Advances(cfg: Config, s: Sys, step: SysStep, h: nat)
    requires SysEnabled(cfg, s, step) && IsActOf(step, h)
  {
    && h in s.holders && h in SysApply(cfg, s, step).holders
    && SysApply(cfg, s, step).holders[h].ch == s.holders[h].ch
    && Batches.Advance(s.holders[h].ch, StageOf(s.holders[h].mode), ActOf(cfg, s, step))
       == Some(StageOf(SysApply(cfg, s, step).holders[h].mode))
  }

  lemma ReceiveAdvances(cfg: Config, s: Sys, h: nat)
    requires SysInv(cfg, s) && SysEnabled(cfg, s, SysStep.Receive(h))
    ensures Advances(cfg, s, SysStep.Receive(h), h)
  {
    MoreToRead(cfg, s, h);
    hide SysInv, Enabled, Apply, Lesson, Taken;
  }

  lemma MoreToRead(cfg: Config, s: Sys, h: nat)
    requires SysInv(cfg, s) && SysEnabled(cfg, s, SysStep.Receive(h))
    ensures s.holders[h].mode.got < |s.holders[h].mode.batch.reqs|
  {
    var hd := s.holders[h];
    assert HolderOk(s.mux, hd);
    ReadAdvancesBatch(cfg.timeout, s.mux, hd.ch, hd.mode.batch);
  }

  lemma RefusalAdvances(cfg: Config, s: Sys, h: nat)
    requires SysInv(cfg, s) && SysEnabled(cfg, s, SysStep.SendRefused(h))
    ensures Advances(cfg, s, SysStep.SendRefused(h), h)
  {
    assert HolderOk(s.mux, s.holders[h]);
    SentNeedsLatch(s.mux, s.holders[h]);
    hide Inv, SysInv, HolderOk, Enabled, Apply, Lesson;
  }

  lemma SendAdvances(cfg: Config, s: Sys, step: SysStep)
    requires SysEnabled(cfg, s, step) && step.Send?
    ensures Advances(cfg, s, step, step.h)
  {
    hide Enabled, Apply, Lesson;
  }

  lemma LookUpAdvances(cfg: Config, s: Sys, h: nat)
    requires SysEnabled(cfg, s, SysStep.LookUp(h))
    ensures Advances(cfg, s, SysStep.LookUp(h), h)
  {
    hide Found, LookedUp, AskedAfter;
  }

  lemma QuietActAdvances(cfg: Config, s: Sys, step: SysStep)
    requires SysEnabled(cfg, s, step) && (step.Begin? || step.StartCollecting? || step.AllHit? || step.StopWaiting?)
    ensures Advances(cfg, s, step, step.h)
  {
    hide Enabled, Apply, Lesson, Taken, CanBegin, AllLooked;
  }

  /** One act of a holder: in order, and leading where the automaton says. That a refusal meets a batch of
      which nothing was sent, and that there is no reply to read beyond those of the batch, is the session
      discipline. */
  lemma ActAdvances(cfg: Config, s: Sys, step: SysStep, h: nat)
    requires SysInv(cfg, s) && SysEnabled(cfg, s, step) && IsActOf(step, h)
    ensures Advances(cfg, s, step, h)
  {
    hide SysInv, SysEnabled, Advances;
    match step {
      case Receive(_) => ReceiveAdvances(cfg, s, h);
      case SendRefused(_) => RefusalAdvances(cfg, s, h);
      case Send(_, _, _) => SendAdvances(cfg, s, step);
      case LookUp(_) => LookUpAdvances(cfg, s, h);
      case _ => QuietActAdvances(cfg, s, step);
    }
  }

  /** Other steps leave the stage of the holder alone. */
  lemma OthersLeaveAlone(cfg: Config, s: Sys, step: SysStep, h: nat)
    requires SysEnabled(cfg, s, step) && !IsActOf(step, h)
    requires h in s.holders && h in SysApply(cfg, s, step).holders
    ensures SysApply(cfg, s, step).holders[h].ch == s.holders[h].ch
    ensures StageOf(SysApply(cfg, s, step).holders[h].mode) == StageOf(s.holders[h].mode)
  {
    hide Enabled, Apply, Lesson;
  }

  /** What holder h did with its channel between states i and j. */
  ghost function ActsOf(cfg: Config, states: seq<Sys>, steps: seq<SysStep>, h: nat, i: nat, j: nat): seq<Act>
    requires IsSysRun(cfg, states, steps) && i <= j < |states|
  {
    if i == j then []
    else if IsActOf(steps[j - 1], h) then
      ActsOf(cfg, states, steps, h, i, j - 1) + [ActOf(cfg, states[j - 1], steps[j - 1])]
    else ActsOf(cfg, states, steps, h, i, j - 1)
  }

  ghost predicate HoldsThroughout(states: seq<Sys>, h: nat, i: nat, j: nat)
    requires i <= j < |states|
  {
    forall k :: i <= k <= j ==> h in states[k].holders
  }

  /** In every run, whatever the others do: from the moment it holds its channel at rest, a holder is where
      the automaton puts it after the acts it has done. */
  lemma {:induction false} HoldersFollow(cfg: Config, states: seq<Sys>, steps: seq<SysStep>, h: nat, i: nat, j: nat)
    requires IsSysRun(cfg, states, steps) && i <= j < |states| && HoldsThroughout(states, h, i, j)
    requires states[i].holders[h].mode == Idle
    ensures states[j].holders[h].ch == states[i].holders[h].ch
    ensures AdvanceAll(states[i].holders[h].ch, Resting, ActsOf(cfg, states, steps, h, i, j))
            == Some(StageOf(states[j].holders[h].mode))
  {
    hide SysApply, SysEnabled, SysInv, Batches.Advance;
    if i < j {
      HoldersFollow(cfg, states, steps, h, i, j - 1);
      var s, step := states[j - 1], steps[j - 1];
      assert h in states[j - 1].holders && h in states[j].holders;
      RunKeepsDiscipline(cfg, states, steps, j - 1);
      if IsActOf(step, h) {
        ActAdvances(cfg, s, step, h);
        assert Advances(cfg, s, step, h);
        var acts := ActsOf(cfg, states, steps, h, i, j);
        assert acts[..|acts| - 1] == ActsOf(cfg, states, steps, h, i, j - 1);
      } else {
        OthersLeaveAlone(cfg, s, step, h);
      }
    }
  }

  /** A holder that has done the acts of a flow which returns is at rest, its channel is owed nothing and
      holds nothing unread, and it can be put back; one whose flow gave up is in the hands of the cleanup. */
  lemma FlowLeavesItsHolder<T>(cfg: Config, states: seq<Sys>, steps: seq<SysStep>, h: nat, i: nat, j: nat, f: F.Flow<T>)
    requires IsSysRun(cfg, states, steps) && i <= j < |states| && HoldsThroughout(states, h, i, j)
    requires states[i].holders[h].mode == Idle && ActsOf(cfg, states, steps, h, i, j) == f.acts
    requires C.IsConducted(states[i].holders[h].ch, f)
    ensures f.end.Done? || f.end == F.Stopped(F.PutBack) ==>
              && states[j].holders[h].mode == Idle && ClientReady(cfg, states[j], SysStep.Return(h))
              && Clean(states[j].mux, states[j].holders[h].ch)
    ensures f.end == F.Stopped(F.HandedOver) ==> states[j].holders[h].mode.Cleaning? || states[j].holders[h].mode.Closing?
    ensures f.end == F.Stopped(F.Stuck) ==> states[j].holders[h].mode.Collecting?
  {
    HoldersFollow(cfg, states, steps, h, i, j);
    RunKeepsDiscipline(cfg, states, steps, j);
    assert HolderOk(states[j].mux, states[j].holders[h]);
  }

  /** blockAndTx in the interleaved system: on every returning path its channel goes back with nothing
      outstanding on it. */
  lemma BlockAndTxReturnsClean<B, R>(cfg: Config, states: seq<Sys>, steps: seq<SysStep>, h: nat, i: nat, j: nat,
                                     height: nat, heights: F.HeightWorld, hashes: F.HashWorld, hits: Hits,
                                     othersOnline: bool, dec: OR.Decoders<B, R>, others: seq<Response>,
                                     query: R -> DS.Query, decodes: string -> bool, network: string, stored: map<nat, string>)
    requires IsSysRun(cfg, states, steps) && i <= j < |states| && HoldsThroughout(states, h, i, j) && |others| <= 7
    requires states[i].holders[h].mode == Idle
    requires ActsOf(cfg, states, steps, h, i, j)
             == F.BlockFlow(states[i].holders[h].ch, height, heights, hashes, hits, othersOnline, dec, others, query,
                            decodes, network, stored).acts
    ensures var f := F.BlockFlow(states[i].holders[h].ch, height, heights, hashes, hits, othersOnline, dec, others, query,
                                 decodes, network, stored);
            f.end.Done? || f.end == F.Stopped(F.PutBack) ==>
              Clean(states[j].mux, states[j].holders[h].ch) && ClientReady(cfg, states[j], SysStep.Return(h))
  {
    assert h in states[i].holders;
    hide F.BlockFlow, ActsOf, HoldsThroughout, IsSysRun;
    var ch := states[i].holders[h].ch;
    var f := F.BlockFlow(ch, height, heights, hashes, hits, othersOnline, dec, others, query, decodes, network, stored);
    C.BlockConducted(ch, height, heights, hashes, hits, othersOnline, dec, others, query, decodes, network, stored);
    FlowLeavesItsHolder(cfg, states, steps, h, i, j, f);
  }

  /** The same for GetAccount; when it gives up, its channel is in the hands of the cleanup. */
  lemma GetAccountReturnsClean(cfg: Config, states: seq<Sys>, steps: seq<SysStep>, h: nat, i: nat, j: nat, height: nat,
                               heights: F.HeightWorld, hashes: F.HashWorld, hits: Hits, versionOnline: bool,
                               version: F.Wait, query: string -> Option<DS.Query>, decodes: string -> bool, network: string,
                               stored: map<nat, string>, key: Option<string>, accountOnline: bool, account: F.Wait)
    requires IsSysRun(cfg, states, steps) && i <= j < |states| && HoldsThroughout(states, h, i, j)
    requires states[i].holders[h].mode == Idle
    requires ActsOf(cfg, states, steps, h, i, j)
             == F.AccountFlow(states[i].holders[h].ch, height, heights, hashes, hits, versionOnline, version, query, decodes,
                              network, stored, key, accountOnline, account).acts
    ensures var f := F.AccountFlow(states[i].holders[h].ch, height, heights, hashes, hits, versionOnline, version, query,
                                   decodes, network, stored, key, accountOnline, account);
            && (f.end.Done? || f.end == F.Stopped(F.PutBack) ==>
                  Clean(states[j].mux, states[j].holders[h].ch) && ClientReady(cfg, states[j], SysStep.Return(h)))
            && (f.end == F.Stopped(F.HandedOver) ==> states[j].holders[h].mode.Cleaning? || states[j].holders[h].mode.Closing?)
  {
    assert h in states[i].holders;
    hide F.AccountFlow, ActsOf, HoldsThroughout, IsSysRun;
    var ch := states[i].holders[h].ch;
    var f := F.AccountFlow(ch, height, heights, hashes, hits, versionOnline, version, query, decodes, network, stored, key,
                           accountOnline, account);
    C.GetAccountConducted(ch, height, heights, hashes, hits, versionOnline, version, query, decodes, network, stored, key,
                          accountOnline, account);
    FlowLeavesItsHolder(cfg, states, steps, h, i, j, f);
  }
}
