/** What a holder has read, as its acts tell it: when a batch returns, the last reads among the acts of its
    holder are the node's own answers to that batch, in any interleaving. */
module FlowReads {
  import opened Rpc
  import opened Multiplexer
  import opened Calls
  import opened Batches
  import opened Sessions
  import opened SessionRuns
  import opened SessionSafety
  import opened EndToEnd
  import opened FlowsInSystem

  /** A holder that was at rest with its channel at i and held it up to j. */
  ghost predicate IsHolding(cfg: Config, states: seq<Sys>, steps: seq<SysStep>, h: nat, i: nat, j: nat) {
    && IsSysRun(cfg, states, steps) && i <= j < |states|
    && HoldsThroughout(states, h, i, j) && states[i].holders[h].mode == Idle
  }

  lemma HoldsLess(cfg: Config, states: seq<Sys>, steps: seq<SysStep>, h: nat, i: nat, m: nat, j: nat)
    requires IsHolding(cfg, states, steps, h, i, j) && i <= m <= j
    ensures IsHolding(cfg, states, steps, h, i, m) && IsSysRun(cfg, states, steps) && |states| == |steps| + 1
    ensures h in states[i].holders && h in states[m].holders
  {
  }

  /** Act k was done at some step, after the first k acts. */
  lemma {:induction false} ActAt(cfg: Config, states: seq<Sys>, steps: seq<SysStep>, h: nat, i: nat, j: nat,
                                 k: nat) returns (m: nat)
    requires IsHolding(cfg, states, steps, h, i, j) && k < |ActsOf(cfg, states, steps, h, i, j)|
    ensures i <= m < j && IsActOf(steps[m], h) && IsHolding(cfg, states, steps, h, i, m)
    ensures ActsOf(cfg, states, steps, h, i, m) == ActsOf(cfg, states, steps, h, i, j)[..k]
    ensures SysEnabled(cfg, states[m], steps[m])
    ensures ActOf(cfg, states[m], steps[m]) == ActsOf(cfg, states, steps, h, i, j)[k]
    decreases j
  {
    hide ActOf, SysApply, SysEnabled;
    HoldsLess(cfg, states, steps, h, i, j - 1, j);
    var acts, before := ActsOf(cfg, states, steps, h, i, j), ActsOf(cfg, states, steps, h, i, j - 1);
    assert before <= acts;
    if k == |before| {
      m := j - 1;
      assert acts[..k] == before;
    } else {
      m := ActAt(cfg, states, steps, h, i, j - 1, k);
      assert before[..k] == acts[..k];
    }
  }

  // ----- the replies of a batch, as the log of its channel has them

  lemma LogGrows(cfg: Config, s: Sys, step: SysStep, ch: nat)
    requires SysEnabled(cfg, s, step) && ch in s.mux.chans
    ensures ch in SysApply(cfg, s, step).mux.chans && s.mux.chans[ch].log <= SysApply(cfg, s, step).mux.chans[ch].log
  {
    ForeignOnlyGrows(cfg, s, step);
    var m := MuxStep(cfg, s, step);
    if m.Some? {
      MuxLogGrows(cfg.timeout, s.mux, m.value, ch);
    }
  }

  lemma MuxLogGrows(timeout: nat, s: Mux, step: Step, ch: nat)
    requires Enabled(timeout, s, step) && ch in s.chans
    ensures ch in Apply(timeout, s, step).chans && s.chans[ch].log <= Apply(timeout, s, step).chans[ch].log
  {
  }

  /** The reads of n replies of a log, from one of them on. */
  function LogReads(log: seq<Item>, from: nat, n: nat): (acts: seq<Act>)
    requires from + n <= |log|
    ensures |acts| == n && forall k :: 0 <= k < n ==> acts[k] == Read(log[from + k].resp)
  {
    seq(n, k requires 0 <= k < n => Read(log[from + k].resp))
  }

  /** The replies read so far in the batch under way are the last acts. */
  ghost predicate ReadSoFar(s: Sys, h: nat, acts: seq<Act>) {
    h in s.holders && s.holders[h].mode.Collecting? ==>
      var hd := s.holders[h];
      var b, got := hd.mode.batch, hd.mode.got;
      && hd.ch in s.mux.chans && got <= |acts| && b.from + got <= |s.mux.chans[hd.ch].log|
      && acts[|acts| - got..] == LogReads(s.mux.chans[hd.ch].log, b.from, got)
  }

  lemma LongerLog(a: seq<Item>, b: seq<Item>, from: nat, n: nat)
    requires a <= b && from + n <= |a|
    ensures LogReads(a, from, n) == LogReads(b, from, n)
  {
  }

  lemma OneMoreLogged(log: seq<Item>, from: nat, n: nat, acts: seq<Act>)
    requires from + n < |log| && n <= |acts| && acts[|acts| - n..] == LogReads(log, from, n)
    ensures var more := acts + [Read(log[from + n].resp)];
            more[|more| - (n + 1)..] == LogReads(log, from, n + 1)
  {
    var more := acts + [Read(log[from + n].resp)];
    assert more[|more| - (n + 1)..] == acts[|acts| - n..] + [Read(log[from + n].resp)];
  }

  lemma OthersLeaveMode(cfg: Config, s: Sys, step: SysStep, h: nat)
    requires SysEnabled(cfg, s, step) && !IsActOf(step, h)
    requires h in s.holders && h in SysApply(cfg, s, step).holders
    ensures SysApply(cfg, s, step).holders[h].ch == s.holders[h].ch
    ensures SysApply(cfg, s, step).holders[h].mode.Collecting? ==>
              s.holders[h].mode == SysApply(cfg, s, step).holders[h].mode
  {
    hide Enabled, Apply, Lesson;
  }

  lemma HeadIs(s: Sys, h: nat, cfg: Config)
    requires SysInv(cfg, s) && h in s.holders && s.holders[h].mode.Collecting?
    ensures s.holders[h].ch in s.mux.chans
    ensures var b, c := s.holders[h].mode.batch, s.mux.chans[s.holders[h].ch];
            c.head == b.from + s.holders[h].mode.got <= |c.log|
  {
    assert HolderOk(s.mux, s.holders[h]) && ChannelOk(s.mux, s.holders[h].ch);
  }

  lemma ReceiveLogs(cfg: Config, s: Sys, h: nat, acts: seq<Act>)
    requires SysInv(cfg, s) && SysEnabled(cfg, s, SysStep.Receive(h)) && ReadSoFar(s, h, acts)
    ensures ReadSoFar(SysApply(cfg, s, SysStep.Receive(h)), h, acts + [Read(Taken(cfg, s, h))])
  {
    hide SysInv, SysApply, Taken, LogReads, AfterReply;
    assert h in s.holders && s.holders[h].mode.Collecting?;
    hide SysEnabled;
    HeadIs(s, h, cfg);
    ReceiveStep(cfg, s, h);
    var hd := s.holders[h];
    OneMoreLogged(s.mux.chans[hd.ch].log, hd.mode.batch.from, hd.mode.got, acts);
  }

  lemma ReceiveStep(cfg: Config, s: Sys, h: nat)
    requires SysEnabled(cfg, s, SysStep.Receive(h))
    ensures var s', hd := SysApply(cfg, s, SysStep.Receive(h)), s.holders[h];
            && h in s'.holders && s'.holders[h].ch == hd.ch && hd.ch in s.mux.chans && hd.ch in s'.mux.chans
            && s'.mux.chans[hd.ch].log == s.mux.chans[hd.ch].log
            && s.mux.chans[hd.ch].head < |s.mux.chans[hd.ch].log|
            && Taken(cfg, s, h) == s.mux.chans[hd.ch].log[s.mux.chans[hd.ch].head].resp
            && s'.holders[h].mode == AfterReply(hd.mode.batch, hd.mode.got, Taken(cfg, s, h).error.Some?)
            && (s'.holders[h].mode.Collecting? ==> s'.holders[h].mode == Collecting(hd.mode.batch, hd.mode.got + 1))
  {
    hide Lesson;
  }

  lemma QuietActLogs(cfg: Config, s: Sys, step: SysStep, h: nat, acts: seq<Act>)
    requires SysInv(cfg, s) && SysEnabled(cfg, s, step) && IsActOf(step, h) && !step.Receive?
    ensures ReadSoFar(SysApply(cfg, s, step), h, acts + [ActOf(cfg, s, step)])
  {
    StartsUnread(cfg, s, step, h);
    hide SysApply, SysEnabled, SysInv, ActOf;
    assert (acts + [ActOf(cfg, s, step)])[|acts| + 1..] == [];
  }

  lemma OtherStepLogs(cfg: Config, s: Sys, step: SysStep, h: nat, acts: seq<Act>)
    requires SysEnabled(cfg, s, step) && !IsActOf(step, h) && ReadSoFar(s, h, acts)
    requires h in s.holders && h in SysApply(cfg, s, step).holders
    ensures ReadSoFar(SysApply(cfg, s, step), h, acts)
  {
    var s' := SysApply(cfg, s, step);
    OthersLeaveMode(cfg, s, step, h);
    hide SysApply, SysEnabled, LogReads, IsActOf;
    if s'.holders[h].mode.Collecting? {
      var hd := s.holders[h];
      LogGrows(cfg, s, step, hd.ch);
      LongerLog(s.mux.chans[hd.ch].log, s'.mux.chans[hd.ch].log, hd.mode.batch.from, hd.mode.got);
    }
  }

  lemma StepLogs(cfg: Config, s: Sys, step: SysStep, h: nat, acts: seq<Act>)
    requires SysInv(cfg, s) && SysEnabled(cfg, s, step) && ReadSoFar(s, h, acts)
    requires h in s.holders && h in SysApply(cfg, s, step).holders
    ensures ReadSoFar(SysApply(cfg, s, step), h, if IsActOf(step, h) then acts + [ActOf(cfg, s, step)] else acts)
  {
    hide SysApply, SysEnabled, SysInv, ReadSoFar;
    if step == SysStep.Receive(h) {
      ReceiveLogs(cfg, s, h, acts);
    } else if IsActOf(step, h) {
      QuietActLogs(cfg, s, step, h, acts);
    } else {
      OtherStepLogs(cfg, s, step, h, acts);
    }
  }

  /** Acts that are no reads leave the holder elsewhere, or at the beginning of its reading. */
  lemma StartsUnread(cfg: Config, s: Sys, step: SysStep, h: nat)
    requires SysInv(cfg, s) && SysEnabled(cfg, s, step) && IsActOf(step, h) && !step.Receive?
    ensures h in SysApply(cfg, s, step).holders
    ensures var hd := SysApply(cfg, s, step).holders[h];
            hd.mode.Collecting? ==>
              && hd.mode.got == 0 && hd.ch in SysApply(cfg, s, step).mux.chans
              && hd.mode.batch.from <= |SysApply(cfg, s, step).mux.chans[hd.ch].log|
  {
    assert HolderOk(s.mux, s.holders[h]);
    hide SysInv, Lesson, GoodBatch;
  }

  lemma RestReadsNothing(s: Sys, h: nat, acts: seq<Act>)
    requires h in s.holders && s.holders[h].mode == Idle
    ensures ReadSoFar(s, h, acts)
  {
  }

  lemma ActsGrow(cfg: Config, states: seq<Sys>, steps: seq<SysStep>, h: nat, i: nat, j: nat)
    requires IsSysRun(cfg, states, steps) && i < j < |states|
    ensures SysEnabled(cfg, states[j - 1], steps[j - 1]) && states[j] == SysApply(cfg, states[j - 1], steps[j - 1])
    ensures ActsOf(cfg, states, steps, h, i, j)
            == if IsActOf(steps[j - 1], h)
               then ActsOf(cfg, states, steps, h, i, j - 1) + [ActOf(cfg, states[j - 1], steps[j - 1])]
               else ActsOf(cfg, states, steps, h, i, j - 1)
  {
    hide SysApply, SysEnabled, ActOf, IsActOf;
  }

  /** What a run and a holding in it come down to at their last step. */
  lemma LastStep(cfg: Config, states: seq<Sys>, steps: seq<SysStep>, h: nat, i: nat, j: nat)
    requires IsHolding(cfg, states, steps, h, i, j) && i < j
    ensures IsSysRun(cfg, states, steps) && j <= |steps| && j < |states|
    ensures SysInv(cfg, states[j - 1]) && SysEnabled(cfg, states[j - 1], steps[j - 1])
    ensures states[j] == SysApply(cfg, states[j - 1], steps[j - 1])
    ensures h in states[j - 1].holders && h in states[j].holders && IsHolding(cfg, states, steps, h, i, j - 1)
  {
    hide SysApply, SysEnabled, SysInv;
    HoldsLess(cfg, states, steps, h, i, j - 1, j);
    HoldsLess(cfg, states, steps, h, i, j, j);
    hide HoldsThroughout, IsHolding;
    RunKeepsDiscipline(cfg, states, steps, j - 1);
  }

  lemma LastStepLogs(cfg: Config, states: seq<Sys>, steps: seq<SysStep>, h: nat, i: nat, j: nat, before: seq<Act>,
                     after: seq<Act>)
    requires IsHolding(cfg, states, steps, h, i, j) && i < j
    requires before == ActsOf(cfg, states, steps, h, i, j - 1) && after == ActsOf(cfg, states, steps, h, i, j)
    requires ReadSoFar(states[j - 1], h, before)
    ensures ReadSoFar(states[j], h, after)
  {
    hide SysApply, SysEnabled, ReadSoFar, ActOf, IsSysRun, IsActOf, SysInv, HoldsThroughout, IsHolding;
    LastStep(cfg, states, steps, h, i, j);
    ActsGrow(cfg, states, steps, h, i, j);
    hide ActsOf;
    StepLogs(cfg, states[j - 1], steps[j - 1], h, before);
  }

  lemma {:induction false} ReadsAreLogged(cfg: Config, states: seq<Sys>, steps: seq<SysStep>, h: nat, i: nat, j: nat)
    requires IsHolding(cfg, states, steps, h, i, j)
    ensures ReadSoFar(states[j], h, ActsOf(cfg, states, steps, h, i, j))
  {
    hide ReadSoFar, ActsOf;
    HoldsLess(cfg, states, steps, h, i, j, j);
    var acts := ActsOf(cfg, states, steps, h, i, j);
    if i < j {
      LastStep(cfg, states, steps, h, i, j);
      ReadsAreLogged(cfg, states, steps, h, i, j - 1);
      LastStepLogs(cfg, states, steps, h, i, j, ActsOf(cfg, states, steps, h, i, j - 1), acts);
    } else {
      RestReadsNothing(states[i], h, acts);
    }
  }

  /** When a reply loop returns, the replies of its batch are the last reads among the acts. */
  lemma BatchRead(cfg: Config, node: Node, states: seq<Sys>, steps: seq<SysStep>, h: nat, i: nat, m: nat)
    requires IsFaithfulSysRun(cfg, node, states, steps) && IsHolding(cfg, states, steps, h, i, m)
    requires Returns(cfg, states, steps, m) && steps[m].h == h
    requires h in states[m].holders && states[m].holders[h].mode.Collecting?
    requires states[m].holders[h].mode.got + 1 == |BatchAt(states[m], h).reqs|
    ensures states[m].holders[h].ch in states[m].mux.chans
    ensures BatchAt(states[m], h).from <= |states[m].mux.chans[states[m].holders[h].ch].log|
    ensures IsReadingOf(node, BatchAt(states[m], h).reqs, RepliesRead(states[m], h))
    ensures SysEnabled(cfg, states[m], steps[m]) && |RepliesRead(states[m], h)| == |BatchAt(states[m], h).reqs|
    ensures var n := |BatchAt(states[m], h).reqs|;
            var acts := ActsOf(cfg, states, steps, h, i, m) + [ActOf(cfg, states[m], steps[m])];
            n <= |acts| && acts[|acts| - n..] == ReadActs(RepliesRead(states[m], h), n)
  {
    hide SysApply, SysInv, ActsOf, ReadSoFar, IsReadingOf, RepliesRead;
    HoldsLess(cfg, states, steps, h, i, m, m);
    assert SysEnabled(cfg, states[m], steps[m]);
    var acts := ActsOf(cfg, states, steps, h, i, m);
    hide IsSysRun, IsHolding, HoldsThroughout, SysEnabled;
    LoopReadsItsOwnBatch(cfg, node, states, steps, m);
    ReadsAreLogged(cfg, states, steps, h, i, m);
    RunKeepsDiscipline(cfg, states, steps, m);
    LastRead(cfg, node, states[m], h, acts);
  }

  lemma LastRead(cfg: Config, node: Node, s: Sys, h: nat, acts: seq<Act>)
    requires SysInv(cfg, s) && SysEnabled(cfg, s, SysStep.Receive(h)) && ReadSoFar(s, h, acts)
    requires s.holders[h].mode.got + 1 == |BatchAt(s, h).reqs| && s.holders[h].ch in s.mux.chans
    requires BatchAt(s, h).from <= |s.mux.chans[s.holders[h].ch].log|
    requires IsReadingOf(node, BatchAt(s, h).reqs, RepliesRead(s, h))
    ensures |RepliesRead(s, h)| == |BatchAt(s, h).reqs|
    ensures var n, more := |BatchAt(s, h).reqs|, acts + [Read(Taken(cfg, s, h))];
            n <= |more| && more[|more| - n..] == ReadActs(RepliesRead(s, h), n)
  {
    hide SysInv, SysApply, Taken, IsReadingOf, LogReads, ReadActs, AfterReply;
    assert s.holders[h].mode.Collecting?;
    hide SysEnabled;
    HeadIs(s, h, cfg);
    ReceiveStep(cfg, s, h);
    OneEach(node, BatchAt(s, h).reqs, RepliesRead(s, h));
    var b, log := BatchAt(s, h), s.mux.chans[s.holders[h].ch].log;
    OneMoreLogged(log, b.from, s.holders[h].mode.got, acts);
    LogReadsAll(log, b.from);
  }

  lemma OneEach(node: Node, reqs: seq<Request>, replies: seq<Response>)
    requires IsReadingOf(node, reqs, replies)
    ensures |replies| == |reqs|
  {
    var order :| AnswersInOrder(node, reqs, replies, order);
  }

  lemma LogReadsAll(log: seq<Item>, from: nat)
    requires from <= |log|
    ensures LogReads(log, from, |log| - from) == ReadActs(Responses(log[from..]), |log| - from)
  {
  }

  // ----- the steps behind the acts

  /** Step m of the run is act k of the holder, done at the stage that the acts before it lead to. */
  ghost predicate IsStepOfAct(cfg: Config, states: seq<Sys>, steps: seq<SysStep>, h: nat, i: nat, m: nat,
                              acts: seq<Act>, k: nat) {
    && IsHolding(cfg, states, steps, h, i, m) && m < |steps| && k < |acts|
    && IsActOf(steps[m], h) && SysEnabled(cfg, states[m], steps[m])
    && states[m + 1] == SysApply(cfg, states[m], steps[m])
    && ActsOf(cfg, states, steps, h, i, m) == acts[..k] && ActOf(cfg, states[m], steps[m]) == acts[k]
    && h in states[i].holders && h in states[m].holders && states[m].holders[h].ch == states[i].holders[h].ch
    && AdvanceAll(states[i].holders[h].ch, Resting, acts[..k]) == Some(StageOf(states[m].holders[h].mode))
  }

  lemma StepOfAct(cfg: Config, states: seq<Sys>, steps: seq<SysStep>, h: nat, i: nat, j: nat, acts: seq<Act>,
                  k: nat) returns (m: nat)
    requires IsHolding(cfg, states, steps, h, i, j) && acts == ActsOf(cfg, states, steps, h, i, j) && k < |acts|
    ensures i <= m < j && IsStepOfAct(cfg, states, steps, h, i, m, acts, k)
  {
    hide SysApply, SysEnabled, ActOf, ActsOf, AdvanceAll, StageOf;
    m := ActAt(cfg, states, steps, h, i, j, k);
    HoldsLess(cfg, states, steps, h, i, m, j);
    HoldersFollow(cfg, states, steps, h, i, m);
  }

  /** The last read of a batch returns. */
  lemma LastReadReturns(cfg: Config, states: seq<Sys>, steps: seq<SysStep>, h: nat, i: nat, m: nat, acts: seq<Act>,
                        k: nat)
    requires IsStepOfAct(cfg, states, steps, h, i, m, acts, k) && acts[k].Read? && IsSysRun(cfg, states, steps)
    requires var st := StageOf(states[m].holders[h].mode);
             st.Reading? && VerdictOn(st.kind, |st.reqs|, st.got, acts[k].resp.error.Some?).Return?
    ensures steps[m].Receive? && steps[m].h == h && Returns(cfg, states, steps, m) && states[m].holders[h].mode.Collecting?
    ensures var st := StageOf(states[m].holders[h].mode);
            BatchAt(states[m], h).kind == st.kind && BatchAt(states[m], h).reqs == st.reqs && states[m].holders[h].mode.got == st.got
  {
    ReceiveStepOf(cfg, states[m], steps[m], h, acts[k]);
    hide SysApply, SysEnabled, IsHolding, ActsOf, AdvanceAll, IsSysRun, VerdictOn;
  }

  lemma ReceiveStepOf(cfg: Config, s: Sys, step: SysStep, h: nat, act: Act)
    requires SysEnabled(cfg, s, step) && IsActOf(step, h) && ActOf(cfg, s, step) == act && act.Read?
    ensures step == SysStep.Receive(h) && h in s.holders && s.holders[h].mode.Collecting? && Taken(cfg, s, h) == act.resp
    ensures h in SysApply(cfg, s, step).holders
    ensures SysApply(cfg, s, step).holders[h].mode
            == AfterReply(s.holders[h].mode.batch, s.holders[h].mode.got, act.resp.error.Some?)
  {
    hide Lesson, Enabled, Apply;
  }

  /** The replies that a batch was told, up to its return. */
  lemma RepliesOfBatch(cfg: Config, node: Node, states: seq<Sys>, steps: seq<SysStep>, h: nat, i: nat, m: nat,
                       acts: seq<Act>, k: nat, reqs: seq<Request>, replies: seq<Response>)
    requires IsFaithfulSysRun(cfg, node, states, steps) && IsStepOfAct(cfg, states, steps, h, i, m, acts, k)
    requires Returns(cfg, states, steps, m) && steps[m].h == h && states[m].holders[h].mode.Collecting?
    requires BatchAt(states[m], h).reqs == reqs && states[m].holders[h].mode.got + 1 == |reqs|
    requires |reqs| <= |replies| && |reqs| <= k + 1 && acts[k + 1 - |reqs|..k + 1] == ReadActs(replies, |reqs|)
    ensures IsReadingOf(node, reqs, replies[..|reqs|])
  {
    hide SysApply, SysEnabled, ActOf, ActsOf, AdvanceAll, StageOf, IsSysRun, IsReadingOf, RepliesRead;
    BatchRead(cfg, node, states, steps, h, i, m);
    var rs, n := RepliesRead(states[m], h), |reqs|;
    assert acts[..k] + [acts[k]] == acts[..k + 1];
    assert acts[..k + 1][k + 1 - n..] == acts[k + 1 - n..k + 1];
    SameReads(rs, replies, n);
    assert rs[..n] == rs;
  }

  lemma SameReads(a: seq<Response>, b: seq<Response>, n: nat)
    requires n <= |a| && n <= |b| && ReadActs(a, n) == ReadActs(b, n)
    ensures a[..n] == b[..n]
  {
    forall k | 0 <= k < n ensures a[k] == b[k] {
      assert ReadActs(a, n)[k] == Read(a[k]) && ReadActs(b, n)[k] == Read(b[k]);
    }
  }

  /** The acts of the flow that were done up to j: pre, then the acts of one stage, then post. */
  ghost predicate DidStage(cfg: Config, states: seq<Sys>, steps: seq<SysStep>, h: nat, i: nat, j: nat, pre: seq<Act>,
                           stage: seq<Act>, post: seq<Act>, ch: nat) {
    && IsHolding(cfg, states, steps, h, i, j) && h in states[i].holders && ch == states[i].holders[h].ch
    && ActsOf(cfg, states, steps, h, i, j) == pre + stage + post
    && AdvanceAll(ch, Resting, pre) == Some(Resting)
  }

  /** Act k of a stage and the stage of the automaton where it was done. */
  lemma StepOfStage(cfg: Config, states: seq<Sys>, steps: seq<SysStep>, h: nat, i: nat, j: nat, pre: seq<Act>,
                    stage: seq<Act>, post: seq<Act>, ch: nat, k: nat) returns (m: nat)
    requires DidStage(cfg, states, steps, h, i, j, pre, stage, post, ch) && k < |stage|
    ensures i <= m < j && IsStepOfAct(cfg, states, steps, h, i, m, pre + stage + post, |pre| + k)
    ensures (pre + stage + post)[|pre| + k] == stage[k]
    ensures h in states[m].holders && AdvanceAll(ch, Resting, stage[..k]) == Some(StageOf(states[m].holders[h].mode))
  {
    hide SysApply, SysEnabled, ActOf, ActsOf, AdvanceAll, StageOf, IsHolding, HoldsThroughout;
    var acts := pre + stage + post;
    m := StepOfAct(cfg, states, steps, h, i, j, acts, |pre| + k);
    assert acts[..|pre| + k] == pre + stage[..k];
    ActsCompose(ch, Resting, pre, stage[..k]);
  }

  lemma SplitStage(cfg: Config, states: seq<Sys>, steps: seq<SysStep>, h: nat, i: nat, j: nat, pre: seq<Act>,
                   a: seq<Act>, b: seq<Act>, post: seq<Act>, ch: nat)
    requires DidStage(cfg, states, steps, h, i, j, pre, a + b, post, ch)
    ensures DidStage(cfg, states, steps, h, i, j, pre, a, b + post, ch)
    ensures AdvanceAll(ch, Resting, a) == Some(Resting) ==> DidStage(cfg, states, steps, h, i, j, pre + a, b, post, ch)
  {
    hide IsHolding, ActsOf, AdvanceAll;
    ActsCompose(ch, Resting, pre, a);
    assert pre + (a + b) + post == pre + a + (b + post) == pre + a + b + post;
  }

  // ----- a whole batch

  /** What was sent, and the replies that were read up to the last one, which ends the batch. */
  ghost predicate IsBatch(ch: nat, kind: Kind, reqs: seq<Request>, sent: seq<Act>, replies: seq<Response>) {
    && 0 < |reqs| <= |replies|
    && AdvanceAll(ch, Resting, sent + ReadActs(replies, |reqs| - 1)) == Some(Reading(kind, reqs, |reqs| - 1))
    && VerdictOn(kind, |reqs|, |reqs| - 1, replies[|reqs| - 1].error.Some?).Return?
  }

  lemma LastOfBatch(reqs: seq<Request>, sent: seq<Act>, replies: seq<Response>, pre: seq<Act>, post: seq<Act>)
    requires 0 < |reqs| <= |replies|
    ensures var n, stage := |reqs|, sent + ReadActs(replies, |reqs|);
            var k, acts := |pre| + |stage| - 1, pre + stage + post;
            && stage[..|stage| - 1] == sent + ReadActs(replies, n - 1) && stage[|stage| - 1] == Read(replies[n - 1])
            && n <= k + 1 && acts[k + 1 - n..k + 1] == ReadActs(replies, n)
  {
    ReadMore(replies, |reqs| - 1);
    hide ReadActs;
    var n, stage := |reqs|, sent + ReadActs(replies, |reqs|);
    assert stage[..|stage| - 1] == sent + ReadActs(replies, n - 1);
    assert (pre + stage + post)[..|pre| + |stage|] == pre + stage;
    assert (pre + stage)[|pre| + |stage| - n..] == ReadActs(replies, n);
  }

  /** A holder that read a batch to its end was told one own reply for each of its requests. */
  lemma BatchIsOwn(cfg: Config, node: Node, states: seq<Sys>, steps: seq<SysStep>, h: nat, i: nat, j: nat,
                   pre: seq<Act>, post: seq<Act>, ch: nat, kind: Kind, reqs: seq<Request>, sent: seq<Act>,
                   replies: seq<Response>)
    returns (m: nat)
    requires IsFaithfulSysRun(cfg, node, states, steps) && IsBatch(ch, kind, reqs, sent, replies)
    requires DidStage(cfg, states, steps, h, i, j, pre, sent + ReadActs(replies, |reqs|), post, ch)
    ensures IsReadingOf(node, reqs, replies[..|reqs|])
    ensures IsAtStage(states, h, m, Reading(kind, reqs, |reqs| - 1))
  {
    hide DidStage, AdvanceAll, IsFaithfulSysRun, ReadActs, IsReadingOf, VerdictOn, StageOf, IsStepOfAct;
    var stage := sent + ReadActs(replies, |reqs|);
    var acts, k := pre + stage + post, |pre| + |stage| - 1;
    LastOfBatch(reqs, sent, replies, pre, post);
    m := StepOfStage(cfg, states, steps, h, i, j, pre, stage, post, ch, |stage| - 1);
    ReadsInRun(cfg, node, states, steps, h, i, m, acts, k, kind, reqs, replies);
  }

  ghost predicate IsAtStage(states: seq<Sys>, h: nat, m: nat, st: Stage) {
    m < |states| && h in states[m].holders && StageOf(states[m].holders[h].mode) == st
  }

  lemma ReadsInRun(cfg: Config, node: Node, states: seq<Sys>, steps: seq<SysStep>, h: nat, i: nat, m: nat,
                   acts: seq<Act>, k: nat, kind: Kind, reqs: seq<Request>, replies: seq<Response>)
    requires IsFaithfulSysRun(cfg, node, states, steps) && IsStepOfAct(cfg, states, steps, h, i, m, acts, k)
    requires 0 < |reqs| <= |replies| && |reqs| <= k + 1 && acts[k] == Read(replies[|reqs| - 1])
    requires acts[k + 1 - |reqs|..k + 1] == ReadActs(replies, |reqs|)
    requires VerdictOn(kind, |reqs|, |reqs| - 1, replies[|reqs| - 1].error.Some?).Return?
    requires StageOf(states[m].holders[h].mode) == Reading(kind, reqs, |reqs| - 1)
    ensures IsReadingOf(node, reqs, replies[..|reqs|]) && IsAtStage(states, h, m, Reading(kind, reqs, |reqs| - 1))
  {
    FaithfulIsRun(cfg, node, states, steps);
    hide IsFaithfulSysRun, ReadActs, IsReadingOf, VerdictOn, StageOf, SysApply, SysEnabled, ActsOf, AdvanceAll, ActOf, IsSysRun;
    LastReadReturns(cfg, states, steps, h, i, m, acts, k);
    RepliesOfBatch(cfg, node, states, steps, h, i, m, acts, k, reqs, replies);
  }

  lemma FaithfulIsRun(cfg: Config, node: Node, states: seq<Sys>, steps: seq<SysStep>)
    requires IsFaithfulSysRun(cfg, node, states, steps)
    ensures IsSysRun(cfg, states, steps)
  {
  }
}
