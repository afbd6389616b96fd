/** The session discipline over every run of callers, pool and multiplexer together. */
module SessionRuns {
  import opened Rpc
  import opened Connection
  import opened Multiplexer
  import opened Ageing
  import opened Sessions

  ghost predicate Held(s: Sys, ch: nat) {
    exists h :: h in s.holders && s.holders[h].ch == ch
  }

  ghost predicate HoldersApart(s: Sys) {
    forall g, h :: g in s.holders && h in s.holders && s.holders[g].ch == s.holders[h].ch ==> g == h
  }

  ghost predicate PoolOk(cfg: Config, s: Sys) {
    && Distinct(s.pool) && |s.pool| <= cfg.poolSize
    && forall ch <- s.pool :: Clean(s.mux, ch) && !Held(s, ch) && ch !in s.foreign
  }

  ghost predicate ForeignOk(s: Sys) {
    && (forall ch <- s.foreign :: ch in s.mux.chans && !s.mux.chans[ch].closed)
    && (forall h <- s.holders :: s.holders[h].ch !in s.foreign)
  }

  predicate IsClosed(s: Mux, ch: nat) {
    ch in s.chans && s.chans[ch].closed
  }

  /** Somebody still reads the channel, or it was closed. */
  ghost predicate IsCaredFor(s: Sys, ch: nat) {
    ch in s.foreign || Held(s, ch) || IsClosed(s.mux, ch)
  }

  /** A request is outstanding only on a channel somebody still reads, or on one that was closed too early. */
  ghost predicate Owned(s: Sys) {
    forall t :: 0 <= t < |s.mux.tickets| && IsOpen(s.mux.tickets[t]) ==> IsCaredFor(s, s.mux.tickets[t].req.ch)
  }

  ghost predicate SysInv(cfg: Config, s: Sys) {
    && Inv(s.mux) && TimeInv(cfg.timeout, s.mux)
    && (forall h <- s.holders :: HolderOk(s.mux, s.holders[h]))
    && HoldersApart(s) && PoolOk(cfg, s) && ForeignOk(s) && Owned(s)
  }

  /** Ten-second ticks come within the grace period after they are due, a run that stopped finishes its
      teardown within it, and an encoding error is reported within it. */
  ghost predicate Prompt(cfg: Config, s: Mux) {
    && (forall e :: 0 <= e < |s.conns| && s.conns[e].phase != Finished ==> s.now <= s.conns[e].lastTick + TICK + cfg.grace)
    && (forall t :: 0 <= t < |s.tickets| && s.tickets[t].place.InHand? ==> s.now <= s.tickets[t].taken + cfg.grace)
  }

  predicate Sane(cfg: Config) {
    cfg.timeout + TICK + cfg.grace < CLEANUP_WAIT
  }

  // ----- room

  /** Outstanding requests plus unread replies on a borrowed channel are at most seven. */
  lemma AtMostSeven(s: Mux, hd: Holder)
    requires Inv(s) && HolderOk(s, hd)
    ensures |OpenOn(s, hd.ch)| + (|s.chans[hd.ch].log| - s.chans[hd.ch].head) <= 7
    ensures HasRoom(s.chans[hd.ch])
  {
    if hd.mode == Idle || hd.mode == Closing {
      assert OpenOn(s, hd.ch) == {};
    } else {
      Balance(s, hd.ch, hd.mode.batch);
    }
  }

  // ----- what other people's steps do to a channel

  lemma InnerEffect(timeout: nat, s: Mux, step: Step, ch: nat)
    requires Inv(s) && Enabled(timeout, s, step) && IsInner(step)
    requires ch in s.chans && HasRoom(s.chans[ch])
    ensures var s' := Apply(timeout, s, step);
            Untouched(s, s', ch) || exists t :: GetsAnswer(s, s', ch, t)
  {
    var s' := Apply(timeout, s, step);
    match step
    case ReportRefusal(e) =>
      assert ConnOk(s, e);
      var t := s.conns[e].inHand.value;
      if s.tickets[t].req.ch == ch {
        assert s'.chans[ch] == Push(s.chans[ch], Item(Refused(s.tickets[t].req), t));
        assert GetsAnswer(s, s', ch, t);
      }
    case Reply(e, msg) =>
      if msg.id in s.conns[e].core.store {
        if HasRoom(EntryChannel(s, e, msg.id)) {
          ResolveEffect(s, e, msg.id, Replied(s.conns[e].core.store[msg.id], msg.result), ch);
        } else {
          assert ConnOk(s, e) && TicketOk(s, s.conns[e].owner[msg.id]);
        }
      }
    case Expire(e, w) => ResolveEffect(s, e, w, Failed(s.conns[e].core.store[w], RequestTimedOut), ch);
    case DrainOne(e, w) => ResolveEffect(s, e, w, Failed(s.conns[e].core.store[w], ConnectionClosed), ch);
    case _ =>
  }

  lemma ResolveEffect(s: Mux, e: nat, w: nat, r: Response, ch: nat)
    requires Inv(s) && IsEntry(s, e, w) && ch in s.chans
    ensures var s' := Resolve(s, e, w, r);
            Untouched(s, s', ch) || exists t :: GetsAnswer(s, s', ch, t)
  {
    assert ConnOk(s, e);
    var t := s.conns[e].owner[w];
    assert TicketOk(s, t);
    var s' := Resolve(s, e, w, r);
    if s.tickets[t].req.ch == ch {
      assert s'.chans[ch] == Push(s.chans[ch], Item(r, t));
      assert GetsAnswer(s, s', ch, t);
    }
  }

  lemma OwnerIsOpen(s: Mux, e: nat, w: nat)
    requires Inv(s) && IsEntry(s, e, w)
    ensures s.conns[e].owner[w] < |s.tickets| && IsOpen(s.tickets[s.conns[e].owner[w]])
  {
    assert ConnOk(s, e);
  }

  lemma InHandIsOpen(s: Mux, e: nat)
    requires Inv(s) && e < |s.conns| && s.conns[e].inHand.Some?
    ensures s.conns[e].inHand.value < |s.tickets| && IsOpen(s.tickets[s.conns[e].inHand.value])
  {
    assert ConnOk(s, e);
  }

  lemma TicketsOnlySettle(timeout: nat, s: Mux, step: Step)
    requires Inv(s) && Enabled(timeout, s, step) && !step.Accept? && !step.Refuse?
    ensures var s' := Apply(timeout, s, step);
            && |s'.tickets| == |s.tickets|
            && (forall t :: 0 <= t < |s.tickets| ==>
                  s'.tickets[t].req == s.tickets[t].req && (IsOpen(s'.tickets[t]) ==> IsOpen(s.tickets[t])))
  {
    hide TicketOk, ItemOk, ChannelOk, ConnOk, Push, HasRoom, Reached;
    match step
    case Reply(e, msg) => if msg.id in s.conns[e].core.store { OwnerIsOpen(s, e, msg.id); }
    case Expire(e, w) => OwnerIsOpen(s, e, w);
    case DrainOne(e, w) => OwnerIsOpen(s, e, w);
    case ReportRefusal(e) => InHandIsOpen(s, e);
    case _ =>
  }

  lemma ChannelsStay(timeout: nat, s: Mux, step: Step)
    requires Enabled(timeout, s, step)
    ensures var s' := Apply(timeout, s, step);
            && (forall c <- s.chans :: c in s'.chans)
            && (!IsChannelStep(step) ==> s'.chans.Keys == s.chans.Keys
                                         && forall c <- s.chans :: s'.chans[c].closed == s.chans[c].closed)
  {
  }

  /** No step but an accept opens a request, and none changes what was asked. */
  lemma OnlyAcceptOpens(timeout: nat, s: Mux, step: Step)
    requires Inv(s) && Enabled(timeout, s, step) && !step.Accept? && !step.Refuse?
    ensures var s' := Apply(timeout, s, step);
            && |s'.tickets| == |s.tickets|
            && (forall t :: 0 <= t < |s.tickets| ==>
                  s'.tickets[t].req == s.tickets[t].req && (IsOpen(s'.tickets[t]) ==> IsOpen(s.tickets[t])))
            && (forall c <- s.chans :: c in s'.chans)
            && (!IsChannelStep(step) ==> s'.chans.Keys == s.chans.Keys
                                         && forall c <- s.chans :: s'.chans[c].closed == s.chans[c].closed)
  {
    hide Inv, Apply, Enabled;
    TicketsOnlySettle(timeout, s, step);
    ChannelsStay(timeout, s, step);
  }

  lemma TakeEffect(timeout: nat, s: Mux, step: Step, ch: nat)
    requires Inv(s) && Enabled(timeout, s, step) && (step.Accept? || step.Refuse?)
    requires ch in s.chans && ch != step.req.ch
    ensures Untouched(s, Apply(timeout, s, step), ch)
  {
  }

  lemma ChannelStepEffect(timeout: nat, s: Mux, step: Step, ch: nat)
    requires Enabled(timeout, s, step) && IsChannelStep(step)
    requires ch in s.chans && ch != step.ch
    ensures Untouched(s, Apply(timeout, s, step), ch)
  {
  }

  // ----- each kind of step keeps the discipline

  lemma MuxStepKeeps(cfg: Config, s: Sys, step: SysStep)
    requires SysInv(cfg, s) && SysEnabled(cfg, s, step)
    ensures Inv(NextMux(cfg, s, step)) && TimeInv(cfg.timeout, NextMux(cfg, s, step))
  {
    var m := MuxStep(cfg, s, step);
    if m.Some? {
      StepKeepsInv(cfg.timeout, s.mux, m.value);
      StepKeepsTimeInv(cfg.timeout, s.mux, m.value);
    }
  }

  lemma InnerKeepsHolder(timeout: nat, s: Mux, step: Step, hd: Holder)
    requires Inv(s) && Enabled(timeout, s, step) && IsInner(step) && HolderOk(s, hd)
    ensures HolderOk(Apply(timeout, s, step), hd)
  {
    var s' := Apply(timeout, s, step);
    AtMostSeven(s, hd);
    InnerEffect(timeout, s, step, hd.ch);
    if Untouched(s, s', hd.ch) {
      UntouchedKeepsHolder(s, s', hd);
    } else {
      var t :| GetsAnswer(s, s', hd.ch, t);
      AnswerKeepsHolder(s, s', hd, t);
    }
  }

  lemma InnerKeeps(cfg: Config, s: Sys, step: Step)
    requires SysInv(cfg, s) && SysEnabled(cfg, s, Inner(step))
    ensures SysInv(cfg, SysApply(cfg, s, Inner(step)))
  {
    var s' := SysApply(cfg, s, Inner(step));
    MuxStepKeeps(cfg, s, Inner(step));
    forall h | h in s'.holders ensures HolderOk(s'.mux, s'.holders[h]) {
      InnerKeepsHolder(cfg.timeout, s.mux, step, s.holders[h]);
    }
    forall ch | ch in s'.pool ensures Clean(s'.mux, ch) && !Held(s', ch) && ch !in s'.foreign {
      assert !Held(s, ch);
      InnerKeepsHolder(cfg.timeout, s.mux, step, Holder(ch, Idle));
    }
    OnlyAcceptOpens(cfg.timeout, s.mux, step);
    forall t | 0 <= t < |s'.mux.tickets| && IsOpen(s'.mux.tickets[t]) ensures IsCaredFor(s', s'.mux.tickets[t].req.ch) {
      var ch := s.mux.tickets[t].req.ch;
      assert IsCaredFor(s, ch);
      SameHolders(s, s', ch);
    }
  }

  /** The step is visible on channel c alone, and only there can it open a request. */
  ghost predicate OnlyOn(s: Mux, s': Mux, c: nat) {
    && (forall ch <- s.chans :: ch != c ==> Untouched(s, s', ch))
    && (forall t :: 0 <= t < |s'.tickets| && IsOpen(s'.tickets[t]) ==>
          s'.tickets[t].req.ch == c
          || (t < |s.tickets| && IsOpen(s.tickets[t]) && s'.tickets[t].req == s.tickets[t].req))
  }

  lemma SameMuxIsOnlyOn(s: Mux, c: nat)
    ensures OnlyOn(s, s, c)
  {
  }

  lemma TakeIsOnlyOn(timeout: nat, s: Mux, step: Step)
    requires Inv(s) && Enabled(timeout, s, step) && (step.Accept? || step.Refuse?)
    ensures OnlyOn(s, Apply(timeout, s, step), step.req.ch)
  {
    forall ch | ch in s.chans && ch != step.req.ch ensures Untouched(s, Apply(timeout, s, step), ch) {
      TakeEffect(timeout, s, step, ch);
    }
  }

  lemma ChannelStepIsOnlyOn(timeout: nat, s: Mux, step: Step)
    requires Inv(s) && Enabled(timeout, s, step) && IsChannelStep(step)
    ensures OnlyOn(s, Apply(timeout, s, step), step.ch)
  {
    OnlyAcceptOpens(timeout, s, step);
    forall ch | ch in s.chans && ch != step.ch ensures Untouched(s, Apply(timeout, s, step), ch) {
      ChannelStepEffect(timeout, s, step, ch);
    }
  }

  lemma OthersKeep(s: Mux, s': Mux, c: nat, hd: Holder)
    requires OnlyOn(s, s', c) && HolderOk(s, hd) && hd.ch != c
    ensures HolderOk(s', hd)
  {
    UntouchedKeepsHolder(s, s', hd);
  }

  lemma PoolKeeps(cfg: Config, s: Sys, s': Sys, c: nat, ch: nat)
    requires SysInv(cfg, s) && OnlyOn(s.mux, s'.mux, c) && ch in s.pool && ch != c
    ensures Clean(s'.mux, ch)
  {
    OthersKeep(s.mux, s'.mux, c, Holder(ch, Idle));
  }

  /** Away from channel c, what was cared for still is, if its holder still is there. */
  lemma OthersStayOwned(s: Sys, s': Sys, c: nat)
    requires Inv(s.mux) && Owned(s) && OnlyOn(s.mux, s'.mux, c) && s.foreign <= s'.foreign
    requires forall ch :: ch != c && Held(s, ch) ==> Held(s', ch)
    requires NothingOpen(s'.mux, c) || IsCaredFor(s', c)
    ensures Owned(s')
  {
    forall t | 0 <= t < |s'.mux.tickets| && IsOpen(s'.mux.tickets[t]) ensures IsCaredFor(s', s'.mux.tickets[t].req.ch) {
      var ch := s'.mux.tickets[t].req.ch;
      if ch != c {
        assert IsCaredFor(s, ch) && TicketOk(s.mux, t);
      }
    }
  }

  /** A holder goes on with its channel. */
  lemma GoesOn(cfg: Config, s: Sys, s': Sys, h: nat, mode: Mode)
    requires SysInv(cfg, s) && h in s.holders
    requires s'.holders == WithMode(s.holders, h, mode) && s'.pool == s.pool && s'.foreign == s.foreign
    requires Inv(s'.mux) && TimeInv(cfg.timeout, s'.mux)
    requires OnlyOn(s.mux, s'.mux, s.holders[h].ch) && HolderOk(s'.mux, s'.holders[h])
    ensures SysInv(cfg, s')
  {
    var c := s.holders[h].ch;
    forall g | g in s'.holders ensures HolderOk(s'.mux, s'.holders[g]) {
      if g != h {
        OthersKeep(s.mux, s'.mux, c, s.holders[g]);
      }
    }
    assert forall ch :: Held(s', ch) <==> Held(s, ch) by {
      forall ch ensures Held(s', ch) <==> Held(s, ch) {
        SameHolders(s, s', ch);
      }
    }
    forall ch | ch in s'.pool ensures Clean(s'.mux, ch) {
      assert Held(s, c);
      PoolKeeps(cfg, s, s', c, ch);
    }
    assert Held(s', c) by { assert s'.holders[h].ch == c; }
    OthersStayOwned(s, s', c);
  }

  lemma SameHolders(s: Sys, s': Sys, ch: nat)
    requires s.holders.Keys == s'.holders.Keys && forall h <- s.holders :: s.holders[h].ch == s'.holders[h].ch
    ensures Held(s', ch) <==> Held(s, ch)
  {
    if Held(s, ch) {
      var h :| h in s.holders && s.holders[h].ch == ch;
      assert s'.holders[h].ch == ch;
    }
    if Held(s', ch) {
      var h :| h in s'.holders && s'.holders[h].ch == ch;
      assert s.holders[h].ch == ch;
    }
  }

  /** A holder gives its channel up: to the pool, to the collector of garbage, or by closing it. */
  lemma LetsGo(cfg: Config, s: Sys, s': Sys, h: nat)
    requires SysInv(cfg, s) && h in s.holders
    requires s'.holders == s.holders - {h} && s'.foreign == s.foreign
    requires s'.pool == s.pool || (s'.pool == s.pool + [s.holders[h].ch] && |s.pool| < cfg.poolSize
                                   && Clean(s'.mux, s.holders[h].ch))
    requires Inv(s'.mux) && TimeInv(cfg.timeout, s'.mux)
    requires OnlyOn(s.mux, s'.mux, s.holders[h].ch)
    requires NothingOpen(s'.mux, s.holders[h].ch) || IsClosed(s'.mux, s.holders[h].ch)
    ensures SysInv(cfg, s')
  {
    var c := s.holders[h].ch;
    assert Held(s, c) && !Held(s', c);
    forall g | g in s'.holders ensures HolderOk(s'.mux, s'.holders[g]) {
      OthersKeep(s.mux, s'.mux, c, s.holders[g]);
    }
    forall ch | ch in s'.pool ensures Clean(s'.mux, ch) && !Held(s', ch) && ch !in s'.foreign {
      if ch != c {
        PoolKeeps(cfg, s, s', c, ch);
        assert !Held(s, ch);
      }
    }
    forall ch | ch != c && Held(s, ch) ensures Held(s', ch) {
      StillHeld(s, s', h, ch);
    }
    OthersStayOwned(s, s', c);
  }

  lemma StillHeld(s: Sys, s': Sys, h: nat, ch: nat)
    requires h in s.holders && s'.holders == s.holders - {h} && ch != s.holders[h].ch
    ensures Held(s, ch) ==> Held(s', ch)
  {
    if Held(s, ch) {
      var g :| g in s.holders && s.holders[g].ch == ch;
      assert g in s'.holders;
    }
  }

  /** A new holder takes a clean channel, from the pool or freshly made. */
  lemma Takes(cfg: Config, s: Sys, s': Sys, h: nat, c: nat)
    requires SysInv(cfg, s) && h !in s.holders
    requires s'.holders == s.holders[h := Holder(c, Idle)] && s'.foreign == s.foreign
    requires (s.pool != [] && c == s.pool[0] && s'.pool == s.pool[1..]) || (c !in s.mux.chans && s'.pool == s.pool)
    requires Inv(s'.mux) && TimeInv(cfg.timeout, s'.mux)
    requires OnlyOn(s.mux, s'.mux, c) && Clean(s'.mux, c)
    ensures SysInv(cfg, s')
  {
    assert c in s.pool ==> !Held(s, c);
    forall g | g in s.holders ensures s.holders[g].ch != c && HolderOk(s'.mux, s.holders[g]) {
      assert Held(s, s.holders[g].ch);
      OthersKeep(s.mux, s'.mux, c, s.holders[g]);
    }
    forall ch | ch in s'.pool ensures Clean(s'.mux, ch) && !Held(s', ch) && ch !in s'.foreign {
      assert ch in s.pool && ch != c;
      assert !Held(s, ch);
      PoolKeeps(cfg, s, s', c, ch);
    }
    assert Held(s', c) by { assert s'.holders[h].ch == c; }
    forall ch | Held(s, ch) ensures Held(s', ch) {
      var g :| g in s.holders && s.holders[g].ch == ch;
      assert s'.holders[g].ch == ch;
    }
    OthersStayOwned(s, s', c);
  }

  /** Somebody outside the pool uses a channel of his own. */
  lemma GoesOnOutside(cfg: Config, s: Sys, s': Sys, c: nat)
    requires SysInv(cfg, s)
    requires s'.holders == s.holders && s'.pool == s.pool && s'.foreign == s.foreign + {c}
    requires c in s.foreign || c !in s.mux.chans
    requires c in s'.mux.chans && !s'.mux.chans[c].closed
    requires Inv(s'.mux) && TimeInv(cfg.timeout, s'.mux) && OnlyOn(s.mux, s'.mux, c)
    ensures SysInv(cfg, s')
  {
    hide Inv, TimeInv;
    forall g | g in s'.holders ensures HolderOk(s'.mux, s'.holders[g]) && s.holders[g].ch != c {
      assert HolderOk(s.mux, s.holders[g]);
      OthersKeep(s.mux, s'.mux, c, s.holders[g]);
    }
    assert forall ch :: Held(s', ch) <==> Held(s, ch) by {
      forall ch ensures Held(s', ch) <==> Held(s, ch) {
        SameHolders(s, s', ch);
      }
    }
    forall ch | ch in s'.pool ensures Clean(s'.mux, ch) && ch != c {
      PoolKeeps(cfg, s, s', c, ch);
    }
    OthersStayOwned(s, s', c);
  }
}
