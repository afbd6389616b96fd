/** The callers of the multiplexer in indexer/: channels are borrowed from a pool, used for batches of
    requests, and put back, abandoned, or handed to a cleanup goroutine. Everything interleaves freely
    with the steps of the multiplexer. */
module Sessions {
  import opened Rpc
  import opened Connection
  import opened Multiplexer
  import opened Batches

  /** timeout of the connections, scheduling slack of ticks and teardowns, size of the pool, and the decoder
      of the block number of a header. */
  datatype Config = Config(timeout: nat, grace: nat, poolSize: nat, number: string -> Option<nat>)

  const CLEANUP_WAIT := 600

  /** from is the number of replies ever read on the channel when the batch began. */
  datatype Batch = Batch(kind: Kind, reqs: seq<Request>, from: nat, tickets: seq<nat>)

  datatype Mode =
    | Idle
    | Sending(batch: Batch)
    | Collecting(batch: Batch, got: nat)
    | Cleaning(batch: Batch, since: nat)
    | Closing

  datatype Holder = Holder(ch: nat, mode: Mode)

  /** foreign channels are those made outside the pool, such as the one of the health check. cache is the
      block-hash cache that all callers share. */
  datatype Sys = Sys(mux: Mux, pool: seq<nat>, holders: map<nat, Holder>, foreign: set<nat>, cache: map<nat, string>)

  datatype SysStep =
    | Inner(step: Step)
    | Borrow(h: nat)
    | BorrowNew(h: nat, ch: nat)
    | Begin(h: nat, kind: Kind, reqs: seq<Request>)
    | LookUp(h: nat)
    | Send(h: nat, conn: nat, encodes: bool)
    | SendRefused(h: nat)
    | StartCollecting(h: nat)
    | AllHit(h: nat)
    | Receive(h: nat)
    | StopWaiting(h: nat)
    | Return(h: nat)
    | Abandon(h: nat)
    | CleanUp(h: nat)
    | CleanUpExpires(h: nat)
    | CloseDone(h: nat)
    | Evict(height: nat)
    | ForeignOpen(ch: nat, capacity: nat)
    | ForeignSend(conn: nat, req: Request, encodes: bool)
    | ForeignReceive(ch: nat)

  const INITIAL := Sys(INIT, [], map[], {}, map[])

  predicate IsInner(step: Step) {
    !step.Accept? && !step.Refuse? && !IsChannelStep(step)
  }

  predicate IsSending(s: Sys, h: nat) {
    && h in s.holders && s.holders[h].mode.Sending?
    && |s.holders[h].mode.batch.tickets| < |s.holders[h].mode.batch.reqs|
  }

  predicate AllSent(s: Sys, h: nat) {
    && h in s.holders && s.holders[h].mode.Sending?
    && |s.holders[h].mode.batch.tickets| == |s.holders[h].mode.batch.reqs|
  }

  function Take(conn: nat, req: Request, encodes: bool): Step {
    if encodes then Accept(conn, req) else Refuse(conn, req)
  }

  /** What the client itself must be ready to do. */
  predicate ClientReady(cfg: Config, s: Sys, step: SysStep) {
    match step
    case Inner(st) => IsInner(st)
    case Borrow(h) => h !in s.holders && s.pool != []
    case BorrowNew(h, ch) => h !in s.holders && s.pool == []
    case Begin(h, kind, reqs) =>
      && h in s.holders && s.holders[h].mode == Idle && CanBegin(kind, reqs, s.holders[h].ch)
      && s.holders[h].ch in s.mux.chans
    case LookUp(h) => AllSent(s, h) && CanLookUp(s.holders[h].mode.batch.kind)
    case Send(h, _, _) => IsSending(s, h) && s.mux.latch
    case SendRefused(h) => IsSending(s, h) && !s.mux.latch
    case StartCollecting(h) =>
      AllSent(s, h) && s.holders[h].mode.batch.reqs != [] && AllLooked(s.holders[h].mode.batch.kind)
    case AllHit(h) =>
      AllSent(s, h) && s.holders[h].mode.batch.reqs == [] && AllLooked(s.holders[h].mode.batch.kind)
    case Receive(h) => h in s.holders && s.holders[h].mode.Collecting?
    case StopWaiting(h) =>
      h in s.holders && s.holders[h].mode.Collecting? && s.holders[h].mode.batch.kind == Single
    case Return(h) => h in s.holders && s.holders[h].mode == Idle
    case Abandon(h) => h in s.holders && s.holders[h].mode == Idle
    case CleanUp(h) => h in s.holders && s.holders[h].mode.Cleaning?
    case CleanUpExpires(h) =>
      h in s.holders && s.holders[h].mode.Cleaning? && s.mux.now >= s.holders[h].mode.since + CLEANUP_WAIT
    case CloseDone(h) => h in s.holders && s.holders[h].mode == Closing
    case Evict(_) => true
    case ForeignOpen(_, _) => true
    case ForeignSend(_, req, _) => req.ch in s.foreign
    case ForeignReceive(ch) => ch in s.foreign
  }

  /** The step of the multiplexer or of the channel that goes with it, if any. */
  function MuxStep(cfg: Config, s: Sys, step: SysStep): Option<Step>
    requires ClientReady(cfg, s, step)
  {
    match step
    case Inner(st) => Some(st)
    case Borrow(_) => Some(EmptyOut(s.pool[0]))
    case BorrowNew(_, ch) => Some(OpenChannel(ch, CAPACITY))
    case Send(h, e, encodes) =>
      var b := s.holders[h].mode.batch;
      Some(Take(e, b.reqs[|b.tickets|], encodes))
    case Receive(h) => Some(Consume(s.holders[h].ch))
    case Return(h) => if |s.pool| < cfg.poolSize then None else Some(CloseChannel(s.holders[h].ch))
    case CleanUp(h) => Some(Consume(s.holders[h].ch))
    case CleanUpExpires(h) => Some(CloseChannel(s.holders[h].ch))
    case CloseDone(h) => Some(CloseChannel(s.holders[h].ch))
    case ForeignOpen(ch, capacity) => Some(OpenChannel(ch, capacity))
    case ForeignSend(e, req, encodes) => Some(Take(e, req, encodes))
    case ForeignReceive(ch) => Some(Consume(ch))
    case _ => None
  }

  predicate SysEnabled(cfg: Config, s: Sys, step: SysStep) {
    && ClientReady(cfg, s, step)
    && var m := MuxStep(cfg, s, step); m.Some? ==> Enabled(cfg.timeout, s.mux, m.value)
  }

  function NextMux(cfg: Config, s: Sys, step: SysStep): Mux
    requires SysEnabled(cfg, s, step)
  {
    var m := MuxStep(cfg, s, step);
    if m.Some? then Apply(cfg.timeout, s.mux, m.value) else s.mux
  }

  function WithMode(hs: map<nat, Holder>, h: nat, mode: Mode): map<nat, Holder>
    requires h in hs
  {
    hs[h := hs[h].(mode := mode)]
  }

  /** What the code does with the reply it just read. */
  function AfterReply(b: Batch, got: nat, failed: bool): Mode {
    match VerdictOn(b.kind, |b.reqs|, got, failed)
    case Return => Idle
    case Again(i) => Collecting(b, i)
  }

  /** What the next lookup of a hash batch finds. */
  function Found(s: Sys, kind: Kind): Option<string>
    requires CanLookUp(kind)
  {
    var height := LookupHeight(kind.height, kind.looked);
    if height in s.cache then Some(s.cache[height]) else None
  }

  function AfterLookup(s: Sys, b: Batch, ch: nat): Batch
    requires CanLookUp(b.kind)
  {
    b.(kind := LookedUp(b.kind, Found(s, b.kind)), reqs := AskedAfter(b.kind, Found(s, b.kind), b.reqs, ch))
  }

  /** The reply that a Receive takes. */
  function Taken(cfg: Config, s: Sys, h: nat): Response
    requires SysEnabled(cfg, s, Receive(h))
  {
    var c := s.mux.chans[s.holders[h].ch];
    c.log[c.head].resp
  }

  /** What a reply teaches the cache: GetBlockHashes keeps the hash of its own height, getLatestHeight the
      head under the height that its header decodes to. */
  function Lesson(cfg: Config, b: Batch, r: Response): Option<(nat, string)> {
    if r.error.Some? then None
    else if b.kind.Hashes? then
      if r.id == REQUEST_BLOCK_HASH && 2 <= |r.result| then Some((b.kind.height, Unquote(r.result))) else None
    else if b.kind.Single? && |b.reqs| == 1 && AsksHeader(b.reqs[0].call) && cfg.number(r.result).Some? then
      var head := b.reqs[0].call.params[0].s;
      if 2 <= |head| then Some((cfg.number(r.result).value, Unquote(head))) else None
    else None
  }

  predicate AsksHeader(call: Call) {
    call.name == "chain_getHeader" && |call.params| == 1 && call.params[0].Text?
  }

  function NextCache(cfg: Config, s: Sys, step: SysStep): map<nat, string>
    requires SysEnabled(cfg, s, step)
  {
    match step
    case Receive(h) => (
      match Lesson(cfg, s.holders[h].mode.batch, Taken(cfg, s, h))
      case Some((height, hash)) => s.cache[height := hash]
      case None => s.cache)
    case Evict(height) => s.cache - {height}
    case _ => s.cache
  }

  function SysApply(cfg: Config, s: Sys, step: SysStep): Sys
    requires SysEnabled(cfg, s, step)
  {
    var s' := s.(mux := NextMux(cfg, s, step), cache := NextCache(cfg, s, step));
    match step
    case Borrow(h) => s'.(pool := s.pool[1..], holders := s.holders[h := Holder(s.pool[0], Idle)])
    case BorrowNew(h, ch) => s'.(holders := s.holders[h := Holder(ch, Idle)])
    case Begin(h, kind, reqs) =>
      s'.(holders := WithMode(s.holders, h, Sending(Batch(kind, reqs, s.mux.chans[s.holders[h].ch].head, []))))
    case LookUp(h) =>
      s'.(holders := WithMode(s.holders, h, Sending(AfterLookup(s, s.holders[h].mode.batch, s.holders[h].ch))))
    case Send(h, _, _) =>
      var b := s.holders[h].mode.batch;
      s'.(holders := WithMode(s.holders, h, Sending(b.(tickets := b.tickets + [|s.mux.tickets|]))))
    case SendRefused(h) => s'.(holders := WithMode(s.holders, h, Idle))
    case StartCollecting(h) => s'.(holders := WithMode(s.holders, h, Collecting(s.holders[h].mode.batch, 0)))
    case AllHit(h) => s'.(holders := WithMode(s.holders, h, Idle))
    case Receive(h) =>
      s'.(holders := WithMode(s.holders, h,
            AfterReply(s.holders[h].mode.batch, s.holders[h].mode.got, Taken(cfg, s, h).error.Some?)))
    case StopWaiting(h) =>
      s'.(holders := WithMode(s.holders, h, Cleaning(s.holders[h].mode.batch, s.mux.now)))
    case Return(h) =>
      s'.(holders := s.holders - {h},
          pool := if |s.pool| < cfg.poolSize then s.pool + [s.holders[h].ch] else s.pool)
    case Abandon(h) => s'.(holders := s.holders - {h})
    case CleanUp(h) => s'.(holders := WithMode(s.holders, h, Closing))
    case CleanUpExpires(h) => s'.(holders := s.holders - {h})
    case CloseDone(h) => s'.(holders := s.holders - {h})
    case ForeignOpen(ch, _) => s'.(foreign := s.foreign + {ch})
    case _ => s'
  }

  // ----- the session discipline

  predicate IsOpen(k: Ticket) {
    k.place.InHand? || k.place.Pending?
  }

  ghost predicate NothingOpen(s: Mux, ch: nat) {
    forall t :: 0 <= t < |s.tickets| && s.tickets[t].req.ch == ch ==> !IsOpen(s.tickets[t])
  }

  /** The channel is as good as new: no reply is waiting on it and none can come. */
  ghost predicate Clean(s: Mux, ch: nat) {
    && ch in s.chans && !s.chans[ch].closed && s.chans[ch].capacity == CAPACITY
    && s.chans[ch].head == |s.chans[ch].log|
    && NothingOpen(s, ch)
  }

  /** The open requests of the channel and the replies sent on it since the batch began are those of the batch. */
  ghost predicate BatchOk(s: Mux, ch: nat, b: Batch) {
    && ch in s.chans && !s.chans[ch].closed && s.chans[ch].capacity == CAPACITY
    && b.from <= |s.chans[ch].log|
    && GoodBatch(b.kind, b.reqs, ch)
    && Distinct(b.tickets) && |b.tickets| <= |b.reqs|
    && (forall j :: 0 <= j < |b.tickets| ==> IsOf(s, b, j))
    && (forall t :: 0 <= t < |s.tickets| && s.tickets[t].req.ch == ch && IsOpen(s.tickets[t]) ==> t in b.tickets)
    && (forall k :: b.from <= k < |s.chans[ch].log| ==> s.chans[ch].log[k].ticket in b.tickets)
  }

  ghost predicate IsOf(s: Mux, b: Batch, j: nat)
    requires j < |b.tickets| <= |b.reqs|
  {
    && b.tickets[j] < |s.tickets|
    && var k := s.tickets[b.tickets[j]];
       k.req == b.reqs[j] && (IsOpen(k) || (k.place.Answered? && b.from <= k.place.at))
  }

  ghost predicate HolderOk(s: Mux, hd: Holder) {
    match hd.mode
    case Idle => Clean(s, hd.ch)
    case Closing => Clean(s, hd.ch)
    case Sending(b) => BatchOk(s, hd.ch, b) && s.chans[hd.ch].head == b.from
    case Collecting(b, got) =>
      && BatchOk(s, hd.ch, b) && |b.tickets| == |b.reqs| && got <= |b.reqs|
      && AllLooked(b.kind) && (!b.kind.Others? ==> got < |b.reqs|)
      && s.chans[hd.ch].head == b.from + got
    case Cleaning(b, since) =>
      && BatchOk(s, hd.ch, b) && b.kind == Single && |b.reqs| == 1 && |b.tickets| == 1
      && s.chans[hd.ch].head == b.from && since <= s.now
      && b.tickets[0] < |s.tickets| && s.tickets[b.tickets[0]].taken <= since
  }

  /** How a step of somebody else looks on a channel: nothing happens, or an open request is answered. */
  ghost predicate Untouched(s: Mux, s': Mux, ch: nat) {
    && ch in s.chans && ch in s'.chans && s'.chans[ch] == s.chans[ch]
    && |s.tickets| <= |s'.tickets| && s.now <= s'.now
    && (forall t :: 0 <= t < |s.tickets| && s.tickets[t].req.ch == ch ==> s'.tickets[t] == s.tickets[t])
    && (forall t :: 0 <= t < |s'.tickets| && s'.tickets[t].req.ch == ch ==> t < |s.tickets|)
    && (forall t :: 0 <= t < |s.tickets| ==> s'.tickets[t].req == s.tickets[t].req)
  }

  ghost predicate GetsAnswer(s: Mux, s': Mux, ch: nat, t: nat) {
    && ch in s.chans && ch in s'.chans && t < |s.tickets|
    && s.tickets[t].req.ch == ch && IsOpen(s.tickets[t])
    && (exists r :: s'.chans[ch] == Push(s.chans[ch], Item(r, t)))
    && s'.tickets == Moved(s.tickets, t, Answered(|s.chans[ch].log|))
    && s'.now == s.now
  }

  lemma UntouchedKeepsHolder(s: Mux, s': Mux, hd: Holder)
    requires HolderOk(s, hd) && Untouched(s, s', hd.ch)
    ensures HolderOk(s', hd)
  {
    if hd.mode.Sending? || hd.mode.Collecting? || hd.mode.Cleaning? {
      var b := hd.mode.batch;
      forall j | 0 <= j < |b.tickets| ensures IsOf(s', b, j) {
        assert IsOf(s, b, j);
      }
      if hd.mode.Cleaning? {
        assert IsOf(s, b, 0);
      }
    }
  }

  lemma AnswerKeepsHolder(s: Mux, s': Mux, hd: Holder, t: nat)
    requires HolderOk(s, hd) && GetsAnswer(s, s', hd.ch, t)
    ensures HolderOk(s', hd)
  {
    assert !NothingOpen(s, hd.ch);
    var b := hd.mode.batch;
    forall j | 0 <= j < |b.tickets| ensures IsOf(s', b, j) {
      assert IsOf(s, b, j);
    }
  }

  // ----- counting

  ghost function SetOf(s: seq<nat>): set<nat> {
    set x | x in s
  }

  lemma {:induction false} DistinctCard(s: seq<nat>)
    requires Distinct(s)
    ensures |SetOf(s)| == |s|
  {
    if s != [] {
      var front, last := s[..|s| - 1], s[|s| - 1];
      DistinctCard(front);
      assert s == front + [last];
      assert SetOf(s) == SetOf(front) + {last};
      assert last !in front;
    }
  }

  ghost function OpenOn(s: Mux, ch: nat): set<nat> {
    set t | 0 <= t < |s.tickets| && s.tickets[t].req.ch == ch && IsOpen(s.tickets[t])
  }

  ghost function TicketsOf(log: seq<Item>): (ts: seq<nat>)
    ensures |ts| == |log| && forall i :: 0 <= i < |log| ==> ts[i] == log[i].ticket
  {
    seq(|log|, i requires 0 <= i < |log| => log[i].ticket)
  }

  /** The tickets of the replies sent on ch after the first from ones. */
  ghost function ToldSince(s: Mux, ch: nat, from: nat): seq<nat>
    requires ch in s.chans && from <= |s.chans[ch].log|
  {
    TicketsOf(s.chans[ch].log[from..])
  }

  lemma ToldAt(s: Mux, ch: nat, from: nat, i: nat)
    requires Inv(s) && ch in s.chans && from <= |s.chans[ch].log| && i < |s.chans[ch].log| - from
    ensures ToldSince(s, ch, from)[i] == s.chans[ch].log[from + i].ticket < |s.tickets|
    ensures s.tickets[ToldSince(s, ch, from)[i]].place == Answered(from + i)
  {
    assert ChannelOk(s, ch) && ItemOk(s, ch, from + i);
  }

  lemma ToldOnce(s: Mux, ch: nat, from: nat)
    requires Inv(s) && ch in s.chans && from <= |s.chans[ch].log|
    ensures Distinct(ToldSince(s, ch, from))
  {
    var told := ToldSince(s, ch, from);
    forall i, j | 0 <= i < j < |told| ensures told[i] != told[j] {
      ToldAt(s, ch, from, i);
      ToldAt(s, ch, from, j);
    }
  }

  lemma BatchSplits(s: Mux, ch: nat, b: Batch)
    requires Inv(s) && BatchOk(s, ch, b)
    ensures OpenOn(s, ch) + SetOf(ToldSince(s, ch, b.from)) == SetOf(b.tickets)
    ensures OpenOn(s, ch) !! SetOf(ToldSince(s, ch, b.from))
  {
    var told := ToldSince(s, ch, b.from);
    forall t | t in SetOf(told) ensures t !in OpenOn(s, ch) && t in SetOf(b.tickets) {
      var i :| 0 <= i < |told| && told[i] == t;
      ToldAt(s, ch, b.from, i);
    }
    forall t | t in SetOf(b.tickets) ensures t in OpenOn(s, ch) + SetOf(told) {
      var j :| 0 <= j < |b.tickets| && b.tickets[j] == t;
      assert IsOf(s, b, j) && TicketOk(s, t);
      if !IsOpen(s.tickets[t]) {
        ToldAt(s, ch, b.from, s.tickets[t].place.at - b.from);
      }
    }
  }

  /** Conservation on a borrowed channel: the requests of the batch that were sent are those still open
      and those already answered, each once, whatever order the answers came in. */
  lemma Balance(s: Mux, ch: nat, b: Batch)
    requires Inv(s) && BatchOk(s, ch, b)
    ensures |OpenOn(s, ch)| + (|s.chans[ch].log| - b.from) == |b.tickets|
  {
    var told := ToldSince(s, ch, b.from);
    BatchSplits(s, ch, b);
    ToldOnce(s, ch, b.from);
    DistinctCard(told);
    DistinctCard(b.tickets);
    assert |OpenOn(s, ch) + SetOf(told)| == |OpenOn(s, ch)| + |SetOf(told)|;
  }
}
