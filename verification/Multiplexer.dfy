/** api/api.go as a protocol: any number of connection runs share one request channel; each run
    renumbers requests, remembers them, writes them, and four parties resolve them.

    A ticket is the history entry of one accepted request; an item is one response sent on a channel.
    Both carry annotations (the place of a ticket, the ticket of an item) that no step looks at: they
    only say in the state what the invariant then proves about the maps and the channels. */
module Multiplexer {
  import opened Rpc
  import opened Connection

  datatype Place =
    | InHand(conn: nat)
    | Pending(conn: nat, wire: nat)
    | Answered(at: nat)
    | Dropped

  datatype Ticket = Ticket(req: Request, taken: nat, place: Place)

  datatype Item = Item(resp: Response, ticket: nat)

  /** A Go channel: everything ever sent on it, of which the first head items have been received. */
  datatype Channel = Channel(log: seq<Item>, head: nat, capacity: nat, closed: bool)

  datatype Phase = Serving | Draining | Finished

  /** One run of a connection. owner lists, by wire id, the tickets it has numbered; written holds the
      messages that reached the node. */
  datatype Conn = Conn(phase: Phase, core: Core, owner: seq<nat>, inHand: Option<nat>, unwritten: Option<nat>,
                       written: map<nat, WireRequest>, cancelled: bool, checking: bool, lastTick: nat)

  /** latch is statusEvenOne. */
  datatype Mux = Mux(latch: bool, now: nat, conns: seq<Conn>, tickets: seq<Ticket>, chans: map<nat, Channel>)

  datatype Step =
    | Dial
    | Accept(conn: nat, req: Request)
    | Refuse(conn: nat, req: Request)
    | ReportRefusal(conn: nat)
    | Write(conn: nat)
    | WriteFails(conn: nat, reached: bool)
    | Reply(conn: nat, msg: WireResponse)
    | Expire(conn: nat, wire: nat)
    | Tick(conn: nat)
    | Cancel(conn: nat)
    | StopChecker(conn: nat)
    | Leave(conn: nat)
    | DrainOne(conn: nat, wire: nat)
    | Finish(conn: nat)
    | OpenChannel(ch: nat, capacity: nat)
    | Consume(ch: nat)
    | EmptyOut(ch: nat)
    | CloseChannel(ch: nat)
    | Advance(elapsed: nat)

  const INIT := Mux(false, 0, [], [], map[])

  predicate HasRoom(c: Channel) {
    |c.log| - c.head < c.capacity
  }

  predicate CanSend(c: Channel) {
    !c.closed && HasRoom(c)
  }

  predicate Listening(s: Mux, e: nat) {
    e < |s.conns| && s.conns[e].phase == Serving && s.conns[e].inHand == None && s.conns[e].unwritten == None
  }

  /** Wire id w of connection e is a pending entry of a known ticket. */
  predicate IsEntry(s: Mux, e: nat, w: nat) {
    && e < |s.conns|
    && w in s.conns[e].core.store
    && w < |s.conns[e].owner|
    && s.conns[e].owner[w] < |s.tickets|
    && s.conns[e].core.store[w].ch in s.chans
  }

  function EntryChannel(s: Mux, e: nat, w: nat): Channel
    requires IsEntry(s, e, w)
  {
    s.chans[s.conns[e].core.store[w].ch]
  }

  /** A send that cannot happen yet (full channel) is a step that is not enabled. */
  predicate Enabled(timeout: nat, s: Mux, step: Step) {
    match step
    case Dial => true
    case Accept(e, req) => Listening(s, e) && req.ch in s.chans
    case Refuse(e, req) => Listening(s, e) && req.ch in s.chans
    case ReportRefusal(e) =>
      && e < |s.conns| && s.conns[e].inHand.Some? && s.conns[e].inHand.value < |s.tickets|
      && var ch := s.tickets[s.conns[e].inHand.value].req.ch; ch in s.chans && CanSend(s.chans[ch])
    case Write(e) => CanWrite(s, e)
    case WriteFails(e, _) => CanWrite(s, e)
    case Reply(e, msg) =>
      && e < |s.conns|
      && (msg.id in s.conns[e].core.store ==> IsEntry(s, e, msg.id) && !EntryChannel(s, e, msg.id).closed)
    case Expire(e, w) =>
      && IsEntry(s, e, w) && s.conns[e].checking
      && IsExpired(s.conns[e].core.store[w], s.now, timeout) && CanSend(EntryChannel(s, e, w))
    case Tick(e) =>
      e < |s.conns| && s.conns[e].checking && ExpiredKeys(s.conns[e].core.store, s.now, timeout) == {}
    case Cancel(e) => e < |s.conns|
    case StopChecker(e) => e < |s.conns| && s.conns[e].cancelled
    case Leave(e) => Listening(s, e) && s.conns[e].cancelled
    case DrainOne(e, w) =>
      IsEntry(s, e, w) && s.conns[e].phase == Draining && CanSend(EntryChannel(s, e, w))
    case Finish(e) => e < |s.conns| && s.conns[e].phase == Draining && s.conns[e].core.store == map[]
    case OpenChannel(c, _) => c !in s.chans
    case Consume(c) => c in s.chans && s.chans[c].head < |s.chans[c].log|
    case EmptyOut(c) => c in s.chans && !s.chans[c].closed
    case CloseChannel(c) => c in s.chans && !s.chans[c].closed
    case Advance(_) => true
  }

  predicate CanWrite(s: Mux, e: nat) {
    && e < |s.conns| && s.conns[e].unwritten.Some?
    && var w := s.conns[e].unwritten.value; w < |s.conns[e].owner| && s.conns[e].owner[w] < |s.tickets|
  }

  function Reached(s: Mux, e: nat): map<nat, WireRequest>
    requires CanWrite(s, e)
  {
    var w := s.conns[e].unwritten.value;
    s.conns[e].written[w := OnWire(s.tickets[s.conns[e].owner[w]].req, w)]
  }

  function Moved(s: seq<Ticket>, t: nat, place: Place): seq<Ticket>
    requires t < |s|
  {
    s[t := s[t].(place := place)]
  }

  function Push(c: Channel, item: Item): Channel {
    c.(log := c.log + [item])
  }

  /** Send r on the channel of ticket t and record that the ticket is answered. */
  function Deliver(s: Mux, t: nat, ch: nat, r: Response): Mux
    requires t < |s.tickets| && ch in s.chans
  {
    s.(tickets := Moved(s.tickets, t, Answered(|s.chans[ch].log|)),
       chans := s.chans[ch := Push(s.chans[ch], Item(r, t))])
  }

  function Forget(s: Mux, e: nat, w: nat): Mux
    requires e < |s.conns|
  {
    s.(conns := s.conns[e := s.conns[e].(core := Without(s.conns[e].core, {w}))])
  }

  function Resolve(s: Mux, e: nat, w: nat, r: Response): Mux
    requires IsEntry(s, e, w)
  {
    Deliver(Forget(s, e, w), s.conns[e].owner[w], s.conns[e].core.store[w].ch, r)
  }

  function Lose(s: Mux, e: nat, w: nat): Mux
    requires IsEntry(s, e, w)
  {
    Forget(s, e, w).(tickets := Moved(s.tickets, s.conns[e].owner[w], Dropped))
  }

  function WithConn(s: Mux, e: nat, c: Conn): Mux
    requires e < |s.conns|
  {
    s.(conns := s.conns[e := c])
  }

  function Apply(timeout: nat, s: Mux, step: Step): Mux
    requires Enabled(timeout, s, step)
  {
    match step
    case Dial =>
      var dialled := Conn(Serving, Core(0, map[]), [], None, None, map[], false, true, s.now);
      s.(latch := true, conns := s.conns + [dialled])
    case Accept(e, req) =>
      var c := s.conns[e];
      s.(conns := s.conns[e := c.(core := Accepted(c.core, req, s.now), owner := c.owner + [|s.tickets|],
                                  unwritten := Some(c.core.next))],
         tickets := s.tickets + [Ticket(req, s.now, Pending(e, c.core.next))])
    case Refuse(e, req) =>
      var c := s.conns[e];
      s.(conns := s.conns[e := c.(core := Skipped(c.core), owner := c.owner + [|s.tickets|],
                                  inHand := Some(|s.tickets|))],
         tickets := s.tickets + [Ticket(req, s.now, InHand(e))])
    case ReportRefusal(e) =>
      var t := s.conns[e].inHand.value;
      Deliver(WithConn(s, e, s.conns[e].(inHand := None)), t, s.tickets[t].req.ch, Refused(s.tickets[t].req))
    case Write(e) => WithConn(s, e, s.conns[e].(unwritten := None, written := Reached(s, e)))
    case WriteFails(e, reached) =>
      WithConn(s, e, s.conns[e].(unwritten := None, phase := Draining,
                                 written := if reached then Reached(s, e) else s.conns[e].written))
    case Reply(e, msg) =>
      if msg.id !in s.conns[e].core.store then s
      else if HasRoom(EntryChannel(s, e, msg.id))
      then Resolve(s, e, msg.id, Replied(s.conns[e].core.store[msg.id], msg.result))
      else Lose(s, e, msg.id)
    case Expire(e, w) => Resolve(s, e, w, Failed(s.conns[e].core.store[w], RequestTimedOut))
    case Tick(e) => WithConn(s, e, s.conns[e].(lastTick := s.now))
    case Cancel(e) => WithConn(s, e, s.conns[e].(cancelled := true))
    case StopChecker(e) => WithConn(s, e, s.conns[e].(checking := false))
    case Leave(e) => WithConn(s, e, s.conns[e].(phase := Draining))
    case DrainOne(e, w) => Resolve(s, e, w, Failed(s.conns[e].core.store[w], ConnectionClosed))
    case Finish(e) => WithConn(s, e, s.conns[e].(phase := Finished))
    case OpenChannel(c, capacity) => s.(chans := s.chans[c := Channel([], 0, capacity, false)])
    case Consume(c) => s.(chans := s.chans[c := s.chans[c].(head := s.chans[c].head + 1)])
    case EmptyOut(c) => s.(chans := s.chans[c := s.chans[c].(head := |s.chans[c].log|)])
    case CloseChannel(c) => s.(chans := s.chans[c := s.chans[c].(closed := true)])
    case Advance(elapsed) => s.(now := s.now + elapsed)
  }

  // ----- the invariant

  ghost predicate TicketOk(s: Mux, t: nat)
    requires t < |s.tickets|
  {
    var k := s.tickets[t];
    && k.req.ch in s.chans
    && k.taken <= s.now
    && match k.place
       case InHand(e) => e < |s.conns| && s.conns[e].inHand == Some(t)
       case Pending(e, w) =>
         && IsEntry(s, e, w) && s.conns[e].owner[w] == t
         && s.conns[e].core.store[w] == Stored(k.req, k.taken)
       case Answered(i) => i < |s.chans[k.req.ch].log| && s.chans[k.req.ch].log[i].ticket == t
       case Dropped => true
  }

  ghost predicate ConnOk(s: Mux, e: nat)
    requires e < |s.conns|
  {
    var c := s.conns[e];
    && Numbered(c.core)
    && |c.owner| == c.core.next
    && (forall w :: 0 <= w < |c.owner| ==> c.owner[w] < |s.tickets|)
    && (forall w <- c.core.store :: s.tickets[c.owner[w]].place == Pending(e, w))
    && (c.inHand.Some? ==> c.phase == Serving && c.unwritten == None && c.inHand.value < |s.tickets|
                           && s.tickets[c.inHand.value].place == InHand(e))
    && (c.unwritten.Some? ==> c.phase == Serving && c.unwritten.value < |c.owner|)
    && (c.phase == Finished ==> c.core.store == map[])
    && (forall w <- c.written ::
          w < |c.owner| && c.written[w].id == w && c.written[w].call == s.tickets[c.owner[w]].req.call)
  }

  ghost predicate ItemOk(s: Mux, ch: nat, i: nat)
    requires ch in s.chans && i < |s.chans[ch].log|
  {
    var item := s.chans[ch].log[i];
    && item.ticket < |s.tickets|
    && var k := s.tickets[item.ticket];
       k.req.ch == ch && k.place == Answered(i) && item.resp.id == k.req.id && item.resp.kind == k.req.call.name
  }

  ghost predicate ChannelOk(s: Mux, ch: nat)
    requires ch in s.chans
  {
    && s.chans[ch].head <= |s.chans[ch].log|
    && |s.chans[ch].log| - s.chans[ch].head <= s.chans[ch].capacity
    && forall i :: 0 <= i < |s.chans[ch].log| ==> ItemOk(s, ch, i)
  }

  ghost predicate Inv(s: Mux) {
    && (forall t :: 0 <= t < |s.tickets| ==> TicketOk(s, t))
    && (forall e :: 0 <= e < |s.conns| ==> ConnOk(s, e))
    && (forall ch <- s.chans :: ChannelOk(s, ch))
    && (s.conns != [] || s.tickets != [] ==> s.latch)
  }

  /** s0 is s without what led to ticket t, which r now settles. */
  ghost predicate IsDelivery(s: Mux, s0: Mux, t: nat, r: Response) {
    && t < |s.tickets| && s.tickets[t].req.ch in s.chans && HasRoom(s.chans[s.tickets[t].req.ch]) && Inv(s)
    && (s.tickets[t].place.InHand? || s.tickets[t].place.Pending?) && s.tickets[t].place.conn < |s.conns|
    && r.id == s.tickets[t].req.id && r.kind == s.tickets[t].req.call.name
    && s0.tickets == s.tickets && s0.chans == s.chans && s0.now == s.now && s0.latch == s.latch && |s0.conns| == |s.conns|
    && (s.tickets[t].place.InHand? ==>
          s0 == WithConn(s, s.tickets[t].place.conn, s.conns[s.tickets[t].place.conn].(inHand := None)))
    && (s.tickets[t].place.Pending? ==> s0 == Forget(s, s.tickets[t].place.conn, s.tickets[t].place.wire))
  }

  lemma DeliverKeepsTickets(s: Mux, s0: Mux, t: nat, r: Response)
    requires IsDelivery(s, s0, t, r)
    ensures var s' := Deliver(s0, t, s.tickets[t].req.ch, r); forall u :: 0 <= u < |s'.tickets| ==> TicketOk(s', u)
  {
    hide ConnOk, ChannelOk, ItemOk;
    var s' := Deliver(s0, t, s.tickets[t].req.ch, r);
    assert TicketOk(s, t);
    forall u | 0 <= u < |s'.tickets| ensures TicketOk(s', u) {
      assert TicketOk(s, u);
    }
  }

  lemma DeliverKeepsConns(s: Mux, s0: Mux, t: nat, r: Response)
    requires IsDelivery(s, s0, t, r)
    ensures var s' := Deliver(s0, t, s.tickets[t].req.ch, r); forall e :: 0 <= e < |s'.conns| ==> ConnOk(s', e)
  {
    hide ChannelOk, ItemOk;
    var s' := Deliver(s0, t, s.tickets[t].req.ch, r);
    assert TicketOk(s, t);
    forall e | 0 <= e < |s'.conns| ensures ConnOk(s', e) {
      assert ConnOk(s, e);
    }
  }

  lemma DeliverKeepsChannels(s: Mux, s0: Mux, t: nat, r: Response)
    requires IsDelivery(s, s0, t, r)
    ensures var s' := Deliver(s0, t, s.tickets[t].req.ch, r); forall ch <- s'.chans :: ChannelOk(s', ch)
  {
    hide ConnOk, TicketOk;
    var s' := Deliver(s0, t, s.tickets[t].req.ch, r);
    forall ch | ch in s'.chans ensures ChannelOk(s', ch) {
      assert ChannelOk(s, ch);
      forall i | 0 <= i < |s'.chans[ch].log| ensures ItemOk(s', ch, i) {
        if i < |s.chans[ch].log| {
          assert ItemOk(s, ch, i);
        }
      }
    }
  }

  lemma DeliverKeepsInv(s: Mux, s0: Mux, t: nat, r: Response)
    requires IsDelivery(s, s0, t, r)
    ensures Inv(Deliver(s0, t, s.tickets[t].req.ch, r))
  {
    hide TicketOk, ConnOk, ChannelOk;
    DeliverKeepsTickets(s, s0, t, r);
    DeliverKeepsConns(s, s0, t, r);
    DeliverKeepsChannels(s, s0, t, r);
  }

  lemma LoseKeepsInv(s: Mux, e: nat, w: nat)
    requires Inv(s) && IsEntry(s, e, w)
    ensures Inv(Lose(s, e, w))
  {
    var s' := Lose(s, e, w);
    assert ConnOk(s, e);
    forall u | 0 <= u < |s'.tickets| ensures TicketOk(s', u) {
      assert TicketOk(s, u);
    }
    forall e' | 0 <= e' < |s'.conns| ensures ConnOk(s', e') {
      assert ConnOk(s, e');
    }
    forall ch | ch in s'.chans ensures ChannelOk(s', ch) {
      assert ChannelOk(s, ch);
      forall i | 0 <= i < |s'.chans[ch].log| ensures ItemOk(s', ch, i) {
        assert ItemOk(s, ch, i);
      }
    }
  }

  lemma ResolveKeepsInv(s: Mux, e: nat, w: nat, r: Response)
    requires Inv(s) && IsEntry(s, e, w) && HasRoom(EntryChannel(s, e, w))
    requires r.id == s.conns[e].core.store[w].id && r.kind == s.conns[e].core.store[w].kind
    ensures Inv(Resolve(s, e, w, r))
  {
    assert ConnOk(s, e);
    var t := s.conns[e].owner[w];
    assert TicketOk(s, t);
    DeliverKeepsInv(s, Forget(s, e, w), t, r);
  }

  /** s' is s with one more ticket, numbered next by connection e. */
  ghost predicate OneMoreTaken(s: Mux, s': Mux, e: nat, k: Ticket, c: Conn) {
    && e < |s.conns| && s' == s.(conns := s.conns[e := c], tickets := s.tickets + [k])
    && c.core.next == s.conns[e].core.next + 1
    && c.owner == s.conns[e].owner + [|s.tickets|]
    && c.phase == s.conns[e].phase && c.written == s.conns[e].written
  }

  lemma TakeKeepsInv(s: Mux, s': Mux, e: nat, k: Ticket, c: Conn)
    requires Inv(s) && OneMoreTaken(s, s', e, k, c) && s.conns[e].inHand == None
    requires forall w <- s.conns[e].core.store :: w in c.core.store && c.core.store[w] == s.conns[e].core.store[w]
    requires ConnOk(s', e) && TicketOk(s', |s.tickets|)
    ensures Inv(s')
  {
    forall u | 0 <= u < |s'.tickets| ensures TicketOk(s', u) {
      if u < |s.tickets| {
        assert TicketOk(s, u);
      }
    }
    forall e' | 0 <= e' < |s'.conns| ensures ConnOk(s', e') {
      if e' != e {
        assert ConnOk(s, e');
      }
    }
    forall ch | ch in s'.chans ensures ChannelOk(s', ch) {
      assert ChannelOk(s, ch);
      forall i | 0 <= i < |s'.chans[ch].log| ensures ItemOk(s', ch, i) {
        assert ItemOk(s, ch, i);
      }
    }
    assert ConnOk(s, e);
  }

  lemma AcceptKeepsInv(timeout: nat, s: Mux, e: nat, req: Request)
    requires Inv(s) && Enabled(timeout, s, Accept(e, req))
    ensures Inv(Apply(timeout, s, Accept(e, req)))
  {
    var s' := Apply(timeout, s, Accept(e, req));
    assert ConnOk(s, e);
    TakeKeepsInv(s, s', e, Ticket(req, s.now, Pending(e, s.conns[e].core.next)), s'.conns[e]);
  }

  lemma RefuseKeepsInv(timeout: nat, s: Mux, e: nat, req: Request)
    requires Inv(s) && Enabled(timeout, s, Refuse(e, req))
    ensures Inv(Apply(timeout, s, Refuse(e, req)))
  {
    var s' := Apply(timeout, s, Refuse(e, req));
    assert ConnOk(s, e);
    TakeKeepsInv(s, s', e, Ticket(req, s.now, InHand(e)), s'.conns[e]);
  }

  /** Steps that touch neither a response map, nor a ticket, nor the log of a channel. */
  predicate IsQuiet(step: Step) {
    !step.Accept? && !step.Refuse? && !step.ReportRefusal? && !step.Reply? && !step.Expire? && !step.DrainOne?
  }

  predicate IsChannelStep(step: Step) {
    step.OpenChannel? || step.Consume? || step.EmptyOut? || step.CloseChannel?
  }

  lemma ChannelStepKeepsInv(timeout: nat, s: Mux, step: Step)
    requires Inv(s) && Enabled(timeout, s, step) && IsChannelStep(step)
    ensures Inv(Apply(timeout, s, step))
  {
    var s' := Apply(timeout, s, step);
    assert forall ch <- s.chans :: ch in s'.chans && s'.chans[ch].log == s.chans[ch].log;
    forall u | 0 <= u < |s'.tickets| ensures TicketOk(s', u) {
      assert TicketOk(s, u);
    }
    forall e | 0 <= e < |s'.conns| ensures ConnOk(s', e) {
      assert ConnOk(s, e);
    }
    forall ch | ch in s'.chans ensures ChannelOk(s', ch) {
      if ch in s.chans {
        assert ChannelOk(s, ch);
        forall i | 0 <= i < |s'.chans[ch].log| ensures ItemOk(s', ch, i) {
          assert ItemOk(s, ch, i);
        }
      }
    }
  }

  /** Changing one connection outside its map, its wire ids and the request in its hands. */
  lemma ConnChangeKeepsInv(s: Mux, e: nat, c: Conn)
    requires Inv(s) && e < |s.conns|
    requires c.core == s.conns[e].core && c.owner == s.conns[e].owner && c.inHand == s.conns[e].inHand
    requires ConnOk(WithConn(s, e, c), e)
    ensures Inv(WithConn(s, e, c))
  {
    var s' := WithConn(s, e, c);
    forall u | 0 <= u < |s'.tickets| ensures TicketOk(s', u) {
      assert TicketOk(s, u);
    }
    forall e' | 0 <= e' < |s'.conns| ensures ConnOk(s', e') {
      assert ConnOk(s, e');
    }
    forall ch | ch in s'.chans ensures ChannelOk(s', ch) {
      assert ChannelOk(s, ch);
      forall i | 0 <= i < |s'.chans[ch].log| ensures ItemOk(s', ch, i) {
        assert ItemOk(s, ch, i);
      }
    }
  }

  lemma DialOrAdvanceKeepsInv(timeout: nat, s: Mux, step: Step)
    requires Inv(s) && (step.Dial? || step.Advance?)
    ensures Inv(Apply(timeout, s, step))
  {
    var s' := Apply(timeout, s, step);
    forall u | 0 <= u < |s'.tickets| ensures TicketOk(s', u) {
      assert TicketOk(s, u);
    }
    forall e | 0 <= e < |s'.conns| ensures ConnOk(s', e) {
      if e < |s.conns| {
        assert ConnOk(s, e);
      }
    }
    forall ch | ch in s'.chans ensures ChannelOk(s', ch) {
      assert ChannelOk(s, ch);
      forall i | 0 <= i < |s'.chans[ch].log| ensures ItemOk(s', ch, i) {
        assert ItemOk(s, ch, i);
      }
    }
  }

  lemma QuietStepKeepsInv(timeout: nat, s: Mux, step: Step)
    requires Inv(s) && Enabled(timeout, s, step) && IsQuiet(step)
    ensures Inv(Apply(timeout, s, step))
  {
    if IsChannelStep(step) {
      ChannelStepKeepsInv(timeout, s, step);
    } else if step.Dial? || step.Advance? {
      DialOrAdvanceKeepsInv(timeout, s, step);
    } else {
      assert ConnOk(s, step.conn);
      ConnChangeKeepsInv(s, step.conn, Apply(timeout, s, step).conns[step.conn]);
    }
  }

  lemma StepKeepsInv(timeout: nat, s: Mux, step: Step)
    requires Inv(s) && Enabled(timeout, s, step)
    ensures Inv(Apply(timeout, s, step))
  {
    match step
    case Accept(e, req) => AcceptKeepsInv(timeout, s, e, req);
    case Refuse(e, req) => RefuseKeepsInv(timeout, s, e, req);
    case ReportRefusal(e) =>
      assert ConnOk(s, e);
      var t := s.conns[e].inHand.value;
      DeliverKeepsInv(s, WithConn(s, e, s.conns[e].(inHand := None)), t, Refused(s.tickets[t].req));
    case Reply(e, msg) =>
      if msg.id in s.conns[e].core.store {
        if HasRoom(EntryChannel(s, e, msg.id)) {
          ResolveKeepsInv(s, e, msg.id, Replied(s.conns[e].core.store[msg.id], msg.result));
        } else {
          LoseKeepsInv(s, e, msg.id);
        }
      }
    case Expire(e, w) => ResolveKeepsInv(s, e, w, Failed(s.conns[e].core.store[w], RequestTimedOut));
    case DrainOne(e, w) => ResolveKeepsInv(s, e, w, Failed(s.conns[e].core.store[w], ConnectionClosed));
    case _ => QuietStepKeepsInv(timeout, s, step);
  }
}
