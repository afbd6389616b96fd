/** What the multiplexer promises its callers, over every run and every interleaving: it refines a
    ledger in which each accepted call is open until it gets one fate, once, from its own node reply. */
module Calls {
  import opened Rpc
  import opened Multiplexer

  /** node(call, result): result is an answer of the node to call. */
  type Node = (Call, string) -> bool

  /** msg answers one of the messages written to the node, under the id that this message carried. */
  ghost predicate AnswersWritten(node: Node, written: map<nat, WireRequest>, msg: WireResponse) {
    exists w :: w in written && written[w].id == msg.id && node(written[w].call, msg.result)
  }

  /** The node answers only messages it received, under their own id. */
  ghost predicate Faithful(node: Node, s: Mux, step: Step) {
    step.Reply? && step.conn < |s.conns| ==> AnswersWritten(node, s.conns[step.conn].written, step.msg)
  }

  /** A finite run: states[i] takes steps[i] to states[i + 1]. */
  ghost predicate IsRun(timeout: nat, states: seq<Mux>, steps: seq<Step>) {
    && |states| == |steps| + 1
    && states[0] == INIT
    && forall i :: 0 <= i < |steps| ==>
         Enabled(timeout, states[i], steps[i]) && states[i + 1] == Apply(timeout, states[i], steps[i])
  }

  lemma {:induction false} RunKeepsInv(timeout: nat, states: seq<Mux>, steps: seq<Step>, i: nat)
    requires IsRun(timeout, states, steps) && i < |states|
    ensures Inv(states[i])
  {
    hide Apply, Enabled;
    if i > 0 {
      RunKeepsInv(timeout, states, steps, i - 1);
      StepKeepsInv(timeout, states[i - 1], steps[i - 1]);
    }
  }

  // ----- every accepted request is in exactly one place

  datatype Location = AtHand(conn: nat) | InMap(conn: nat, wire: nat) | OnChannel(ch: nat, at: nat) | Gone

  ghost predicate IsAt(s: Mux, t: nat, loc: Location)
    requires t < |s.tickets|
  {
    match loc
    case AtHand(e) => e < |s.conns| && s.conns[e].inHand == Some(t)
    case InMap(e, w) => IsEntry(s, e, w) && s.conns[e].owner[w] == t
    case OnChannel(ch, i) => ch in s.chans && i < |s.chans[ch].log| && s.chans[ch].log[i].ticket == t
    case Gone => s.tickets[t].place == Dropped
  }

  function Whereabouts(k: Ticket): Location {
    match k.place
    case InHand(e) => AtHand(e)
    case Pending(e, w) => InMap(e, w)
    case Answered(i) => OnChannel(k.req.ch, i)
    case Dropped => Gone
  }

  /** In every reachable state an accepted request is with one run that could not encode it, pending in
      one connection's map under one wire id, answered once on one channel, or dropped: one of these,
      once, and nowhere else. */
  lemma ExactlyOnePlace(timeout: nat, states: seq<Mux>, steps: seq<Step>, i: nat, t: nat, loc: Location)
    requires IsRun(timeout, states, steps) && i < |states| && t < |states[i].tickets|
    ensures IsAt(states[i], t, loc) <==> loc == Whereabouts(states[i].tickets[t])
    ensures loc.OnChannel? && IsAt(states[i], t, loc) ==> loc.ch == states[i].tickets[t].req.ch
  {
    RunKeepsInv(timeout, states, steps, i);
    var s := states[i];
    assert TicketOk(s, t);
    match loc
    case AtHand(e) => if e < |s.conns| { assert ConnOk(s, e); }
    case InMap(e, w) => if e < |s.conns| { assert ConnOk(s, e); }
    case OnChannel(ch, at) => if ch in s.chans && at < |s.chans[ch].log| { assert ChannelOk(s, ch) && ItemOk(s, ch, at); }
    case Gone =>
  }

  // ----- refinement of the ledger of calls

  datatype Fate = Open | Told(resp: Response) | Lost

  datatype Entry = Entry(req: Request, fate: Fate)

  function FateOf(s: Mux, k: Ticket): Fate {
    match k.place
    case InHand(_) => Open
    case Pending(_, _) => Open
    case Answered(i) =>
      if k.req.ch in s.chans && i < |s.chans[k.req.ch].log| then Told(s.chans[k.req.ch].log[i].resp) else Open
    case Dropped => Lost
  }

  function Ledger(s: Mux): seq<Entry> {
    seq(|s.tickets|, t requires 0 <= t < |s.tickets| => Entry(s.tickets[t].req, FateOf(s, s.tickets[t])))
  }

  /** The caller's own id and method come back, and a result without error answers this very call. */
  ghost predicate OwnReply(node: Node, req: Request, r: Response) {
    && r.id == req.id
    && r.kind == req.call.name
    && (r.error == None ==> node(req.call, r.result))
  }

  ghost predicate Settles(node: Node, a: seq<Entry>, b: seq<Entry>, t: nat, fate: Fate) {
    && t < |a| && a[t].fate == Open && fate != Open
    && (fate.Told? ==> OwnReply(node, a[t].req, fate.resp))
    && b == a[t := Entry(a[t].req, fate)]
  }

  ghost predicate Opens(a: seq<Entry>, b: seq<Entry>, req: Request) {
    b == a + [Entry(req, Open)]
  }

  ghost predicate LedgerNext(node: Node, a: seq<Entry>, b: seq<Entry>) {
    || b == a
    || (exists req :: Opens(a, b, req))
    || (exists t, fate :: Settles(node, a, b, t, fate))
  }

  lemma DeliverSettles(node: Node, s: Mux, s': Mux, t: nat, r: Response)
    requires Inv(s) && t < |s.tickets| && (s.tickets[t].place.InHand? || s.tickets[t].place.Pending?)
    requires s.tickets[t].req.ch in s.chans
    requires s'.tickets == Deliver(s, t, s.tickets[t].req.ch, r).tickets
    requires s'.chans == Deliver(s, t, s.tickets[t].req.ch, r).chans
    requires OwnReply(node, s.tickets[t].req, r)
    ensures LedgerNext(node, Ledger(s), Ledger(s'))
  {
    var a, b := Ledger(s), Ledger(s');
    forall u | 0 <= u < |a| ensures b[u] == a[t := Entry(a[t].req, Told(r))][u] {
      assert TicketOk(s, u);
    }
    assert Settles(node, a, b, t, Told(r));
  }

  lemma ResolveSettles(node: Node, s: Mux, e: nat, w: nat, r: Response)
    requires Inv(s) && IsEntry(s, e, w)
    requires OwnReply(node, s.tickets[s.conns[e].owner[w]].req, r)
    ensures LedgerNext(node, Ledger(s), Ledger(Resolve(s, e, w, r)))
  {
    assert ConnOk(s, e);
    var t := s.conns[e].owner[w];
    assert TicketOk(s, t);
    DeliverSettles(node, s, Resolve(s, e, w, r), t, r);
  }

  lemma LoseSettles(node: Node, s: Mux, e: nat, w: nat)
    requires Inv(s) && IsEntry(s, e, w)
    ensures LedgerNext(node, Ledger(s), Ledger(Lose(s, e, w)))
  {
    assert ConnOk(s, e);
    var t := s.conns[e].owner[w];
    var a, b := Ledger(s), Ledger(Lose(s, e, w));
    forall u | 0 <= u < |a| ensures b[u] == a[t := Entry(a[t].req, Fate.Lost)][u] {
      assert TicketOk(s, u);
    }
    assert Settles(node, a, b, t, Fate.Lost);
  }

  lemma TakeOpens(node: Node, timeout: nat, s: Mux, step: Step)
    requires Inv(s) && Enabled(timeout, s, step) && (step.Accept? || step.Refuse?)
    ensures LedgerNext(node, Ledger(s), Ledger(Apply(timeout, s, step)))
  {
    var a, b := Ledger(s), Ledger(Apply(timeout, s, step));
    assert Opens(a, b, step.req);
  }

  lemma QuietStepStutters(timeout: nat, s: Mux, step: Step)
    requires Inv(s) && Enabled(timeout, s, step)
    requires IsQuiet(step)
    ensures Ledger(Apply(timeout, s, step)) == Ledger(s)
  {
    var a, b := Ledger(s), Ledger(Apply(timeout, s, step));
    forall u | 0 <= u < |a| ensures b[u] == a[u] {
      assert TicketOk(s, u);
    }
  }

  /** One step of the protocol is a stutter, one new call, or one fate for one open call, whatever the
      other callers' ids are and whichever connection and wire id carry it. */
  lemma StepRefinesLedger(node: Node, timeout: nat, s: Mux, step: Step)
    requires Inv(s) && Enabled(timeout, s, step) && Faithful(node, s, step)
    ensures LedgerNext(node, Ledger(s), Ledger(Apply(timeout, s, step)))
  {
    FaithfulAnswersPending(node, timeout, s, step);
    StepSettles(node, timeout, s, step);
  }

  /** The renumbering: a message that answers what was written under its id answers the call pending there. */
  lemma FaithfulAnswersPending(node: Node, timeout: nat, s: Mux, step: Step)
    requires Inv(s) && Enabled(timeout, s, step) && Faithful(node, s, step)
    ensures AnswersPending(node, s, step)
  {
    if step.Reply? && IsEntry(s, step.conn, step.msg.id) {
      assert ConnOk(s, step.conn);
      var written := s.conns[step.conn].written;
      var w :| w in written && written[w].id == step.msg.id && node(written[w].call, step.msg.result);
    }
  }

  /** The reply answers the call that is pending under its id, if there is one. */
  ghost predicate AnswersPending(node: Node, s: Mux, step: Step) {
    step.Reply? && IsEntry(s, step.conn, step.msg.id) ==>
      node(s.tickets[s.conns[step.conn].owner[step.msg.id]].req.call, step.msg.result)
  }

  lemma StepSettles(node: Node, timeout: nat, s: Mux, step: Step)
    requires Inv(s) && Enabled(timeout, s, step) && AnswersPending(node, s, step)
    ensures LedgerNext(node, Ledger(s), Ledger(Apply(timeout, s, step)))
  {
    match step
    case Accept(_, _) => TakeOpens(node, timeout, s, step);
    case Refuse(_, _) => TakeOpens(node, timeout, s, step);
    case ReportRefusal(e) =>
      assert ConnOk(s, e);
      var t := s.conns[e].inHand.value;
      DeliverSettles(node, s, Apply(timeout, s, step), t, Refused(s.tickets[t].req));
    case Reply(e, msg) =>
      if msg.id in s.conns[e].core.store {
        assert ConnOk(s, e);
        assert TicketOk(s, s.conns[e].owner[msg.id]);
        if HasRoom(EntryChannel(s, e, msg.id)) {
          ResolveSettles(node, s, e, msg.id, Replied(s.conns[e].core.store[msg.id], msg.result));
        } else {
          LoseSettles(node, s, e, msg.id);
        }
      }
    case Expire(e, w) =>
      assert ConnOk(s, e) && TicketOk(s, s.conns[e].owner[w]);
      ResolveSettles(node, s, e, w, Failed(s.conns[e].core.store[w], RequestTimedOut));
    case DrainOne(e, w) =>
      assert ConnOk(s, e) && TicketOk(s, s.conns[e].owner[w]);
      ResolveSettles(node, s, e, w, Failed(s.conns[e].core.store[w], ConnectionClosed));
    case _ => QuietStepStutters(timeout, s, step);
  }

  ghost predicate AllOwn(node: Node, a: seq<Entry>) {
    forall t :: 0 <= t < |a| && a[t].fate.Told? ==> OwnReply(node, a[t].req, a[t].fate.resp)
  }

  ghost predicate IsFaithful(node: Node, states: seq<Mux>, steps: seq<Step>)
    requires |states| == |steps| + 1
  {
    forall i :: 0 <= i < |steps| ==> Faithful(node, states[i], steps[i])
  }

  /** Safety over whole runs: every response on any channel, however the run interleaved, carries the
      id and method of the request it was sent for and answers that call. */
  lemma {:induction false} EveryReplyIsOwn(node: Node, timeout: nat, states: seq<Mux>, steps: seq<Step>, i: nat)
    requires IsRun(timeout, states, steps) && i < |states| && IsFaithful(node, states, steps)
    ensures AllOwn(node, Ledger(states[i]))
  {
    hide Apply, Enabled;
    if i > 0 {
      EveryReplyIsOwn(node, timeout, states, steps, i - 1);
      RunKeepsInv(timeout, states, steps, i - 1);
      StepRefinesLedger(node, timeout, states[i - 1], steps[i - 1]);
    }
  }

  /** The same, read from the channel: item i of channel ch belongs to a request made on ch. */
  lemma DeliveredItemIsOwn(node: Node, timeout: nat, states: seq<Mux>, steps: seq<Step>, i: nat, ch: nat, at: nat)
    requires IsRun(timeout, states, steps) && i < |states| && IsFaithful(node, states, steps)
    requires ch in states[i].chans && at < |states[i].chans[ch].log|
    ensures var item := states[i].chans[ch].log[at];
            && item.ticket < |states[i].tickets|
            && states[i].tickets[item.ticket].req.ch == ch
            && OwnReply(node, states[i].tickets[item.ticket].req, item.resp)
  {
    RunKeepsInv(timeout, states, steps, i);
    EveryReplyIsOwn(node, timeout, states, steps, i);
    var s := states[i];
    assert ChannelOk(s, ch) && ItemOk(s, ch, at);
    var a := Ledger(s);
    assert a[s.chans[ch].log[at].ticket].fate == Told(s.chans[ch].log[at].resp);
  }

  /** A node of which nothing is known. */
  function AnyNode(): Node {
    (call: Call, result: string) => true
  }

  /** A fate is final, whatever the node sends: a call that was told a response keeps it and is told no other. */
  lemma {:induction false} FatesAreFinal(timeout: nat, states: seq<Mux>, steps: seq<Step>, i: nat, j: nat, t: nat)
    requires IsRun(timeout, states, steps) && i <= j < |states|
    requires t < |states[i].tickets|
    ensures t < |states[j].tickets|
    ensures Ledger(states[j])[t].req == Ledger(states[i])[t].req
    ensures Ledger(states[i])[t].fate != Open ==> Ledger(states[j])[t] == Ledger(states[i])[t]
  {
    hide Apply, Enabled;
    if i < j {
      FatesAreFinal(timeout, states, steps, i, j - 1, t);
      RunKeepsInv(timeout, states, steps, j - 1);
      StepSettles(AnyNode(), timeout, states[j - 1], steps[j - 1]);
      assert |Ledger(states[j - 1])| == |states[j - 1].tickets| && |Ledger(states[j])| == |states[j].tickets|;
    }
  }

  // ----- replies that come late, twice, or under an id nobody asked with

  ghost predicate IsSettled(s: Mux, e: nat, w: nat) {
    e < |s.conns| && w < s.conns[e].core.next && w !in s.conns[e].core.store
  }

  lemma SettledStep(timeout: nat, s: Mux, step: Step, e: nat, w: nat)
    requires Enabled(timeout, s, step) && IsSettled(s, e, w)
    ensures IsSettled(Apply(timeout, s, step), e, w)
  {
    hide Moved, Push, HasRoom, Reached;
  }

  /** Once a wire id is settled it is never pending again on that connection, and a late or second reply to it
      changes nothing, for the rest of the run. */
  lemma {:induction false} SettledStaysSettled(timeout: nat, states: seq<Mux>, steps: seq<Step>, i: nat, j: nat, e: nat, w: nat)
    requires IsRun(timeout, states, steps) && i <= j < |states|
    requires IsSettled(states[i], e, w)
    ensures IsSettled(states[j], e, w)
    ensures forall result :: var late := Reply(e, WireResponse(w, result));
              Enabled(timeout, states[j], late) && Apply(timeout, states[j], late) == states[j]
  {
    if i < j {
      hide Apply, Enabled;
      SettledStaysSettled(timeout, states, steps, i, j - 1, e, w);
      SettledStep(timeout, states[j - 1], steps[j - 1], e, w);
    }
  }

  ghost predicate IsDrained(s: Mux, e: nat) {
    e < |s.conns| && s.conns[e].phase == Finished
  }

  lemma DrainedStep(timeout: nat, s: Mux, step: Step, e: nat)
    requires Inv(s) && Enabled(timeout, s, step) && IsDrained(s, e)
    ensures IsDrained(Apply(timeout, s, step), e)
  {
    assert ConnOk(s, e);
  }

  lemma DrainedHoldsNothing(s: Mux, e: nat, t: nat)
    requires Inv(s) && IsDrained(s, e) && t < |s.tickets|
    ensures s.conns[e].core.store == map[]
    ensures !(s.tickets[t].place.Pending? && s.tickets[t].place.conn == e)
  {
    assert ConnOk(s, e) && TicketOk(s, t);
  }

  /** After a connection has drained, none of its requests is pending, then or ever again. */
  lemma DrainedForever(timeout: nat, states: seq<Mux>, steps: seq<Step>, i: nat, j: nat, e: nat, t: nat)
    requires IsRun(timeout, states, steps) && i <= j < |states|
    requires IsDrained(states[i], e) && t < |states[j].tickets|
    ensures IsDrained(states[j], e) && states[j].conns[e].core.store == map[]
    ensures !(states[j].tickets[t].place.Pending? && states[j].tickets[t].place.conn == e)
  {
    StaysDrained(timeout, states, steps, i, j, e);
    RunKeepsInv(timeout, states, steps, j);
    DrainedHoldsNothing(states[j], e, t);
  }

  lemma {:induction false} StaysDrained(timeout: nat, states: seq<Mux>, steps: seq<Step>, i: nat, j: nat, e: nat)
    requires IsRun(timeout, states, steps) && i <= j < |states|
    requires IsDrained(states[i], e)
    ensures IsDrained(states[j], e)
  {
    hide Apply, Enabled;
    if i < j {
      StaysDrained(timeout, states, steps, i, j - 1, e);
      RunKeepsInv(timeout, states, steps, j - 1);
      DrainedStep(timeout, states[j - 1], steps[j - 1], e);
    }
  }

  /** The receiver trusts the id alone: a message that hits a pending id, whoever it was meant for,
      keeps replies correct exactly when its result answers the call pending there. A message without
      an id decodes to id 0 and is such a message whenever wire id 0 is pending. */
  lemma ReplyIsOwnIff(node: Node, timeout: nat, s: Mux, e: nat, msg: WireResponse)
    requires Inv(s) && AllOwn(node, Ledger(s)) && IsEntry(s, e, msg.id)
    requires CanSend(EntryChannel(s, e, msg.id))
    ensures AllOwn(node, Ledger(Apply(timeout, s, Reply(e, msg)))) <==>
            node(s.tickets[s.conns[e].owner[msg.id]].req.call, msg.result)
  {
    assert ConnOk(s, e);
    var t := s.conns[e].owner[msg.id];
    assert TicketOk(s, t);
    var s' := Apply(timeout, s, Reply(e, msg));
    var a, b := Ledger(s), Ledger(s');
    assert b[t] == Entry(s.tickets[t].req, Told(Replied(s.conns[e].core.store[msg.id], msg.result)));
    forall u | 0 <= u < |a| && u != t ensures b[u] == a[u] {
      assert TicketOk(s, u);
    }
  }

  /** A message whose id is missing decodes to id 0. */
  function WithoutId(result: string): WireResponse {
    WireResponse(0, result)
  }

  /** Such a message, whichever request it answers, changes nothing if and only if wire id 0 is not pending;
      otherwise it takes the entry of wire 0, and leaves the one it was meant for pending. */
  lemma MissingId(timeout: nat, s: Mux, e: nat, w: nat, result: string)
    requires Inv(s) && e < |s.conns| && w in s.conns[e].core.store && w != 0
    requires Enabled(timeout, s, Reply(e, WithoutId(result)))
    ensures var s' := Apply(timeout, s, Reply(e, WithoutId(result)));
            && (s' == s <==> 0 !in s.conns[e].core.store)
            && |s'.conns| == |s.conns| && 0 !in s'.conns[e].core.store
            && w in s'.conns[e].core.store && s'.conns[e].core.store[w] == s.conns[e].core.store[w]
  {
    if 0 in s.conns[e].core.store {
      var s' := Apply(timeout, s, Reply(e, WithoutId(result)));
      assert 0 !in s'.conns[e].core.store;
    }
  }

  /** When wire 0 is pending and its channel has room, its caller is told the answer to the other call: no
      longer is every reply own, unless the node gives that answer to both. */
  lemma MissingIdMisdelivers(node: Node, timeout: nat, s: Mux, e: nat, w: nat, result: string)
    requires Inv(s) && AllOwn(node, Ledger(s)) && IsEntry(s, e, 0) && IsEntry(s, e, w) && w != 0
    requires CanSend(EntryChannel(s, e, 0))
    requires node(s.tickets[s.conns[e].owner[w]].req.call, result)
    ensures var s' := Apply(timeout, s, Reply(e, WithoutId(result)));
            var entry := s.conns[e].core.store[0];
            && entry.ch in s'.chans
            && s'.chans[entry.ch].log == s.chans[entry.ch].log + [Item(Replied(entry, result), s.conns[e].owner[0])]
            && (AllOwn(node, Ledger(s')) <==> node(s.tickets[s.conns[e].owner[0]].req.call, result))
  {
    ReplyIsOwnIff(node, timeout, s, e, WithoutId(result));
  }

  /** Two calls on one channel, both written; then the answer to the second comes without an id. */
  function TwoCalls(): seq<Step> {
    var first := Request(7, "", Call("chain_getBlock", []), 0);
    var second := Request(8, "", Call("system_chain", []), 0);
    [Dial, OpenChannel(0, 20), Accept(0, first), Write(0), Accept(0, second), Write(0)]
  }

  function Runs(timeout: nat, s: Mux, steps: seq<Step>): Option<Mux> {
    if steps == [] then Some(s)
    else
      match Runs(timeout, s, steps[..|steps| - 1])
      case None => None
      case Some(mid) => if Enabled(timeout, mid, steps[|steps| - 1]) then Some(Apply(timeout, mid, steps[|steps| - 1])) else None
  }

  lemma {:induction false} RunExists(timeout: nat, steps: seq<Step>) returns (states: seq<Mux>)
    requires Runs(timeout, INIT, steps).Some?
    ensures IsRun(timeout, states, steps) && states[|steps|] == Runs(timeout, INIT, steps).value
  {
    hide Apply, Enabled;
    if steps == [] {
      states := [INIT];
    } else {
      var n := |steps| - 1;
      var before := RunExists(timeout, steps[..n]);
      states := before + [Runs(timeout, INIT, steps).value];
      OneMoreState(timeout, before, steps, states[n + 1]);
    }
  }

  lemma OneMoreState(timeout: nat, states: seq<Mux>, steps: seq<Step>, s: Mux)
    requires steps != [] && IsRun(timeout, states, steps[..|steps| - 1])
    requires Enabled(timeout, states[|steps| - 1], steps[|steps| - 1])
    requires s == Apply(timeout, states[|steps| - 1], steps[|steps| - 1])
    ensures IsRun(timeout, states + [s], steps)
  {
    hide Apply, Enabled;
    var front := steps[..|steps| - 1];
    assert forall i :: 0 <= i < |front| ==> front[i] == steps[i];
  }

  lemma RunsOn(timeout: nat, steps: seq<Step>, step: Step)
    requires Runs(timeout, INIT, steps).Some? && Enabled(timeout, Runs(timeout, INIT, steps).value, step)
    ensures Runs(timeout, INIT, steps + [step]) == Some(Apply(timeout, Runs(timeout, INIT, steps).value, step))
  {
    assert (steps + [step])[..|steps|] == steps;
  }

  predicate OnePending(s: Mux, first: Request) {
    && Listening(s, 0) && |s.conns| == 1 && s.conns[0].owner == [0] && s.now == 0
    && s.conns[0].core.next == 1 && s.conns[0].core.store == map[0 := Stored(first, 0)]
    && s.tickets == [Ticket(first, 0, Pending(0, 0))] && s.chans == map[0 := Channel([], 0, 20, false)]
  }

  /** The first call is written and pending under wire id 0. */
  lemma FirstCallPending(timeout: nat)
    ensures Runs(timeout, INIT, TwoCalls()[..4]).Some?
    ensures var s, first := Runs(timeout, INIT, TwoCalls()[..4]).value, TwoCalls()[2].req;
            OnePending(s, first)
  {
    var steps := TwoCalls();
    assert steps[..0] == [] && steps[..1] == steps[..0] + [steps[0]] && steps[..2] == steps[..1] + [steps[1]];
    assert steps[..3] == steps[..2] + [steps[2]] && steps[..4] == steps[..3] + [steps[3]];
    RunsOn(timeout, steps[..0], steps[0]);
    RunsOn(timeout, steps[..1], steps[1]);
    RunsOn(timeout, steps[..2], steps[2]);
    RunsOn(timeout, steps[..3], steps[3]);
  }

  predicate BothPending(s: Mux) {
    && IsEntry(s, 0, 0) && IsEntry(s, 0, 1) && s.conns[0].owner == [0, 1] && |s.tickets| == 2
    && s.tickets[0].req.call == Call("chain_getBlock", []) && s.tickets[1].req.call == Call("system_chain", [])
    && s.tickets[0].place.Pending? && s.tickets[1].place.Pending?
    && CanSend(EntryChannel(s, 0, 0))
  }

  lemma SecondCall(timeout: nat, s: Mux, first: Request, second: Request)
    requires OnePending(s, first) && first.ch == 0 && second.ch == 0
    requires first.call == Call("chain_getBlock", []) && second.call == Call("system_chain", [])
    ensures Enabled(timeout, s, Accept(0, second))
    ensures Enabled(timeout, Apply(timeout, s, Accept(0, second)), Write(0))
    ensures BothPending(Apply(timeout, Apply(timeout, s, Accept(0, second)), Write(0)))
  {
  }

  /** The two calls are pending under wire ids 0 and 1, and the channel is empty. */
  lemma TwoCallsPending(timeout: nat)
    ensures Runs(timeout, INIT, TwoCalls()).Some? && BothPending(Runs(timeout, INIT, TwoCalls()).value)
  {
    hide Runs, Apply, Enabled, BothPending, OnePending;
    var steps := TwoCalls();
    FirstCallPending(timeout);
    SecondCall(timeout, Runs(timeout, INIT, steps[..4]).value, steps[2].req, steps[4].req);
    assert steps[..5] == steps[..4] + [steps[4]] && steps == steps[..5] + [steps[5]];
    RunsOn(timeout, steps[..4], steps[4]);
    RunsOn(timeout, steps[..5], steps[5]);
  }

  /** It happens: in a run in which the node answers only what it was asked, the answer to the second call
      comes without an id and is told to the first caller, whose call it does not answer. */
  lemma MissingIdCanMisdeliver(timeout: nat, node: Node, result: string) returns (states: seq<Mux>)
    requires node(Call("system_chain", []), result) && !node(Call("chain_getBlock", []), result)
    ensures IsRun(timeout, states, TwoCalls() + [Reply(0, WithoutId(result))])
    ensures !AllOwn(node, Ledger(states[|states| - 1]))
  {
    TwoCallsPending(timeout);
    var last := Reply(0, WithoutId(result));
    RunsOn(timeout, TwoCalls(), last);
    hide TwoCalls, Runs;
    states := RunExists(timeout, TwoCalls() + [last]);
    var before := RunExists(timeout, TwoCalls());
    var s := before[|before| - 1];
    RunKeepsInv(timeout, before, TwoCalls(), |before| - 1);
    assert AllOwn(node, Ledger(s)) by {
      forall t | 0 <= t < |Ledger(s)| ensures !Ledger(s)[t].fate.Told? {
        assert t == 0 || t == 1;
      }
    }
    MissingIdMisdelivers(node, timeout, s, 0, 1, result);
  }
}
