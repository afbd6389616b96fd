/** Why a call is told what it is told, and that every open call can be told something: the two directions of
    the multiplexer of api/api.go, request and response. */
module Causes {
  import opened Rpc
  import opened Multiplexer
  import opened Calls
  import opened Ageing

  // ----- no fault without its cause

  /** What must have been the case for ticket t to be told r by a step: a timeout only after the timeout, a
      closed connection only in the teardown of the very run that had it, a result only by a message under
      its wire id. */
  ghost predicate IsCause(timeout: nat, s: Mux, step: Step, t: nat, r: Response)
    requires t < |s.tickets|
  {
    var k := s.tickets[t];
    match r.error
    case None => k.place.Pending? && step == Reply(k.place.conn, WireResponse(k.place.wire, r.result))
    case Some(RequestTimedOut) => k.place.Pending? && s.now - k.taken > timeout
    case Some(ConnectionClosed) =>
      k.place.Pending? && k.place.conn < |s.conns| && s.conns[k.place.conn].phase == Draining
    case Some(EncodeFailed) => k.place.InHand?
  }

  /** Ticket t is open in s and has been told r in s'. */
  ghost predicate IsTold(s: Mux, s': Mux, t: nat, r: Response) {
    && t < |s.tickets| && t < |s'.tickets|
    && Ledger(s)[t].fate == Fate.Open && Ledger(s')[t].fate == Told(r)
  }

  lemma ResolveTells(s: Mux, e: nat, w: nat, r: Response, t: nat, told: Response)
    requires Inv(s) && IsEntry(s, e, w) && IsTold(s, Resolve(s, e, w, r), t, told)
    ensures s.tickets[t].place == Pending(e, w) && told == r && s.conns[e].core.store[w].time == s.tickets[t].taken
  {
    EntryIsItsTickets(s, e, w);
    assert TicketOk(s, s.conns[e].owner[w]) && TicketOk(s, t);
  }

  lemma ReportTells(timeout: nat, s: Mux, e: nat, t: nat, told: Response)
    requires Inv(s) && Enabled(timeout, s, ReportRefusal(e))
    requires IsTold(s, Apply(timeout, s, ReportRefusal(e)), t, told)
    ensures s.tickets[t].place.InHand? && told.error == Some(EncodeFailed)
  {
    assert ConnOk(s, e);
    assert TicketOk(s, t);
  }

  lemma TakenIsNotTold(timeout: nat, s: Mux, step: Step, t: nat, told: Response)
    requires Inv(s) && Enabled(timeout, s, step) && (step.Accept? || step.Refuse?)
    ensures !IsTold(s, Apply(timeout, s, step), t, told)
  {
    if t < |s.tickets| {
      assert TicketOk(s, t);
    }
  }

  lemma StepTellsForCause(timeout: nat, s: Mux, step: Step, t: nat, r: Response)
    requires Inv(s) && Enabled(timeout, s, step) && IsTold(s, Apply(timeout, s, step), t, r)
    ensures IsCause(timeout, s, step, t, r)
  {
    hide Ledger, Inv, IsTold;
    match step
    case Accept(_, _) => TakenIsNotTold(timeout, s, step, t, r);
    case Refuse(_, _) => TakenIsNotTold(timeout, s, step, t, r);
    case ReportRefusal(e) => ReportTells(timeout, s, e, t, r);
    case Reply(e, msg) => ReplyTells(timeout, s, e, msg, t, r);
    case Expire(e, w) => ResolveTells(s, e, w, Failed(s.conns[e].core.store[w], RequestTimedOut), t, r);
    case DrainOne(e, w) => ResolveTells(s, e, w, Failed(s.conns[e].core.store[w], ConnectionClosed), t, r);
    case _ => QuietTellsNothing(timeout, s, step, t, r);
  }

  lemma QuietTellsNothing(timeout: nat, s: Mux, step: Step, t: nat, r: Response)
    requires Inv(s) && Enabled(timeout, s, step) && IsQuiet(step)
    ensures !IsTold(s, Apply(timeout, s, step), t, r)
  {
    QuietStepStutters(timeout, s, step);
  }

  lemma ReplyTells(timeout: nat, s: Mux, e: nat, msg: WireResponse, t: nat, r: Response)
    requires Inv(s) && Enabled(timeout, s, Reply(e, msg)) && IsTold(s, Apply(timeout, s, Reply(e, msg)), t, r)
    ensures IsCause(timeout, s, Reply(e, msg), t, r)
  {
    if msg.id in s.conns[e].core.store {
      if HasRoom(EntryChannel(s, e, msg.id)) {
        ResolveTells(s, e, msg.id, Replied(s.conns[e].core.store[msg.id], msg.result), t, r);
      } else {
        LoseTellsNothing(s, e, msg.id, t, r);
      }
    }
  }

  lemma LoseTellsNothing(s: Mux, e: nat, w: nat, t: nat, r: Response)
    requires Inv(s) && IsEntry(s, e, w)
    ensures !IsTold(s, Lose(s, e, w), t, r)
  {
    EntryIsItsTickets(s, e, w);
  }

  /** In every run: whoever is told that a request timed out made it more than the timeout ago, whoever is told
      that the connection closed had it pending on a run in teardown, and a result is that of a message under
      the wire id the request was sent with. */
  lemma FaultsHaveTheirCause(timeout: nat, states: seq<Mux>, steps: seq<Step>, i: nat, t: nat, r: Response)
    requires IsRun(timeout, states, steps) && i < |steps| && IsTold(states[i], states[i + 1], t, r)
    ensures IsCause(timeout, states[i], steps[i], t, r)
    ensures r.error == Some(RequestTimedOut) ==> states[i].now - states[i].tickets[t].taken > timeout
  {
    RunKeepsInv(timeout, states, steps, i);
    StepTellsForCause(timeout, states[i], steps[i], t, r);
  }

  // ----- every open call can be settled

  /** step can be taken in s, and tells ticket t that r. */
  ghost predicate CanTell(timeout: nat, s: Mux, step: Step, t: nat, r: Response) {
    Enabled(timeout, s, step) && IsTold(s, Apply(timeout, s, step), t, r)
  }

  lemma ResolvingTells(s: Mux, e: nat, w: nat, r: Response)
    requires Inv(s) && IsEntry(s, e, w)
    ensures IsTold(s, Resolve(s, e, w, r), s.conns[e].owner[w], r)
  {
    EntryIsItsTickets(s, e, w);
    assert TicketOk(s, s.conns[e].owner[w]);
  }

  /** The ticket of an entry: its channel, its id and its method are those of the request. */
  lemma PendingIsEntry(s: Mux, t: nat)
    requires Inv(s) && t < |s.tickets| && s.tickets[t].place.Pending?
    ensures var k := s.tickets[t];
            && IsEntry(s, k.place.conn, k.place.wire) && s.conns[k.place.conn].owner[k.place.wire] == t
            && s.conns[k.place.conn].core.store[k.place.wire] == ResponseStore(k.req.id, k.req.call.name, k.taken, k.req.ch)
            && k.req.ch in s.chans && k.taken <= s.now
  {
    assert TicketOk(s, t);
  }

  lemma ReplyCanTell(timeout: nat, s: Mux, t: nat, result: string)
    requires Inv(s) && t < |s.tickets| && s.tickets[t].place.Pending?
    requires s.tickets[t].req.ch in s.chans && CanSend(s.chans[s.tickets[t].req.ch])
    ensures var k := s.tickets[t];
            && CanTell(timeout, s, Reply(k.place.conn, WireResponse(k.place.wire, result)), t,
                       Response(k.req.id, None, k.req.call.name, result))
            && (s.conns[k.place.conn].phase == Draining ==>
                  CanTell(timeout, s, DrainOne(k.place.conn, k.place.wire), t,
                          Response(k.req.id, Some(ConnectionClosed), k.req.call.name, "")))
            && (s.conns[k.place.conn].checking && s.now - k.taken > timeout ==>
                  CanTell(timeout, s, Expire(k.place.conn, k.place.wire), t,
                          Response(k.req.id, Some(RequestTimedOut), k.req.call.name, "")))
  {
    PendingIsEntry(s, t);
    hide Inv, Resolve, IsTold;
    var k := s.tickets[t];
    var entry := s.conns[k.place.conn].core.store[k.place.wire];
    ResolvingTells(s, k.place.conn, k.place.wire, Replied(entry, result));
    ResolvingTells(s, k.place.conn, k.place.wire, Failed(entry, ConnectionClosed));
    ResolvingTells(s, k.place.conn, k.place.wire, Failed(entry, RequestTimedOut));
  }

  lemma RefusalCanTell(timeout: nat, s: Mux, t: nat)
    requires Inv(s) && t < |s.tickets| && s.tickets[t].place.InHand?
    requires s.tickets[t].req.ch in s.chans && CanSend(s.chans[s.tickets[t].req.ch])
    ensures var k := s.tickets[t];
            CanTell(timeout, s, ReportRefusal(k.place.conn), t, Response(k.req.id, Some(EncodeFailed), k.req.call.name, ""))
  {
    assert TicketOk(s, t);
  }

  /** No open call is beyond help: while its channel is open and has room, the node's answer under its wire id
      would be told to it at once, and so would a refused encoding, the teardown of its run, and, when more than
      the timeout has passed, the fact that it timed out. */
  lemma OpenCallsCanEnd(timeout: nat, states: seq<Mux>, steps: seq<Step>, i: nat, t: nat, result: string)
    requires IsRun(timeout, states, steps) && i < |states| && t < |states[i].tickets|
    requires Ledger(states[i])[t].fate == Fate.Open
    requires var ch := states[i].tickets[t].req.ch; ch in states[i].chans && CanSend(states[i].chans[ch])
    ensures var s, k := states[i], states[i].tickets[t];
            match k.place
            case InHand(e) =>
              CanTell(timeout, s, ReportRefusal(e), t, Response(k.req.id, Some(EncodeFailed), k.req.call.name, ""))
            case Pending(e, w) =>
              var late := Apply(timeout, s, Advance(timeout + 1));
              && CanTell(timeout, s, Reply(e, WireResponse(w, result)), t, Response(k.req.id, None, k.req.call.name, result))
              && e < |s.conns|
              && (s.conns[e].phase == Draining ==>
                    CanTell(timeout, s, DrainOne(e, w), t, Response(k.req.id, Some(ConnectionClosed), k.req.call.name, "")))
              && (s.conns[e].checking ==>
                    CanTell(timeout, late, Expire(e, w), t, Response(k.req.id, Some(RequestTimedOut), k.req.call.name, "")))
            case _ => false
  {
    RunKeepsInv(timeout, states, steps, i);
    var s := states[i];
    assert TicketOk(s, t);
    if s.tickets[t].place.Pending? {
      PendingIsEntry(s, t);
      ReplyCanTell(timeout, s, t, result);
      TimeGoesOn(timeout, s, t);
      ReplyCanTell(timeout, Apply(timeout, s, Advance(timeout + 1)), t, result);
    } else if s.tickets[t].place.InHand? {
      RefusalCanTell(timeout, s, t);
    }
  }

  lemma TimeGoesOn(timeout: nat, s: Mux, t: nat)
    requires Inv(s) && t < |s.tickets| && s.tickets[t].place.Pending?
    ensures var late := Apply(timeout, s, Advance(timeout + 1));
            && Inv(late) && late.tickets == s.tickets && late.chans == s.chans && late.conns == s.conns
            && late.now - s.tickets[t].taken > timeout
  {
    StepKeepsInv(timeout, s, Advance(timeout + 1));
    assert TicketOk(s, t);
  }

  /** A run that listens takes any request, keeps it under its next wire id, and can then write it: what the
      node receives carries that wire id and the call. */
  lemma RequestsGoOut(timeout: nat, s: Mux, e: nat, req: Request)
    requires Inv(s) && Listening(s, e) && req.ch in s.chans
    ensures Enabled(timeout, s, Accept(e, req))
    ensures var taken := Apply(timeout, s, Accept(e, req));
            var w := s.conns[e].core.next;
            && taken.tickets == s.tickets + [Ticket(req, s.now, Pending(e, w))]
            && Enabled(timeout, taken, Write(e))
            && var sent := Apply(timeout, taken, Write(e));
               && sent.tickets == taken.tickets && Listening(sent, e) && w in sent.conns[e].written
               && sent.conns[e].written[w].id == w && sent.conns[e].written[w].call == req.call
  {
    assert ConnOk(s, e);
  }

  /** A run that listens ends when its context does: it can be cancelled, after which the checker can stop, and
      then fails no entry any more, and the run can leave; with its map drained it can finish, and listens no more. */
  lemma RunsCanEnd(timeout: nat, s: Mux, e: nat, w: nat)
    requires Listening(s, e)
    ensures Enabled(timeout, s, Cancel(e)) && Enabled(timeout, Apply(timeout, s, Cancel(e)), StopChecker(e))
    ensures var stopped := Apply(timeout, Apply(timeout, s, Cancel(e)), StopChecker(e));
            && !Enabled(timeout, stopped, Expire(e, w)) && !Enabled(timeout, stopped, Tick(e))
            && Enabled(timeout, stopped, Leave(e))
            && var left := Apply(timeout, stopped, Leave(e));
               && !Listening(left, e) && left.conns[e].core == s.conns[e].core
               && (Enabled(timeout, left, Finish(e)) <==> left.conns[e].core.store == map[])
               && (left.conns[e].core.store == map[] ==> IsDrained(Apply(timeout, left, Finish(e)), e))
  {
  }

  /** When the socket fails under a write, the request stays pending and the run goes into its teardown; whether
      the message still reached the node or not. */
  lemma FailedWriteDrains(timeout: nat, s: Mux, e: nat, reached: bool)
    requires Inv(s) && Enabled(timeout, s, WriteFails(e, reached))
    ensures var w := s.conns[e].unwritten.value;
            var s' := Apply(timeout, s, WriteFails(e, reached));
            && s'.tickets == s.tickets && s'.conns[e].core == s.conns[e].core
            && s'.conns[e].phase == Draining && !Listening(s', e)
            && (reached ==> w in s'.conns[e].written && s'.conns[e].written[w].id == w
                            && s'.conns[e].written[w].call == s.tickets[s.conns[e].owner[w]].req.call)
            && (!reached ==> s'.conns[e].written == s.conns[e].written)
  {
    assert ConnOk(s, e);
  }
}
