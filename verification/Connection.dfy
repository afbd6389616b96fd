/** The state one run of a node connection keeps (api/api.go, run, recv, timeoutChecker):
    the next wire id, the map of pending entries and the encode buffer. */
module Connection {
  import opened Rpc

  /** The part of that state that other goroutines see. */
  datatype Core = Core(next: nat, store: map<nat, ResponseStore>)

  ghost predicate Numbered(core: Core) {
    forall k <- core.store :: k < core.next
  }

  function Accepted(core: Core, req: Request, now: nat): Core {
    Core(core.next + 1, core.store[core.next := Stored(req, now)])
  }

  function Skipped(core: Core): Core {
    core.(next := core.next + 1)
  }

  function Without(core: Core, keys: set<nat>): Core {
    core.(store := core.store - keys)
  }

  predicate IsExpired(entry: ResponseStore, now: int, timeout: nat) {
    now - entry.time > timeout
  }

  function ExpiredKeys(store: map<nat, ResponseStore>, now: nat, timeout: nat): set<nat> {
    set k | k in store && IsExpired(store[k], now, timeout)
  }

  /** The sends made when the entries named by order are failed one after the other. */
  function Failures(store: map<nat, ResponseStore>, order: seq<nat>, fault: Fault): (sent: seq<Delivery>)
    requires forall k <- order :: k in store
    ensures |sent| == |order|
  {
    if order == [] then []
    else Failures(store, order[..|order| - 1], fault)
         + [Delivery(store[order[|order| - 1]].ch, Failed(store[order[|order| - 1]], fault))]
  }

  ghost predicate Distinct(s: seq<nat>) {
    forall i, j :: 0 <= i < j < |s| ==> s[i] != s[j]
  }

  /** order lists exactly the given keys, each once. */
  ghost predicate Enumerates(order: seq<nat>, keys: set<nat>) {
    Distinct(order) && (forall k :: k in order <==> k in keys)
  }

  /** Every send of a sweep answers its own entry: channel, caller id and method. */
  lemma {:induction false} FailuresAt(store: map<nat, ResponseStore>, order: seq<nat>, fault: Fault, i: nat)
    requires forall k <- order :: k in store
    requires i < |order|
    ensures var entry := store[order[i]];
            Failures(store, order, fault)[i] == Delivery(entry.ch, Response(entry.id, Some(fault), entry.kind, ""))
  {
    if i < |order| - 1 {
      FailuresAt(store, order[..|order| - 1], fault, i);
    }
  }

  lemma OneMoreListed(order: seq<nat>, keys: set<nat>, k: nat)
    requires Enumerates(order, keys) && k !in keys
    ensures Enumerates(order + [k], keys + {k})
  {
    assert forall j :: j in order + [k] <==> j in order || j == k;
  }

  lemma OneMoreFailed(store: map<nat, ResponseStore>, order: seq<nat>, fault: Fault, k: nat)
    requires (forall j <- order :: j in store) && k in store
    ensures Failures(store, order + [k], fault)
            == Failures(store, order, fault) + [Delivery(store[k].ch, Failed(store[k], fault))]
  {
    assert (order + [k])[..|order|] == order;
  }

  lemma OneMoreRemoved(store: map<nat, ResponseStore>, gone: set<nat>, k: nat)
    ensures store - (gone + {k}) == store - gone - {k}
  {
  }

  /** What an entry must be to expire, and what stays. */
  lemma OnlyOldExpire(store: map<nat, ResponseStore>, order: seq<nat>, now: nat, timeout: nat)
    requires Enumerates(order, ExpiredKeys(store, now, timeout))
    ensures Distinct(order) && forall k :: k in order <==> k in store && now - store[k].time > timeout
    ensures var rest := store - ExpiredKeys(store, now, timeout);
            && (forall k :: k in rest <==> k in store && now - store[k].time <= timeout)
            && (forall k <- rest :: rest[k] == store[k])
  {
  }

  class Connection {
    var nextMessageID: nat
    var responseMap: map<nat, ResponseStore>
    var buff: seq<WireRequest>

    ghost function View(): Core
      reads this
    {
      Core(nextMessageID, responseMap)
    }

    /** Between two requests the encode buffer is empty and every pending wire id is below the next one. */
    ghost predicate Valid()
      reads this
    {
      buff == [] && Numbered(View())
    }

    constructor ()
      ensures Valid() && View() == Core(0, map[])
    {
      nextMessageID, responseMap, buff := 0, map[], [];
    }

    /** One pass of WSLOOP with a request in hand. The wire id is used up even when encoding fails. */
    method HandleRequest(req: Request, now: nat, encodes: bool, writeOk: bool)
      returns (sent: Option<Delivery>, message: seq<WireRequest>, leave: bool)
      requires Valid()
      modifies this
      ensures Valid()
      ensures nextMessageID == old(nextMessageID) + 1
      ensures encodes ==> View() == Accepted(old(View()), req, now) && message == [OnWire(req, old(nextMessageID))]
      ensures encodes ==>
                && sent == None && leave == !writeOk && |message| == 1
                && message[0].id == old(nextMessageID) && message[0].call == req.call
                && message[0].jsonrpc == (if req.jsonrpc == "" then "2.0" else req.jsonrpc)
                && old(nextMessageID) !in old(responseMap)
                && responseMap == old(responseMap)[message[0].id := ResponseStore(req.id, req.call.name, now, req.ch)]
      ensures !encodes ==>
                && responseMap == old(responseMap) && message == [] && !leave
                && sent == Some(Delivery(req.ch, Response(req.id, Some(EncodeFailed), req.call.name, "")))
    {
      var wire := nextMessageID;
      sent, message, leave := None, [], false;
      nextMessageID := nextMessageID + 1;
      if !encodes {
        sent := Some(Delivery(req.ch, Refused(req)));
        return;
      }
      buff := buff + [OnWire(req, wire)];
      responseMap := responseMap[wire := Stored(req, now)];
      message := buff;
      buff := [];
      leave := !writeOk;
    }

    /** The receiver: room tells whether the caller's channel takes the reply within five seconds.
        Either way the entry is gone afterwards. */
    method Receive(msg: WireResponse, room: bool) returns (sent: Option<Delivery>)
      requires Valid()
      modifies this`responseMap
      ensures Valid() && View() == Without(old(View()), {msg.id})
      ensures msg.id in old(responseMap) && room ==>
                var entry := old(responseMap)[msg.id];
                sent == Some(Delivery(entry.ch, Response(entry.id, None, entry.kind, msg.result)))
      ensures msg.id !in old(responseMap) || !room ==> sent == None
      ensures msg.id !in old(responseMap) ==> responseMap == old(responseMap)
    {
      sent := None;
      if msg.id in responseMap {
        var entry := responseMap[msg.id];
        if room {
          sent := Some(Delivery(entry.ch, Replied(entry, msg.result)));
        }
        responseMap := responseMap - {msg.id};
      }
    }

    /** One tick of the timeout checker: fails exactly the entries older than the timeout, each once,
        in whatever order the map is ranged over. */
    method CheckTimeouts(now: nat, timeout: nat) returns (order: seq<nat>, sent: seq<Delivery>)
      requires Valid()
      modifies this`responseMap
      ensures Valid() && View() == Without(old(View()), ExpiredKeys(old(responseMap), now, timeout))
      ensures Enumerates(order, ExpiredKeys(old(responseMap), now, timeout))
      ensures Distinct(order)
      ensures forall k :: k in order <==> k in old(responseMap) && now - old(responseMap)[k].time > timeout
      ensures forall k :: k in responseMap <==> k in old(responseMap) && now - old(responseMap)[k].time <= timeout
      ensures forall k <- responseMap :: responseMap[k] == old(responseMap)[k]
      ensures sent == Failures(old(responseMap), order, RequestTimedOut)
    {
      order, sent := [], [];
      ghost var was := responseMap;
      ghost var expired := ExpiredKeys(was, now, timeout);
      ghost var gone: set<nat> := {};
      assert was - gone == was;
      assert Enumerates(order, gone) && Failures(was, order, RequestTimedOut) == sent;
      hide *;
      var todo := responseMap.Keys;
      while todo != {}
        invariant todo <= was.Keys
        invariant forall k <- was :: k in gone <==> k in expired && k !in todo
        invariant gone <= was.Keys && responseMap == was - gone
        invariant Enumerates(order, gone) && forall k <- order :: k in was
        invariant sent == Failures(was, order, RequestTimedOut)
        decreases |todo|
      {
        var k :| k in todo;
        if IsExpired(responseMap[k], now, timeout) {
          var entry := responseMap[k];
          OneMoreListed(order, gone, k);
          OneMoreFailed(was, order, RequestTimedOut, k);
          OneMoreRemoved(was, gone, k);
          sent := sent + [Delivery(entry.ch, Failed(entry, RequestTimedOut))];
          order := order + [k];
          responseMap := responseMap - {k};
          gone := gone + {k};
        }
        todo := todo - {k};
      }
      assert gone == expired;
      OnlyOldExpire(was, order, now, timeout);
    }

    /** The teardown after WSLOOP: fails every pending entry once and leaves the map empty. */
    method Drain() returns (order: seq<nat>, sent: seq<Delivery>)
      requires Valid()
      modifies this`responseMap
      ensures Valid() && View() == Core(old(nextMessageID), map[])
      ensures Enumerates(order, old(responseMap).Keys)
      ensures sent == Failures(old(responseMap), order, ConnectionClosed)
    {
      order, sent := [], [];
      ghost var was := responseMap;
      ghost var gone: set<nat> := {};
      assert was - gone == was;
      assert Enumerates(order, gone) && Failures(was, order, ConnectionClosed) == sent;
      hide *;
      var todo := responseMap.Keys;
      while todo != {}
        invariant todo <= was.Keys
        invariant forall k <- was :: k in gone <==> k !in todo
        invariant gone <= was.Keys && responseMap == was - gone
        invariant Enumerates(order, gone) && forall k <- order :: k in was
        invariant sent == Failures(was, order, ConnectionClosed)
        decreases |todo|
      {
        var k :| k in todo;
        var entry := responseMap[k];
        OneMoreListed(order, gone, k);
        OneMoreFailed(was, order, ConnectionClosed, k);
        OneMoreRemoved(was, gone, k);
        sent := sent + [Delivery(entry.ch, Failed(entry, ConnectionClosed))];
        order := order + [k];
        responseMap := responseMap - {k};
        todo := todo - {k};
        gone := gone + {k};
      }
      assert gone == was.Keys;
    }
  }
}
