/** Client selection in proxy/conns.go: six kinds of clients over one list of connections, one cursor. */
module RoundRobin {
  import opened Rpc

  datatype Service = Account | Block | Chain | Event | Transaction | Decode

  datatype Client = Client(service: Service, conn: nat)

  /** What the six slices and the cursor come down to. */
  datatype Ring = Ring(next: nat, conns: seq<nat>)

  predicate IsRing(r: Ring) {
    if r.conns == [] then r.next == 0 else r.next < |r.conns|
  }

  function After(next: nat, len: nat): nat {
    if next + 1 == len then 0 else next + 1
  }

  datatype Op = Add(conn: nat) | Get(service: Service)

  /** Asking an empty list panics and leaves it as it is. */
  function Did(r: Ring, op: Op): Ring {
    match op
    case Add(c) => r.(conns := r.conns + [c])
    case Get(_) => if r.conns == [] then r else r.(next := After(r.next, |r.conns|))
  }

  function Clients(service: Service, conns: seq<nat>): (cs: seq<Client>)
    ensures |cs| == |conns|
  {
    seq(|conns|, i requires 0 <= i < |conns| => Client(service, conns[i]))
  }

  class GRPConnections {
    var next: int
    var len: int
    var conn: seq<nat>
    var accountClient: seq<Client>
    var blockClient: seq<Client>
    var chainClient: seq<Client>
    var eventServiceClient: seq<Client>
    var transactionServiceClient: seq<Client>
    var decodeServiceClient: seq<Client>

    ghost function View(): Ring
      reads this
      requires 0 <= next
    {
      Ring(next, conn)
    }

    ghost predicate Valid()
      reads this
    {
      && len == |conn| && 0 <= next && IsRing(View())
      && accountClient == Clients(Account, conn) && blockClient == Clients(Block, conn)
      && chainClient == Clients(Chain, conn) && eventServiceClient == Clients(Event, conn)
      && transactionServiceClient == Clients(Transaction, conn) && decodeServiceClient == Clients(Decode, conn)
    }

    constructor ()
      ensures Valid() && View() == Ring(0, [])
    {
      next, len, conn := 0, 0, [];
      accountClient, blockClient, chainClient := [], [], [];
      eventServiceClient, transactionServiceClient, decodeServiceClient := [], [], [];
    }

    method Inc()
      requires Valid() && len > 0
      modifies this`next
      ensures Valid() && View() == Ring(After(old(next), |conn|), conn)
    {
      if next == len - 1 {
        next := 0;
      } else {
        next := next + 1;
      }
    }

    method Add(c: nat)
      requires Valid()
      modifies this
      ensures Valid() && View() == Did(old(View()), Op.Add(c))
    {
      conn := conn + [c];
      len := len + 1;
      accountClient := accountClient + [Client(Account, c)];
      blockClient := blockClient + [Client(Block, c)];
      chainClient := chainClient + [Client(Chain, c)];
      eventServiceClient := eventServiceClient + [Client(Event, c)];
      transactionServiceClient := transactionServiceClient + [Client(Transaction, c)];
      decodeServiceClient := decodeServiceClient + [Client(Decode, c)];
    }

    method GetNextAccountClient() returns (client: Option<Client>)
      requires Valid()
      modifies this`next
      ensures Valid() && View() == Did(old(View()), Get(Account))
      ensures client == if conn == [] then None else Some(Client(Account, conn[old(next)]))
    {
      if next >= |accountClient| { return None; }
      client := Some(accountClient[next]);
      Inc();
    }

    method GetNextBlockClient() returns (client: Option<Client>)
      requires Valid()
      modifies this`next
      ensures Valid() && View() == Did(old(View()), Get(Block))
      ensures client == if conn == [] then None else Some(Client(Block, conn[old(next)]))
    {
      if next >= |blockClient| { return None; }
      client := Some(blockClient[next]);
      Inc();
    }

    method GetNextChainClient() returns (client: Option<Client>)
      requires Valid()
      modifies this`next
      ensures Valid() && View() == Did(old(View()), Get(Chain))
      ensures client == if conn == [] then None else Some(Client(Chain, conn[old(next)]))
    {
      if next >= |chainClient| { return None; }
      client := Some(chainClient[next]);
      Inc();
    }

    method GetNextEventServiceClient() returns (client: Option<Client>)
      requires Valid()
      modifies this`next
      ensures Valid() && View() == Did(old(View()), Get(Event))
      ensures client == if conn == [] then None else Some(Client(Event, conn[old(next)]))
    {
      if next >= |eventServiceClient| { return None; }
      client := Some(eventServiceClient[next]);
      Inc();
    }

    method GetNextTransactionServiceClient() returns (client: Option<Client>)
      requires Valid()
      modifies this`next
      ensures Valid() && View() == Did(old(View()), Get(Transaction))
      ensures client == if conn == [] then None else Some(Client(Transaction, conn[old(next)]))
    {
      if next >= |transactionServiceClient| { return None; }
      client := Some(transactionServiceClient[next]);
      Inc();
    }

    method GetNextDecodeServiceClient() returns (client: Option<Client>)
      requires Valid()
      modifies this`next
      ensures Valid() && View() == Did(old(View()), Get(Decode))
      ensures client == if conn == [] then None else Some(Client(Decode, conn[old(next)]))
    {
      if next >= |decodeServiceClient| { return None; }
      client := Some(decodeServiceClient[next]);
      Inc();
    }
  }

  // ----- whole call sequences

  function DidAll(r: Ring, ops: seq<Op>): Ring {
    if ops == [] then r else Did(DidAll(r, ops[..|ops| - 1]), ops[|ops| - 1])
  }

  /** The positions chosen by the calls of ops, in order. */
  function Picks(r: Ring, ops: seq<Op>): seq<nat> {
    if ops == [] then []
    else
      var front := ops[..|ops| - 1];
      Picks(r, front) + (if ops[|ops| - 1].Get? && DidAll(r, front).conns != [] then [DidAll(r, front).next] else [])
  }

  /** Under any interleaving of additions and calls the cursor stays a valid position. */
  lemma {:induction false} CursorStaysValid(r: Ring, ops: seq<Op>)
    requires IsRing(r)
    ensures IsRing(DidAll(r, ops)) && r.conns <= DidAll(r, ops).conns
  {
    if ops != [] {
      CursorStaysValid(r, ops[..|ops| - 1]);
    }
  }

  function Count(s: seq<nat>, x: nat): nat {
    if s == [] then 0 else Count(s[..|s| - 1], x) + (if s[|s| - 1] == x then 1 else 0)
  }

  predicate OnlyGets(ops: seq<Op>) {
    forall i :: 0 <= i < |ops| ==> ops[i].Get?
  }

  /** How many calls it takes to come round from one position to another. */
  function Distance(from: nat, to: nat, len: nat): nat
    requires from < len && to < len
  {
    if from <= to then to - from else to + len - from
  }

  /** Less than one round: the cursor moves by as many positions as there are calls, and has chosen those it passed, once. */
  lemma {:induction false} WithinOneRound(r: Ring, ops: seq<Op>, i: nat)
    requires IsRing(r) && OnlyGets(ops) && |ops| <= |r.conns| && i < |r.conns|
    ensures DidAll(r, ops).conns == r.conns
    ensures var next := DidAll(r, ops).next;
            next == if r.next + |ops| < |r.conns| then r.next + |ops| else r.next + |ops| - |r.conns|
    ensures Count(Picks(r, ops), i) == if Distance(r.next, i, |r.conns|) < |ops| then 1 else 0
  {
    if ops != [] {
      var front := ops[..|ops| - 1];
      WithinOneRound(r, front, i);
      var picks := Picks(r, ops);
      assert picks[..|picks| - 1] == Picks(r, front);
    }
  }

  lemma {:induction false} RunsCompose(r: Ring, a: seq<Op>, b: seq<Op>)
    ensures DidAll(r, a + b) == DidAll(DidAll(r, a), b)
    ensures Picks(r, a + b) == Picks(r, a) + Picks(DidAll(r, a), b)
  {
    if b == [] {
      assert a + b == a;
    } else {
      var front := b[..|b| - 1];
      RunsCompose(r, a, front);
      assert (a + b)[..|a + b| - 1] == a + front;
    }
  }

  lemma {:induction false} CountAppend(a: seq<nat>, b: seq<nat>, x: nat)
    ensures Count(a + b, x) == Count(a, x) + Count(b, x)
  {
    if b == [] {
      assert a + b == a;
    } else {
      CountAppend(a, b[..|b| - 1], x);
      assert (a + b)[..|a + b| - 1] == a + b[..|b| - 1];
    }
  }

  /** Fairness: in any window of m rounds of calls, of whatever kinds, each connection is chosen exactly m
      times, and the cursor is back where it was. */
  lemma {:induction false} Fair(r: Ring, window: seq<Op>, m: nat, i: nat)
    requires IsRing(r) && OnlyGets(window) && |window| == m * |r.conns| && i < |r.conns|
    ensures Count(Picks(r, window), i) == m
    ensures DidAll(r, window) == r
  {
    if m > 0 {
      var len := |r.conns|;
      assert |window| == (m - 1) * len + len;
      var before, round := window[..(m - 1) * len], window[(m - 1) * len..];
      assert window == before + round;
      Fair(r, before, m - 1, i);
      WithinOneRound(r, round, i);
      RunsCompose(r, before, round);
      CountAppend(Picks(r, before), Picks(r, round), i);
    } else {
      assert window == [];
    }
  }

  // ----- each kind of client by itself

  lemma NonZeroTimes(n: nat, d: int)
    requires n > 0
    ensures (d >= 1 ==> n * d >= n) && (d <= -1 ==> n * d + n <= 0)
  {
  }

  lemma RemainderIs(k: nat, n: nat, q: int, c: nat)
    requires n > 0 && c < n && k == n * q + c
    ensures k % n == c
  {
    var d := k / n - q;
    assert n * d == n * (k / n) - n * q;
    NonZeroTimes(n, d);
  }

  lemma NextModulo(k: nat, n: nat)
    requires n > 0
    ensures (k + 1) % n == After(k % n, n)
  {
    var q, c := k / n, k % n;
    assert n * (q + 1) == n * q + n;
    if c + 1 == n {
      RemainderIs(k + 1, n, q + 1, 0);
    } else {
      RemainderIs(k + 1, n, q, c + 1);
    }
  }

  /** Two positions round the ring, one after the other. */
  function Turned(a: nat, b: nat, n: nat): nat
    requires a < n && b < n
  {
    if a + b < n then a + b else a + b - n
  }

  /** Call k of a window of calls picks the connection k places after the cursor, round the ring. */
  lemma {:induction false} PickAt(r: Ring, window: seq<Op>, k: nat)
    requires IsRing(r) && r.conns != [] && OnlyGets(window) && k < |window|
    ensures |Picks(r, window)| == |window| && DidAll(r, window).conns == r.conns
    ensures Picks(r, window)[k] == Turned(r.next, k % |r.conns|, |r.conns|)
  {
    CursorAt(r, window);
    var front := window[..|window| - 1];
    CursorAt(r, front);
    if k < |front| {
      PickAt(r, front, k);
    }
  }

  lemma {:induction false} CursorAt(r: Ring, window: seq<Op>)
    requires IsRing(r) && r.conns != [] && OnlyGets(window)
    ensures DidAll(r, window) == Ring(Turned(r.next, |window| % |r.conns|, |r.conns|), r.conns)
    ensures |Picks(r, window)| == |window|
  {
    if window != [] {
      CursorAt(r, window[..|window| - 1]);
      NextModulo(|window| - 1, |r.conns|);
    } else {
      assert 0 % |r.conns| == 0;
    }
  }

  /** How often the calls of a window for one service chose connection i. */
  function Chosen(r: Ring, window: seq<Op>, service: Service, i: nat): nat {
    if window == [] then 0
    else
      var front := window[..|window| - 1];
      Chosen(r, front, service, i)
      + (if window[|window| - 1] == Get(service) && DidAll(r, front).conns != [] && DidAll(r, front).next == i then 1 else 0)
  }

  /** How many calls of a window for one service stand at the places that are c modulo n. */
  function CallsAt(window: seq<Op>, service: Service, n: nat, c: nat): nat
    requires n > 0
  {
    if window == [] then 0
    else
      CallsAt(window[..|window| - 1], service, n, c)
      + (if window[|window| - 1] == Get(service) && (|window| - 1) % n == c then 1 else 0)
  }

  lemma {:induction false} ChosenIsCallsAt(r: Ring, window: seq<Op>, service: Service, c: nat)
    requires IsRing(r) && OnlyGets(window) && c < |r.conns|
    ensures Chosen(r, window, service, Turned(r.next, c, |r.conns|)) == CallsAt(window, service, |r.conns|, c)
  {
    if window != [] {
      var front := window[..|window| - 1];
      ChosenIsCallsAt(r, front, service, c);
      CursorAt(r, front);
    }
  }

  ghost predicate IsFairTo(r: Ring, window: seq<Op>, service: Service) {
    forall i, j :: 0 <= i < |r.conns| && 0 <= j < |r.conns| ==>
      Chosen(r, window, service, i) == Chosen(r, window, service, j)
  }

  ghost predicate IsSpread(window: seq<Op>, service: Service, n: nat)
    requires n > 0
  {
    forall c, d :: 0 <= c < n && 0 <= d < n ==> CallsAt(window, service, n, c) == CallsAt(window, service, n, d)
  }

  /** One service is served fairly if and only if its calls are spread equally over the places of the window
      modulo the number of connections, wherever the cursor stands. */
  lemma FairPerServiceIff(r: Ring, window: seq<Op>, service: Service)
    requires IsRing(r) && r.conns != [] && OnlyGets(window)
    ensures IsFairTo(r, window, service) <==> IsSpread(window, service, |r.conns|)
  {
    var n := |r.conns|;
    forall c | 0 <= c < n
      ensures Chosen(r, window, service, Turned(r.next, c, n)) == CallsAt(window, service, n, c)
    {
      ChosenIsCallsAt(r, window, service, c);
    }
    if IsSpread(window, service, n) {
      forall i, j | 0 <= i < n && 0 <= j < n ensures Chosen(r, window, service, i) == Chosen(r, window, service, j) {
        assert Turned(r.next, PlaceOf(r, i), n) == i && Turned(r.next, PlaceOf(r, j), n) == j;
      }
    }
    if IsFairTo(r, window, service) {
      forall c, d | 0 <= c < n && 0 <= d < n ensures CallsAt(window, service, n, c) == CallsAt(window, service, n, d) {
        assert Chosen(r, window, service, Turned(r.next, c, n)) == Chosen(r, window, service, Turned(r.next, d, n));
      }
    }
  }

  /** The places, modulo the number of connections, whose calls choose connection i. */
  function PlaceOf(r: Ring, i: nat): (c: nat)
    requires IsRing(r) && i < |r.conns|
    ensures c < |r.conns| && Turned(r.next, c, |r.conns|) == i
  {
    if r.next <= i then i - r.next else i + |r.conns| - r.next
  }

  lemma OneOfEach(window: seq<Op>, k: nat)
    requires |window| == 2 * k
    ensures var more := window + [Get(Account)] + [Get(Block)];
            && CallsAt(more, Account, 2, 0) == CallsAt(window, Account, 2, 0) + 1
            && CallsAt(more, Account, 2, 1) == CallsAt(window, Account, 2, 1)
  {
    var one := window + [Get(Account)];
    var two := one + [Get(Block)];
    assert one[..|one| - 1] == window && two[..|two| - 1] == one;
    RemainderIs(2 * k, 2, k, 0);
  }

  ghost predicate InTurn(window: seq<Op>, m: nat) {
    && |window| == 2 * m && OnlyGets(window)
    && forall k :: 0 <= k < m ==> window[2 * k] == Get(Account) && window[2 * k + 1] == Get(Block)
  }

  lemma OneMoreTurn(window: seq<Op>, k: nat)
    requires InTurn(window, k)
    ensures InTurn(window + [Get(Account)] + [Get(Block)], k + 1)
  {
  }

  lemma {:induction false} Turns(m: nat) returns (window: seq<Op>)
    ensures InTurn(window, m) && CallsAt(window, Account, 2, 0) == m && CallsAt(window, Account, 2, 1) == 0
  {
    if m == 0 {
      window := [];
    } else {
      var before := Turns(m - 1);
      window := before + [Get(Account)] + [Get(Block)];
      OneMoreTurn(before, m - 1);
      OneOfEach(before, m - 1);
      hide CallsAt, InTurn;
    }
  }

  lemma TwoPlaces(next: nat)
    requires next < 2
    ensures Turned(next, 0, 2) == next && Turned(next, 1, 2) == 1 - next
  {
  }

  /** Not every window is spread: with two connections and calls for accounts and blocks in turn, all calls for
      accounts get the connection under the cursor and none the other. */
  lemma NotFairPerService(r: Ring, m: nat) returns (window: seq<Op>)
    requires IsRing(r) && |r.conns| == 2
    ensures InTurn(window, m)
    ensures Chosen(r, window, Account, r.next) == m && Chosen(r, window, Account, 1 - r.next) == 0
    ensures m > 0 ==> !IsFairTo(r, window, Account)
  {
    window := Turns(m);
    TwoPlaces(r.next);
    assert OnlyGets(window);
    hide CallsAt, Chosen, Turned, InTurn, OnlyGets;
    ChosenIsCallsAt(r, window, Account, 0);
    ChosenIsCallsAt(r, window, Account, 1);
  }
}
