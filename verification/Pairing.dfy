/** The end of blockAndTx in indexer/getBlock.go: mapped transactions get event ids from the raw extrinsics
    of the block, by hash, or by position when no hash matches. */
module Pairing {
  import opened Rpc
  import opened Texts
  import opened Dedupe
  import opened Traversal
  import opened TransactionMapper

  /** A decoded raw extrinsic: its hash without prefix and the module it calls. */
  datatype RawTx = RawTx(hash: string, callModule: string)

  /** GetTransactionsForHeight: decodes every raw extrinsic or fails on the first that does not decode. */
  method GetTransactionsForHeight(extrinsics: seq<string>, decode: string -> Option<RawTx>) returns (txs: Option<seq<RawTx>>)
    ensures txs.Some? <==> forall i :: 0 <= i < |extrinsics| ==> decode(extrinsics[i]).Some?
    ensures txs.Some? ==> |txs.value| == |extrinsics|
                          && forall i :: 0 <= i < |extrinsics| ==> decode(extrinsics[i]) == Some(txs.value[i])
  {
    var transactions := [];
    for i := 0 to |extrinsics|
      invariant |transactions| == i
      invariant forall j :: 0 <= j < i ==> decode(extrinsics[j]) == Some(transactions[j])
    {
      var dec := decode(extrinsics[i]);
      if dec.None? {
        return None;
      }
      transactions := transactions + [dec.value];
    }
    return Some(transactions);
  }

  /** The least position from j on whose raw hash is the hash without its first two characters. */
  function MatchFrom(hash: string, txs: seq<RawTx>, j: nat): Option<nat>
    requires 2 <= |hash|
    decreases |txs| - j
  {
    if j >= |txs| then None
    else if hash[2..] == txs[j].hash then Some(j)
    else MatchFrom(hash, txs, j + 1)
  }

  function Match(hash: string, txs: seq<RawTx>): Option<nat>
    requires 2 <= |hash|
  {
    MatchFrom(hash, txs, 0)
  }

  lemma {:induction false} MatchFromIsLeast(hash: string, txs: seq<RawTx>, j: nat, m: nat)
    requires 2 <= |hash|
    ensures MatchFrom(hash, txs, j) == Some(m) <==>
              j <= m < |txs| && txs[m].hash == hash[2..] && forall i :: j <= i < m ==> txs[i].hash != hash[2..]
    decreases |txs| - j
  {
    if j < |txs| && hash[2..] != txs[j].hash {
      MatchFromIsLeast(hash, txs, j + 1, m);
    }
  }

  function AllStamped(events: seq<TransactionEvent>, id: EventId): (r: seq<TransactionEvent>)
    ensures |r| == |events|
  {
    seq(|events|, i requires 0 <= i < |events| => events[i].(id := Some(id)))
  }

  predicate IsCallOf(ev: TransactionEvent, tx: RawTx) {
    Lower(tx.callModule) == ev.section && ev.kind == "Extrinsic"
  }

  function SomeStamped(events: seq<TransactionEvent>, id: EventId, tx: RawTx): (r: seq<TransactionEvent>)
    ensures |r| == |events|
  {
    seq(|events|, i requires 0 <= i < |events| => if IsCallOf(events[i], tx) then events[i].(id := Some(id)) else events[i])
  }

  /** What becomes of the events of transaction k. */
  function EventsPaired(height: nat, txs: seq<RawTx>, t: Transaction, k: nat): seq<TransactionEvent>
    requires 2 <= |t.hash|
  {
    match Match(t.hash, txs)
    case Some(j) => AllStamped(t.events, EventId(height, j))
    case None => if k < |txs| then SomeStamped(t.events, EventId(height, k), txs[k]) else t.events
  }

  function Paired(height: nat, txs: seq<RawTx>, t: Transaction, k: nat): Transaction
    requires 2 <= |t.hash|
  {
    t.(events := EventsPaired(height, txs, t, k))
  }

  function Slot(height: nat, txs: seq<RawTx>, t: Transaction, k: nat): Option<Transaction>
    requires 2 <= |t.hash|
  {
    if Match(t.hash, txs).Some? || k < |txs| then Some(Paired(height, txs, t, k)) else None
  }

  /** Stamps the events of trs in place and fills the output slots; an empty slot is a zero value. A hash
      shorter than its prefix kills the process once it is compared. */
  method Pair(height: nat, txs: seq<RawTx>, trs: array<Transaction>)
    returns (transactions: array<Option<Transaction>>, panicked: bool)
    modifies trs
    ensures fresh(transactions) && transactions.Length == trs.Length
    ensures panicked <==> txs != [] && exists k :: 0 <= k < trs.Length && |old(trs[k]).hash| < 2
    ensures !panicked && txs != [] ==>
              forall k :: 0 <= k < trs.Length ==>
                && trs[k] == Paired(height, txs, old(trs[k]), k)
                && transactions[k] == Slot(height, txs, old(trs[k]), k)
    ensures txs == [] ==> forall k :: 0 <= k < trs.Length ==> trs[k] == old(trs[k]) && transactions[k] == None
  {
    transactions := new Option<Transaction>[trs.Length](_ => None);
    panicked := false;
    for k := 0 to trs.Length
      invariant transactions.Length == trs.Length && fresh(transactions)
      invariant forall m :: k <= m < trs.Length ==> trs[m] == old(trs[m]) && transactions[m] == None
      invariant txs != [] ==> forall m :: 0 <= m < k ==>
                  2 <= |old(trs[m]).hash| && trs[m] == Paired(height, txs, old(trs[m]), m)
                  && transactions[m] == Slot(height, txs, old(trs[m]), m)
      invariant txs == [] ==> forall m :: 0 <= m < k ==> trs[m] == old(trs[m]) && transactions[m] == None
    {
      var t := trs[k];
      if txs == [] {
        continue;
      }
      if |t.hash| < 2 {
        panicked := true;
        return;
      }
      var found := FindMatch(t.hash, txs);
      match found {
        case Some(j) =>
          var events := StampAll(t.events, EventId(height, j));
          trs[k] := t.(events := events);
          transactions[k] := Some(trs[k]);
        case None =>
          if k < |txs| {
            var events := StampSome(t.events, EventId(height, k), txs[k]);
            trs[k] := t.(events := events);
            transactions[k] := Some(trs[k]);
          }
      }
    }
  }

  method FindMatch(hash: string, txs: seq<RawTx>) returns (found: Option<nat>)
    requires 2 <= |hash|
    ensures found == Match(hash, txs)
  {
    var extIndex := 0;
    while extIndex < |txs|
      invariant 0 <= extIndex <= |txs|
      invariant Match(hash, txs) == MatchFrom(hash, txs, extIndex)
    {
      if hash[2..] == txs[extIndex].hash {
        return Some(extIndex);
      }
      extIndex := extIndex + 1;
    }
    return None;
  }

  method StampAll(events: seq<TransactionEvent>, id: EventId) returns (r: seq<TransactionEvent>)
    ensures r == AllStamped(events, id)
  {
    r := events;
    for i := 0 to |events|
      invariant |r| == |events|
      invariant forall m :: 0 <= m < i ==> r[m] == events[m].(id := Some(id))
      invariant forall m :: i <= m < |events| ==> r[m] == events[m]
    {
      r := r[i := r[i].(id := Some(id))];
    }
  }

  method StampSome(events: seq<TransactionEvent>, id: EventId, tx: RawTx) returns (r: seq<TransactionEvent>)
    ensures r == SomeStamped(events, id, tx)
  {
    r := events;
    for i := 0 to |events|
      invariant |r| == |events|
      invariant forall m :: 0 <= m < i ==> r[m] == if IsCallOf(events[m], tx) then events[m].(id := Some(id)) else events[m]
      invariant forall m :: i <= m < |events| ==> r[m] == events[m]
    {
      if IsCallOf(r[i], tx) {
        r := r[i := r[i].(id := Some(id))];
      }
    }
  }

  // ----- results

  /** By hash, each transaction takes the least position with its hash, and transactions with different
      hashes but the same prefix never take the same one. */
  lemma MatchIsInjective(txs: seq<RawTx>, a: Transaction, b: Transaction)
    requires 2 <= |a.hash| && 2 <= |b.hash| && a.hash[..2] == b.hash[..2] && a.hash != b.hash
    requires Match(a.hash, txs).Some? && Match(b.hash, txs).Some?
    ensures Match(a.hash, txs) != Match(b.hash, txs)
    ensures var j := Match(a.hash, txs).value;
            j < |txs| && txs[j].hash == a.hash[2..] && forall i :: 0 <= i < j ==> txs[i].hash != a.hash[2..]
  {
    var i, j := Match(a.hash, txs).value, Match(b.hash, txs).value;
    MatchFromIsLeast(a.hash, txs, 0, i);
    MatchFromIsLeast(b.hash, txs, 0, j);
    assert a.hash == a.hash[..2] + a.hash[2..];
    assert b.hash == b.hash[..2] + b.hash[2..];
  }

  ghost predicate Prefixed(trs: seq<Transaction>) {
    forall k :: 0 <= k < |trs| ==> 2 <= |trs[k].hash| && trs[k].hash[..2] == "0x"
  }

  /** Mapped transactions have one event of kind Extrinsic, without an id yet. */
  lemma MappedHasOneEvent(b: Block, m: Settings, k: nat)
    requires TransactionsOf(b, m).Success? && k < |TransactionsOf(b, m).value|
    ensures var t := TransactionsOf(b, m).value[k];
            |t.events| == 1 && t.events[0].kind == "Extrinsic" && t.events[0].id == None
  {
    OutputIsFirstOccurrences(b, m);
  }

  /** The id that the event of a mapped transaction carries after the pairing, if any. */
  function EventIdOf(height: nat, txs: seq<RawTx>, t: Transaction, k: nat): Option<EventId>
    requires 2 <= |t.hash| && |t.events| == 1
  {
    Paired(height, txs, t, k).events[0].id
  }

  /** The raw extrinsic at the position of transaction k lends it its position: k's own hash is not found, and
      the extrinsic there calls the module of k's event. */
  predicate TakesItsPosition(txs: seq<RawTx>, t: Transaction, k: nat)
    requires 2 <= |t.hash| && |t.events| == 1
  {
    && Match(t.hash, txs).None? && k < |txs|
    && Lower(txs[k].callModule) == t.events[0].section && t.events[0].kind == "Extrinsic"
  }

  lemma EventIdIs(height: nat, txs: seq<RawTx>, t: Transaction, k: nat)
    requires 2 <= |t.hash| && |t.events| == 1 && t.events[0].id == None
    ensures EventIdOf(height, txs, t, k)
            == (if Match(t.hash, txs).Some? then Some(EventId(height, Match(t.hash, txs).value))
                else if TakesItsPosition(txs, t, k) then Some(EventId(height, k)) else None)
  {
    hide Match;
  }

  /** For the transactions of any block: if all hashes have the prefix and all are found, each event gets an
      id and the ids of different transactions are different. */
  lemma AllFoundIsInjective(height: nat, b: Block, m: Settings, txs: seq<RawTx>, i: nat, j: nat)
    requires var r := TransactionsOf(b, m);
             && r.Success? && Prefixed(r.value) && i < j < |r.value|
             && (forall k :: 0 <= k < |r.value| ==> Match(r.value[k].hash, txs).Some?)
    ensures var r := TransactionsOf(b, m).value;
            && |r[i].events| == 1 && |r[j].events| == 1
            && EventIdOf(height, txs, r[i], i).Some? && EventIdOf(height, txs, r[j], j).Some?
            && EventIdOf(height, txs, r[i], i) != EventIdOf(height, txs, r[j], j)
  {
    var r := TransactionsOf(b, m).value;
    MappedHasOneEvent(b, m, i);
    MappedHasOneEvent(b, m, j);
    OutputIsFirstOccurrences(b, m);
    EventIdIs(height, txs, r[i], i);
    EventIdIs(height, txs, r[j], j);
    MatchIsInjective(txs, r[i], r[j]);
  }

  /** Two mapped transactions of a block get the same event id if and only if one of them is not found by its
      hash, the other's hash is at its position, and the extrinsic there calls the module of its event. */
  lemma CollisionIff(height: nat, b: Block, m: Settings, txs: seq<RawTx>, i: nat, j: nat)
    requires var r := TransactionsOf(b, m);
             r.Success? && Prefixed(r.value) && i < |r.value| && j < |r.value| && i != j
    ensures var r := TransactionsOf(b, m).value;
            && |r[i].events| == 1 && |r[j].events| == 1
            && ((EventIdOf(height, txs, r[i], i).Some? && EventIdOf(height, txs, r[i], i) == EventIdOf(height, txs, r[j], j))
                <==>
                || (TakesItsPosition(txs, r[i], i) && Match(r[j].hash, txs) == Some(i))
                || (TakesItsPosition(txs, r[j], j) && Match(r[i].hash, txs) == Some(j)))
  {
    var r := TransactionsOf(b, m).value;
    MappedHasOneEvent(b, m, i);
    MappedHasOneEvent(b, m, j);
    OutputIsFirstOccurrences(b, m);
    EventIdIs(height, txs, r[i], i);
    EventIdIs(height, txs, r[j], j);
    hide EventIdOf, TransactionsOf;
    if Match(r[i].hash, txs).Some? && Match(r[j].hash, txs).Some? {
      MatchIsInjective(txs, r[i], r[j]);
    }
  }

  /** An extrinsic without events, fee or tip. */
  function Bare(hash: string, section: string): RawExtrinsic {
    RawExtrinsic(hash, "", section, "", 0, "", "", "", "", true, "", [])
  }

  lemma BareIsMapped(hash: string, section: string, b: Block, m: Settings)
    requires m.parseTime("").Some?
    ensures var r := TransactionOf(Bare(hash, section), b, m);
            && r.Success? && r.value.hash == hash && |r.value.events| == 1
            && r.value.events[0].section == Lower(section) && r.value.events[0].kind == "Extrinsic" && r.value.events[0].id == None
  {
    assert EventsOf([], ContextOf(Bare(hash, section), b, m, m.parseTime("").value)) == Success([]);
  }

  lemma TwoMapped(b: Block, m: Settings, first: RawExtrinsic, second: RawExtrinsic)
    requires b.extrinsics == [first, second] && first.hash != second.hash
    requires TransactionOf(first, b, m).Success? && TransactionOf(second, b, m).Success?
    ensures TransactionsOf(b, m) == Success([TransactionOf(first, b, m).value, TransactionOf(second, b, m).value])
  {
    var f := Transactioner(b, m);
    assert f(first) == TransactionOf(first, b, m) && f(second) == TransactionOf(second, b, m);
    hide TransactionOf, Transactioner;
    var one, two := [first], [first, second];
    assert one == [] + [first] && two == one + [second];
    UniqueExtends([], HashOf, first);
    assert HashOf(one[0]) != HashOf(second);
    UniqueExtends(one, HashOf, second);
    assert Unique<RawExtrinsic, string>([], HashOf) == [];
    assert Unique(two, HashOf) == two;
    MapAllExtends([], f, first);
    assert MapAll(one, f).Success? && MapAll(one, f).value == [f(first).value];
    MapAllExtends(one, f, second);
    assert MapAll(two, f).Success? && MapAll(two, f).value == [f(first).value, f(second).value];
  }

  /** A collision: of a block of two extrinsics that call the same module, only the second is among the raw
      extrinsics, at position 0. Both of its mapped transactions are given the id of that position. */
  lemma TwoGetOneId(m: Settings, height: nat, section: string)
    requires m.parseTime("").Some?
    ensures var b := Block("", height, [Bare("0xaa", section), Bare("0xbb", section)]);
            var txs, r := [RawTx("bb", section)], TransactionsOf(b, m);
            && r.Success? && |r.value| == 2 && |r.value[0].events| == 1 && |r.value[1].events| == 1
            && r.value[0].hash == "0xaa" && r.value[1].hash == "0xbb"
            && EventIdOf(height, txs, r.value[0], 0) == EventIdOf(height, txs, r.value[1], 1) == Some(EventId(height, 0))
  {
    var b := Block("", height, [Bare("0xaa", section), Bare("0xbb", section)]);
    BareIsMapped("0xaa", section, b, m);
    BareIsMapped("0xbb", section, b, m);
    TwoMapped(b, m, Bare("0xaa", section), Bare("0xbb", section));
    var first, second := TransactionOf(Bare("0xaa", section), b, m).value, TransactionOf(Bare("0xbb", section), b, m).value;
    hide TransactionOf, TransactionsOf, EventIdOf;
    CollideAtZero(height, first, second, section);
  }

  lemma CollideAtZero(height: nat, first: Transaction, second: Transaction, callModule: string)
    requires first.hash == "0xaa" && second.hash == "0xbb"
    requires forall t :: t in [first, second] ==>
               |t.events| == 1 && t.events[0].id == None && t.events[0].kind == "Extrinsic" && t.events[0].section == Lower(callModule)
    ensures first in [first, second] && second in [first, second]
    ensures var txs := [RawTx("bb", callModule)];
            EventIdOf(height, txs, first, 0) == EventIdOf(height, txs, second, 1) == Some(EventId(height, 0))
  {
    var txs := [RawTx("bb", callModule)];
    assert first in [first, second] && second in [first, second];
    assert "0xaa"[2..] == "aa" && "0xbb"[2..] == "bb" && "aa" != "bb";
    assert MatchFrom("0xaa", txs, 1).None?;
    EventIdIs(height, txs, first, 0);
    EventIdIs(height, txs, second, 1);
  }

  /** An output slot stays empty exactly when its hash is missing and its position is past the raw extrinsics;
      so none does when the raw extrinsics are as many as those of the block. */
  lemma EverySlotFilled(height: nat, b: Block, m: Settings, txs: seq<RawTx>, k: nat)
    requires var r := TransactionsOf(b, m);
             r.Success? && Prefixed(r.value) && k < |r.value|
    ensures var t := TransactionsOf(b, m).value[k];
            && (Slot(height, txs, t, k).None? <==> Match(t.hash, txs).None? && |txs| <= k)
            && (|txs| == |b.extrinsics| ==> Slot(height, txs, t, k) == Some(Paired(height, txs, t, k)))
  {
    OutputIsFirstOccurrences(b, m);
  }

  /** When j is the first raw extrinsic with the hash of a transaction, every event of the transaction gets the
      height and j as its id, and nothing else about it changes. */
  lemma FoundEventsCarryPosition(height: nat, txs: seq<RawTx>, t: Transaction, k: nat, j: nat)
    requires 2 <= |t.hash| && j < |txs| && txs[j].hash == t.hash[2..]
    requires forall i :: 0 <= i < j ==> txs[i].hash != t.hash[2..]
    ensures var p := Paired(height, txs, t, k);
            && p.(events := t.events) == t && |p.events| == |t.events|
            && (forall e :: 0 <= e < |t.events| ==> p.events[e] == t.events[e].(id := Some(EventId(height, j))))
            && Slot(height, txs, t, k) == Some(p)
  {
    MatchFromIsLeast(t.hash, txs, 0, j);
  }
}
