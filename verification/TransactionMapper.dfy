/** TransactionsMapper and parseEvents: two levels of deduplication around the event mapper. */
module TransactionMapper {
  import opened Rpc
  import opened Texts
  import opened Dedupe
  import opened Traversal
  import opened EventParsing
  import opened EventMapper

  /** An event id is a height and an index, printed with a dash between them. */
  datatype EventId = EventId(height: nat, index: int)

  datatype SubRecord = SubRecord(id: EventId, completion: int, nonce: nat, event: SubsetEvent)

  /** What all events of one extrinsic share. */
  datatype Context = Context(time: int, exp: nat, height: nat, currency: string, nonce: nat, signer: string)

  /** A mapped event beside the raw text it came from. */
  datatype Line = Line(sub: SubRecord, raw: string)

  function IndexOf(ev: RawEvent): int {
    ev.index
  }

  function LineOf(ev: RawEvent, c: Context): Result<Line, EventParsing.Failure> {
    match EventOf(ev, c.exp, c.currency, c.signer)
    case Rejected(f) => Failure(f)
    case Mapped(e) => Success(Line(SubRecord(EventId(c.height, ev.index), c.time, c.nonce, e), ev.raw))
  }

  function Liner(c: Context): RawEvent -> Result<Line, EventParsing.Failure> {
    (ev: RawEvent) => LineOf(ev, c)
  }

  /** parseEvents: the first event of every index, mapped in order. */
  function EventsOf(evs: seq<RawEvent>, c: Context): Result<seq<Line>, EventParsing.Failure> {
    MapAll(Unique(evs, IndexOf), Liner(c))
  }

  method MapEvent(ev: RawEvent, c: Context) returns (r: Result<Line, EventParsing.Failure>)
    ensures r == Liner(c)(ev)
  {
    var result := GetEvent(ev, c.exp, c.currency, c.signer);
    match result
    case Rejected(f) => return Failure(f);
    case Mapped(e) => return Success(Line(SubRecord(EventId(c.height, ev.index), c.time, c.nonce, e), ev.raw));
  }

  method ParseEvents(rawEvents: seq<RawEvent>, c: Context) returns (r: Result<seq<Line>, EventParsing.Failure>)
    ensures r == EventsOf(rawEvents, c)
  {
    var evIndexMap: set<int> := {};
    var lines := [];
    var i := 0;
    ghost var f := Liner(c);
    NothingRead(rawEvents, IndexOf, f);
    while i < |rawEvents|
      invariant 0 <= i <= |rawEvents| && f == Liner(c)
      invariant Progress(rawEvents, IndexOf, f, i, evIndexMap, lines)
    {
      var e := rawEvents[i];
      if e.index in evIndexMap {
        SkipItem(rawEvents, IndexOf, f, i, evIndexMap, lines);
      } else {
        var result := MapEvent(e, c);
        match result {
          case Failure(error) =>
            FailItem(rawEvents, IndexOf, f, i, evIndexMap, lines, error);
            return Failure(error);
          case Success(line) =>
            KeepItem(rawEvents, IndexOf, f, i, evIndexMap, lines, line);
            evIndexMap := evIndexMap + {e.index};
            lines := lines + [line];
        }
      }
      i := i + 1;
    }
    AllRead(rawEvents, IndexOf, f, evIndexMap, lines);
    return Success(lines);
  }

  lemma LineKeepsIdAndText(ev: RawEvent, c: Context)
    requires LineOf(ev, c).Success?
    ensures LineOf(ev, c).value.raw == ev.raw
    ensures LineOf(ev, c).value.sub.id == EventId(c.height, ev.index)
  {
  }

  /** The lines of an extrinsic are those of the first event of every index, item for item: ids, sub-events
      and raw texts belong together. */
  lemma EventsAligned(evs: seq<RawEvent>, c: Context)
    requires EventsOf(evs, c).Success?
    ensures var lines, kept := EventsOf(evs, c).value, Unique(evs, IndexOf);
            && |lines| == |kept|
            && (forall i :: 0 <= i < |kept| ==> LineOf(kept[i], c) == Success(lines[i]))
            && (forall i :: 0 <= i < |kept| ==>
                  lines[i].raw == kept[i].raw && lines[i].sub.id == EventId(c.height, kept[i].index))
            && (forall i, j :: 0 <= i < j < |lines| ==> lines[i].sub.id != lines[j].sub.id)
  {
    hide LineOf, EventOf, Unique, MapAll;
    var kept := Unique(evs, IndexOf);
    MapAllAligned(kept, Liner(c));
    UniqueKeys(evs, IndexOf);
    forall i | 0 <= i < |kept| ensures LineOf(kept[i], c) == Success(EventsOf(evs, c).value[i]) {
      assert Liner(c)(kept[i]) == LineOf(kept[i], c);
    }
    forall i | 0 <= i < |kept|
      ensures EventsOf(evs, c).value[i].raw == kept[i].raw
              && EventsOf(evs, c).value[i].sub.id == EventId(c.height, kept[i].index)
    {
      LineKeepsIdAndText(kept[i], c);
    }
    assert forall i, j :: 0 <= i < j < |kept| ==> IndexOf(kept[i]) != IndexOf(kept[j]);
  }

  /** Deduplicating the events of an extrinsic a second time changes nothing in the result. */
  lemma EventsDedupedOnce(evs: seq<RawEvent>, c: Context)
    ensures EventsOf(Unique(evs, IndexOf), c) == EventsOf(evs, c)
  {
    UniqueIsIdempotent(evs, IndexOf);
  }

  // ----- fees

  datatype FeeResult = Fee(amount: Option<Amount>) | BadFee

  /** The integer a fee field stands for: nothing counts as zero. */
  function FeePart(s: string): Option<int> {
    if s == "" then Some(0) else ParseInteger(s)
  }

  /** The fee is the sum of its two parts, left out when it is zero. */
  function FeeOf(partialFee: string, tip: string, exp: nat, currency: string): FeeResult {
    if FeePart(partialFee).None? || FeePart(tip).None? then BadFee
    else
      var total := FeePart(partialFee).value + FeePart(tip).value;
      Fee(if total == 0 then None else Some(Amount(total, currency, exp)))
  }

  /** amount is what the two fields add up to; a field that is missing adds nothing, and nothing is no amount. */
  ghost predicate IsFee(partialFee: string, tip: string, exp: nat, currency: string, amount: Option<Amount>) {
    && (partialFee != "" ==> ParseInteger(partialFee).Some?) && (tip != "" ==> ParseInteger(tip).Some?)
    && var total := (if partialFee == "" then 0 else ParseInteger(partialFee).value)
                    + (if tip == "" then 0 else ParseInteger(tip).value);
       amount == if total == 0 then None else Some(Amount(total, currency, exp))
  }

  method GetTransactionFee(partialFee: string, tip: string, exp: nat, currency: string) returns (r: FeeResult)
    ensures r == FeeOf(partialFee, tip, exp, currency)
    ensures r.BadFee? <==> (partialFee != "" && ParseInteger(partialFee).None?) || (tip != "" && ParseInteger(tip).None?)
    ensures r.Fee? ==> IsFee(partialFee, tip, exp, currency, r.amount)
  {
    if partialFee == "" && tip == "" {
      return Fee(None);
    }
    var amount: int := 0;
    if partialFee != "" {
      var fee := ParseInteger(partialFee);
      if fee.None? { return BadFee; }
      amount := fee.value;
    }
    if tip != "" {
      var t := ParseInteger(tip);
      if t.None? { return BadFee; }
      if partialFee == "" {
        amount := t.value;
      } else {
        amount := amount + t.value;
      }
    }
    if amount == 0 {
      return Fee(None);
    }
    return Fee(Some(Amount(amount, currency, exp)));
  }

  // ----- transactions

  datatype RawExtrinsic = RawExtrinsic(
    hash: string, name: string, section: string, time: string, nonce: nat, signer: string, partialFee: string,
    tip: string, epoch: string, isSuccess: bool, raw: string, events: seq<RawEvent>)

  datatype Block = Block(hash: string, height: nat, extrinsics: seq<RawExtrinsic>)

  datatype TransactionEvent = TransactionEvent(id: Option<EventId>, kind: string, section: string, types: seq<string>,
                                               sub: seq<SubRecord>)

  datatype Transaction = Transaction(
    hash: string, blockHash: string, height: nat, epoch: string, chainID: string, time: int, fee: Option<Amount>,
    events: seq<TransactionEvent>, hasErrors: bool, raw: string, rawLog: seq<string>)

  /** The mapper's own settings, with the parser of timestamps. */
  datatype Settings = Settings(exp: nat, chainID: string, currency: string, parseTime: string -> Option<int>)

  datatype MapFailure = NoBlock | BadTime | BadEvent(failure: EventParsing.Failure) | BadFeeText

  function HashOf(t: RawExtrinsic): string {
    t.hash
  }

  function SubsOf(lines: seq<Line>): (subs: seq<SubRecord>)
    ensures |subs| == |lines| && forall i :: 0 <= i < |lines| ==> subs[i] == lines[i].sub
  {
    seq(|lines|, i requires 0 <= i < |lines| => lines[i].sub)
  }

  function RawsOf(lines: seq<Line>): (raws: seq<string>)
    ensures |raws| == |lines| && forall i :: 0 <= i < |lines| ==> raws[i] == lines[i].raw
  {
    seq(|lines|, i requires 0 <= i < |lines| => lines[i].raw)
  }

  /** The transaction that an extrinsic, its mapped events and its fee make. */
  function Assembled(t: RawExtrinsic, b: Block, m: Settings, time: int, events: Result<seq<Line>, EventParsing.Failure>,
                     fee: FeeResult): Result<Transaction, MapFailure> {
    match events
    case Failure(f) => Failure(BadEvent(f))
    case Success(lines) =>
      match fee
      case BadFee => Failure(BadFeeText)
      case Fee(amount) =>
        Success(Transaction(t.hash, b.hash, b.height, t.epoch, m.chainID, time, amount,
                            [TransactionEvent(None, "Extrinsic", Lower(t.section), [Lower(t.name)], SubsOf(lines))],
                            !t.isSuccess, t.raw, RawsOf(lines)))
  }

  function ContextOf(t: RawExtrinsic, b: Block, m: Settings, time: int): Context {
    Context(time, m.exp, b.height, m.currency, t.nonce, t.signer)
  }

  function TransactionOf(t: RawExtrinsic, b: Block, m: Settings): Result<Transaction, MapFailure> {
    match m.parseTime(t.time)
    case None => Failure(BadTime)
    case Some(time) =>
      Assembled(t, b, m, time, EventsOf(t.events, ContextOf(t, b, m, time)),
                FeeOf(t.partialFee, t.tip, m.exp, m.currency))
  }

  function Transactioner(b: Block, m: Settings): RawExtrinsic -> Result<Transaction, MapFailure> {
    (t: RawExtrinsic) => TransactionOf(t, b, m)
  }

  /** The first extrinsic of every hash, mapped in order. */
  function TransactionsOf(b: Block, m: Settings): Result<seq<Transaction>, MapFailure> {
    MapAll(Unique(b.extrinsics, HashOf), Transactioner(b, m))
  }

  method MapOne(t: RawExtrinsic, b: Block, m: Settings) returns (r: Result<Transaction, MapFailure>)
    ensures r == Transactioner(b, m)(t)
  {
    var time := m.parseTime(t.time);
    if time.None? {
      return Failure(BadTime);
    }
    var events := ParseEvents(t.events, ContextOf(t, b, m, time.value));
    var fee := GetTransactionFee(t.partialFee, t.tip, m.exp, m.currency);
    r := Assembled(t, b, m, time.value, events, fee);
  }

  /** One extrinsic: skipped when its hash was seen, mapped otherwise. */
  method MapNext(b: Block, m: Settings, i: nat, transactionMap: set<string>, transactions: seq<Transaction>)
    returns (failure: Option<MapFailure>, seen: set<string>, mapped: seq<Transaction>)
    requires i < |b.extrinsics|
    requires Progress(b.extrinsics, HashOf, Transactioner(b, m), i, transactionMap, transactions)
    ensures failure.None? ==> Progress(b.extrinsics, HashOf, Transactioner(b, m), i + 1, seen, mapped)
    ensures failure.Some? ==> TransactionsOf(b, m) == Failure(failure.value)
  {
    hide Progress, TransactionOf, Transactioner;
    failure, seen, mapped := None, transactionMap, transactions;
    var t := b.extrinsics[i];
    if t.hash in transactionMap {
      SkipItem(b.extrinsics, HashOf, Transactioner(b, m), i, transactionMap, transactions);
      return;
    }
    var one := MapOne(t, b, m);
    match one
    case Failure(why) =>
      FailItem(b.extrinsics, HashOf, Transactioner(b, m), i, transactionMap, transactions, why);
      failure := Some(why);
    case Success(tx) =>
      KeepItem(b.extrinsics, HashOf, Transactioner(b, m), i, transactionMap, transactions, tx);
      seen := transactionMap + {t.hash};
      mapped := transactions + [tx];
  }

  method TransactionsMapper(block: Option<Block>, m: Settings) returns (r: Result<seq<Transaction>, MapFailure>)
    ensures r == if block.None? then Failure(NoBlock) else TransactionsOf(block.value, m)
  {
    hide Progress, Transactioner;
    if block.None? {
      return Failure(NoBlock);
    }
    var b := block.value;
    var transactions: seq<Transaction> := [];
    var transactionMap: set<string> := {};
    NothingRead(b.extrinsics, HashOf, Transactioner(b, m));
    for i := 0 to |b.extrinsics|
      invariant Progress(b.extrinsics, HashOf, Transactioner(b, m), i, transactionMap, transactions)
    {
      var failure;
      failure, transactionMap, transactions := MapNext(b, m, i, transactionMap, transactions);
      if failure.Some? {
        return Failure(failure.value);
      }
    }
    AllRead(b.extrinsics, HashOf, Transactioner(b, m), transactionMap, transactions);
    return Success(transactions);
  }

  lemma {:induction false} UniqueIsShorter<T, K>(s: seq<T>, key: T -> K)
    ensures |Unique(s, key)| <= |s|
  {
    if s != [] {
      var n := |s| - 1;
      UniqueIsShorter(s[..n], key);
      UniqueExtends(s[..n], key, s[n]);
      assert s == s[..n] + [s[n]];
    }
  }

  /** The sub-events and the raw texts of a transaction, line by line: each belongs to the first event of its
      index, and carries the height of the block, that index, and the time and nonce of the extrinsic. */
  ghost predicate AreLinesOf(t: RawExtrinsic, b: Block, m: Settings, time: int, sub: seq<SubRecord>, raws: seq<string>) {
    var at := Firsts(t.events, IndexOf);
    && |sub| == |raws| == |at|
    && (forall k :: 0 <= k < |t.events| ==>
          (k in at <==> forall j :: 0 <= j < k ==> t.events[j].index != t.events[k].index))
    && (forall q, r :: 0 <= q < r < |at| ==> at[q] < at[r])
    && (forall q :: 0 <= q < |at| ==>
          var ev := t.events[at[q]];
          && raws[q] == ev.raw
          && sub[q].id == EventId(b.height, ev.index) && sub[q].completion == time && sub[q].nonce == t.nonce
          && EventOf(ev, m.exp, m.currency, t.signer) == Mapped(sub[q].event))
  }

  /** x is what the mapper makes of extrinsic t of block b, field by field. */
  ghost predicate IsImageOf(t: RawExtrinsic, b: Block, m: Settings, x: Transaction) {
    && x.hash == t.hash && x.blockHash == b.hash && x.height == b.height && x.epoch == t.epoch
    && x.chainID == m.chainID && m.parseTime(t.time) == Some(x.time)
    && x.hasErrors == !t.isSuccess && x.raw == t.raw
    && IsFee(t.partialFee, t.tip, m.exp, m.currency, x.fee)
    && |x.events| == 1 && x.events[0].id == None && x.events[0].kind == "Extrinsic"
    && x.events[0].section == Lower(t.section) && x.events[0].types == [Lower(t.name)]
    && AreLinesOf(t, b, m, x.time, x.events[0].sub, x.rawLog)
  }

  lemma LineHolds(ev: RawEvent, c: Context)
    requires LineOf(ev, c).Success?
    ensures var line := LineOf(ev, c).value;
            && line.raw == ev.raw && line.sub.id == EventId(c.height, ev.index)
            && line.sub.completion == c.time && line.sub.nonce == c.nonce
            && EventOf(ev, c.exp, c.currency, c.signer) == Mapped(line.sub.event)
  {
    hide EventOf;
  }

  lemma LinesOfEvents(t: RawExtrinsic, b: Block, m: Settings, time: int)
    requires EventsOf(t.events, ContextOf(t, b, m, time)).Success?
    ensures var lines := EventsOf(t.events, ContextOf(t, b, m, time)).value;
            AreLinesOf(t, b, m, time, SubsOf(lines), RawsOf(lines))
  {
    hide EventOf, LineOf, MapAll, EventsOf;
    var c := ContextOf(t, b, m, time);
    EventsAligned(t.events, c);
    FirstsAreTheFirsts(t.events, IndexOf);
    var kept, at := Unique(t.events, IndexOf), Firsts(t.events, IndexOf);
    var lines := EventsOf(t.events, c).value;
    forall q | 0 <= q < |at|
      ensures var ev := t.events[at[q]];
              && lines[q].raw == ev.raw && lines[q].sub.id == EventId(b.height, ev.index)
              && lines[q].sub.completion == time && lines[q].sub.nonce == t.nonce
              && EventOf(ev, m.exp, m.currency, t.signer) == Mapped(lines[q].sub.event)
    {
      assert kept[q] == t.events[at[q]];
      LineHolds(kept[q], c);
    }
  }

  lemma TransactionIsImage(t: RawExtrinsic, b: Block, m: Settings)
    requires TransactionOf(t, b, m).Success?
    ensures IsImageOf(t, b, m, TransactionOf(t, b, m).value)
  {
    hide EventsOf, AreLinesOf, Lower, ParseInteger;
    LinesOfEvents(t, b, m, m.parseTime(t.time).value);
  }

  /** The transactions that come out are the first occurrences of the extrinsics by hash, in their order: no
      two share a hash, each is the image of its own extrinsic, field by field, and no hash is lost. */
  lemma OutputIsFirstOccurrences(b: Block, m: Settings)
    requires TransactionsOf(b, m).Success?
    ensures var txs, at := TransactionsOf(b, m).value, Firsts(b.extrinsics, HashOf);
            && |txs| == |at| <= |b.extrinsics|
            && (forall i, j :: 0 <= i < j < |at| ==> at[i] < at[j] && txs[i].hash != txs[j].hash)
            && (forall k :: 0 <= k < |b.extrinsics| ==>
                  (k in at <==> forall j :: 0 <= j < k ==> b.extrinsics[j].hash != b.extrinsics[k].hash))
            && (forall i :: 0 <= i < |at| ==> IsImageOf(b.extrinsics[at[i]], b, m, txs[i]))
  {
    var ts := Unique(b.extrinsics, HashOf);
    var txs := TransactionsOf(b, m).value;
    hide TransactionOf, IsImageOf;
    FirstsAreTheFirsts(b.extrinsics, HashOf);
    UniqueKeys(b.extrinsics, HashOf);
    UniqueIsShorter(b.extrinsics, HashOf);
    MapAllAligned(ts, Transactioner(b, m));
    forall i | 0 <= i < |ts| ensures IsImageOf(ts[i], b, m, txs[i]) && txs[i].hash == HashOf(ts[i]) {
      assert Transactioner(b, m)(ts[i]) == TransactionOf(ts[i], b, m);
      TransactionIsImage(ts[i], b, m);
      ImageKeepsHash(ts[i], b, m, txs[i]);
    }
  }

  lemma ImageKeepsHash(t: RawExtrinsic, b: Block, m: Settings, x: Transaction)
    requires IsImageOf(t, b, m, x)
    ensures x.hash == t.hash && |x.events| == 1 && x.events[0].kind == "Extrinsic" && x.events[0].id == None
  {
  }

  // ----- when a block is refused

  /** The first event of some index cannot be mapped. */
  ghost predicate HasBadEvent(t: RawExtrinsic, m: Settings) {
    exists k :: 0 <= k < |t.events| && EventOf(t.events[k], m.exp, m.currency, t.signer).Rejected?
                && forall j :: 0 <= j < k ==> t.events[j].index != t.events[k].index
  }

  ghost predicate IsBadFee(s: string) {
    s != "" && ParseInteger(s).None?
  }

  lemma EventsFailIff(t: RawExtrinsic, b: Block, m: Settings, time: int)
    ensures EventsOf(t.events, ContextOf(t, b, m, time)).Failure? <==> HasBadEvent(t, m)
  {
    var c := ContextOf(t, b, m, time);
    var kept, at := Unique(t.events, IndexOf), Firsts(t.events, IndexOf);
    FirstsAreTheFirsts(t.events, IndexOf);
    MapAllFailsIff(kept, Liner(c));
    hide EventOf, MapAll;
    if i :| 0 <= i < |kept| && Liner(c)(kept[i]).Failure? {
      assert at[i] in at && t.events[at[i]] == kept[i];
      assert LineOf(kept[i], c).Failure?;
    }
    if k :| 0 <= k < |t.events| && EventOf(t.events[k], m.exp, m.currency, t.signer).Rejected?
            && forall j :: 0 <= j < k ==> t.events[j].index != t.events[k].index
    {
      assert IsFirst(t.events, IndexOf, k);
      var i :| 0 <= i < |at| && at[i] == k;
      assert Liner(c)(kept[i]) == LineOf(kept[i], c);
    }
  }

  /** Why an extrinsic cannot be mapped. */
  ghost predicate IsUnmappable(t: RawExtrinsic, m: Settings) {
    m.parseTime(t.time).None? || HasBadEvent(t, m) || IsBadFee(t.partialFee) || IsBadFee(t.tip)
  }

  lemma TransactionFailsIff(t: RawExtrinsic, b: Block, m: Settings)
    ensures TransactionOf(t, b, m).Failure? <==> IsUnmappable(t, m)
  {
    hide EventsOf, HasBadEvent, ParseInteger;
    if m.parseTime(t.time).Some? {
      EventsFailIff(t, b, m, m.parseTime(t.time).value);
    }
  }

  /** A block is refused if and only if the first extrinsic of some hash has a time or a fee that does not parse,
      or an event, the first of its index, that is rejected. Repeated extrinsics and events are not looked at. */
  lemma BlockFailsIff(b: Block, m: Settings)
    ensures TransactionsOf(b, m).Failure? <==>
            exists k :: 0 <= k < |b.extrinsics| && IsUnmappable(b.extrinsics[k], m)
                        && forall j :: 0 <= j < k ==> b.extrinsics[j].hash != b.extrinsics[k].hash
  {
    var kept, at := Unique(b.extrinsics, HashOf), Firsts(b.extrinsics, HashOf);
    hide TransactionOf, IsUnmappable, MapAll;
    FirstsAreTheFirsts(b.extrinsics, HashOf);
    MapAllFailsIff(kept, Transactioner(b, m));
    if i :| 0 <= i < |kept| && Transactioner(b, m)(kept[i]).Failure? {
      assert at[i] in at && b.extrinsics[at[i]] == kept[i];
      TransactionFailsIff(kept[i], b, m);
    }
    if k :| 0 <= k < |b.extrinsics| && IsUnmappable(b.extrinsics[k], m)
            && forall j :: 0 <= j < k ==> b.extrinsics[j].hash != b.extrinsics[k].hash
    {
      assert IsFirst(b.extrinsics, HashOf, k);
      var i :| 0 <= i < |at| && at[i] == k;
      TransactionFailsIff(kept[i], b, m);
      assert Transactioner(b, m)(kept[i]) == TransactionOf(kept[i], b, m);
    }
  }
}
