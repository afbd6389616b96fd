/** The two flows that borrow a channel: blockAndTx of indexer/getBlock.go, up to the point where it is
    done with the channel, and GetAccount of indexer/account.go. A flow is what it does with its channel,
    act by act, and how it ends. */
module Flows {
  import opened Rpc
  import opened Batches
  import BP = BlockPool
  import BH = BlockHashes
  import OR = OtherReplies
  import DS = DecodeStore

  const REQUEST_PARENT_RUNTIME_VERSION := 13
  const REQUEST_SYSTEM_ACCOUNT := 14

  /** How a flow leaves its channel: back in the pool, in the hands of the cleanup goroutine, held by a
      call that waits forever, or held by a process that died. */
  datatype Exit = PutBack | HandedOver | Stuck | Died

  datatype End<+T> = Done(value: T) | Stopped(exit: Exit)

  datatype Flow<+T> = Flow(acts: seq<Act>, end: End<T>)

  function After<T>(acts: seq<Act>, f: Flow<T>): Flow<T> {
    Flow(acts + f.acts, f.end)
  }

  /** What each stage meets: whether a connection was ever up by then, and the replies that come. The ops are
      what others do to the cache before the three lookups and while replies are awaited. */
  datatype HeightWorld = HeightWorld(online: bool, number: string -> Option<nat>, head: Option<Response>, header: Option<Response>)

  datatype HashWorld = HashWorld(online: bool, before: seq<BH.CacheOp>, before2: seq<BH.CacheOp>, before3: seq<BH.CacheOp>,
                           during: seq<seq<BH.CacheOp>>, replies: seq<Response>)

  /** A reply read under a timeout of thirty seconds. */
  datatype Wait = Reply(resp: Response) | TimedOut

  // ----- the stages

  /** Height 0 stands for the latest one. */
  function HeightFlow(id: nat, height: nat, heights: HeightWorld): Flow<nat> {
    if height != 0 then Flow([], Done(height))
    else
      Flow(BH.HeightActs(heights.online, id, heights.head, heights.header),
           match BH.LatestHeight(heights.online, heights.number, heights.head, heights.header)
           case Height(top) => Done(top)
           case HeightFailed => Stopped(PutBack)
           case HeightWaiting => Stopped(Stuck)
           case HeightPanicked => Stopped(Died))
  }

  /** The three hashes of a block, with its height. */
  datatype Fetched = Fetched(height: nat, block: string, parent: string, grandparent: string)

  function HashFlow(id: nat, height: nat, online: bool, replies: seq<Response>, hits: Hits): Flow<Fetched> {
    Flow(BH.HashActs(height, hits, online, replies, id),
         match BH.HashesOf(height, hits, online, replies)
         case Waiting => Stopped(Stuck)
         case Panicked => Stopped(Died)
         case Got(b, p, g, err, _) => if err.Some? then Stopped(PutBack) else Done(Fetched(height, b, p, g)))
  }

  function FetchFlow(id: nat, height: nat, heights: HeightWorld, online: bool, replies: seq<Response>, hits: Hits): Flow<Fetched> {
    var h := HeightFlow(id, height, heights);
    match h.end
    case Stopped(exit) => Flow(h.acts, Stopped(exit))
    case Done(top) => After(h.acts, HashFlow(id, top, online, replies, hits))
  }

  function OthersFlow<B, R>(id: nat, f: Fetched, online: bool, dec: OR.Decoders<B, R>, replies: seq<Response>): Flow<OR.Acc<B, R>> {
    Flow(OR.OthersActs(online, OR.OthersRequests(f.block, f.parent, f.grandparent, id), replies),
         if !online then Stopped(PutBack)
         else
           match OR.Loop(dec, OR.Fresh(dec), 0, replies)
           case Gathered(acc, _) => if acc.err.Some? then Stopped(PutBack) else Done(acc)
           case Waiting => Stopped(Stuck)
           case Panicked => Stopped(Died)
           case NotSent => Stopped(PutBack))
  }

  function MetadataFlow(id: nat, block: string, q: DS.Query, decodes: string -> bool, network: string,
                        stored: map<nat, string>): Flow<string> {
    Flow(DS.MetadataActs(network, stored, q, block, id),
         match DS.AnswerTo(network, stored, q, decodes)
         case Bytes(b) => Done(b)
         case Waiting => Stopped(Stuck)
         case Panicked => Stopped(Died)
         case _ => Stopped(PutBack))
  }

  /** One request with a timed wait: on a timeout its reply is still to come. */
  function AskFlow(online: bool, req: Request, wait: Wait): Flow<string> {
    if !online then Flow(AskOne(false, req, None), Stopped(PutBack))
    else
      match wait
      case TimedOut => Flow(AskOne(true, req, None) + [GiveUp], Stopped(HandedOver))
      case Reply(r) =>
        Flow(AskOne(true, req, Some(r)),
             if r.error.Some? || r.kind != req.call.name || r.result == "" then Stopped(PutBack) else Done(r.result))
  }

  // ----- the flows

  datatype BlockData<B, R> = BlockData(fetched: Fetched, acc: OR.Acc<B, R>, metadata: string)

  /** blockAndTx: the record is read at the three hashes, the metadata at the grandparent, for the version
      that the runtime reply names. */
  function BlockFlow<B, R>(id: nat, height: nat, heights: HeightWorld, hashes: HashWorld, hits: Hits, othersOnline: bool,
                           dec: OR.Decoders<B, R>, others: seq<Response>, query: R -> DS.Query, decodes: string -> bool,
                           network: string, stored: map<nat, string>): Flow<BlockData<B, R>> {
    var f := FetchFlow(id, height, heights, hashes.online, hashes.replies, hits);
    match f.end
    case Stopped(exit) => Flow(f.acts, Stopped(exit))
    case Done(fetched) =>
      var o := OthersFlow(id, fetched, othersOnline, dec, others);
      match o.end
      case Stopped(exit) => Flow(f.acts + o.acts, Stopped(exit))
      case Done(acc) =>
        var m := MetadataFlow(id, fetched.grandparent, query(acc.runtime), decodes, network, stored);
        Flow(f.acts + o.acts + m.acts,
             match m.end
             case Stopped(exit) => Stopped(exit)
             case Done(metadata) => Done(BlockData(fetched, acc, metadata)))
  }

  function VersionRequest(block: string, id: nat): Request {
    Request(REQUEST_PARENT_RUNTIME_VERSION, "", Call("state_getRuntimeVersion", [Text(block)]), id)
  }

  function AccountRequest(key: string, block: string, id: nat): Request {
    Request(REQUEST_SYSTEM_ACCOUNT, "", Call("state_getStorage", [Text(key), Text(block)]), id)
  }

  datatype AccountData = AccountData(fetched: Fetched, query: DS.Query, metadata: string, account: string)

  /** The last request of GetAccount, and the cut of its result. */
  function AccountPart(id: nat, fetched: Fetched, q: DS.Query, metadata: string, key: Option<string>, online: bool,
                       account: Wait): Flow<AccountData> {
    if key.None? then Flow([], Stopped(PutBack))
    else
      var a := AskFlow(online, AccountRequest(key.value, fetched.block, id), account);
      Flow(a.acts,
           match a.end
           case Stopped(exit) => Stopped(exit)
           case Done(raw) => if |raw| < 2 then Stopped(Died) else Done(AccountData(fetched, q, metadata, Unquote(raw))))
  }

  /** GetAccount from the runtime version on. */
  function VersionPart(id: nat, fetched: Fetched, versionOnline: bool, version: Wait, query: string -> Option<DS.Query>,
                       decodes: string -> bool, network: string, stored: map<nat, string>, key: Option<string>,
                       accountOnline: bool, account: Wait): Flow<AccountData> {
    var v := AskFlow(versionOnline, VersionRequest(fetched.block, id), version);
    match v.end
    case Stopped(exit) => Flow(v.acts, Stopped(exit))
    case Done(raw) =>
      match query(raw)
      case None => Flow(v.acts, Stopped(PutBack))
      case Some(q) =>
        var m := MetadataFlow(id, fetched.block, q, decodes, network, stored);
        match m.end
        case Stopped(exit) => Flow(v.acts + m.acts, Stopped(exit))
        case Done(metadata) =>
          After(v.acts + m.acts, AccountPart(id, fetched, q, metadata, key, accountOnline, account))
  }

  /** GetAccount: version, metadata and account are all read at the block of the height asked for. key is the
      storage key made of the account id, if that is valid. */
  function AccountFlow(id: nat, height: nat, heights: HeightWorld, hashes: HashWorld, hits: Hits, versionOnline: bool,
                       version: Wait, query: string -> Option<DS.Query>, decodes: string -> bool, network: string,
                       stored: map<nat, string>, key: Option<string>, accountOnline: bool, account: Wait): Flow<AccountData> {
    var f := FetchFlow(id, height, heights, hashes.online, hashes.replies, hits);
    match f.end
    case Stopped(exit) => Flow(f.acts, Stopped(exit))
    case Done(fetched) =>
      After(f.acts, VersionPart(id, fetched, versionOnline, version, query, decodes, network, stored, key,
                                accountOnline, account))
  }

  // ----- the methods

  /** hits are what the lookups for the height really found: in the cache as it was, or as the latest height
      left it, after what others did meanwhile. */
  ghost predicate SawCache(height: nat, heights: HeightWorld, hashes: HashWorld, hits: Hits, before: map<nat, string>) {
    var h := HeightFlow(0, height, heights);
    h.end.Done? ==>
      exists first: map<nat, string> ::
        && (if height != 0 then first == before
            else BH.Learned(before, first, h.end.value, if heights.head.Some? && 2 <= |heights.head.value.result|
                                                        then Unquote(heights.head.value.result) else ""))
        && var own := BH.DidAll(first, hashes.before);
           BH.LookedAt(h.end.value, hashes.online, hits, own, BH.DidAll(own, hashes.before2),
                       BH.DidAll(BH.DidAll(own, hashes.before2), hashes.before3))
  }

  /** The heights and hashes part, which both flows begin with. */
  method FetchHashes(cache: BH.BlockHashCache, id: nat, height: nat, heights: HeightWorld, hashes: HashWorld)
    returns (f: Flow<Fetched>, hits: Hits)
    modifies cache
    ensures f == FetchFlow(id, height, heights, hashes.online, hashes.replies, hits)
    ensures SawCache(height, heights, hashes, hits, old(cache.entries))
  {
    hide BH.HashesOf, BH.HashActs, BH.DidAll, BH.LookedAt, BH.Learned, BH.Sourced, BH.HeightActs;
    hits := NoHits();
    var h := height;
    var acts: seq<Act> := [];
    ghost var before := cache.entries;
    if height == 0 {
      var latest;
      latest, acts := BH.GetLatestHeight(heights.online, id, cache, heights.number, heights.head, heights.header);
      match latest {
        case HeightFailed => return Flow(acts, Stopped(PutBack)), hits;
        case HeightWaiting => return Flow(acts, Stopped(Stuck)), hits;
        case HeightPanicked => return Flow(acts, Stopped(Died)), hits;
        case Height(top) => h := top;
      }
    }
    ghost var first := cache.entries;
    cache.OthersAct(hashes.before);
    var out, more;
    out, more, hits := BH.GetBlockHashes(h, id, hashes.online, cache, hashes.before2, hashes.before3, hashes.during,
                                         hashes.replies);
    assert SawCache(height, heights, hashes, hits, before);
    acts := acts + more;
    match out {
      case Waiting => f := Flow(acts, Stopped(Stuck));
      case Panicked => f := Flow(acts, Stopped(Died));
      case Got(b, p, g, err, _) => f := Flow(acts, if err.Some? then Stopped(PutBack) else Done(Fetched(h, b, p, g)));
    }
  }

  method FetchMetadata(ds: DS.DecodeStorage, id: nat, block: string, q: DS.Query, decodes: string -> bool)
    returns (f: Flow<string>)
    requires ds.Valid()
    modifies ds`decoders, ds`buffers
    ensures ds.Valid()
    ensures f == MetadataFlow(id, block, q, decodes, ds.specName, old(ds.Contents()))
    ensures ds.Contents() == if f.end.Done? then old(ds.Contents())[q.version := f.end.value] else old(ds.Contents())
  {
    var answer, _, acts := DS.GetMetadata(ds, id, block, q, decodes);
    match answer
    case Bytes(b) => f := Flow(acts, Done(b));
    case Waiting => f := Flow(acts, Stopped(Stuck));
    case Panicked => f := Flow(acts, Stopped(Died));
    case _ => f := Flow(acts, Stopped(PutBack));
  }

  /** Everything blockAndTx does with its channel. */
  method GatherBlock<B, R>(cache: BH.BlockHashCache, ds: DS.DecodeStorage, id: nat, height: nat, heights: HeightWorld,
                           hashes: HashWorld, othersOnline: bool, dec: OR.Decoders<B, R>, others: seq<Response>,
                           query: R -> DS.Query, decodes: string -> bool)
    returns (f: Flow<BlockData<B, R>>, hits: Hits)
    requires ds.Valid()
    modifies cache, ds`decoders, ds`buffers
    ensures ds.Valid()
    ensures f == BlockFlow(id, height, heights, hashes, hits, othersOnline, dec, others, query, decodes, ds.specName,
                           old(ds.Contents()))
    ensures SawCache(height, heights, hashes, hits, old(cache.entries))
    ensures f.end.Done? ==>
              ds.Contents() == old(ds.Contents())[query(f.end.value.acc.runtime).version := f.end.value.metadata]
  {
    hide SawCache, FetchFlow, MetadataFlow, OR.CallsSent, OR.Loop, OR.OthersActs, OR.OthersRequests;
    var g;
    g, hits := FetchHashes(cache, id, height, heights, hashes);
    if g.end.Stopped? {
      return Flow(g.acts, Stopped(g.end.exit)), hits;
    }
    var x := g.end.value;
    var out, asked := OR.GetOthers(x.block, x.parent, x.grandparent, id, othersOnline, dec, others);
    match out {
      case Waiting => f := Flow(g.acts + asked, Stopped(Stuck)); return;
      case Panicked => f := Flow(g.acts + asked, Stopped(Died)); return;
      case NotSent => f := Flow(g.acts + asked, Stopped(PutBack)); return;
      case Gathered(acc, _) =>
        if acc.err.Some? {
          f := Flow(g.acts + asked, Stopped(PutBack));
          return;
        }
        var m := FetchMetadata(ds, id, x.grandparent, query(acc.runtime), decodes);
        f := Flow(g.acts + asked + m.acts,
                  match m.end
                  case Stopped(exit) => Stopped(exit)
                  case Done(metadata) => Done(BlockData(x, acc, metadata)));
    }
  }

  method AskOnce(online: bool, req: Request, wait: Wait) returns (f: Flow<string>)
    ensures f == AskFlow(online, req, wait)
  {
    var acts := [Begin(Single, [req])];
    if !online { return Flow(acts + [SendRefused], Stopped(PutBack)); }
    acts := acts + [Send(req), StartReading];
    match wait
    case TimedOut => return Flow(acts + [GiveUp], Stopped(HandedOver));
    case Reply(resp) =>
      acts := acts + [Read(resp)];
      if resp.error.Some? || resp.kind != req.call.name || resp.result == "" { return Flow(acts, Stopped(PutBack)); }
      return Flow(acts, Done(resp.result));
  }

  /** What GetAccount does once it has the hashes. */
  method ReadAccount(ds: DS.DecodeStorage, id: nat, x: Fetched, versionOnline: bool, version: Wait,
                     query: string -> Option<DS.Query>, decodes: string -> bool, key: Option<string>,
                     accountOnline: bool, account: Wait)
    returns (f: Flow<AccountData>)
    requires ds.Valid()
    modifies ds`decoders, ds`buffers
    ensures ds.Valid()
    ensures f == VersionPart(id, x, versionOnline, version, query, decodes, ds.specName, old(ds.Contents()), key,
                             accountOnline, account)
    ensures f.end.Done? ==> ds.Contents() == old(ds.Contents())[f.end.value.query.version := f.end.value.metadata]
  {
    hide MetadataFlow, AskFlow;
    var v := AskOnce(versionOnline, VersionRequest(x.block, id), version);
    if v.end.Stopped? {
      return Flow(v.acts, Stopped(v.end.exit));
    }
    var q := query(v.end.value);
    if q.None? {
      return Flow(v.acts, Stopped(PutBack));
    }
    var m := FetchMetadata(ds, id, x.block, q.value, decodes);
    var acts := v.acts + m.acts;
    if m.end.Stopped? {
      return Flow(acts, Stopped(m.end.exit));
    }
    if key.None? {
      return Flow(acts + [], Stopped(PutBack));
    }
    var a := AskOnce(accountOnline, AccountRequest(key.value, x.block, id), account);
    acts := acts + a.acts;
    if a.end.Stopped? {
      return Flow(acts, Stopped(a.end.exit));
    }
    if |a.end.value| < 2 {
      return Flow(acts, Stopped(Died));
    }
    return Flow(acts, Done(AccountData(x, q.value, m.end.value, Unquote(a.end.value))));
  }

  /** Everything GetAccount does with its channel. */
  method GatherAccount(cache: BH.BlockHashCache, ds: DS.DecodeStorage, id: nat, height: nat, heights: HeightWorld,
                       hashes: HashWorld, versionOnline: bool, version: Wait, query: string -> Option<DS.Query>,
                       decodes: string -> bool, key: Option<string>, accountOnline: bool, account: Wait)
    returns (f: Flow<AccountData>, hits: Hits)
    requires ds.Valid()
    modifies cache, ds`decoders, ds`buffers
    ensures ds.Valid()
    ensures f == AccountFlow(id, height, heights, hashes, hits, versionOnline, version, query, decodes, ds.specName,
                             old(ds.Contents()), key, accountOnline, account)
    ensures SawCache(height, heights, hashes, hits, old(cache.entries))
    ensures f.end.Done? ==> ds.Contents() == old(ds.Contents())[f.end.value.query.version := f.end.value.metadata]
  {
    hide SawCache, FetchFlow, VersionPart;
    var g;
    g, hits := FetchHashes(cache, id, height, heights, hashes);
    if g.end.Stopped? {
      return Flow(g.acts, Stopped(g.end.exit)), hits;
    }
    var rest := ReadAccount(ds, id, g.end.value, versionOnline, version, query, decodes, key, accountOnline, account);
    f := Flow(g.acts + rest.acts, rest.end);
  }

  // ----- with the pool

  /** A flow that returns, with a value or an error, puts its channel back. */
  function ExitOf<T>(end: End<T>): Exit {
    match end
    case Done(_) => PutBack
    case Stopped(exit) => exit
  }

  /** The pool after a flow that borrowed ch: with the channel behind the others, or closed for want of room,
      when it was given back. */
  ghost predicate PoolAfter(before: seq<BP.Channel>, after: seq<BP.Channel>, cap: nat, ch: BP.Channel, given: bool)
    reads ch
  {
    var rest := if before == [] then [] else before[1..];
    && (before != [] ==> ch == before[0])
    && after == (if given && |rest| < cap then rest + [ch] else rest)
    && ch.closed == (given && |rest| >= cap)
  }

  method BlockAndTx<B, R>(pool: BP.GetBlockPool, cache: BH.BlockHashCache, ds: DS.DecodeStorage, id: nat, height: nat,
                          heights: HeightWorld, hashes: HashWorld, othersOnline: bool, dec: OR.Decoders<B, R>,
                          others: seq<Response>, query: R -> DS.Query, decodes: string -> bool)
    returns (f: Flow<BlockData<B, R>>, hits: Hits, ghost ch: BP.Channel)
    requires pool.Valid() && ds.Valid()
    modifies pool, pool.stor, cache, ds`decoders, ds`buffers
    ensures pool.Valid() && ds.Valid()
    ensures f == BlockFlow(id, height, heights, hashes, hits, othersOnline, dec, others, query, decodes, ds.specName,
                           old(ds.Contents()))
    ensures SawCache(height, heights, hashes, hits, old(cache.entries))
    ensures PoolAfter(old(pool.stor), pool.stor, pool.cap, ch, f.end.Done? || f.end == Stopped(PutBack))
  {
    hide BlockFlow, SawCache;
    ghost var stored := ds.Contents();
    var borrowed := pool.Get();
    ch := borrowed;
    assert ds.Contents() == stored;
    f, hits := GatherBlock(cache, ds, id, height, heights, hashes, othersOnline, dec, others, query, decodes);
    if ExitOf(f.end).PutBack? {
      pool.Put(borrowed);
    }
  }

  method GetAccount(pool: BP.GetBlockPool, cache: BH.BlockHashCache, ds: DS.DecodeStorage, id: nat, height: nat,
                    heights: HeightWorld, hashes: HashWorld, versionOnline: bool, version: Wait, query: string -> Option<DS.Query>,
                    decodes: string -> bool, key: Option<string>, accountOnline: bool, account: Wait)
    returns (f: Flow<AccountData>, hits: Hits, ghost ch: BP.Channel)
    requires pool.Valid() && ds.Valid()
    modifies pool, pool.stor, cache, ds`decoders, ds`buffers
    ensures pool.Valid() && ds.Valid()
    ensures f == AccountFlow(id, height, heights, hashes, hits, versionOnline, version, query, decodes, ds.specName,
                             old(ds.Contents()), key, accountOnline, account)
    ensures SawCache(height, heights, hashes, hits, old(cache.entries))
    ensures PoolAfter(old(pool.stor), pool.stor, pool.cap, ch, f.end.Done? || f.end == Stopped(PutBack))
  {
    hide AccountFlow, SawCache;
    ghost var stored := ds.Contents();
    var borrowed := pool.Get();
    ch := borrowed;
    assert ds.Contents() == stored;
    f, hits := GatherAccount(cache, ds, id, height, heights, hashes, versionOnline, version, query, decodes, key,
                             accountOnline, account);
    if ExitOf(f.end).PutBack? {
      pool.Put(borrowed);
    }
  }
}
