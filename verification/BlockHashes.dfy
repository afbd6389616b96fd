/** GetBlockHashes and getLatestHeight of indexer/getBlock.go, with the block-hash cache they share. */
module BlockHashes {
  import opened Rpc
  import opened Batches

  /** The raw reply of the node to chain_getBlockHash, by height: the canonical chain, fixed. */
  type Chain = nat -> string

  ghost predicate IsChain(chain: Chain) {
    forall h :: 2 <= |chain(h)|
  }

  function HashAt(chain: Chain, h: nat): string
    requires 2 <= |chain(h)|
  {
    Unquote(chain(h))
  }

  // ----- the cache

  datatype CacheOp = Put(height: nat, hash: string) | Evict(height: nat)

  function Did(m: map<nat, string>, op: CacheOp): map<nat, string> {
    match op
    case Put(h, x) => m[h := x]
    case Evict(h) => m - {h}
  }

  function DidAll(m: map<nat, string>, ops: seq<CacheOp>): map<nat, string> {
    if ops == [] then m else Did(DidAll(m, ops[..|ops| - 1]), ops[|ops| - 1])
  }

  function Lookup(m: map<nat, string>, h: nat): Option<string> {
    if h in m then Some(m[h]) else None
  }

  ghost predicate Agrees(chain: Chain, m: map<nat, string>)
    requires IsChain(chain)
  {
    forall h <- m :: m[h] == HashAt(chain, h)
  }

  ghost predicate OpsAgree(chain: Chain, ops: seq<CacheOp>)
    requires IsChain(chain)
  {
    forall i :: 0 <= i < |ops| && ops[i].Put? ==> ops[i].hash == HashAt(chain, ops[i].height)
  }

  /** Whatever the other goroutines put and whatever is evicted, the cache keeps agreeing with the chain. */
  lemma {:induction false} OpsKeepAgreement(chain: Chain, m: map<nat, string>, ops: seq<CacheOp>)
    requires IsChain(chain) && Agrees(chain, m) && OpsAgree(chain, ops)
    ensures Agrees(chain, DidAll(m, ops))
  {
    if ops != [] {
      OpsKeepAgreement(chain, m, ops[..|ops| - 1]);
    }
  }

  class BlockHashCache {
    var entries: map<nat, string>

    constructor ()
      ensures entries == map[]
    {
      entries := map[];
    }

    /** Adding may evict any other entries. */
    method Add(height: nat, hash: string)
      modifies this
      ensures Learned(old(entries), entries, height, hash)
    {
      var evicted: set<nat> :| evicted <= entries.Keys;
      entries := (entries - evicted)[height := hash];
    }

    /** What other goroutines do meanwhile. */
    method OthersAct(ops: seq<CacheOp>)
      modifies this
      ensures entries == DidAll(old(entries), ops)
    {
      for i := 0 to |ops|
        invariant entries == DidAll(old(entries), ops[..i])
      {
        assert ops[..i + 1][..i] == ops[..i];
        match ops[i]
        case Put(h, x) => entries := entries[h := x];
        case Evict(h) => entries := entries - {h};
      }
      assert ops[..|ops|] == ops;
    }
  }

  // ----- what one call computes

  datatype HashFault = NotConnected | FromNode(fault: Fault) | EmptyHash

  datatype HashOutcome =
    | Got(block: string, parent: string, grandparent: string, err: Option<HashFault>, read: nat)
    | Waiting
    | Panicked

  function Or(o: Option<string>, otherwise: string): string {
    match o
    case Some(x) => x
    case None => otherwise
  }

  /** The variables of the reply loop. */
  datatype Acc = Acc(block: string, parent: string, grandparent: string, err: Option<HashFault>)

  predicate IsHashId(id: nat) {
    id == REQUEST_BLOCK_HASH || id == REQUEST_PARENT_BLOCK_HASH || id == REQUEST_GRANDPARENT_BLOCK_HASH
  }

  /** The slice taken of a result of one byte is out of range. */
  predicate Breaks(r: Response) {
    r.error.None? && IsHashId(r.id) && |r.result| == 1
  }

  function Noted(acc: Acc, r: Response): Acc
    requires !Breaks(r)
  {
    if r.error.Some? then acc.(err := Some(FromNode(r.error.value)))
    else if !IsHashId(r.id) then acc
    else if r.result == "" then acc.(err := Some(EmptyHash))
    else if r.id == REQUEST_BLOCK_HASH then acc.(block := Unquote(r.result))
    else if r.id == REQUEST_PARENT_BLOCK_HASH then acc.(parent := Unquote(r.result))
    else acc.(grandparent := Unquote(r.result))
  }

  function NotedAll(acc: Acc, replies: seq<Response>): Acc
    requires forall r <- replies :: !Breaks(r)
  {
    if replies == [] then acc else Noted(NotedAll(acc, replies[..|replies| - 1]), replies[|replies| - 1])
  }

  function Normalised(height: nat, acc: Acc, read: nat): HashOutcome {
    if acc.err.Some? then Got(acc.block, acc.parent, acc.grandparent, acc.err, read)
    else if height == 0 then Got(acc.block, acc.block, acc.block, None, read)
    else if height == 1 then Got(acc.block, acc.parent, acc.parent, None, read)
    else Got(acc.block, acc.parent, acc.grandparent, None, read)
  }

  function Start(height: nat, hits: Hits): Acc {
    Acc(Or(hits.own, ""), if height > 0 then Or(hits.parent, "") else "", if height > 1 then Or(hits.third, "") else "", None)
  }

  /** The reply carries the hash of the requested block itself, which goes to the cache. */
  predicate IsOwnHash(r: Response, hash: string) {
    r.error.None? && r.id == REQUEST_BLOCK_HASH && 2 <= |r.result| && hash == Unquote(r.result)
  }

  ghost predicate PutByOthers(others: seq<seq<CacheOp>>, height: nat, hash: string) {
    exists i, j :: 0 <= i < |others| && 0 <= j < |others[i]| && others[i][j] == Put(height, hash)
  }

  ghost predicate OwnHashAmong(replies: seq<Response>, n: nat, hash: string)
    requires n <= |replies|
  {
    exists k :: 0 <= k < n && IsOwnHash(replies[k], hash)
  }

  /** Every entry was there before, or was put by somebody else meanwhile, or is the hash that one of the
      first n replies gave for height. */
  ghost predicate Sourced(before: map<nat, string>, after: map<nat, string>, others: seq<seq<CacheOp>>, height: nat,
                          replies: seq<Response>, n: nat)
    requires n <= |replies|
  {
    forall h <- after ::
      || (h in before && after[h] == before[h])
      || PutByOthers(others, h, after[h])
      || (h == height && OwnHashAmong(replies, n, after[h]))
  }

  lemma {:induction false} DidAllSourced(m: map<nat, string>, ops: seq<CacheOp>, h: nat)
    requires h in DidAll(m, ops)
    ensures (h in m && DidAll(m, ops)[h] == m[h]) || Put(h, DidAll(m, ops)[h]) in ops
  {
    if ops != [] && ops[|ops| - 1] != Put(h, DidAll(m, ops)[h]) {
      DidAllSourced(m, ops[..|ops| - 1], h);
    }
  }

  /** Others acting once more. */
  lemma OthersSourced(before: map<nat, string>, m: map<nat, string>, others: seq<seq<CacheOp>>, height: nat,
                      replies: seq<Response>, n: nat, ops: seq<CacheOp>)
    requires n <= |replies| && Sourced(before, m, others, height, replies, n) && ops in others
    ensures Sourced(before, DidAll(m, ops), others, height, replies, n)
  {
    var after := DidAll(m, ops);
    forall h | h in after
      ensures (h in before && after[h] == before[h]) || PutByOthers(others, h, after[h])
              || (h == height && OwnHashAmong(replies, n, after[h]))
    {
      DidAllSourced(m, ops, h);
      if Put(h, after[h]) in ops {
        var i :| 0 <= i < |others| && others[i] == ops;
        var j :| 0 <= j < |ops| && ops[j] == Put(h, after[h]);
        assert others[i][j] == Put(h, after[h]);
      }
    }
  }

  /** One more reply, which may put its own hash. */
  lemma ReplySourced(before: map<nat, string>, m: map<nat, string>, after: map<nat, string>, others: seq<seq<CacheOp>>,
                     height: nat, replies: seq<Response>, n: nat)
    requires n < |replies| && Sourced(before, m, others, height, replies, n)
    requires after == m || (height in after && IsOwnHash(replies[n], after[height])
                            && forall h <- after :: h != height ==> h in m && after[h] == m[h])
    ensures Sourced(before, after, others, height, replies, n + 1)
  {
    forall h | h in after
      ensures (h in before && after[h] == before[h]) || PutByOthers(others, h, after[h])
              || (h == height && OwnHashAmong(replies, n + 1, after[h]))
    {
      if h in m && after[h] == m[h] && h == height && OwnHashAmong(replies, n, m[h]) {
        var k :| 0 <= k < n && IsOwnHash(replies[k], m[h]);
      }
    }
  }

  ghost predicate Untouched(others: seq<seq<CacheOp>>, height: nat) {
    forall i, j :: 0 <= i < |others| && 0 <= j < |others[i]| ==> others[i][j].height != height
  }

  /** The reply carries some hash of the requested block. */
  predicate HasOwnHash(r: Response) {
    r.error.None? && r.id == REQUEST_BLOCK_HASH && 2 <= |r.result|
  }

  /** When one of the first n replies gave the hash for height, and nobody else puts or evicts that height
      while replies are awaited, the cache ends with a hash that such a reply gave. */
  ghost predicate Remembered(after: map<nat, string>, during: seq<seq<CacheOp>>, height: nat, replies: seq<Response>, n: nat)
    requires n <= |replies|
  {
    Untouched(during, height) && (exists k :: 0 <= k < n && HasOwnHash(replies[k])) ==>
      height in after && OwnHashAmong(replies, n, after[height])
  }

  lemma {:induction false} UntouchedStays(m: map<nat, string>, ops: seq<CacheOp>, height: nat)
    requires forall j :: 0 <= j < |ops| ==> ops[j].height != height
    ensures height in DidAll(m, ops) <==> height in m
    ensures height in m ==> DidAll(m, ops)[height] == m[height]
  {
    if ops != [] {
      UntouchedStays(m, ops[..|ops| - 1], height);
    }
  }

  lemma OthersRemember(m: map<nat, string>, during: seq<seq<CacheOp>>, height: nat, replies: seq<Response>, n: nat, i: nat)
    requires n <= |replies| && Remembered(m, during, height, replies, n) && i < |during|
    ensures Remembered(DidAll(m, during[i]), during, height, replies, n)
  {
    if Untouched(during, height) {
      UntouchedStays(m, during[i], height);
    }
  }

  /** One more reply: put when it is the own hash, and nothing changed otherwise. */
  lemma ReplyRemembered(m: map<nat, string>, after: map<nat, string>, during: seq<seq<CacheOp>>, height: nat,
                        replies: seq<Response>, n: nat)
    requires n < |replies| && Remembered(m, during, height, replies, n)
    requires if HasOwnHash(replies[n]) then height in after && IsOwnHash(replies[n], after[height]) else after == m
    ensures Remembered(after, during, height, replies, n + 1)
  {
    if !HasOwnHash(replies[n]) && Untouched(during, height) && exists k :: 0 <= k < n + 1 && HasOwnHash(replies[k]) {
      var k :| 0 <= k < n + 1 && HasOwnHash(replies[k]);
      assert k < n;
      var j :| 0 <= j < n && IsOwnHash(replies[j], m[height]);
    }
  }

  datatype Reading = Complete(acc: Acc) | Short | Broken

  function ReadingOf(start: Acc, expected: nat, replies: seq<Response>): Reading {
    if exists i :: 0 <= i < expected && i < |replies| && Breaks(replies[i]) then Broken
    else if |replies| < expected then Short
    else Complete(NotedAll(start, replies[..expected]))
  }

  /** The whole call, given the lookups, the latch and the replies that arrive on its channel. */
  function HashesOf(height: nat, hits: Hits, online: bool, replies: seq<Response>): HashOutcome {
    var expected := |HashRequests(height, hits, 0)|;
    var start := Start(height, hits);
    if expected == 0 then Got(start.block, start.parent, start.grandparent, None, 0)
    else if !online then Got("", "", "", Some(NotConnected), 0)
    else match ReadingOf(start, expected, replies)
         case Broken => Panicked
         case Short => Waiting
         case Complete(acc) => Normalised(height, acc, expected)
  }

  /** How many replies the loop takes: as many as expected, or all that come, or up to the one it dies on. */
  function ReadCount(expected: nat, replies: seq<Response>, i: nat): (n: nat)
    requires i <= |replies|
    ensures i <= n <= |replies|
    decreases |replies| - i
  {
    if i >= expected || i == |replies| then i
    else if Breaks(replies[i]) then i + 1
    else ReadCount(expected, replies, i + 1)
  }

  lemma NothingRemembered(m: map<nat, string>, during: seq<seq<CacheOp>>, height: nat, replies: seq<Response>)
    ensures Remembered(m, during, height, replies, 0)
  {
  }

  /** The reply loop: reads exactly expected replies, in the order they come. during[i] is what others do to
      the cache before reply i is read. */
  method ReadReplies(height: nat, start: Acc, expected: nat, cache: BlockHashCache, during: seq<seq<CacheOp>>,
                     replies: seq<Response>, ghost before: map<nat, string>, ghost others: seq<seq<CacheOp>>)
    returns (reading: Reading, n: nat)
    requires expected > 0 && forall i :: 0 <= i < |during| ==> during[i] in others
    requires Sourced(before, cache.entries, others, height, replies, 0)
    modifies cache
    ensures reading == ReadingOf(start, expected, replies) && n == ReadCount(expected, replies, 0)
    ensures Sourced(before, cache.entries, others, height, replies, n)
    ensures Remembered(cache.entries, during, height, replies, n)
  {
    hide Sourced, Unquote, DidAll, OwnHashAmong, Untouched;
    NothingRemembered(cache.entries, during, height, replies);
    hide Remembered;
    var acc := start;
    n := 0;
    assert replies[..0] == [];
    while n < expected
      invariant 0 <= n <= expected && n <= |replies|
      invariant forall j :: 0 <= j < n ==> !Breaks(replies[j])
      invariant acc == NotedAll(start, replies[..n])
      invariant ReadCount(expected, replies, 0) == ReadCount(expected, replies, n)
      invariant Sourced(before, cache.entries, others, height, replies, n)
      invariant Remembered(cache.entries, during, height, replies, n)
    {
      if n < |during| {
        OthersSourced(before, cache.entries, others, height, replies, n, during[n]);
        OthersRemember(cache.entries, during, height, replies, n, n);
        cache.OthersAct(during[n]);
      }
      if n == |replies| {
        return Short, n;
      }
      var r := replies[n];
      assert replies[..n + 1][..n] == replies[..n];
      ghost var m := cache.entries;
      n := n + 1;
      if r.error.Some? {
        acc := acc.(err := Some(FromNode(r.error.value)));
        ReplySourced(before, m, cache.entries, others, height, replies, n - 1);
        ReplyRemembered(m, cache.entries, during, height, replies, n - 1);
        continue;
      }
      if IsHashId(r.id) {
        if |r.result| == 0 {
          acc := acc.(err := Some(EmptyHash));
        } else if |r.result| == 1 {
          assert Breaks(replies[n - 1]);
          ReplySourced(before, m, cache.entries, others, height, replies, n - 1);
          ReplyRemembered(m, cache.entries, during, height, replies, n - 1);
          return Broken, n;
        } else {
          var hash := Unquote(r.result);
          if r.id == REQUEST_BLOCK_HASH {
            acc := acc.(block := hash);
            cache.Add(height, hash);
            assert IsOwnHash(replies[n - 1], hash);
          } else if r.id == REQUEST_PARENT_BLOCK_HASH {
            acc := acc.(parent := hash);
          } else {
            acc := acc.(grandparent := hash);
          }
        }
      }
      ReplySourced(before, m, cache.entries, others, height, replies, n - 1);
      ReplyRemembered(m, cache.entries, during, height, replies, n - 1);
    }
    return Complete(acc), n;
  }
  // ----- the whole call

  /** The acts of the first k lookups, each followed by its request when it finds nothing. Without a
      connection ever up the first request is refused and ends the call. */
  function AskActs(height: nat, hits: Hits, online: bool, k: nat, ch: nat): seq<Act>
    requires k <= Lookups(height)
  {
    if k == 0 then [Begin(Hashes(height, NoHits(), 0), [])]
    else
      var before := AskActs(height, hits, online, k - 1, ch);
      if !online && RequestsUpTo(height, hits, k - 1, ch) != [] then before
      else before + LookActs(height, hits, online, k - 1, ch)
  }

  /** Lookup k and, when it finds nothing, its request. */
  function LookActs(height: nat, hits: Hits, online: bool, k: nat, ch: nat): seq<Act>
    requires k < Lookups(height)
  {
    if HitAt(hits, k).Some? then [LookUp(HitAt(hits, k))]
    else [LookUp(None), if online then Send(RequestFor(height, k, ch)) else SendRefused]
  }

  /** Everything GetBlockHashes does with its channel. */
  function HashActs(height: nat, hits: Hits, online: bool, replies: seq<Response>, ch: nat): seq<Act> {
    var expected := |HashRequests(height, hits, ch)|;
    var ask := AskActs(height, hits, online, Lookups(height), ch);
    if expected == 0 then ask + [AllHit]
    else if !online then ask
    else ask + [StartReading] + ReadActs(replies, ReadCount(expected, replies, 0))
  }

  /** A lookup that was not made yet does not change the acts so far. */
  lemma {:induction false} LaterHitActs(height: nat, hits: Hits, online: bool, k: nat, n: nat, hit: Option<string>, ch: nat)
    requires k <= n < Lookups(height)
    ensures AskActs(height, WithHit(hits, n, hit), online, k, ch) == AskActs(height, hits, online, k, ch)
  {
    if k > 0 {
      LaterHitActs(height, hits, online, k - 1, n, hit, ch);
      LaterHit(height, hits, k - 1, n, hit, ch);
    }
  }

  /** Lookup k and, when it finds nothing, its request. */
  method LookAndAsk(height: nat, k: nat, online: bool, cache: BlockHashCache, ch: nat, acts: seq<Act>, hits: Hits)
    returns (acts': seq<Act>, hits': Hits, refused: bool)
    requires k < Lookups(height) && acts == AskActs(height, hits, online, k, ch)
    requires online || RequestsUpTo(height, hits, k, ch) == []
    ensures hits' == WithHit(hits, k, Lookup(cache.entries, LookupHeight(height, k)))
    ensures acts' == AskActs(height, hits', online, k + 1, ch)
    ensures refused <==> !online && RequestsUpTo(height, hits', k + 1, ch) != []
  {
    var hit := Lookup(cache.entries, LookupHeight(height, k));
    hits' := WithHit(hits, k, hit);
    LaterHitActs(height, hits, online, k, k, hit, ch);
    LaterHit(height, hits, k, k, hit, ch);
    refused := false;
    var done: seq<Act> := [LookUp(hit)];
    if hit.None? {
      if online {
        done := done + [Send(RequestFor(height, k, ch))];
      } else {
        done, refused := done + [SendRefused], true;
      }
    }
    assert done == LookActs(height, hits', online, k, ch);
    acts' := acts + done;
  }

  /** After a refusal nothing more is looked up. */
  lemma {:induction false} RefusedStays(height: nat, hits: Hits, k: nat, n: nat, ch: nat)
    requires k <= n <= Lookups(height) && RequestsUpTo(height, hits, k, ch) != []
    ensures AskActs(height, hits, false, n, ch) == AskActs(height, hits, false, k, ch)
    ensures RequestsUpTo(height, hits, n, ch) != []
  {
    if k < n {
      RefusedStays(height, hits, k, n - 1, ch);
    }
  }

  lemma {:induction false} SameLengthUpTo(height: nat, hits: Hits, k: nat, a: nat, b: nat)
    requires k <= Lookups(height)
    ensures |RequestsUpTo(height, hits, k, a)| == |RequestsUpTo(height, hits, k, b)|
  {
    if k > 0 {
      SameLengthUpTo(height, hits, k - 1, a, b);
    }
  }

  lemma SameLength(height: nat, hits: Hits, a: nat, b: nat)
    ensures |HashRequests(height, hits, a)| == |HashRequests(height, hits, b)|
  {
    SameLengthUpTo(height, hits, Lookups(height), a, b);
  }

  /** How many replies a call takes. */
  function TakenBy(height: nat, hits: Hits, online: bool, replies: seq<Response>, ch: nat): (n: nat)
    ensures n <= |replies|
  {
    var expected := |HashRequests(height, hits, ch)|;
    if expected == 0 || !online then 0 else ReadCount(expected, replies, 0)
  }

  /** The lookups that were made: each of the cache as it was then. */
  ghost predicate LookedAt(height: nat, online: bool, hits: Hits, first: map<nat, string>, second: map<nat, string>,
                           third: map<nat, string>) {
    && hits.own == Lookup(first, height)
    && hits.parent == (if height > 0 && (online || hits.own.Some?) then Lookup(second, height - 1) else None)
    && hits.third == (if height > 1 && (online || (hits.own.Some? && hits.parent.Some?)) then Lookup(third, height - 1) else None)
  }

  lemma NothingSourced(m: map<nat, string>, others: seq<seq<CacheOp>>, height: nat, replies: seq<Response>)
    ensures Sourced(m, m, others, height, replies, 0)
  {
  }

  /** The call ends at lookup k - 1, the first that found nothing. */
  lemma EndsRefused(height: nat, hits: Hits, k: nat, ch: nat, replies: seq<Response>, first: map<nat, string>,
                    second: map<nat, string>, third: map<nat, string>)
    requires 0 < k <= Lookups(height)
    requires hits.own == Lookup(first, height) && (hits.own.Some? <==> k > 1)
    requires hits.parent == (if k > 1 then Lookup(second, height - 1) else None) && (hits.parent.Some? <==> k > 2)
    requires hits.third == None && (k > 2 ==> Lookup(third, height - 1) == None)
    ensures LookedAt(height, false, hits, first, second, third)
    ensures HashesOf(height, hits, false, replies) == Got("", "", "", Some(NotConnected), 0)
    ensures HashActs(height, hits, false, replies, ch) == AskActs(height, hits, false, k, ch)
    ensures TakenBy(height, hits, false, replies, ch) == 0
  {
    hide AskActs;
    assert RequestsUpTo(height, hits, k, ch) != [];
    RefusedStays(height, hits, k, Lookups(height), ch);
    SameLength(height, hits, ch, 0);
  }

  lemma LookedAtAll(height: nat, online: bool, hits: Hits, ch: nat, first: map<nat, string>, second: map<nat, string>,
                    third: map<nat, string>)
    requires hits.own == Lookup(first, height)
    requires hits.parent == if height > 0 then Lookup(second, height - 1) else None
    requires hits.third == if height > 1 then Lookup(third, height - 1) else None
    requires online || HashRequests(height, hits, ch) == []
    ensures LookedAt(height, online, hits, first, second, third)
  {
    if !online {
      AllFound(height, hits, ch);
    }
  }

  lemma AllFound(height: nat, hits: Hits, ch: nat)
    requires HashRequests(height, hits, ch) == []
    ensures hits.own.Some? && (height > 0 ==> hits.parent.Some?) && (height > 1 ==> hits.third.Some?)
  {
    if height > 1 {
      assert RequestsUpTo(height, hits, 2, ch) == [];
    }
    if height > 0 {
      assert RequestsUpTo(height, hits, 1, ch) == [];
    }
  }

  /** The two ways a call goes on after its lookups. */
  lemma AfterLookups(height: nat, hits: Hits, online: bool, replies: seq<Response>, ch: nat)
    ensures var expected, ask := |HashRequests(height, hits, ch)|, AskActs(height, hits, online, Lookups(height), ch);
            var start, out := Start(height, hits), HashesOf(height, hits, online, replies);
            && (expected == 0 ==> out == Got(start.block, start.parent, start.grandparent, None, 0)
                                  && HashActs(height, hits, online, replies, ch) == ask + [AllHit]
                                  && TakenBy(height, hits, online, replies, ch) == 0)
            && (expected > 0 && online ==>
                  && out == (match ReadingOf(start, expected, replies)
                             case Broken => Panicked
                             case Short => Waiting
                             case Complete(acc) => Normalised(height, acc, expected))
                  && HashActs(height, hits, online, replies, ch)
                     == ask + [StartReading] + ReadActs(replies, ReadCount(expected, replies, 0))
                  && TakenBy(height, hits, online, replies, ch) == ReadCount(expected, replies, 0))
  {
    SameLength(height, hits, ch, 0);
  }

  /** The three lookups, each followed by its request when it finds nothing. before2 and before3 are what
      other goroutines do to the cache before the second and the third. */
  method LookUpAll(height: nat, ch: nat, online: bool, cache: BlockHashCache, before2: seq<CacheOp>,
                   before3: seq<CacheOp>, replies: seq<Response>, ghost others: seq<seq<CacheOp>>)
    returns (acts: seq<Act>, hits: Hits, refused: bool)
    requires before2 in others && before3 in others
    modifies cache
    ensures LookedAt(height, online, hits, old(cache.entries), DidAll(old(cache.entries), before2),
                     DidAll(DidAll(old(cache.entries), before2), before3))
    ensures Sourced(old(cache.entries), cache.entries, others, height, replies, 0)
    ensures refused ==>
              && acts == HashActs(height, hits, online, replies, ch) && TakenBy(height, hits, online, replies, ch) == 0
              && HashesOf(height, hits, online, replies) == Got("", "", "", Some(NotConnected), 0)
    ensures !refused ==> acts == AskActs(height, hits, online, Lookups(height), ch)
                         && (online || HashRequests(height, hits, ch) == [])
  {
    assert AskActs(height, NoHits(), online, 0, ch) == [Begin(Hashes(height, NoHits(), 0), [])];
    assert RequestsUpTo(height, NoHits(), 0, ch) == [];
    hide Sourced, DidAll, LookedAt, AskActs, HashActs, HashesOf, TakenBy, RequestsUpTo;
    acts, hits := [Begin(Hashes(height, NoHits(), 0), [])], NoHits();
    ghost var before := cache.entries;
    ghost var second := DidAll(before, before2);
    NothingSourced(before, others, height, replies);
    acts, hits, refused := LookAndAsk(height, 0, online, cache, ch, acts, hits);
    if refused {
      EndsRefused(height, hits, 1, ch, replies, before, second, DidAll(second, before3));
      return;
    }
    OthersSourced(before, cache.entries, others, height, replies, 0, before2);
    cache.OthersAct(before2);
    if height > 0 {
      acts, hits, refused := LookAndAsk(height, 1, online, cache, ch, acts, hits);
      if refused {
        EndsRefused(height, hits, 2, ch, replies, before, second, DidAll(second, before3));
        return;
      }
    }
    OthersSourced(before, cache.entries, others, height, replies, 0, before3);
    cache.OthersAct(before3);
    if height > 1 {
      acts, hits, refused := LookAndAsk(height, 2, online, cache, ch, acts, hits);
      if refused {
        EndsRefused(height, hits, 3, ch, replies, before, second, DidAll(second, before3));
        return;
      }
    }
    LookedAtAll(height, online, hits, ch, before, second, DidAll(second, before3));
  }

  /** during is what others do to the cache while replies are awaited. */
  method GetBlockHashes(height: nat, ch: nat, online: bool, cache: BlockHashCache, before2: seq<CacheOp>,
                        before3: seq<CacheOp>, during: seq<seq<CacheOp>>, replies: seq<Response>)
    returns (out: HashOutcome, acts: seq<Act>, hits: Hits)
    modifies cache
    ensures LookedAt(height, online, hits, old(cache.entries), DidAll(old(cache.entries), before2),
                     DidAll(DidAll(old(cache.entries), before2), before3))
    ensures out == HashesOf(height, hits, online, replies)
    ensures acts == HashActs(height, hits, online, replies, ch)
    ensures Sourced(old(cache.entries), cache.entries, [before2, before3] + during, height, replies,
                    TakenBy(height, hits, online, replies, ch))
    ensures Remembered(cache.entries, during, height, replies, TakenBy(height, hits, online, replies, ch))
  {
    hide Remembered, Sourced, DidAll, LookedAt, Normalised, ReadingOf, AskActs, HashActs, HashesOf, TakenBy, ReadCount, RequestsUpTo;
    ghost var others := [before2, before3] + during;
    ghost var before := cache.entries;
    assert others[0] == before2 && others[1] == before3;
    var refused;
    acts, hits, refused := LookUpAll(height, ch, online, cache, before2, before3, replies, others);
    NothingRemembered(cache.entries, during, height, replies);
    if refused {
      out := Got("", "", "", Some(NotConnected), 0);
      return;
    }
    var start := Start(height, hits);
    var expected := |HashRequests(height, hits, ch)|;
    AfterLookups(height, hits, online, replies, ch);
    if expected == 0 {
      acts := acts + [AllHit];
      out := Got(start.block, start.parent, start.grandparent, None, 0);
      return;
    }
    acts := acts + [StartReading];
    var reading, n := ReadReplies(height, start, expected, cache, during, replies, before, others);
    acts := acts + ReadActs(replies, n);
    match reading
    case Broken => out := Panicked;
    case Short => out := Waiting;
    case Complete(acc) => out := Normalised(height, acc, expected);
  }

  // ----- the latest height

  /** The cache has learned the hash at height, and may have evicted anything else. */
  ghost predicate Learned(before: map<nat, string>, after: map<nat, string>, height: nat, hash: string) {
    && height in after && after[height] == hash
    && forall h <- after :: h != height ==> h in before && after[h] == before[h]
  }

  datatype HeightOutcome = Height(height: nat) | HeightFailed | HeightWaiting | HeightPanicked

  function LatestHeight(online: bool, number: string -> Option<nat>, head: Option<Response>, header: Option<Response>): HeightOutcome {
    if !online then HeightFailed
    else if head.None? then HeightWaiting
    else if head.value.error.Some? then HeightFailed
    else if header.None? then HeightWaiting
    else if header.value.error.Some? then HeightFailed
    else
      match number(header.value.result)
      case None => HeightFailed
      case Some(height) => if |head.value.result| < 2 then HeightPanicked else Height(height)
  }

  /** Everything getLatestHeight does with its channel: it asks for the finalized head, then for its header. */
  function HeightActs(online: bool, ch: nat, head: Option<Response>, header: Option<Response>): seq<Act> {
    AskOne(online, HeadRequest(ch), head)
    + (if online && head.Some? && head.value.error.None? then AskOne(online, HeaderRequest(head.value.result, ch), header) else [])
  }

  /** number decodes the block number of a header; head and header are the replies, if they come. */
  method GetLatestHeight(online: bool, ch: nat, cache: BlockHashCache, number: string -> Option<nat>,
                         head: Option<Response>, header: Option<Response>)
    returns (out: HeightOutcome, acts: seq<Act>)
    modifies cache
    ensures out == LatestHeight(online, number, head, header) && acts == HeightActs(online, ch, head, header)
    ensures out.Height? ==> Learned(old(cache.entries), cache.entries, out.height, Unquote(head.value.result))
    ensures !out.Height? ==> cache.entries == old(cache.entries)
  {
    acts := [Begin(Single, [HeadRequest(ch)])];
    if !online { return HeightFailed, acts + [SendRefused]; }
    acts := acts + [Send(HeadRequest(ch)), StartReading];
    if head.None? { return HeightWaiting, acts; }
    acts := acts + [Read(head.value)];
    if head.value.error.Some? { return HeightFailed, acts; }
    acts := acts + [Begin(Single, [HeaderRequest(head.value.result, ch)])]
            + [Send(HeaderRequest(head.value.result, ch)), StartReading];
    if header.None? { return HeightWaiting, acts; }
    acts := acts + [Read(header.value)];
    if header.value.error.Some? { return HeightFailed, acts; }
    match number(header.value.result)
    case None => return HeightFailed, acts;
    case Some(height) =>
      if |head.value.result| < 2 { return HeightPanicked, acts; }
      cache.Add(height, Unquote(head.value.result));
      return Height(height), acts;
  }

  /** The head and its header describe the same block of the chain, so the latest height keeps the cache right. */
  lemma HeightKeepsAgreement(chain: Chain, before: map<nat, string>, after: map<nat, string>, height: nat, head: string)
    requires IsChain(chain) && Agrees(chain, before) && head == chain(height)
    requires Learned(before, after, height, Unquote(head))
    ensures Agrees(chain, after) && Lookup(after, height) == Some(HashAt(chain, height))
  {
  }
}
