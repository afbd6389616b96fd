/** What GetBlockHashes returns, for every height, cache state and order of replies. */
module HashResults {
  import opened Rpc
  import opened Batches
  import opened BlockHashes

  /** r is the node's answer to the block-hash request req. */
  ghost predicate Answers(chain: Chain, req: Request, r: Response) {
    && r.id == req.id && r.error == None
    && |req.call.params| == 1 && req.call.params[0].Number?
    && r.result == chain(req.call.params[0].n)
  }

  ghost function ReplyIds(replies: seq<Response>): set<nat> {
    set r | r in replies :: r.id
  }

  ghost function RequestIds(reqs: seq<Request>): set<nat> {
    set q | q in reqs :: q.id
  }

  ghost predicate AnswersOneOf(chain: Chain, reqs: seq<Request>, r: Response) {
    exists j :: 0 <= j < |reqs| && Answers(chain, reqs[j], r)
  }

  /** The replies are the node's answers to the requests, one for each, in any order. */
  ghost predicate AllAnswered(chain: Chain, reqs: seq<Request>, replies: seq<Response>) {
    && |replies| == |reqs|
    && ReplyIds(replies) == RequestIds(reqs)
    && forall k :: 0 <= k < |replies| ==> AnswersOneOf(chain, reqs, replies[k])
  }

  ghost predicate HitAgrees(chain: Chain, hit: Option<string>, h: nat)
    requires IsChain(chain)
  {
    hit.Some? ==> hit.value == HashAt(chain, h)
  }

  /** Each lookup found nothing or the right hash for the height it asked for. */
  ghost predicate HitsAgree(chain: Chain, height: nat, hits: Hits)
    requires IsChain(chain)
  {
    && HitAgrees(chain, hits.own, height)
    && (height > 0 ==> HitAgrees(chain, hits.parent, height - 1))
    && (height > 1 ==> HitAgrees(chain, hits.third, height - 1))
  }

  /** The value the node gives for a request id, at this height. */
  ghost function HeightOf(height: nat, id: nat): nat {
    if id == REQUEST_PARENT_BLOCK_HASH && height > 0 then height - 1
    else if id == REQUEST_GRANDPARENT_BLOCK_HASH && height > 1 then height - 2
    else height
  }

  ghost predicate OwnHash(chain: Chain, height: nat, r: Response) {
    IsHashId(r.id) && r.error == None && r.result == chain(HeightOf(height, r.id))
  }

  /** Where one answer goes. */
  lemma NotedOwn(chain: Chain, height: nat, acc: Acc, r: Response)
    requires IsChain(chain) && OwnHash(chain, height, r)
    ensures IsHashId(r.id) && !Breaks(r)
    ensures var x := HashAt(chain, HeightOf(height, r.id));
            Noted(acc, r) == if r.id == REQUEST_BLOCK_HASH then acc.(block := x)
                             else if r.id == REQUEST_PARENT_BLOCK_HASH then acc.(parent := x)
                             else acc.(grandparent := x)
  {
  }

  /** The variables of the loop once the answers of the given ids have been read. */
  ghost function AccOf(chain: Chain, height: nat, start: Acc, ids: set<nat>): Acc
    requires IsChain(chain)
  {
    Acc(if REQUEST_BLOCK_HASH in ids then HashAt(chain, height) else start.block,
        if REQUEST_PARENT_BLOCK_HASH in ids then HashAt(chain, HeightOf(height, REQUEST_PARENT_BLOCK_HASH)) else start.parent,
        if REQUEST_GRANDPARENT_BLOCK_HASH in ids
        then HashAt(chain, HeightOf(height, REQUEST_GRANDPARENT_BLOCK_HASH)) else start.grandparent,
        start.err)
  }

  lemma NotedGrows(chain: Chain, height: nat, start: Acc, ids: set<nat>, r: Response)
    requires IsChain(chain) && OwnHash(chain, height, r)
    ensures !Breaks(r) && Noted(AccOf(chain, height, start, ids), r) == AccOf(chain, height, start, ids + {r.id})
  {
    NotedOwn(chain, height, AccOf(chain, height, start, ids), r);
  }

  lemma {:induction false} NotedById(chain: Chain, height: nat, start: Acc, replies: seq<Response>)
    requires IsChain(chain)
    requires forall k :: 0 <= k < |replies| ==> OwnHash(chain, height, replies[k])
    ensures forall r <- replies :: !Breaks(r)
    ensures NotedAll(start, replies) == AccOf(chain, height, start, ReplyIds(replies))
  {
    assert forall r <- replies :: !Breaks(r) by {
      forall r | r in replies ensures !Breaks(r) {
        NotedOwn(chain, height, start, r);
      }
    }
    if replies != [] {
      hide OwnHash, Noted, Breaks, AccOf;
      var n := |replies| - 1;
      NotedById(chain, height, start, replies[..n]);
      NotedGrows(chain, height, start, ReplyIds(replies[..n]), replies[n]);
      assert replies == replies[..n] + [replies[n]];
      assert ReplyIds(replies) == ReplyIds(replies[..n]) + {replies[n].id};
    }
  }

  /** Each request of a batch was made for some lookup that found nothing. */
  lemma {:induction false} RequestIs(height: nat, hits: Hits, k: nat, ch: nat, j: nat) returns (m: nat)
    requires k <= Lookups(height) && j < |RequestsUpTo(height, hits, k, ch)|
    ensures m < k && HitAt(hits, m).None? && RequestsUpTo(height, hits, k, ch)[j] == RequestFor(height, m, ch)
  {
    if j < |RequestsUpTo(height, hits, k - 1, ch)| {
      m := RequestIs(height, hits, k - 1, ch, j);
    } else {
      m := k - 1;
    }
  }

  lemma {:induction false} RequestOfMiss(height: nat, hits: Hits, k: nat, ch: nat, m: nat)
    requires m < k <= Lookups(height) && HitAt(hits, m).None?
    ensures RequestFor(height, m, ch) in RequestsUpTo(height, hits, k, ch)
  {
    if m < k - 1 {
      RequestOfMiss(height, hits, k - 1, ch, m);
    }
  }

  /** Whether the lookup whose request has this id found nothing. */
  predicate IsMissed(height: nat, hits: Hits, id: nat) {
    || (id == REQUEST_BLOCK_HASH && hits.own.None?)
    || (id == REQUEST_PARENT_BLOCK_HASH && height > 0 && hits.parent.None?)
    || (id == REQUEST_GRANDPARENT_BLOCK_HASH && height > 1 && hits.third.None?)
  }

  function LookupOf(id: nat): nat {
    if id == REQUEST_BLOCK_HASH then 0 else if id == REQUEST_PARENT_BLOCK_HASH then 1 else 2
  }

  lemma IdOfRequest(height: nat, hits: Hits, m: nat, ch: nat)
    requires m < Lookups(height) && HitAt(hits, m).None?
    ensures IsMissed(height, hits, RequestFor(height, m, ch).id)
  {
  }

  lemma MissOfId(height: nat, hits: Hits, id: nat, ch: nat)
    requires IsMissed(height, hits, id)
    ensures LookupOf(id) < Lookups(height) && HitAt(hits, LookupOf(id)).None?
    ensures RequestFor(height, LookupOf(id), ch).id == id
  {
  }

  lemma AskedIsMissed(height: nat, hits: Hits, ch: nat, id: nat)
    requires id in RequestIds(HashRequests(height, hits, ch))
    ensures IsMissed(height, hits, id)
  {
    var reqs := HashRequests(height, hits, ch);
    var j :| 0 <= j < |reqs| && reqs[j].id == id;
    var m := RequestIs(height, hits, Lookups(height), ch, j);
    hide RequestsUpTo, HashRequests, IsMissed, RequestFor;
    IdOfRequest(height, hits, m, ch);
  }

  lemma MissedIsAsked(height: nat, hits: Hits, ch: nat, id: nat)
    requires IsMissed(height, hits, id)
    ensures id in RequestIds(HashRequests(height, hits, ch))
  {
    MissOfId(height, hits, id, ch);
    hide RequestsUpTo, IsMissed, RequestFor, LookupOf;
    RequestOfMiss(height, hits, Lookups(height), ch, LookupOf(id));
    var q := RequestFor(height, LookupOf(id), ch);
    assert q in HashRequests(height, hits, ch);
  }

  lemma IdsAsked(height: nat, hits: Hits, ch: nat, id: nat)
    ensures id in RequestIds(HashRequests(height, hits, ch)) <==> IsMissed(height, hits, id)
  {
    hide IsMissed, HashRequests;
    if id in RequestIds(HashRequests(height, hits, ch)) {
      AskedIsMissed(height, hits, ch, id);
    }
    if IsMissed(height, hits, id) {
      MissedIsAsked(height, hits, ch, id);
    }
  }

  lemma AnsweredIsOwn(chain: Chain, height: nat, hits: Hits, replies: seq<Response>)
    requires IsChain(chain) && AllAnswered(chain, HashRequests(height, hits, 0), replies)
    ensures forall k :: 0 <= k < |replies| ==> OwnHash(chain, height, replies[k])
  {
    var reqs := HashRequests(height, hits, 0);
    forall k | 0 <= k < |replies| ensures OwnHash(chain, height, replies[k]) {
      assert AnswersOneOf(chain, reqs, replies[k]);
      var j :| 0 <= j < |reqs| && Answers(chain, reqs[j], replies[k]);
      var m := RequestIs(height, hits, Lookups(height), 0, j);
    }
  }

  /** The parent and grandparent that come back when all goes well: with every lookup a hit the code
      returns before it normalises heights 0 and 1, and above height 1 a cached parent is returned as
      the grandparent too. */
  ghost function ParentOf(chain: Chain, height: nat, hits: Hits): string
    requires IsChain(chain)
  {
    if height > 0 then HashAt(chain, height - 1)
    else if hits.own.Some? then ""
    else HashAt(chain, 0)
  }

  ghost function GrandparentOf(chain: Chain, height: nat, hits: Hits): string
    requires IsChain(chain)
  {
    if height > 1 then HashAt(chain, if hits.third.Some? then height - 1 else height - 2)
    else if height == 1 then (if hits.own.Some? && hits.parent.Some? then "" else HashAt(chain, 0))
    else if hits.own.Some? then "" else HashAt(chain, 0)
  }

  lemma NotedAnswers(chain: Chain, height: nat, hits: Hits, replies: seq<Response>)
    requires IsChain(chain) && HitsAgree(chain, height, hits)
    requires AllAnswered(chain, HashRequests(height, hits, 0), replies)
    ensures forall r <- replies :: !Breaks(r)
    ensures NotedAll(Start(height, hits), replies)
            == Acc(HashAt(chain, height), if height > 0 then HashAt(chain, height - 1) else "",
                   if height > 1 then HashAt(chain, if hits.third.Some? then height - 1 else height - 2) else "", None)
  {
    AnsweredIsOwn(chain, height, hits, replies);
    NotedById(chain, height, Start(height, hits), replies);
    IdsAsked(height, hits, 0, REQUEST_BLOCK_HASH);
    IdsAsked(height, hits, 0, REQUEST_PARENT_BLOCK_HASH);
    IdsAsked(height, hits, 0, REQUEST_GRANDPARENT_BLOCK_HASH);
    hide HashRequests, NotedAll, RequestIds;
  }

  lemma CompleteReading(start: Acc, expected: nat, replies: seq<Response>)
    requires |replies| == expected && forall r <- replies :: !Breaks(r)
    ensures ReadingOf(start, expected, replies) == Complete(NotedAll(start, replies))
  {
    assert replies[..expected] == replies;
    assert forall i :: 0 <= i < |replies| ==> replies[i] in replies;
  }

  lemma RequestCount(height: nat, hits: Hits)
    ensures |HashRequests(height, hits, 0)|
            == (if hits.own.None? then 1 else 0) + (if height > 0 && hits.parent.None? then 1 else 0)
               + (if height > 1 && hits.third.None? then 1 else 0)
  {
    if height > 1 {
      assert RequestsUpTo(height, hits, 2, 0) == RequestsUpTo(height, hits, 1, 0)
             + (if hits.parent.None? then [RequestFor(height, 1, 0)] else []);
    }
    if height > 0 {
      assert RequestsUpTo(height, hits, 1, 0) == if hits.own.None? then [RequestFor(height, 0, 0)] else [];
    }
  }

  /** For every order of successful replies the call reads exactly as many as it asked for and returns
      the same three hashes, each from its own reply or lookup. */
  lemma RepliesInAnyOrder(chain: Chain, height: nat, hits: Hits, replies: seq<Response>)
    requires IsChain(chain) && HitsAgree(chain, height, hits)
    requires AllAnswered(chain, HashRequests(height, hits, 0), replies)
    ensures HashesOf(height, hits, true, replies)
            == Got(HashAt(chain, height), ParentOf(chain, height, hits), GrandparentOf(chain, height, hits), None,
                   |HashRequests(height, hits, 0)|)
  {
    RequestCount(height, hits);
    NotedAnswers(chain, height, hits, replies);
    CompleteReading(Start(height, hits), |replies|, replies);
  }

  /** Caching is transparent exactly when the cache does not know the parent (above height 1), does not
      know both hashes (height 1), or does not know the hash (height 0). Hashes are never empty and two
      neighbours on a chain differ. */
  lemma SameAsUncachedIff(chain: Chain, height: nat, hits: Hits, replies: seq<Response>, direct: seq<Response>)
    requires IsChain(chain) && HitsAgree(chain, height, hits)
    requires forall h: nat :: HashAt(chain, h) != "" && HashAt(chain, h) != HashAt(chain, h + 1)
    requires AllAnswered(chain, HashRequests(height, hits, 0), replies)
    requires AllAnswered(chain, HashRequests(height, NoHits(), 0), direct)
    ensures var cached, uncached := HashesOf(height, hits, true, replies), HashesOf(height, NoHits(), true, direct);
            && cached.block == uncached.block
            && (cached.(read := 0) == uncached.(read := 0) <==>
                  if height > 1 then hits.third.None?
                  else if height == 1 then !(hits.own.Some? && hits.parent.Some?)
                  else hits.own.None?)
            && (height >= 1 ==> cached.parent == uncached.parent)
  {
    RepliesInAnyOrder(chain, height, hits, replies);
    RepliesInAnyOrder(chain, height, NoHits(), direct);
    if height > 1 {
      assert HashAt(chain, height - 2) != HashAt(chain, height - 2 + 1);
    }
  }

  /** The uncached call returns the three hashes of the chain, clamped at the genesis block. */
  lemma UncachedIsTheChain(chain: Chain, height: nat, replies: seq<Response>)
    requires IsChain(chain) && AllAnswered(chain, HashRequests(height, NoHits(), 0), replies)
    ensures HashesOf(height, NoHits(), true, replies)
            == Got(HashAt(chain, height), HashAt(chain, if height > 0 then height - 1 else 0),
                   HashAt(chain, if height > 1 then height - 2 else 0), None, if height > 1 then 3 else height + 1)
  {
    RepliesInAnyOrder(chain, height, NoHits(), replies);
    RequestCount(height, NoHits());
  }

  // ----- errors and the number of replies read

  predicate IsBad(r: Response) {
    r.error.Some? || (IsHashId(r.id) && r.result == "")
  }

  lemma {:induction false} ErrorIffBad(start: Acc, replies: seq<Response>)
    requires forall r <- replies :: !Breaks(r)
    ensures NotedAll(start, replies).err.Some? <==> start.err.Some? || exists k :: 0 <= k < |replies| && IsBad(replies[k])
  {
    if replies != [] {
      var n := |replies| - 1;
      ErrorIffBad(start, replies[..n]);
      assert forall k :: 0 <= k < n ==> replies[..n][k] == replies[k];
      assert IsBad(replies[n]) || !IsBad(replies[n]);
    }
  }

  /** Whatever replies come: the call returns after exactly as many as it asked for, and it reports an
      error if and only if one of those was an error or had an empty hash. */
  lemma ReadsExpectedAndReportsErrors(height: nat, hits: Hits, replies: seq<Response>)
    requires HashRequests(height, hits, 0) != []
    requires forall r <- replies :: !Breaks(r)
    ensures var out := HashesOf(height, hits, true, replies);
            var expected := |HashRequests(height, hits, 0)|;
            && (out.Got? <==> expected <= |replies|) && (out.Waiting? <==> |replies| < expected)
            && (out.Got? ==> out.read == expected)
            && (out.Got? ==> (out.err.Some? <==> exists k :: 0 <= k < expected && IsBad(replies[k])))
  {
    var expected := |HashRequests(height, hits, 0)|;
    if expected <= |replies| {
      assert forall r <- replies[..expected] :: r in replies;
      ErrorIffBad(Start(height, hits), replies[..expected]);
      assert forall k :: 0 <= k < expected ==> replies[..expected][k] == replies[k];
    }
    assert forall i :: 0 <= i < |replies| ==> replies[i] in replies;
  }

  // ----- which reply each hash comes from

  /** The reply has a hash for the request with this id. */
  predicate IsResult(r: Response, id: nat) {
    r.error.None? && r.id == id && 2 <= |r.result|
  }

  /** x is the hash of the last reply that has one for id, or else what the lookup found, or else empty. */
  ghost predicate IsFrom(x: string, replies: seq<Response>, id: nat, found: Option<string>) {
    || (exists k: nat :: IsLastResult(replies, id, k) && x == Unquote(replies[k].result))
    || ((forall k :: 0 <= k < |replies| ==> !IsResult(replies[k], id)) && x == (if found.Some? then found.value else ""))
  }

  ghost predicate IsLastResult(replies: seq<Response>, id: nat, k: nat) {
    k < |replies| && IsResult(replies[k], id) && forall j :: k < j < |replies| ==> !IsResult(replies[j], id)
  }

  lemma FromMore(x: string, y: string, replies: seq<Response>, r: Response, id: nat, found: Option<string>)
    requires IsFrom(x, replies, id, found) && y == if IsResult(r, id) then Unquote(r.result) else x
    ensures IsFrom(y, replies + [r], id, found)
  {
    hide Unquote;
    var more := replies + [r];
    if IsResult(r, id) {
      assert IsLastResult(more, id, |replies|);
    } else if k: nat :| IsLastResult(replies, id, k) && x == Unquote(replies[k].result) {
      assert IsLastResult(more, id, k);
    }
  }

  lemma NotedStep(acc: Acc, r: Response)
    requires !Breaks(r)
    ensures var noted := Noted(acc, r);
            && noted.block == (if IsResult(r, REQUEST_BLOCK_HASH) then Unquote(r.result) else acc.block)
            && noted.parent == (if IsResult(r, REQUEST_PARENT_BLOCK_HASH) then Unquote(r.result) else acc.parent)
            && noted.grandparent == (if IsResult(r, REQUEST_GRANDPARENT_BLOCK_HASH) then Unquote(r.result) else acc.grandparent)
  {
    hide Unquote;
  }

  lemma {:induction false} NotedFrom(height: nat, hits: Hits, replies: seq<Response>)
    requires forall r <- replies :: !Breaks(r)
    ensures var acc := NotedAll(Start(height, hits), replies);
            && IsFrom(acc.block, replies, REQUEST_BLOCK_HASH, hits.own)
            && IsFrom(acc.parent, replies, REQUEST_PARENT_BLOCK_HASH, if height > 0 then hits.parent else None)
            && IsFrom(acc.grandparent, replies, REQUEST_GRANDPARENT_BLOCK_HASH, if height > 1 then hits.third else None)
  {
    hide Unquote, Noted, Breaks, IsResult;
    if replies != [] {
      hide IsFrom, Start;
      var front, last := replies[..|replies| - 1], replies[|replies| - 1];
      assert replies == front + [last];
      assert last in replies;
      NotedFrom(height, hits, front);
      var a, b := NotedAll(Start(height, hits), front), NotedAll(Start(height, hits), replies);
      assert b == Noted(a, last);
      NotedStep(a, last);
      FromMore(a.block, b.block, front, last, REQUEST_BLOCK_HASH, hits.own);
      FromMore(a.parent, b.parent, front, last, REQUEST_PARENT_BLOCK_HASH, if height > 0 then hits.parent else None);
      FromMore(a.grandparent, b.grandparent, front, last, REQUEST_GRANDPARENT_BLOCK_HASH, if height > 1 then hits.third else None);
    }
  }

  /** Whatever replies come, errors among them: each hash is that of the last reply with its id, or what its
      lookup found. Only without an error are the parents of heights 0 and 1 set to the block and the parent. */
  lemma EachHashIsItsReplys(height: nat, hits: Hits, replies: seq<Response>)
    requires HashRequests(height, hits, 0) != [] && |HashRequests(height, hits, 0)| <= |replies|
    requires forall r <- replies :: !Breaks(r)
    ensures var out, read := HashesOf(height, hits, true, replies), replies[..|HashRequests(height, hits, 0)|];
            && out.Got?
            && IsFrom(out.block, read, REQUEST_BLOCK_HASH, hits.own)
            && (if out.err.None? && height == 0 then out.parent == out.block
                else IsFrom(out.parent, read, REQUEST_PARENT_BLOCK_HASH, if height > 0 then hits.parent else None))
            && (if out.err.None? && height == 0 then out.grandparent == out.block
                else if out.err.None? && height == 1 then out.grandparent == out.parent
                else IsFrom(out.grandparent, read, REQUEST_GRANDPARENT_BLOCK_HASH, if height > 1 then hits.third else None))
  {
    hide HashRequests, NotedAll, Start, IsFrom, Breaks;
    var read := replies[..|HashRequests(height, hits, 0)|];
    assert forall r <- read :: r in replies;
    assert forall i :: 0 <= i < |replies| ==> replies[i] in replies;
    NotedFrom(height, hits, read);
  }

  // ----- the cache

  /** A call whose block-hash replies come from the node leaves the cache agreeing with the chain, if what
      others put meanwhile does (EndToEnd shows that it does) and whatever is evicted. */
  lemma CallKeepsCacheAgreement(chain: Chain, m: map<nat, string>, others: seq<seq<CacheOp>>,
                                after: map<nat, string>, height: nat, replies: seq<Response>, n: nat)
    requires IsChain(chain) && Agrees(chain, m) && forall i :: 0 <= i < |others| ==> OpsAgree(chain, others[i])
    requires n <= |replies| && Sourced(m, after, others, height, replies, n)
    requires forall k :: 0 <= k < n && replies[k].error == None && replies[k].id == REQUEST_BLOCK_HASH ==>
               replies[k].result == chain(height)
    ensures Agrees(chain, after)
  {
    forall h | h in after ensures after[h] == HashAt(chain, h) {
      if PutByOthers(others, h, after[h]) {
        var i, j :| 0 <= i < |others| && 0 <= j < |others[i]| && others[i][j] == Put(h, after[h]);
        assert OpsAgree(chain, others[i]);
      }
    }
  }

  /** Indexing upwards: right after height h was fetched, a call for h + 1 reports the hash at h as parent
      and as grandparent. */
  lemma NextHeightRepeatsParent(chain: Chain, height: nat, m: map<nat, string>, replies: seq<Response>)
    requires IsChain(chain) && Agrees(chain, m) && height >= 1 && height in m
    requires var hits := Hits(Lookup(m, height + 1), Lookup(m, height), Lookup(m, height));
             AllAnswered(chain, HashRequests(height + 1, hits, 0), replies)
    ensures var hits := Hits(Lookup(m, height + 1), Lookup(m, height), Lookup(m, height));
            var out := HashesOf(height + 1, hits, true, replies);
            out.Got? && out.parent == HashAt(chain, height) && out.grandparent == HashAt(chain, height)
  {
    RepliesInAnyOrder(chain, height + 1, Hits(Lookup(m, height + 1), Lookup(m, height), Lookup(m, height)), replies);
  }
}
