/** From the wire to the return value: what a gatherer reads on its channel, in any interleaving with
    other callers, connections and reconnects, is the node's answers to its own batch. */
module EndToEnd {
  import opened Rpc
  import opened Connection
  import opened Batches
  import opened Multiplexer
  import opened Calls
  import opened Sessions
  import opened SessionRuns
  import opened SessionSafety
  import BH = BlockHashes
  import HR = HashResults
  import OR = OtherReplies

  ghost predicate IsFaithfulSysRun(cfg: Config, node: Node, states: seq<Sys>, steps: seq<SysStep>) {
    && IsSysRun(cfg, states, steps)
    && forall i :: 0 <= i < |steps| && steps[i].Inner? ==> Faithful(node, states[i].mux, steps[i].step)
  }

  lemma StepRepliesAreOwn(cfg: Config, node: Node, s: Sys, step: SysStep)
    requires SysInv(cfg, s) && SysEnabled(cfg, s, step) && AllOwn(node, Ledger(s.mux))
    requires step.Inner? ==> Faithful(node, s.mux, step.step)
    ensures AllOwn(node, Ledger(NextMux(cfg, s, step)))
  {
    hide Inv, OwnReply, Ledger, BatchOk, HolderOk;
    var m := MuxStep(cfg, s, step);
    if m.Some? {
      StepRefinesLedger(node, cfg.timeout, s.mux, m.value);
    }
  }

  lemma SysStepMux(cfg: Config, s: Sys, step: SysStep)
    requires SysEnabled(cfg, s, step)
    ensures SysApply(cfg, s, step).mux == NextMux(cfg, s, step)
  {
  }

  lemma {:induction false} SysRepliesAreOwn(cfg: Config, node: Node, states: seq<Sys>, steps: seq<SysStep>, i: nat)
    requires IsFaithfulSysRun(cfg, node, states, steps) && i < |states|
    ensures AllOwn(node, Ledger(states[i].mux))
  {
    hide SysApply, SysEnabled;
    if i > 0 {
      SysRepliesAreOwn(cfg, node, states, steps, i - 1);
      RunKeepsDiscipline(cfg, states, steps, i - 1);
      StepRepliesAreOwn(cfg, node, states[i - 1], steps[i - 1]);
      SysStepMux(cfg, states[i - 1], steps[i - 1]);
    }
  }

  function Responses(log: seq<Item>): (rs: seq<Response>)
    ensures |rs| == |log| && forall i :: 0 <= i < |log| ==> rs[i] == log[i].resp
  {
    seq(|log|, i requires 0 <= i < |log| => log[i].resp)
  }

  /** replies answers reqs one for one: reply k is the own reply of request order[k]. */
  ghost predicate AnswersInOrder(node: Node, reqs: seq<Request>, replies: seq<Response>, order: seq<nat>) {
    && |order| == |replies| == |reqs| && Distinct(order)
    && forall k :: 0 <= k < |order| ==> order[k] < |reqs| && OwnReply(node, reqs[order[k]], replies[k])
  }

  ghost predicate IsReadingOf(node: Node, reqs: seq<Request>, replies: seq<Response>) {
    exists order :: AnswersInOrder(node, reqs, replies, order)
  }

  lemma RequestOf(node: Node, s: Mux, ch: nat, b: Batch, k: nat) returns (j: nat)
    requires Inv(s) && BatchOk(s, ch, b) && AllOwn(node, Ledger(s)) && b.from <= k < |s.chans[ch].log|
    ensures j < |b.tickets| && b.tickets[j] == s.chans[ch].log[k].ticket
    ensures OwnReply(node, b.reqs[j], s.chans[ch].log[k].resp)
  {
    var item := s.chans[ch].log[k];
    assert item.ticket in b.tickets;
    j :| 0 <= j < |b.tickets| && b.tickets[j] == item.ticket;
    assert IsOf(s, b, j) && ChannelOk(s, ch) && ItemOk(s, ch, k);
    assert Ledger(s)[item.ticket].fate == Told(item.resp);
  }

  lemma MatchUp(node: Node, s: Mux, ch: nat, b: Batch, n: nat) returns (order: seq<nat>)
    requires Inv(s) && BatchOk(s, ch, b) && AllOwn(node, Ledger(s)) && n <= |s.chans[ch].log| - b.from
    ensures |order| == n
    ensures forall k :: 0 <= k < n ==>
              && order[k] < |b.tickets| && b.tickets[order[k]] == s.chans[ch].log[b.from + k].ticket
              && OwnReply(node, b.reqs[order[k]], s.chans[ch].log[b.from + k].resp)
  {
    order := [];
    for k := 0 to n
      invariant |order| == k
      invariant forall m :: 0 <= m < k ==>
                  && order[m] < |b.tickets| && b.tickets[order[m]] == s.chans[ch].log[b.from + m].ticket
                  && OwnReply(node, b.reqs[order[m]], s.chans[ch].log[b.from + m].resp)
    {
      var j := RequestOf(node, s, ch, b, b.from + k);
      order := order + [j];
    }
  }

  lemma ReadingOfBatch(node: Node, s: Mux, ch: nat, b: Batch)
    requires Inv(s) && BatchOk(s, ch, b) && AllOwn(node, Ledger(s))
    requires |s.chans[ch].log| - b.from == |b.reqs|
    ensures IsReadingOf(node, b.reqs, Responses(s.chans[ch].log[b.from..]))
  {
    var order := MatchUp(node, s, ch, b, |b.reqs|);
    ToldOnce(s, ch, b.from);
    var told := ToldSince(s, ch, b.from);
    forall i, j | 0 <= i < j < |order| ensures order[i] != order[j] {
      assert told[i] != told[j];
    }
    assert AnswersInOrder(node, b.reqs, Responses(s.chans[ch].log[b.from..]), order);
  }

  /** The reply loop of a batch has just returned: its replies are what the channel got since the batch began. */
  ghost predicate Returns(cfg: Config, states: seq<Sys>, steps: seq<SysStep>, i: nat)
    requires IsSysRun(cfg, states, steps)
  {
    && i < |steps| && steps[i].Receive?
    && steps[i].h in states[i + 1].holders && states[i + 1].holders[steps[i].h].mode == Idle
  }

  function BatchAt(s: Sys, h: nat): Batch
    requires h in s.holders && s.holders[h].mode.Collecting?
  {
    s.holders[h].mode.batch
  }

  function RepliesRead(s: Sys, h: nat): seq<Response>
    requires h in s.holders && s.holders[h].mode.Collecting? && s.holders[h].ch in s.mux.chans
    requires BatchAt(s, h).from <= |s.mux.chans[s.holders[h].ch].log|
  {
    Responses(s.mux.chans[s.holders[h].ch].log[BatchAt(s, h).from..])
  }

  /** When a reply loop returns it has read one own reply for every request of its batch, and nothing
      else: no stale reply of an earlier batch, none of another caller, none twice. */
  lemma LoopReadsItsOwnBatch(cfg: Config, node: Node, states: seq<Sys>, steps: seq<SysStep>, i: nat)
    requires IsFaithfulSysRun(cfg, node, states, steps) && Returns(cfg, states, steps, i)
    ensures var s, h := states[i], steps[i].h;
            && s.holders[h].ch in s.mux.chans && BatchAt(s, h).from <= |s.mux.chans[s.holders[h].ch].log|
            && IsReadingOf(node, BatchAt(s, h).reqs, RepliesRead(s, h))
  {
    var s, h := states[i], steps[i].h;
    RunKeepsDiscipline(cfg, states, steps, i);
    SysRepliesAreOwn(cfg, node, states, steps, i);
    assert HolderOk(s.mux, s.holders[h]);
    var b := BatchAt(s, h);
    Balance(s.mux, s.holders[h].ch, b);
    ReadingOfBatch(node, s.mux, s.holders[h].ch, b);
  }

  // ----- the cache

  /** A reply with a result: no fault of the multiplexer, and no error object of the node, which arrives as a
      reply with an empty result. */
  predicate IsSuccess(r: Response) {
    r.error == None && 2 <= |r.result|
  }

  /** Whatever result the node gives for a height is the chain's hash there. */
  ghost predicate ServesChain(node: Node, chain: BH.Chain) {
    forall h: nat, r :: node(Call("chain_getBlockHash", [Number(h)]), r) && 2 <= |r| ==> r == chain(h)
  }

  /** A header belongs to the block of the head it was asked for. An empty head, left behind by an error object,
      may bring any header. */
  ghost predicate ServesHeaders(node: Node, number: string -> Option<nat>, chain: BH.Chain) {
    forall head, r :: 2 <= |head| && node(Call("chain_getHeader", [Text(head)]), r) && number(r).Some? ==>
      chain(number(r).value) == head
  }

  ghost predicate LookupsAgree(chain: BH.Chain, mode: Mode)
    requires BH.IsChain(chain)
  {
    match mode
    case Sending(b) => b.kind.Hashes? ==> HR.HitsAgree(chain, b.kind.height, b.kind.hits)
    case Collecting(b, _) => b.kind.Hashes? ==> HR.HitsAgree(chain, b.kind.height, b.kind.hits)
    case _ => true
  }

  /** What is in the cache, and what lookups found in it, is the chain's. */
  ghost predicate CacheOk(chain: BH.Chain, s: Sys)
    requires BH.IsChain(chain)
  {
    BH.Agrees(chain, s.cache) && forall h <- s.holders :: LookupsAgree(chain, s.holders[h].mode)
  }

  /** The reply that is read next on the channel of a batch is the own reply of one of its requests. */
  lemma NextIsOwn(cfg: Config, node: Node, s: Sys, h: nat) returns (j: nat)
    requires SysInv(cfg, s) && SysEnabled(cfg, s, SysStep.Receive(h)) && AllOwn(node, Ledger(s.mux))
    ensures j < |s.holders[h].mode.batch.reqs| && OwnReply(node, s.holders[h].mode.batch.reqs[j], Taken(cfg, s, h))
  {
    var hd := s.holders[h];
    assert HolderOk(s.mux, hd);
    j := RequestOf(node, s.mux, hd.ch, hd.mode.batch, s.mux.chans[hd.ch].head);
  }

  lemma HashLesson(node: Node, chain: BH.Chain, b: Batch, ch: nat, j: nat, r: Response)
    requires BH.IsChain(chain) && ServesChain(node, chain)
    requires b.kind.Hashes? && GoodBatch(b.kind, b.reqs, ch) && j < |b.reqs| && OwnReply(node, b.reqs[j], r)
    requires IsSuccess(r) && r.id == REQUEST_BLOCK_HASH
    ensures r.result == chain(b.kind.height)
  {
    var m := HR.RequestIs(b.kind.height, b.kind.hits, b.kind.looked, ch, j);
    assert b.reqs[j].call == Call("chain_getBlockHash", [Number(b.kind.height)]);
  }

  lemma HeaderLesson(node: Node, number: string -> Option<nat>, chain: BH.Chain, req: Request, r: Response)
    requires BH.IsChain(chain) && ServesHeaders(node, number, chain) && OwnReply(node, req, r)
    requires r.error == None && number(r.result).Some? && AsksHeader(req.call) && 2 <= |req.call.params[0].s|
    ensures chain(number(r.result).value) == req.call.params[0].s
  {
    assert req.call == Call("chain_getHeader", [Text(req.call.params[0].s)]);
  }

  lemma BatchIsGood(cfg: Config, s: Sys, h: nat)
    requires SysInv(cfg, s) && h in s.holders && s.holders[h].mode.Collecting?
    ensures GoodBatch(s.holders[h].mode.batch.kind, s.holders[h].mode.batch.reqs, s.holders[h].ch)
  {
    assert HolderOk(s.mux, s.holders[h]);
  }

  /** What a reply teaches the cache is the chain's. */
  lemma LessonIsTrue(cfg: Config, node: Node, chain: BH.Chain, s: Sys, h: nat)
    requires BH.IsChain(chain) && ServesChain(node, chain) && ServesHeaders(node, cfg.number, chain)
    requires SysInv(cfg, s) && SysEnabled(cfg, s, SysStep.Receive(h)) && AllOwn(node, Ledger(s.mux))
    ensures var lesson := Lesson(cfg, s.holders[h].mode.batch, Taken(cfg, s, h));
            lesson.Some? ==> lesson.value.1 == BH.HashAt(chain, lesson.value.0)
  {
    hide SysInv, Taken, OwnReply, ServesChain, ServesHeaders, Ledger, AllOwn, HolderOk, GoodBatch, Enabled;
    var b, r := s.holders[h].mode.batch, Taken(cfg, s, h);
    var j := NextIsOwn(cfg, node, s, h);
    BatchIsGood(cfg, s, h);
    if Lesson(cfg, b, r).Some? {
      if b.kind.Hashes? {
        HashLesson(node, chain, b, s.holders[h].ch, j, r);
      } else {
        HeaderLesson(node, cfg.number, chain, b.reqs[0], r);
      }
    }
  }

  lemma LookupIsTrue(chain: BH.Chain, s: Sys, b: Batch, ch: nat)
    requires BH.IsChain(chain) && BH.Agrees(chain, s.cache) && CanLookUp(b.kind)
    requires HR.HitsAgree(chain, b.kind.height, b.kind.hits)
    ensures LookupsAgree(chain, Sending(AfterLookup(s, b, ch)))
  {
  }

  lemma StepKeepsCache(cfg: Config, node: Node, chain: BH.Chain, s: Sys, step: SysStep)
    requires BH.IsChain(chain) && ServesChain(node, chain) && ServesHeaders(node, cfg.number, chain)
    requires SysInv(cfg, s) && SysEnabled(cfg, s, step) && AllOwn(node, Ledger(s.mux)) && CacheOk(chain, s)
    ensures CacheOk(chain, SysApply(cfg, s, step))
  {
    hide Inv, SysInv, AllOwn, Ledger, Lesson, Enabled, Apply, ServesChain, ServesHeaders, Found, LookedUp, AskedAfter;
    match step
    case LookUp(h) => LookupIsTrue(chain, s, s.holders[h].mode.batch, s.holders[h].ch);
    case Receive(h) => LessonIsTrue(cfg, node, chain, s, h);
    case _ =>
  }

  /** In every reachable state of the whole system, under arbitrary eviction and whoever else puts what,
      each cached hash is the chain's, and so is what each lookup found. */
  lemma {:induction false} CacheAgrees(cfg: Config, node: Node, chain: BH.Chain, states: seq<Sys>, steps: seq<SysStep>, i: nat)
    requires BH.IsChain(chain) && ServesChain(node, chain) && ServesHeaders(node, cfg.number, chain)
    requires IsFaithfulSysRun(cfg, node, states, steps) && i < |states|
    ensures CacheOk(chain, states[i])
  {
    hide SysApply, SysEnabled, CacheOk, SysInv, AllOwn;
    if i > 0 {
      CacheAgrees(cfg, node, chain, states, steps, i - 1);
      RunKeepsDiscipline(cfg, states, steps, i - 1);
      SysRepliesAreOwn(cfg, node, states, steps, i - 1);
      StepKeepsCache(cfg, node, chain, states[i - 1], steps[i - 1]);
    } else {
      EmptyCacheIsOk(chain);
    }
  }

  lemma EmptyCacheIsOk(chain: BH.Chain)
    requires BH.IsChain(chain)
    ensures CacheOk(chain, INITIAL)
  {
  }

  /** A hash that is told is cached: once GetBlockHashes has read the hash of its own height, the cache has the
      chain's hash there. */
  lemma HashIsCached(cfg: Config, node: Node, chain: BH.Chain, states: seq<Sys>, steps: seq<SysStep>, i: nat)
    requires BH.IsChain(chain) && ServesChain(node, chain) && ServesHeaders(node, cfg.number, chain)
    requires IsFaithfulSysRun(cfg, node, states, steps) && i < |steps| && steps[i].Receive?
    requires states[i].holders[steps[i].h].mode.batch.kind.Hashes?
    requires var r := Taken(cfg, states[i], steps[i].h); IsSuccess(r) && r.id == REQUEST_BLOCK_HASH
    ensures var height := states[i].holders[steps[i].h].mode.batch.kind.height;
            BH.Lookup(states[i + 1].cache, height) == Some(BH.HashAt(chain, height))
  {
    hide ServesChain, ServesHeaders, SysApply, SysEnabled, Taken, LookupsAgree;
    CacheAgrees(cfg, node, chain, states, steps, i + 1);
    Teaches(cfg, states[i], steps[i].h);
  }

  /** And so is the head under the height that its header has. */
  lemma HeadIsCached(cfg: Config, node: Node, chain: BH.Chain, states: seq<Sys>, steps: seq<SysStep>, i: nat, head: string)
    requires BH.IsChain(chain) && ServesChain(node, chain) && ServesHeaders(node, cfg.number, chain)
    requires IsFaithfulSysRun(cfg, node, states, steps) && i < |steps| && steps[i].Receive? && 2 <= |head|
    requires var b := states[i].holders[steps[i].h].mode.batch;
             b.kind.Single? && |b.reqs| == 1 && b.reqs[0].call == Call("chain_getHeader", [Text(head)])
    requires var r := Taken(cfg, states[i], steps[i].h); r.error.None? && cfg.number(r.result).Some?
    ensures var height := cfg.number(Taken(cfg, states[i], steps[i].h).result).value;
            && BH.Lookup(states[i + 1].cache, height) == Some(BH.HashAt(chain, height))
            && BH.HashAt(chain, height) == Unquote(head)
  {
    hide ServesChain, ServesHeaders, SysApply, SysEnabled, Taken, LookupsAgree;
    CacheAgrees(cfg, node, chain, states, steps, i + 1);
    Teaches(cfg, states[i], steps[i].h);
  }

  lemma Teaches(cfg: Config, s: Sys, h: nat)
    requires SysEnabled(cfg, s, SysStep.Receive(h))
    ensures var lesson := Lesson(cfg, s.holders[h].mode.batch, Taken(cfg, s, h));
            lesson.Some? ==> BH.Lookup(SysApply(cfg, s, SysStep.Receive(h)).cache, lesson.value.0) == Some(lesson.value.1)
  {
    hide Lesson, Enabled, Apply, AfterReply;
  }

  /** What is evicted is missed from then on, and nothing else is. */
  lemma EvictedIsMissed(cfg: Config, s: Sys, height: nat, h: nat)
    requires SysEnabled(cfg, s, SysStep.Evict(height))
    ensures var s' := SysApply(cfg, s, SysStep.Evict(height));
            BH.Lookup(s'.cache, h) == if h == height then None else BH.Lookup(s.cache, h)
  {
  }

  /** A lookup finds what is cached: the hash of the height itself first, then twice that of the height below. */
  lemma LookUpFinds(cfg: Config, s: Sys, h: nat)
    requires SysEnabled(cfg, s, SysStep.LookUp(h))
    ensures var kind := s.holders[h].mode.batch.kind;
            var s' := SysApply(cfg, s, SysStep.LookUp(h));
            && h in s'.holders && s'.holders[h].mode.Sending? && s'.holders[h].mode.batch.kind.Hashes?
            && HitAt(s'.holders[h].mode.batch.kind.hits, kind.looked)
               == BH.Lookup(s.cache, if kind.looked == 0 then kind.height else kind.height - 1)
            && s'.holders[h].mode.batch.kind.looked == kind.looked + 1
  {
  }

  // ----- GetBlockHashes over the network

  lemma SameButChannel(height: nat, hits: Hits, ch: nat)
    ensures SameAsked(HashRequests(height, hits, ch), HashRequests(height, hits, 0))
    ensures AskHashes(HashRequests(height, hits, ch))
  {
    SameUpTo(height, hits, Lookups(height), ch);
  }

  lemma {:induction false} SameUpTo(height: nat, hits: Hits, k: nat, ch: nat)
    requires k <= Lookups(height)
    ensures SameAsked(RequestsUpTo(height, hits, k, ch), RequestsUpTo(height, hits, k, 0))
    ensures AskHashes(RequestsUpTo(height, hits, k, ch))
  {
    if k > 0 {
      SameUpTo(height, hits, k - 1, ch);
    }
  }

  ghost function UpTo(n: nat): (s: set<nat>)
    ensures |s| == n && forall j: nat :: j in s <==> j < n
  {
    if n == 0 then {} else UpTo(n - 1) + {n - 1}
  }

  /** A list of n different numbers below n lists them all. */
  lemma CoversAll(order: seq<nat>, n: nat)
    requires |order| == n && Distinct(order) && forall k :: 0 <= k < n ==> order[k] < n
    ensures forall j :: 0 <= j < n ==> j in order
  {
    DistinctCard(order);
    var listed, all := SetOf(order), UpTo(n);
    assert listed <= all;
    assert all == listed + (all - listed);
    assert |all - listed| == 0;
    forall j | 0 <= j < n ensures j in order {
      assert j in all && j !in all - listed;
    }
  }

  /** The replies to a batch carry exactly the ids it was sent with. */
  lemma SameIds(node: Node, reqs: seq<Request>, replies: seq<Response>, id: nat)
    requires IsReadingOf(node, reqs, replies)
    ensures id in HR.ReplyIds(replies) <==> id in HR.RequestIds(reqs)
  {
    var order :| AnswersInOrder(node, reqs, replies, order);
    CoversAll(order, |reqs|);
    if id in HR.ReplyIds(replies) {
      var k :| 0 <= k < |replies| && replies[k].id == id;
      assert reqs[order[k]] in reqs;
    }
    if id in HR.RequestIds(reqs) {
      var j :| 0 <= j < |reqs| && reqs[j].id == id;
      assert j in order;
      var k :| 0 <= k < |order| && order[k] == j;
      assert replies[k] in replies;
    }
  }

  /** Requests that differ at most in the channel their replies go to. */
  ghost predicate SameAsked(a: seq<Request>, b: seq<Request>) {
    |a| == |b| && forall j :: 0 <= j < |a| ==> a[j].id == b[j].id && a[j].call == b[j].call
  }

  ghost predicate AskHashes(reqs: seq<Request>) {
    forall j :: 0 <= j < |reqs| ==>
      |reqs[j].call.params| == 1 && reqs[j].call.params[0].Number? && reqs[j].call.name == "chain_getBlockHash"
  }

  lemma ReadingAnswers(node: Node, chain: BH.Chain, reqs: seq<Request>, asked: seq<Request>, replies: seq<Response>)
    requires ServesChain(node, chain) && SameAsked(reqs, asked) && AskHashes(reqs)
    requires IsReadingOf(node, reqs, replies)
    requires forall k :: 0 <= k < |replies| ==> IsSuccess(replies[k])
    ensures HR.AllAnswered(chain, asked, replies)
  {
    forall id ensures id in HR.ReplyIds(replies) <==> id in HR.RequestIds(asked) {
      SameIds(node, reqs, replies, id);
      if id in HR.RequestIds(reqs) { IdsOfSame(reqs, asked, id); }
      if id in HR.RequestIds(asked) { IdsOfSame(asked, reqs, id); }
    }
    forall k | 0 <= k < |replies| ensures HR.AnswersOneOf(chain, asked, replies[k]) {
      AnswersOneOf(node, chain, reqs, replies, k);
      var j :| 0 <= j < |reqs| && HR.Answers(chain, reqs[j], replies[k]);
      assert HR.Answers(chain, asked[j], replies[k]);
    }
    assert HR.ReplyIds(replies) == HR.RequestIds(asked);
    assert |replies| == |asked| by {
      var order :| AnswersInOrder(node, reqs, replies, order);
    }
  }

  lemma IdsOfSame(a: seq<Request>, b: seq<Request>, id: nat)
    requires SameAsked(a, b) && id in HR.RequestIds(a)
    ensures id in HR.RequestIds(b)
  {
    var j :| 0 <= j < |a| && a[j].id == id;
    assert b[j] in b;
  }

  lemma ReadingAnswersChain(node: Node, chain: BH.Chain, height: nat, hits: Hits, ch: nat, replies: seq<Response>)
    requires BH.IsChain(chain) && ServesChain(node, chain)
    requires IsReadingOf(node, HashRequests(height, hits, ch), replies)
    requires forall k :: 0 <= k < |replies| ==> IsSuccess(replies[k])
    ensures HR.AllAnswered(chain, HashRequests(height, hits, 0), replies)
  {
    SameButChannel(height, hits, ch);
    ReadingAnswers(node, chain, HashRequests(height, hits, ch), HashRequests(height, hits, 0), replies);
  }

  lemma AnswersOneOf(node: Node, chain: BH.Chain, reqs: seq<Request>, replies: seq<Response>, k: nat)
    requires ServesChain(node, chain) && IsReadingOf(node, reqs, replies) && k < |replies| && IsSuccess(replies[k])
    requires AskHashes(reqs)
    ensures HR.AnswersOneOf(chain, reqs, replies[k])
  {
    var order :| AnswersInOrder(node, reqs, replies, order);
    var q := reqs[order[k]];
    assert q.call == Call("chain_getBlockHash", [Number(q.call.params[0].n)]);
    assert HR.Answers(chain, reqs[order[k]], replies[k]);
  }

  /** A call of GetBlockHashes made anywhere in a run of the whole system returns the hashes of the chain,
      whoever else uses the same ids, the same connections and the same cache, if the node reports no error. */
  lemma BlockHashesOverTheNetwork(cfg: Config, node: Node, chain: BH.Chain, states: seq<Sys>, steps: seq<SysStep>, i: nat)
    requires BH.IsChain(chain) && ServesChain(node, chain) && ServesHeaders(node, cfg.number, chain)
    requires IsFaithfulSysRun(cfg, node, states, steps) && Returns(cfg, states, steps, i)
    requires BatchAt(states[i], steps[i].h).kind.Hashes?
    ensures states[i].holders[steps[i].h].ch in states[i].mux.chans
    ensures BatchAt(states[i], steps[i].h).from <= |states[i].mux.chans[states[i].holders[steps[i].h].ch].log|
    ensures var replies, kind := RepliesRead(states[i], steps[i].h), BatchAt(states[i], steps[i].h).kind;
            (forall k :: 0 <= k < |replies| ==> IsSuccess(replies[k])) ==>
            BH.HashesOf(kind.height, kind.hits, true, replies)
            == BH.Got(BH.HashAt(chain, kind.height), HR.ParentOf(chain, kind.height, kind.hits),
                      HR.GrandparentOf(chain, kind.height, kind.hits), None, |replies|)
  {
    LoopReadsItsOwnBatch(cfg, node, states, steps, i);
    CacheAgrees(cfg, node, chain, states, steps, i);
    var s, h := states[i], steps[i].h;
    BatchIsWhole(cfg, states, steps, i);
    var kind, replies := BatchAt(s, h).kind, RepliesRead(s, h);
    HashesFromReplies(node, chain, kind, s.holders[h].ch, replies);
  }

  lemma BatchIsWhole(cfg: Config, states: seq<Sys>, steps: seq<SysStep>, i: nat)
    requires IsSysRun(cfg, states, steps) && Returns(cfg, states, steps, i)
    requires BatchAt(states[i], steps[i].h).kind.Hashes?
    ensures var kind := BatchAt(states[i], steps[i].h).kind;
            BatchAt(states[i], steps[i].h).reqs == HashRequests(kind.height, kind.hits, states[i].holders[steps[i].h].ch)
  {
    RunKeepsDiscipline(cfg, states, steps, i);
    assert HolderOk(states[i].mux, states[i].holders[steps[i].h]);
  }

  lemma HashesFromReplies(node: Node, chain: BH.Chain, kind: Kind, ch: nat, replies: seq<Response>)
    requires BH.IsChain(chain) && ServesChain(node, chain)
    requires kind.Hashes? && HR.HitsAgree(chain, kind.height, kind.hits)
    requires IsReadingOf(node, HashRequests(kind.height, kind.hits, ch), replies)
    ensures (forall k :: 0 <= k < |replies| ==> IsSuccess(replies[k])) ==>
            BH.HashesOf(kind.height, kind.hits, true, replies)
            == BH.Got(BH.HashAt(chain, kind.height), HR.ParentOf(chain, kind.height, kind.hits),
                      HR.GrandparentOf(chain, kind.height, kind.hits), None, |replies|)
  {
    if forall k :: 0 <= k < |replies| ==> IsSuccess(replies[k]) {
      ReadingAnswersChain(node, chain, kind.height, kind.hits, ch, replies);
      HR.RepliesInAnyOrder(chain, kind.height, kind.hits, replies);
    }
  }

  /** A call that finds everything in the cache returns hashes of the chain too, with the heights the code
      really reports. */
  lemma CachedHashesOverTheNetwork(cfg: Config, node: Node, chain: BH.Chain, states: seq<Sys>, steps: seq<SysStep>, i: nat)
    requires BH.IsChain(chain) && ServesChain(node, chain) && ServesHeaders(node, cfg.number, chain)
    requires IsFaithfulSysRun(cfg, node, states, steps) && i < |steps| && steps[i].AllHit?
    requires states[i].holders[steps[i].h].mode.batch.kind.Hashes?
    ensures var kind := states[i].holders[steps[i].h].mode.batch.kind;
            BH.HashesOf(kind.height, kind.hits, true, [])
            == BH.Got(BH.HashAt(chain, kind.height), HR.ParentOf(chain, kind.height, kind.hits),
                      HR.GrandparentOf(chain, kind.height, kind.hits), None, 0)
  {
    CacheAgrees(cfg, node, chain, states, steps, i);
    RunKeepsDiscipline(cfg, states, steps, i);
    var s, hd := states[i], states[i].holders[steps[i].h];
    assert LookupsAgree(chain, hd.mode);
    AllHitAsksNothing(cfg, s, steps[i].h);
    hide SysInv, IsSysRun, CacheOk, SysEnabled, SysApply;
    HashesFromCache(chain, hd.mode.batch.kind, hd.ch);
  }

  lemma AllHitAsksNothing(cfg: Config, s: Sys, h: nat)
    requires SysInv(cfg, s) && SysEnabled(cfg, s, SysStep.AllHit(h)) && s.holders[h].mode.batch.kind.Hashes?
    ensures var kind := s.holders[h].mode.batch.kind; HashRequests(kind.height, kind.hits, s.holders[h].ch) == []
  {
    assert HolderOk(s.mux, s.holders[h]);
  }

  lemma HashesFromCache(chain: BH.Chain, kind: Kind, ch: nat)
    requires BH.IsChain(chain) && kind.Hashes? && HR.HitsAgree(chain, kind.height, kind.hits)
    requires HashRequests(kind.height, kind.hits, ch) == []
    ensures BH.HashesOf(kind.height, kind.hits, true, [])
            == BH.Got(BH.HashAt(chain, kind.height), HR.ParentOf(chain, kind.height, kind.hits),
                      HR.GrandparentOf(chain, kind.height, kind.hits), None, 0)
  {
    BH.SameLength(kind.height, kind.hits, ch, 0);
    assert HR.AllAnswered(chain, HashRequests(kind.height, kind.hits, 0), []);
    HR.RepliesInAnyOrder(chain, kind.height, kind.hits, []);
  }

  // ----- getOthers over the network

  /** The node has one answer to each of the seven requests. */
  ghost predicate ServesOthers(node: Node, reqs: seq<Request>, answers: nat -> string) {
    forall j, r :: 0 <= j < |reqs| && node(reqs[j].call, r) && 2 <= |r| ==> r == answers(reqs[j].id)
  }

  /** Ids and methods by which the replies to reqs name the seven fields. */
  ghost predicate NamesFields(reqs: seq<Request>) {
    && |reqs| == 7 && (forall i, j :: 0 <= i < j < |reqs| ==> reqs[i].id != reqs[j].id)
    && (forall j, x :: 0 <= j < |reqs| ==> OR.FieldFor(Response(reqs[j].id, None, reqs[j].call.name, x)) == Some(reqs[j].id))
    && HR.RequestIds(reqs) == OR.FIELDS
  }

  lemma NamesItsField(blockHash: string, parentHash: string, grandparentHash: string, ch: nat, j: nat, x: string)
    requires j < 7
    ensures var q := OR.OthersRequests(blockHash, parentHash, grandparentHash, ch)[j];
            OR.FieldFor(Response(q.id, None, q.call.name, x)) == Some(q.id) && q.id in OR.FIELDS
  {
    if j < 3 {
      assert j == 0 || j == 1 || j == 2;
    } else {
      assert j == 3 || j == 4 || j == 5 || j == 6;
    }
  }

  lemma OthersNameFields(blockHash: string, parentHash: string, grandparentHash: string, ch: nat)
    ensures NamesFields(OR.OthersRequests(blockHash, parentHash, grandparentHash, ch))
  {
    var reqs := OR.OthersRequests(blockHash, parentHash, grandparentHash, ch);
    assert |reqs| == 7 && forall i, j :: 0 <= i < j < |reqs| ==> reqs[i].id != reqs[j].id;
    hide OR.OthersRequests, OR.FieldFor;
    forall j, x | 0 <= j < |reqs|
      ensures OR.FieldFor(Response(reqs[j].id, None, reqs[j].call.name, x)) == Some(reqs[j].id) && reqs[j].id in OR.FIELDS
    {
      NamesItsField(blockHash, parentHash, grandparentHash, ch, j, x);
    }
    forall f ensures f in HR.RequestIds(reqs) <==> f in OR.FIELDS {
      if f in OR.FIELDS {
        var j := IndexOfField(blockHash, parentHash, grandparentHash, ch, f);
        assert reqs[j] in reqs;
      }
      if f in HR.RequestIds(reqs) {
        var j :| 0 <= j < |reqs| && reqs[j].id == f;
        NamesItsField(blockHash, parentHash, grandparentHash, ch, j, "");
      }
    }
  }

  lemma FieldOfReply(node: Node, answers: nat -> string, reqs: seq<Request>, replies: seq<Response>, k: nat)
    requires NamesFields(reqs) && ServesOthers(node, reqs, answers) && IsReadingOf(node, reqs, replies)
    requires k < |replies| && IsSuccess(replies[k])
    ensures OR.FieldFor(replies[k]) == Some(replies[k].id) && replies[k].result == answers(replies[k].id)
  {
    var order :| AnswersInOrder(node, reqs, replies, order);
    var q := reqs[order[k]];
    assert replies[k] == Response(q.id, None, q.call.name, replies[k].result);
  }

  lemma ReadingFillsRecord(node: Node, answers: nat -> string, reqs: seq<Request>, replies: seq<Response>)
    requires NamesFields(reqs) && ServesOthers(node, reqs, answers) && IsReadingOf(node, reqs, replies)
    requires forall k :: 0 <= k < |replies| ==> IsSuccess(replies[k])
    ensures |replies| == 7 && OR.AreOwn(answers, replies) && OR.Told(replies) == OR.FIELDS
  {
    hide ServesOthers, OR.FieldFor, OwnReply;
    assert |replies| == 7 by {
      var order :| AnswersInOrder(node, reqs, replies, order);
    }
    forall k | 0 <= k < |replies|
      ensures OR.FieldFor(replies[k]) == Some(replies[k].id) && replies[k].result == answers(replies[k].id)
    {
      FieldOfReply(node, answers, reqs, replies, k);
    }
    hide IsReadingOf;
    forall f ensures f in OR.Told(replies) <==> f in OR.FIELDS {
      SameIds(node, reqs, replies, f);
      if f in HR.ReplyIds(replies) {
        var k :| 0 <= k < |replies| && replies[k].id == f;
        assert replies[k] in replies;
      }
      if f in OR.Told(replies) {
        var r :| r in replies && OR.FieldFor(r).Some? && OR.FieldFor(r).value == f;
        var k :| 0 <= k < |replies| && replies[k] == r;
      }
    }
  }

  lemma IndexOfField(blockHash: string, parentHash: string, grandparentHash: string, ch: nat, f: nat) returns (j: nat)
    requires f in OR.FIELDS
    ensures j < 7 && OR.OthersRequests(blockHash, parentHash, grandparentHash, ch)[j].id == f
  {
    j := if f == OR.CHAIN then 0 else if f == OR.BLOCK then 1 else if f == OR.TIMESTAMP then 2
         else if f == OR.EVENTS then 3 else if f == OR.FEE then 4 else if f == OR.ERA then 5 else 6;
  }

  lemma ReadingGathersWhole<B, R>(node: Node, answers: nat -> string, dec: OR.Decoders<B, R>, blockHash: string,
                                  parentHash: string, grandparentHash: string, ch: nat, replies: seq<Response>)
    requires var reqs := OR.OthersRequests(blockHash, parentHash, grandparentHash, ch);
             ServesOthers(node, reqs, answers) && IsReadingOf(node, reqs, replies)
    requires OR.WellFormed(dec, answers)
    ensures (forall k :: 0 <= k < |replies| ==> IsSuccess(replies[k])) ==>
            OR.Loop(dec, OR.Fresh(dec), 0, replies) == OR.Whole(dec, answers)
  {
    if forall k :: 0 <= k < |replies| ==> IsSuccess(replies[k]) {
      OthersNameFields(blockHash, parentHash, grandparentHash, ch);
      ReadingFillsRecord(node, answers, OR.OthersRequests(blockHash, parentHash, grandparentHash, ch), replies);
      assert forall r <- replies :: r.error.None?;
      OR.RepliesInAnyOrder(dec, answers, replies);
    }
  }

  // ----- what the record holds, call by call

  /** x is what the node answers to a call, cut out of its quotes. */
  ghost predicate Tells(node: Node, call: Call, x: string) {
    exists r :: node(call, r) && 2 <= |r| && x == Unquote(r)
  }

  ghost predicate TellsBlock<B, R>(node: Node, dec: OR.Decoders<B, R>, call: Call, x: string, block: B) {
    exists r :: node(call, r) && 2 <= |r| && x == Unquote(r) && block == dec.block(r).0
  }

  ghost predicate TellsVersion<B, R>(node: Node, dec: OR.Decoders<B, R>, call: Call, x: string, runtime: R) {
    exists r :: node(call, r) && 2 <= |r| && x == Unquote(r) && runtime == dec.runtime(r).0
  }

  /** Chain, block, timestamp and events are the node's answers at the block, fee multiplier and era those at
      the parent, and the runtime version that at the grandparent. */
  ghost predicate IsRecordAt<B, R>(node: Node, dec: OR.Decoders<B, R>, blockHash: string, parentHash: string,
                                   grandparentHash: string, acc: OR.Acc<B, R>) {
    && Tells(node, Call("system_chain", []), acc.rec.chain)
    && TellsBlock(node, dec, Call("chain_getBlock", [Text(blockHash)]), acc.rec.block, acc.block)
    && Tells(node, Call("state_getStorage", [Key(TimeNow), Text(blockHash)]), acc.rec.timestamp)
    && Tells(node, Call("state_getStorage", [Key(SystemEvents), Text(blockHash)]), acc.rec.events)
    && Tells(node, Call("state_getStorage", [Key(NextFeeMultiplier), Text(parentHash)]), acc.rec.nextFeeMultiplier)
    && Tells(node, Call("state_getStorage", [Key(CurrentEra), Text(parentHash)]), acc.rec.currentEra)
    && TellsVersion(node, dec, Call("state_getRuntimeVersion", [Text(grandparentHash)]), acc.rec.runtimeParent, acc.runtime)
  }

  /** The result that the reply with a given id carries. */
  ghost function ResultFor(replies: seq<Response>, id: nat): string {
    if exists k :: 0 <= k < |replies| && replies[k].id == id
    then var k :| 0 <= k < |replies| && replies[k].id == id; replies[k].result
    else ""
  }

  /** With ids that differ, the result of a reply is the one under its id, and answers the request of that id. */
  lemma ResultIsOwn(node: Node, reqs: seq<Request>, replies: seq<Response>, k: nat)
    requires NamesFields(reqs) && IsReadingOf(node, reqs, replies) && k < |replies|
    requires forall i :: 0 <= i < |replies| ==> IsSuccess(replies[i])
    ensures ResultFor(replies, replies[k].id) == replies[k].result
    ensures OR.FieldFor(replies[k]) == Some(replies[k].id)
    ensures forall j :: 0 <= j < |reqs| && reqs[j].id == replies[k].id ==> node(reqs[j].call, replies[k].result)
  {
    hide OR.FieldFor;
    var order :| AnswersInOrder(node, reqs, replies, order);
    var id := replies[k].id;
    var i :| 0 <= i < |replies| && replies[i].id == id && ResultFor(replies, id) == replies[i].result;
    assert OwnReply(node, reqs[order[i]], replies[i]) && OwnReply(node, reqs[order[k]], replies[k]);
    assert order[i] == order[k];
    assert i == k;
    var q := reqs[order[k]];
    assert replies[k] == Response(q.id, None, q.call.name, replies[k].result);
  }

  /** For every field some reply carries the answer to the request of that id. */
  lemma FieldIsTold(node: Node, reqs: seq<Request>, replies: seq<Response>, j: nat)
    requires NamesFields(reqs) && IsReadingOf(node, reqs, replies) && j < |reqs|
    requires forall i :: 0 <= i < |replies| ==> IsSuccess(replies[i])
    ensures node(reqs[j].call, ResultFor(replies, reqs[j].id)) && 2 <= |ResultFor(replies, reqs[j].id)|
    ensures exists k :: 0 <= k < |replies| && replies[k].id == reqs[j].id
  {
    hide OR.FieldFor, IsReadingOf;
    SameIds(node, reqs, replies, reqs[j].id);
    assert reqs[j] in reqs && reqs[j].id in HR.RequestIds(reqs);
    var k :| 0 <= k < |replies| && replies[k].id == reqs[j].id;
    ResultIsOwn(node, reqs, replies, k);
  }

  /** What the replies say, by id. */
  ghost function AnswersOf(replies: seq<Response>): (answers: nat -> string)
    ensures forall f :: answers(f) == ResultFor(replies, f)
  {
    (f: nat) => ResultFor(replies, f)
  }

  lemma OwnRepliesAreOwn(node: Node, reqs: seq<Request>, replies: seq<Response>)
    requires NamesFields(reqs) && IsReadingOf(node, reqs, replies)
    requires forall i :: 0 <= i < |replies| ==> IsSuccess(replies[i])
    ensures |replies| == 7 && OR.AreOwn(AnswersOf(replies), replies)
  {
    hide OR.FieldFor, ResultFor, IsSuccess;
    assert |replies| == 7 by {
      var order :| AnswersInOrder(node, reqs, replies, order);
    }
    hide IsReadingOf, NamesFields;
    forall k | 0 <= k < |replies| && replies[k].error.None? && OR.FieldFor(replies[k]).Some?
      ensures replies[k].result == AnswersOf(replies)(OR.FieldFor(replies[k]).value)
    {
      ResultIsOwn(node, reqs, replies, k);
    }
  }

  lemma FieldIsAnswered(node: Node, reqs: seq<Request>, replies: seq<Response>, f: nat)
    requires NamesFields(reqs) && IsReadingOf(node, reqs, replies) && f in OR.FIELDS
    requires forall i :: 0 <= i < |replies| ==> IsSuccess(replies[i])
    ensures 2 <= |AnswersOf(replies)(f)| && f in OR.Told(replies)
  {
    hide OR.FieldFor, ResultFor, IsReadingOf, OR.Told;
    assert f in HR.RequestIds(reqs);
    var j :| 0 <= j < |reqs| && reqs[j].id == f;
    FieldIsTold(node, reqs, replies, j);
    var k :| 0 <= k < |replies| && replies[k].id == f;
    ResultIsOwn(node, reqs, replies, k);
    assert IsSuccess(replies[k]);
    ToldBy(replies, k, f);
  }

  lemma ToldBy(replies: seq<Response>, k: nat, f: nat)
    requires k < |replies| && replies[k].error.None? && OR.FieldFor(replies[k]) == Some(f)
    ensures f in OR.Told(replies)
  {
    assert replies[k] in replies;
  }

  lemma OnlyFieldsTold(replies: seq<Response>, f: nat)
    requires f in OR.Told(replies)
    ensures f in OR.FIELDS
  {
    var r :| r in replies && OR.FieldFor(r).Some? && OR.FieldFor(r).value == f;
    OR.FieldsAreFields(r);
  }

  lemma OwnRepliesFillIn(node: Node, reqs: seq<Request>, replies: seq<Response>)
    requires NamesFields(reqs) && IsReadingOf(node, reqs, replies)
    requires forall i :: 0 <= i < |replies| ==> IsSuccess(replies[i])
    ensures OR.AreLong(AnswersOf(replies)) && OR.Told(replies) == OR.FIELDS
  {
    hide OR.Told, NamesFields, IsReadingOf, IsSuccess, AnswersOf, OR.FIELDS;
    forall f | f in OR.FIELDS ensures 2 <= |AnswersOf(replies)(f)| && f in OR.Told(replies) {
      FieldIsAnswered(node, reqs, replies, f);
    }
    forall f | f in OR.Told(replies) ensures f in OR.FIELDS {
      OnlyFieldsTold(replies, f);
    }
  }

  /** The record of answers under the seven ids is that of the calls written out above. */
  lemma RecordOfAnswers<B, R>(node: Node, dec: OR.Decoders<B, R>, blockHash: string, parentHash: string,
                              grandparentHash: string, ch: nat, answers: nat -> string, acc: OR.Acc<B, R>)
    requires OR.AreLong(answers) && acc.(err := None) == OR.Whole(dec, answers).acc
    requires var reqs := OR.OthersRequests(blockHash, parentHash, grandparentHash, ch);
             forall j :: 0 <= j < 7 ==> node(reqs[j].call, answers(reqs[j].id))
    ensures IsRecordAt(node, dec, blockHash, parentHash, grandparentHash, acc)
  {
    var reqs := OR.OthersRequests(blockHash, parentHash, grandparentHash, ch);
    assert node(reqs[0].call, answers(OR.CHAIN)) && node(reqs[1].call, answers(OR.BLOCK))
           && node(reqs[2].call, answers(OR.TIMESTAMP)) && node(reqs[3].call, answers(OR.EVENTS))
           && node(reqs[4].call, answers(OR.FEE)) && node(reqs[5].call, answers(OR.ERA))
           && node(reqs[6].call, answers(OR.RUNTIME));
  }

  /** Seven successes among the own replies of the seven requests make the record written out above. */
  lemma OwnRepliesMakeRecord<B, R>(node: Node, dec: OR.Decoders<B, R>, blockHash: string, parentHash: string,
                                   grandparentHash: string, ch: nat, replies: seq<Response>)
    requires IsReadingOf(node, OR.OthersRequests(blockHash, parentHash, grandparentHash, ch), replies)
    requires forall i :: 0 <= i < |replies| ==> IsSuccess(replies[i])
    ensures var out := OR.Loop(dec, OR.Fresh(dec), 0, replies);
            out.Gathered? && out.read == 7 && IsRecordAt(node, dec, blockHash, parentHash, grandparentHash, out.acc)
  {
    hide IsReadingOf, NamesFields, ResultFor, OR.Loop, OR.AreOwn, OR.Told, OR.AreLong, OR.Whole, OR.OthersRequests, IsRecordAt,
         OR.FIELDS;
    var reqs := OR.OthersRequests(blockHash, parentHash, grandparentHash, ch);
    OthersNameFields(blockHash, parentHash, grandparentHash, ch);
    OwnRepliesAreOwn(node, reqs, replies);
    OwnRepliesFillIn(node, reqs, replies);
    assert forall r <- replies :: r.error.None?;
    OR.SevenSuccesses(dec, AnswersOf(replies), replies);
    SevenNamed(reqs);
    forall j | 0 <= j < 7 ensures node(reqs[j].call, AnswersOf(replies)(reqs[j].id)) {
      FieldIsTold(node, reqs, replies, j);
    }
    RecordOfAnswers(node, dec, blockHash, parentHash, grandparentHash, ch, AnswersOf(replies),
                    OR.Loop(dec, OR.Fresh(dec), 0, replies).acc);
  }

  lemma SevenNamed(reqs: seq<Request>)
    requires NamesFields(reqs)
    ensures |reqs| == 7
  {
  }

  /** A call of getOthers made anywhere in a run, whose seven replies are successes, returns the record of the
      node's own answers to the seven calls, in whatever order they came; and if the node has one answer to
      each, well formed, no error and the record that these make. */
  lemma OthersOverTheNetwork<B, R>(cfg: Config, node: Node, answers: nat -> string, dec: OR.Decoders<B, R>,
                                   states: seq<Sys>, steps: seq<SysStep>, i: nat,
                                   blockHash: string, parentHash: string, grandparentHash: string)
    requires IsFaithfulSysRun(cfg, node, states, steps) && Returns(cfg, states, steps, i)
    requires BatchAt(states[i], steps[i].h).reqs
             == OR.OthersRequests(blockHash, parentHash, grandparentHash, states[i].holders[steps[i].h].ch)
    ensures states[i].holders[steps[i].h].ch in states[i].mux.chans
    ensures BatchAt(states[i], steps[i].h).from <= |states[i].mux.chans[states[i].holders[steps[i].h].ch].log|
    ensures var replies := RepliesRead(states[i], steps[i].h);
            (forall k :: 0 <= k < |replies| ==> IsSuccess(replies[k])) ==>
              var out := OR.Loop(dec, OR.Fresh(dec), 0, replies);
              && out.Gathered? && IsRecordAt(node, dec, blockHash, parentHash, grandparentHash, out.acc)
              && (ServesOthers(node, BatchAt(states[i], steps[i].h).reqs, answers) && OR.WellFormed(dec, answers) ==>
                    out == OR.Whole(dec, answers))
  {
    LoopReadsItsOwnBatch(cfg, node, states, steps, i);
    var ch, replies := states[i].holders[steps[i].h].ch, RepliesRead(states[i], steps[i].h);
    hide IsFaithfulSysRun, Returns, IsReadingOf, OR.OthersRequests, ServesOthers, OR.WellFormed, OR.Loop, IsRecordAt, OR.Whole,
         RepliesRead, IsSuccess;
    if forall k :: 0 <= k < |replies| ==> IsSuccess(replies[k]) {
      OwnRepliesMakeRecord(node, dec, blockHash, parentHash, grandparentHash, ch, replies);
      if ServesOthers(node, BatchAt(states[i], steps[i].h).reqs, answers) && OR.WellFormed(dec, answers) {
        ReadingGathersWhole(node, answers, dec, blockHash, parentHash, grandparentHash, ch, replies);
      }
    }
  }
}
