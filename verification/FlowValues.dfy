/** What the two flows return when they run inside the interleaved system: hashes of the chain, and the
    node's own answers at those hashes. */
module FlowValues {
  import opened Rpc
  import opened Calls
  import opened Batches
  import opened Sessions
  import opened EndToEnd
  import opened FlowsInSystem
  import opened FlowReads
  import opened Flows
  import opened Conduct

  ghost predicate IsServed(cfg: Config, node: Node, chain: BH.Chain) {
    BH.IsChain(chain) && ServesChain(node, chain) && ServesHeaders(node, cfg.number, chain)
  }

  // ----- one request

  function Asked(req: Request): seq<Act> {
    [Act.Begin(Single, [req]), Act.Send(req), StartReading]
  }

  lemma OneIsBatch(ch: nat, req: Request, r: Response)
    requires req.ch == ch
    ensures IsBatch(ch, Single, [req], Asked(req), [r]) && AskOne(true, req, Some(r)) == Asked(req) + ReadActs([r], 1)
  {
    AskOneAdvances(ch, true, req, None);
    assert Asked(req) + ReadActs([r], 0) == AskOne(true, req, None);
  }

  lemma OnlyReply(node: Node, req: Request, r: Response)
    requires IsReadingOf(node, [req], [r])
    ensures OwnReply(node, req, r)
  {
    hide OwnReply;
    var order :| AnswersInOrder(node, [req], [r], order);
    assert order[0] == 0;
  }

  /** A reply read to a single request is the node's own answer to it. */
  lemma AskIsOwn(cfg: Config, node: Node, states: seq<Sys>, steps: seq<SysStep>, h: nat, i: nat, j: nat, pre: seq<Act>,
                 post: seq<Act>, ch: nat, req: Request, r: Response)
    requires IsFaithfulSysRun(cfg, node, states, steps) && req.ch == ch
    requires DidStage(cfg, states, steps, h, i, j, pre, AskOne(true, req, Some(r)), post, ch)
    ensures OwnReply(node, req, r)
  {
    hide DidStage, AdvanceAll, IsFaithfulSysRun, ReadActs, IsReadingOf, IsBatch, AskOne, OwnReply, IsAtStage;
    OneIsBatch(ch, req, r);
    var m := BatchIsOwn(cfg, node, states, steps, h, i, j, pre, post, ch, Single, [req], Asked(req), [r]);
    assert [r][..1] == [r];
    OnlyReply(node, req, r);
  }

  // ----- the hashes

  lemma HitsUpToAll(height: nat, hits: Hits)
    ensures var all := HitsUpTo(hits, Lookups(height));
            && all.own == hits.own && (height > 0 ==> all.parent == hits.parent) && (height > 1 ==> all.third == hits.third)
  {
    assert HitsUpTo(hits, 1) == WithHit(HitsUpTo(hits, 0), 0, hits.own);
    assert HitsUpTo(hits, 2) == WithHit(HitsUpTo(hits, 1), 1, hits.parent);
  }

  /** The kind of the batch of GetBlockHashes once its lookups are done. */
  function LookedKind(height: nat, hits: Hits): Kind {
    Hashes(height, HitsUpTo(hits, Lookups(height)), Lookups(height))
  }

  /** What the lookups of a hash batch found is the chain's. */
  lemma LookupsWereTrue(cfg: Config, node: Node, chain: BH.Chain, states: seq<Sys>, steps: seq<SysStep>, h: nat, m: nat,
                        height: nat, hits: Hits, st: Stage)
    requires IsServed(cfg, node, chain) && IsFaithfulSysRun(cfg, node, states, steps) && IsAtStage(states, h, m, st)
    requires (st.Asking? || st.Reading?) && st.kind == LookedKind(height, hits)
    ensures HR.HitsAgree(chain, height, hits)
  {
    CacheAgrees(cfg, node, chain, states, steps, m);
    HitsUpToAll(height, hits);
    hide IsServed, IsFaithfulSysRun, HitsUpTo;
    assert LookupsAgree(chain, states[m].holders[h].mode);
  }

  /** A call that returns without an error was told a result by every reply to its requests. */
  lemma NoErrorMeansSuccess(node: Node, height: nat, hits: Hits, ch: nat, replies: seq<Response>)
    requires IsReadingOf(node, HashRequests(height, hits, ch), replies)
    requires var out := BH.HashesOf(height, hits, true, replies); out.Got? && out.err.None?
    requires HashRequests(height, hits, ch) != []
    ensures forall k :: 0 <= k < |replies| ==> IsSuccess(replies[k])
  {
    var reqs := HashRequests(height, hits, ch);
    BH.SameLength(height, hits, ch, 0);
    var order :| AnswersInOrder(node, reqs, replies, order);
    NoneBreaks(height, hits, replies);
    HR.ReadsExpectedAndReportsErrors(height, hits, replies);
    hide BH.HashesOf, HashRequests;
    forall k | 0 <= k < |replies| ensures IsSuccess(replies[k]) {
      assert OwnReply(node, reqs[order[k]], replies[k]);
      HashIdAsked(height, hits, ch, order[k]);
      assert replies[k] in replies && !HR.IsBad(replies[k]);
    }
  }

  lemma NoneBreaks(height: nat, hits: Hits, replies: seq<Response>)
    requires BH.HashesOf(height, hits, true, replies).Got? && |replies| == |HashRequests(height, hits, 0)|
    ensures forall r <- replies :: !BH.Breaks(r)
  {
    hide HashRequests, BH.NotedAll, BH.Normalised, BH.Start, BH.Breaks;
  }

  lemma HashIdAsked(height: nat, hits: Hits, ch: nat, j: nat)
    requires j < |HashRequests(height, hits, ch)|
    ensures BH.IsHashId(HashRequests(height, hits, ch)[j].id)
  {
    var m := HR.RequestIs(height, hits, Lookups(height), ch, j);
  }

  /** Replies beyond the expected ones do not count. */
  lemma OnlyExpectedCount(height: nat, hits: Hits, replies: seq<Response>, n: nat)
    requires n == |HashRequests(height, hits, 0)| <= |replies| && BH.HashesOf(height, hits, true, replies).Got?
    ensures BH.HashesOf(height, hits, true, replies[..n]) == BH.HashesOf(height, hits, true, replies)
  {
    hide HashRequests, BH.Start, BH.NotedAll, BH.Normalised;
    var some := replies[..n];
    assert some[..n] == some;
    assert forall k :: 0 <= k < n ==> some[k] == replies[k];
  }

  function HashesSent(ch: nat, height: nat, hits: Hits): seq<Act> {
    BH.AskActs(height, hits, true, Lookups(height), ch) + [StartReading]
  }

  /** The batch of a call that asked something and returned. */
  lemma HashesAreBatch(ch: nat, height: nat, hits: Hits, replies: seq<Response>)
    requires HashRequests(height, hits, ch) != [] && BH.HashesOf(height, hits, true, replies).Got?
    ensures IsBatch(ch, LookedKind(height, hits), HashRequests(height, hits, ch), HashesSent(ch, height, hits), replies)
    ensures BH.HashActs(height, hits, true, replies, ch)
            == HashesSent(ch, height, hits) + ReadActs(replies, |HashRequests(height, hits, ch)|)
  {
    var reqs := HashRequests(height, hits, ch);
    var n := |reqs|;
    BH.AfterLookups(height, hits, true, replies, ch);
    EndsWith(ch, height, replies, hits);
    AskThenStart(ch, height, hits);
    hide BH.AskActs, BH.HashActs, BH.HashesOf, HashRequests, HitsUpTo, BH.ReadCount, AdvanceAll, ReadActs;
    ReadsAdvance(ch, height, HitsUpTo(hits, Lookups(height)), Lookups(height), reqs, replies, n - 1);
    ActsCompose(ch, Resting, HashesSent(ch, height, hits), ReadActs(replies, n - 1));
  }

  /** Hashes as the chain has them, in the way the code reports the parents. */
  ghost predicate AreTheChains(chain: BH.Chain, height: nat, hits: Hits, out: BH.HashOutcome)
    requires BH.IsChain(chain)
  {
    && out.Got? && out.block == BH.HashAt(chain, height) && out.parent == HR.ParentOf(chain, height, hits)
    && out.grandparent == HR.GrandparentOf(chain, height, hits)
  }

  lemma OwnRepliesTell(node: Node, chain: BH.Chain, height: nat, hits: Hits, ch: nat, replies: seq<Response>)
    requires BH.IsChain(chain) && ServesChain(node, chain) && HR.HitsAgree(chain, height, hits)
    requires var out := BH.HashesOf(height, hits, true, replies); out.Got? && out.err.None?
    requires 0 < |HashRequests(height, hits, ch)| <= |replies|
    requires IsReadingOf(node, HashRequests(height, hits, ch), replies[..|HashRequests(height, hits, ch)|])
    ensures AreTheChains(chain, height, hits, BH.HashesOf(height, hits, true, replies))
  {
    var n := |HashRequests(height, hits, ch)|;
    BH.SameLength(height, hits, ch, 0);
    OnlyExpectedCount(height, hits, replies, n);
    hide BH.HashesOf, HashRequests, IsReadingOf, HR.HitsAgree;
    NoErrorMeansSuccess(node, height, hits, ch, replies[..n]);
    HashesFromReplies(node, chain, Hashes(height, hits, 0), ch, replies[..n]);
  }

  /** A hash stage that asked the node and met no error. */
  lemma AskedHashesAreTheChains(cfg: Config, node: Node, chain: BH.Chain, states: seq<Sys>, steps: seq<SysStep>, h: nat,
                                i: nat, j: nat, pre: seq<Act>, post: seq<Act>, ch: nat, height: nat, hits: Hits,
                                replies: seq<Response>)
    requires IsServed(cfg, node, chain) && IsFaithfulSysRun(cfg, node, states, steps)
    requires DidStage(cfg, states, steps, h, i, j, pre, BH.HashActs(height, hits, true, replies, ch), post, ch)
    requires var out := BH.HashesOf(height, hits, true, replies); out.Got? && out.err.None?
    requires HashRequests(height, hits, ch) != []
    ensures AreTheChains(chain, height, hits, BH.HashesOf(height, hits, true, replies))
  {
    assert BH.IsChain(chain) && ServesChain(node, chain);
    hide IsServed, DidStage, IsFaithfulSysRun, HashRequests, BH.HashActs, BH.HashesOf, ReadActs, IsReadingOf, HashesSent,
         HR.HitsAgree, IsAtStage, AreTheChains, ServesChain, BH.IsChain;
    var reqs, kind := HashRequests(height, hits, ch), LookedKind(height, hits);
    HashesAreBatch(ch, height, hits, replies);
    assert 0 < |reqs| <= |replies|;
    hide IsBatch, LookedKind;
    var m := BatchIsOwn(cfg, node, states, steps, h, i, j, pre, post, ch, kind, reqs, HashesSent(ch, height, hits), replies);
    LookupsWereTrue(cfg, node, chain, states, steps, h, m, height, hits, Reading(kind, reqs, |reqs| - 1));
    OwnRepliesTell(node, chain, height, hits, ch, replies);
  }

  lemma AllHitIsLast(ch: nat, height: nat, hits: Hits, online: bool, replies: seq<Response>)
    requires HashRequests(height, hits, ch) == []
    ensures var acts := BH.HashActs(height, hits, online, replies, ch);
            acts != [] && AdvanceAll(ch, Resting, acts[..|acts| - 1]) == Some(Asking(LookedKind(height, hits), [], 0))
  {
    AskAdvances(height, hits, online, Lookups(height), ch);
    var ask := BH.AskActs(height, hits, online, Lookups(height), ch);
    var acts := BH.HashActs(height, hits, online, replies, ch);
    assert acts == ask + [Act.AllHit];
    assert acts[..|acts| - 1] == ask;
  }

  /** A hash stage that found everything in the cache. */
  lemma CachedHashesAreTheChains(cfg: Config, node: Node, chain: BH.Chain, states: seq<Sys>, steps: seq<SysStep>,
                                 h: nat, i: nat, j: nat, pre: seq<Act>, post: seq<Act>, ch: nat, height: nat,
                                 hits: Hits, online: bool, replies: seq<Response>)
    requires IsServed(cfg, node, chain) && IsFaithfulSysRun(cfg, node, states, steps)
    requires DidStage(cfg, states, steps, h, i, j, pre, BH.HashActs(height, hits, online, replies, ch), post, ch)
    requires HashRequests(height, hits, ch) == []
    ensures AreTheChains(chain, height, hits, BH.HashesOf(height, hits, online, replies))
  {
    assert BH.IsChain(chain);
    var st, stage := Asking(LookedKind(height, hits), [], 0), BH.HashActs(height, hits, online, replies, ch);
    AllHitIsLast(ch, height, hits, online, replies);
    assert BH.HashesOf(height, hits, online, replies) == BH.HashesOf(height, hits, true, []) by {
      BH.SameLength(height, hits, ch, 0);
    }
    hide IsServed, DidStage, IsFaithfulSysRun, HashRequests, BH.HashActs, BH.HashesOf, HR.HitsAgree, BH.IsChain, AdvanceAll,
         StageOf, IsStepOfAct;
    var m := StepOfStage(cfg, states, steps, h, i, j, pre, stage, post, ch, |stage| - 1);
    assert IsAtStage(states, h, m, st);
    LookupsWereTrue(cfg, node, chain, states, steps, h, m, height, hits, st);
    HashesFromCache(chain, Hashes(height, hits, 0), ch);
  }

  lemma HashesAreTheChains(cfg: Config, node: Node, chain: BH.Chain, states: seq<Sys>, steps: seq<SysStep>, h: nat,
                           i: nat, j: nat, pre: seq<Act>, post: seq<Act>, ch: nat, height: nat, hits: Hits,
                           online: bool, replies: seq<Response>)
    requires IsServed(cfg, node, chain) && IsFaithfulSysRun(cfg, node, states, steps)
    requires DidStage(cfg, states, steps, h, i, j, pre, BH.HashActs(height, hits, online, replies, ch), post, ch)
    requires var out := BH.HashesOf(height, hits, online, replies); out.Got? && out.err.None?
    ensures AreTheChains(chain, height, hits, BH.HashesOf(height, hits, online, replies))
  {
    assert online || HashRequests(height, hits, ch) == [] by {
      BH.SameLength(height, hits, ch, 0);
    }
    hide IsServed, DidStage, IsFaithfulSysRun, HashRequests, BH.HashActs, BH.HashesOf, AreTheChains;
    if HashRequests(height, hits, ch) == [] {
      CachedHashesAreTheChains(cfg, node, chain, states, steps, h, i, j, pre, post, ch, height, hits, online, replies);
    } else {
      AskedHashesAreTheChains(cfg, node, chain, states, steps, h, i, j, pre, post, ch, height, hits, replies);
    }
  }

  // ----- the other stages

  /** height 0 is the height of the head that the node finalized, as its header has it. */
  lemma HeightIsFinalized(cfg: Config, node: Node, states: seq<Sys>, steps: seq<SysStep>, h: nat, i: nat, j: nat,
                          post: seq<Act>, ch: nat, heights: HeightWorld)
    requires IsFaithfulSysRun(cfg, node, states, steps) && HeightFlow(ch, 0, heights).end.Done?
    requires DidStage(cfg, states, steps, h, i, j, [], HeightFlow(ch, 0, heights).acts, post, ch)
    ensures heights.head.Some? && IsSuccess(heights.head.value) && OwnReply(node, HeadRequest(ch), heights.head.value)
    ensures var head := heights.head.value.result;
            && heights.header.Some? && OwnReply(node, HeaderRequest(head, ch), heights.header.value)
            && heights.header.value.error.None?
            && heights.number(heights.header.value.result) == Some(HeightFlow(ch, 0, heights).end.value)
  {
    var head, header := heights.head.value, heights.header.value;
    var a, b := AskOne(true, HeadRequest(ch), Some(head)), AskOne(true, HeaderRequest(head.result, ch), Some(header));
    assert HeightFlow(ch, 0, heights).acts == a + b;
    AskOneAdvances(ch, true, HeadRequest(ch), Some(head));
    hide DidStage, AdvanceAll, IsFaithfulSysRun, AskOne, OwnReply;
    SplitStage(cfg, states, steps, h, i, j, [], a, b, post, ch);
    AskIsOwn(cfg, node, states, steps, h, i, j, [], b + post, ch, HeadRequest(ch), head);
    AskIsOwn(cfg, node, states, steps, h, i, j, [] + a, post, ch, HeaderRequest(head.result, ch), header);
  }

  /** The hashes and the height of a flow are those of the chain: of the height asked for, or of the head that
      the node says is finalized. */
  ghost predicate IsFetched(node: Node, chain: BH.Chain, height: nat, hits: Hits, x: Fetched)
    requires BH.IsChain(chain)
  {
    && x.block == BH.HashAt(chain, x.height)
    && x.parent == HR.ParentOf(chain, x.height, hits)
    && x.grandparent == HR.GrandparentOf(chain, x.height, hits)
    && (if height != 0 then x.height == height
        else Tells(node, Call("chain_getFinalizedHead", []), x.block))
  }

  lemma HeadIsTheBlock(cfg: Config, node: Node, chain: BH.Chain, ch: nat, head: Response, header: Response, top: nat)
    requires IsServed(cfg, node, chain) && OwnReply(node, HeaderRequest(head.result, ch), header) && IsSuccess(head)
    requires header.error.None? && cfg.number(header.result) == Some(top)
    ensures BH.HashAt(chain, top) == Unquote(head.result)
  {
  }

  lemma FetchedFromTheChain(cfg: Config, node: Node, chain: BH.Chain, states: seq<Sys>, steps: seq<SysStep>, h: nat,
                            i: nat, j: nat, post: seq<Act>, ch: nat, height: nat, heights: HeightWorld, online: bool,
                            replies: seq<Response>, hits: Hits)
    requires IsServed(cfg, node, chain) && IsFaithfulSysRun(cfg, node, states, steps) && heights.number == cfg.number
    requires var f := FetchFlow(ch, height, heights, online, replies, hits);
             f.end.Done? && DidStage(cfg, states, steps, h, i, j, [], f.acts, post, ch)
    ensures IsFetched(node, chain, height, hits, FetchFlow(ch, height, heights, online, replies, hits).end.value)
  {
    assert BH.IsChain(chain);
    var a := HeightFlow(ch, height, heights);
    var top := a.end.value;
    var b := HashFlow(ch, top, online, replies, hits);
    HeightConducted(ch, height, heights);
    hide DidStage, AdvanceAll, IsFaithfulSysRun, BH.HashesOf, BH.HashActs, HeightFlow, IsServed, BH.IsChain, OwnReply, IsSuccess;
    SplitStage(cfg, states, steps, h, i, j, [], a.acts, b.acts, post, ch);
    HashesAreTheChains(cfg, node, chain, states, steps, h, i, j, [] + a.acts, post, ch, top, hits, online, replies);
    if height == 0 {
      HeightIsFinalized(cfg, node, states, steps, h, i, j, b.acts + post, ch, heights);
      HeadIsTheBlock(cfg, node, chain, ch, heights.head.value, heights.header.value, top);
      HeadIsTold(node, ch, heights.head.value);
    } else {
      HeightAsked(ch, height, heights);
    }
  }

  lemma HeadIsTold(node: Node, ch: nat, head: Response)
    requires OwnReply(node, HeadRequest(ch), head) && IsSuccess(head)
    ensures Tells(node, Call("chain_getFinalizedHead", []), Unquote(head.result))
  {
    assert node(Call("chain_getFinalizedHead", []), head.result);
  }

  lemma HeightAsked(ch: nat, height: nat, heights: HeightWorld)
    requires height != 0
    ensures HeightFlow(ch, height, heights).end == Done(height)
  {
  }

  function OthersSentActs(reqs: seq<Request>): seq<Act> {
    [Act.Begin(Others, reqs)] + SendActs(reqs) + [StartReading]
  }

  lemma OthersAreBatch<B, R>(ch: nat, x: Fetched, dec: OR.Decoders<B, R>, replies: seq<Response>)
    requires |replies| <= 7 && OthersFlow(ch, x, true, dec, replies).end.Done?
    ensures var reqs := OR.OthersRequests(x.block, x.parent, x.grandparent, ch);
            && |reqs| == 7 == |replies| && IsBatch(ch, Others, reqs, OthersSentActs(reqs), replies)
            && OthersFlow(ch, x, true, dec, replies).acts == OthersSentActs(reqs) + ReadActs(replies, 7)
  {
    var reqs := OR.OthersRequests(x.block, x.parent, x.grandparent, ch);
    assert |reqs| == 7 && CanBegin(Others, reqs, ch);
    hide OR.OthersRequests, OR.Loop, OR.ReadCount, ReadActs, SendActs, AdvanceAll, CanBegin;
    LoopTakes(dec, OR.Fresh(dec), 0, replies);
    OthersSent(ch, reqs);
    OtherReadsAdvance(ch, reqs, replies, 6);
    ActsCompose(ch, Resting, OthersSentActs(reqs), ReadActs(replies, 6));
    assert OR.OthersActs(true, reqs, replies) == OthersSentActs(reqs) + ReadActs(replies, 7);
  }

  /** The record of a flow is that of the node's own answers at its three hashes. */
  lemma RecordIsTheNodes<B, R>(cfg: Config, node: Node, states: seq<Sys>, steps: seq<SysStep>, h: nat, i: nat, j: nat,
                               pre: seq<Act>, post: seq<Act>, ch: nat, x: Fetched, online: bool, dec: OR.Decoders<B, R>,
                               replies: seq<Response>)
    requires IsFaithfulSysRun(cfg, node, states, steps) && |replies| <= 7
    requires var f := OthersFlow(ch, x, online, dec, replies);
             f.end.Done? && DidStage(cfg, states, steps, h, i, j, pre, f.acts, post, ch)
    requires forall k :: 0 <= k < |replies| ==> IsSuccess(replies[k])
    ensures IsRecordAt(node, dec, x.block, x.parent, x.grandparent, OthersFlow(ch, x, online, dec, replies).end.value)
  {
    var reqs := OR.OthersRequests(x.block, x.parent, x.grandparent, ch);
    OthersAreBatch(ch, x, dec, replies);
    hide DidStage, AdvanceAll, IsFaithfulSysRun, OR.OthersRequests, OR.Loop, OR.OthersActs, OthersSentActs, IsBatch, ReadActs,
         IsReadingOf, IsAtStage, IsSuccess, IsRecordAt;
    var m := BatchIsOwn(cfg, node, states, steps, h, i, j, pre, post, ch, Others, reqs, OthersSentActs(reqs), replies);
    assert replies[..7] == replies;
    OwnRepliesMakeRecord(node, dec, x.block, x.parent, x.grandparent, ch, replies);
  }

  /** The metadata of a flow: as stored for its version, or as the node gave it for the block. */
  ghost predicate IsMetadata(node: Node, block: string, q: DS.Query, network: string, stored: map<nat, string>,
                             metadata: string) {
    && q.name == network
    && (if q.version in stored then metadata == stored[q.version]
        else Tells(node, Call("state_getMetadata", [Text(block)]), metadata))
  }

  lemma MetadataIsTold(node: Node, block: string, ch: nat, r: Response)
    requires OwnReply(node, DS.MetadataRequest(block, ch), r) && IsSuccess(r)
    ensures Tells(node, Call("state_getMetadata", [Text(block)]), Unquote(r.result))
  {
    assert node(Call("state_getMetadata", [Text(block)]), r.result);
  }

  lemma MetadataIsTheNodes(cfg: Config, node: Node, states: seq<Sys>, steps: seq<SysStep>, h: nat, i: nat, j: nat,
                           pre: seq<Act>, post: seq<Act>, ch: nat, block: string, q: DS.Query,
                           decodes: string -> bool, network: string, stored: map<nat, string>)
    requires IsFaithfulSysRun(cfg, node, states, steps)
    requires var f := MetadataFlow(ch, block, q, decodes, network, stored);
             f.end.Done? && DidStage(cfg, states, steps, h, i, j, pre, f.acts, post, ch)
    ensures IsMetadata(node, block, q, network, stored, MetadataFlow(ch, block, q, decodes, network, stored).end.value)
  {
    hide DidStage, AdvanceAll, IsFaithfulSysRun, AskOne, OwnReply;
    if q.name == network && q.version !in stored {
      AskIsOwn(cfg, node, states, steps, h, i, j, pre, post, ch, DS.MetadataRequest(block, ch), q.reply.value);
      MetadataIsTold(node, block, ch, q.reply.value);
    }
  }

  /** A timed request was told the node's own answer. */
  ghost predicate IsAnswer(node: Node, req: Request, wait: Wait) {
    wait.Reply? && OwnReply(node, req, wait.resp) && wait.resp.error.None?
  }

  lemma AnswerIsTheNodes(cfg: Config, node: Node, states: seq<Sys>, steps: seq<SysStep>, h: nat, i: nat, j: nat,
                         pre: seq<Act>, post: seq<Act>, ch: nat, online: bool, req: Request, wait: Wait)
    requires IsFaithfulSysRun(cfg, node, states, steps) && req.ch == ch
    requires var f := AskFlow(online, req, wait);
             f.end.Done? && DidStage(cfg, states, steps, h, i, j, pre, f.acts, post, ch)
    ensures IsAnswer(node, req, wait) && AskFlow(online, req, wait).end.value == wait.resp.result
  {
    hide DidStage, AdvanceAll, IsFaithfulSysRun, AskOne, OwnReply;
    AskIsOwn(cfg, node, states, steps, h, i, j, pre, post, ch, req, wait.resp);
  }

  // ----- the flows

  lemma ThreeStages(cfg: Config, states: seq<Sys>, steps: seq<SysStep>, h: nat, i: nat, j: nat, pre: seq<Act>,
                    a: seq<Act>, b: seq<Act>, c: seq<Act>, ch: nat)
    requires DidStage(cfg, states, steps, h, i, j, pre, a + b + c, [], ch)
    requires AdvanceAll(ch, Resting, a) == Some(Resting) && AdvanceAll(ch, Resting, b) == Some(Resting)
    ensures DidStage(cfg, states, steps, h, i, j, pre, a, b + c, ch)
    ensures DidStage(cfg, states, steps, h, i, j, pre + a, b, c, ch)
    ensures DidStage(cfg, states, steps, h, i, j, pre + a + b, c, [], ch)
  {
    hide DidStage, AdvanceAll;
    assert a + b + c == a + (b + c) && b + c + [] == b + c && c + [] == c;
    SplitStage(cfg, states, steps, h, i, j, pre, a, b + c, [], ch);
    SplitStage(cfg, states, steps, h, i, j, pre + a, b, c, [], ch);
  }

  /** What blockAndTx returns is the chain's and the node's: the hashes of the height asked for, or of the
      finalized head, the record at these hashes, and the metadata at the grandparent. */
  ghost predicate BlockIsTrue<B, R>(node: Node, chain: BH.Chain, height: nat, hits: Hits, dec: OR.Decoders<B, R>,
                                    query: R -> DS.Query, network: string, stored: map<nat, string>,
                                    d: BlockData<B, R>)
    requires BH.IsChain(chain)
  {
    && IsFetched(node, chain, height, hits, d.fetched)
    && IsRecordAt(node, dec, d.fetched.block, d.fetched.parent, d.fetched.grandparent, d.acc)
    && IsMetadata(node, d.fetched.grandparent, query(d.acc.runtime), network, stored, d.metadata)
  }

  /** In every faithful run, whatever the other callers, the connections and the cache do meanwhile: a holder
      that did the acts of a blockAndTx which succeeds on seven results holds what the chain and the node say. */
  lemma BlockAndTxIsTrue<B, R>(cfg: Config, node: Node, chain: BH.Chain, states: seq<Sys>, steps: seq<SysStep>,
                               h: nat, i: nat, j: nat, ch: nat, height: nat, heights: HeightWorld, hashes: HashWorld,
                               hits: Hits, othersOnline: bool, dec: OR.Decoders<B, R>, others: seq<Response>,
                               query: R -> DS.Query, decodes: string -> bool, network: string,
                               stored: map<nat, string>)
    requires IsServed(cfg, node, chain) && IsFaithfulSysRun(cfg, node, states, steps) && heights.number == cfg.number
    requires |others| <= 7 && forall k :: 0 <= k < |others| ==> IsSuccess(others[k])
    requires IsHolding(cfg, states, steps, h, i, j) && states[i].holders[h].ch == ch
    requires var f := BlockFlow(ch, height, heights, hashes, hits, othersOnline, dec, others, query, decodes, network, stored);
             f.end.Done? && ActsOf(cfg, states, steps, h, i, j) == f.acts
    ensures var f := BlockFlow(ch, height, heights, hashes, hits, othersOnline, dec, others, query, decodes, network, stored);
            BlockIsTrue(node, chain, height, hits, dec, query, network, stored, f.end.value)
  {
    assert BH.IsChain(chain);
    HoldsLess(cfg, states, steps, h, i, j, j);
    var f := FetchFlow(ch, height, heights, hashes.online, hashes.replies, hits);
    var o := OthersFlow(ch, f.end.value, othersOnline, dec, others);
    var m := MetadataFlow(ch, f.end.value.grandparent, query(o.end.value.runtime), decodes, network, stored);
    assert f.acts + o.acts + m.acts == [] + (f.acts + o.acts + m.acts) + [];
    assert DidStage(cfg, states, steps, h, i, j, [], f.acts + o.acts + m.acts, [], ch);
    FetchConducted(ch, height, heights, hashes.online, hashes.replies, hits);
    OthersConducted(ch, f.end.value, othersOnline, dec, others);
    hide DidStage, AdvanceAll, IsFaithfulSysRun, IsServed, BH.IsChain, IsHolding, ActsOf, IsFetched, IsRecordAt, IsMetadata,
         FetchFlow, OthersFlow, MetadataFlow, IsSuccess;
    ThreeStages(cfg, states, steps, h, i, j, [], f.acts, o.acts, m.acts, ch);
    assert [] + f.acts == f.acts;
    FetchedFromTheChain(cfg, node, chain, states, steps, h, i, j, o.acts + m.acts, ch, height, heights, hashes.online,
                        hashes.replies, hits);
    RecordIsTheNodes(cfg, node, states, steps, h, i, j, f.acts, m.acts, ch, f.end.value, othersOnline, dec, others);
    MetadataIsTheNodes(cfg, node, states, steps, h, i, j, f.acts + o.acts, [], ch, f.end.value.grandparent,
                       query(o.end.value.runtime), decodes, network, stored);
  }

  /** What GetAccount returns is the chain's and the node's: the hashes as above, and version, metadata and
      account as the node has them at the block of the height asked for. */
  ghost predicate AccountIsTrue(node: Node, chain: BH.Chain, height: nat, hits: Hits, query: string -> Option<DS.Query>,
                                network: string, stored: map<nat, string>, key: Option<string>, d: AccountData)
    requires BH.IsChain(chain)
  {
    && IsFetched(node, chain, height, hits, d.fetched)
    && IsAccountAt(node, d.fetched.block, query, network, stored, key, d)
  }

  /** query reads the spec off what the node answers to a call. */
  ghost predicate TellsQuery(node: Node, call: Call, query: string -> Option<DS.Query>, q: DS.Query) {
    exists r :: node(call, r) && query(r) == Some(q)
  }

  ghost predicate IsAccountAt(node: Node, block: string, query: string -> Option<DS.Query>, network: string,
                              stored: map<nat, string>, key: Option<string>, d: AccountData) {
    && TellsQuery(node, Call("state_getRuntimeVersion", [Text(block)]), query, d.query)
    && IsMetadata(node, block, d.query, network, stored, d.metadata)
    && key.Some? && Tells(node, Call("state_getStorage", [Text(key.value), Text(block)]), d.account)
  }

  lemma VersionIsTold(node: Node, block: string, ch: nat, version: Wait, query: string -> Option<DS.Query>, q: DS.Query)
    requires IsAnswer(node, VersionRequest(block, ch), version) && query(version.resp.result) == Some(q)
    ensures TellsQuery(node, Call("state_getRuntimeVersion", [Text(block)]), query, q)
  {
    assert node(Call("state_getRuntimeVersion", [Text(block)]), version.resp.result);
  }

  lemma AccountIsTold(node: Node, block: string, ch: nat, key: string, account: Wait)
    requires IsAnswer(node, AccountRequest(key, block, ch), account) && 2 <= |account.resp.result|
    ensures Tells(node, Call("state_getStorage", [Text(key), Text(block)]), Unquote(account.resp.result))
  {
    assert node(Call("state_getStorage", [Text(key), Text(block)]), account.resp.result);
  }

  lemma VersionPartIsTrue(cfg: Config, node: Node, states: seq<Sys>, steps: seq<SysStep>, h: nat, i: nat, j: nat,
                          pre: seq<Act>, ch: nat, x: Fetched, versionOnline: bool, version: Wait,
                          query: string -> Option<DS.Query>, decodes: string -> bool, network: string,
                          stored: map<nat, string>, key: Option<string>, accountOnline: bool, account: Wait)
    requires IsFaithfulSysRun(cfg, node, states, steps)
    requires var f := VersionPart(ch, x, versionOnline, version, query, decodes, network, stored, key, accountOnline, account);
             f.end.Done? && DidStage(cfg, states, steps, h, i, j, pre, f.acts, [], ch)
    ensures var f := VersionPart(ch, x, versionOnline, version, query, decodes, network, stored, key, accountOnline, account);
            f.end.value.fetched == x && IsAccountAt(node, x.block, query, network, stored, key, f.end.value)
  {
    hide DidStage, AdvanceAll, IsFaithfulSysRun, OwnReply, AskOne, DS.MetadataActs, DS.AnswerTo;
    var q := query(version.resp.result).value;
    var v := AskFlow(versionOnline, VersionRequest(x.block, ch), version);
    var m := MetadataFlow(ch, x.block, q, decodes, network, stored);
    var a := AskFlow(accountOnline, AccountRequest(key.value, x.block, ch), account);
    assert VersionPart(ch, x, versionOnline, version, query, decodes, network, stored, key, accountOnline, account).acts
           == v.acts + m.acts + a.acts;
    AskConducted(ch, versionOnline, VersionRequest(x.block, ch), version);
    MetadataConducted(ch, x.block, q, decodes, network, stored);
    var d := VersionPart(ch, x, versionOnline, version, query, decodes, network, stored, key, accountOnline, account).end.value;
    assert d.query == q && 2 <= |account.resp.result| && d.account == Unquote(account.resp.result)
           && d.metadata == m.end.value;
    hide AskFlow, MetadataFlow, VersionPart, IsAnswer, Tells, TellsQuery, IsMetadata;
    ThreeStages(cfg, states, steps, h, i, j, pre, v.acts, m.acts, a.acts, ch);
    AnswerIsTheNodes(cfg, node, states, steps, h, i, j, pre, m.acts + a.acts, ch, versionOnline,
                     VersionRequest(x.block, ch), version);
    MetadataIsTheNodes(cfg, node, states, steps, h, i, j, pre + v.acts, a.acts, ch, x.block, q, decodes, network, stored);
    AnswerIsTheNodes(cfg, node, states, steps, h, i, j, pre + v.acts + m.acts, [], ch, accountOnline,
                     AccountRequest(key.value, x.block, ch), account);
    VersionIsTold(node, x.block, ch, version, query, q);
    AccountIsTold(node, x.block, ch, key.value, account);
  }

  /** The same for a GetAccount that succeeds. */
  lemma GetAccountIsTrue(cfg: Config, node: Node, chain: BH.Chain, states: seq<Sys>, steps: seq<SysStep>, h: nat,
                         i: nat, j: nat, ch: nat, height: nat, heights: HeightWorld, hashes: HashWorld, hits: Hits,
                         versionOnline: bool, version: Wait, query: string -> Option<DS.Query>,
                         decodes: string -> bool, network: string, stored: map<nat, string>, key: Option<string>,
                         accountOnline: bool, account: Wait)
    requires IsServed(cfg, node, chain) && IsFaithfulSysRun(cfg, node, states, steps) && heights.number == cfg.number
    requires IsHolding(cfg, states, steps, h, i, j) && states[i].holders[h].ch == ch
    requires var f := AccountFlow(ch, height, heights, hashes, hits, versionOnline, version, query, decodes, network, stored,
                                  key, accountOnline, account);
             f.end.Done? && ActsOf(cfg, states, steps, h, i, j) == f.acts
    ensures var f := AccountFlow(ch, height, heights, hashes, hits, versionOnline, version, query, decodes, network, stored,
                                 key, accountOnline, account);
            AccountIsTrue(node, chain, height, hits, query, network, stored, key, f.end.value)
  {
    assert BH.IsChain(chain);
    HoldsLess(cfg, states, steps, h, i, j, j);
    var f := FetchFlow(ch, height, heights, hashes.online, hashes.replies, hits);
    var v := VersionPart(ch, f.end.value, versionOnline, version, query, decodes, network, stored, key, accountOnline, account);
    assert f.acts + v.acts == [] + (f.acts + v.acts) + [];
    assert DidStage(cfg, states, steps, h, i, j, [], f.acts + v.acts, [], ch);
    FetchConducted(ch, height, heights, hashes.online, hashes.replies, hits);
    hide DidStage, AdvanceAll, IsFaithfulSysRun, IsServed, BH.IsChain, IsHolding, ActsOf, IsFetched, IsAccountAt, FetchFlow,
         VersionPart;
    SplitStage(cfg, states, steps, h, i, j, [], f.acts, v.acts, [], ch);
    assert v.acts + [] == v.acts && [] + f.acts == f.acts;
    FetchedFromTheChain(cfg, node, chain, states, steps, h, i, j, v.acts, ch, height, heights, hashes.online,
                        hashes.replies, hits);
    VersionPartIsTrue(cfg, node, states, steps, h, i, j, f.acts, ch, f.end.value, versionOnline, version, query, decodes,
                      network, stored, key, accountOnline, account);
  }
}
