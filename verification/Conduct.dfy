/** The flows keep to the automaton of Batches: each batch is sent whole or refused at its first request,
    and read to the end before the next one begins. */
module Conduct {
  import opened Rpc
  import opened Batches
  import opened Flows

  /** f is in order on channel ch, and leaves it as its end says. */
  ghost predicate IsConducted<T>(ch: nat, f: Flow<T>) {
    var st := AdvanceAll(ch, Resting, f.acts);
    && st.Some?
    && (ExitOf(f.end).PutBack? ==> st.value == Resting)
    && (ExitOf(f.end).HandedOver? ==> st.value == Leaving)
    && (ExitOf(f.end).Stuck? ==> st.value.Reading?)
  }

  lemma Continues<T>(ch: nat, acts: seq<Act>, f: Flow<T>)
    requires AdvanceAll(ch, Resting, acts) == Some(Resting) && IsConducted(ch, f)
    ensures IsConducted(ch, After(acts, f))
  {
    ActsCompose(ch, Resting, acts, f.acts);
  }

  // ----- one batch

  lemma One(ch: nat, st: Stage, act: Act)
    ensures AdvanceAll(ch, st, [act]) == Advance(ch, st, act)
  {
    assert [act][..0] == [];
  }

  lemma Two(ch: nat, st: Stage, a: Act, b: Act)
    ensures AdvanceAll(ch, st, [a, b])
            == match Advance(ch, st, a) case None => None case Some(mid) => Advance(ch, mid, b)
  {
    assert [a, b][..1] == [a];
    One(ch, st, a);
  }

  lemma AskOneAdvances(ch: nat, online: bool, req: Request, reply: Option<Response>)
    requires req.ch == ch
    ensures AdvanceAll(ch, Resting, AskOne(online, req, reply))
            == Some(if online && reply.None? then Reading(Single, [req], 0) else Resting)
  {
    var b := Asking(Single, [req], 0);
    assert CanBegin(Single, [req], ch);
    if !online {
      Two(ch, Resting, Begin(Single, [req]), SendRefused);
    } else {
      var acts := [Begin(Single, [req]), Send(req), StartReading];
      assert acts[..2] == [Begin(Single, [req]), Send(req)];
      Two(ch, Resting, Begin(Single, [req]), Send(req));
      assert AdvanceAll(ch, Resting, acts) == Some(Reading(Single, [req], 0));
      if reply.Some? {
        ActsCompose(ch, Resting, acts, [Read(reply.value)]);
        One(ch, Reading(Single, [req], 0), Read(reply.value));
      } else {
        assert AskOne(online, req, reply) == acts;
      }
    }
  }

  lemma HeightConducted(ch: nat, height: nat, heights: HeightWorld)
    ensures IsConducted(ch, HeightFlow(ch, height, heights))
  {
    if height == 0 {
      AskOneAdvances(ch, heights.online, HeadRequest(ch), heights.head);
      if heights.online && heights.head.Some? && heights.head.value.error.None? {
        var header := HeaderRequest(heights.head.value.result, ch);
        AskOneAdvances(ch, true, header, heights.header);
        ActsCompose(ch, Resting, AskOne(true, HeadRequest(ch), heights.head), AskOne(true, header, heights.header));
      } else {
        assert HeightFlow(ch, height, heights).acts == AskOne(heights.online, HeadRequest(ch), heights.head);
      }
    }
  }

  lemma AskConducted(ch: nat, online: bool, req: Request, wait: Wait)
    requires req.ch == ch
    ensures IsConducted(ch, AskFlow(online, req, wait))
  {
    match wait
    case TimedOut =>
      AskOneAdvances(ch, online, req, None);
      ActsCompose(ch, Resting, AskOne(true, req, None), [GiveUp]);
      One(ch, Reading(Single, [req], 0), GiveUp);
    case Reply(r) =>
      AskOneAdvances(ch, false, req, None);
      AskOneAdvances(ch, online, req, Some(r));
  }

  lemma MetadataConducted(ch: nat, block: string, q: DS.Query, decodes: string -> bool, network: string,
                          stored: map<nat, string>)
    ensures IsConducted(ch, MetadataFlow(ch, block, q, decodes, network, stored))
  {
    AskOneAdvances(ch, q.online, DS.MetadataRequest(block, ch), q.reply);
  }

  // ----- a hash batch

  /** What the first k lookups have found. */
  function HitsUpTo(hits: Hits, k: nat): Hits {
    if k == 0 then NoHits() else WithHit(HitsUpTo(hits, k - 1), k - 1, HitAt(hits, k - 1))
  }

  lemma {:induction false} SameRequestsUpTo(height: nat, hits: Hits, k: nat, ch: nat)
    requires k <= Lookups(height)
    ensures RequestsUpTo(height, HitsUpTo(hits, k), k, ch) == RequestsUpTo(height, hits, k, ch)
  {
    if k > 0 {
      SameRequestsUpTo(height, hits, k - 1, ch);
      LaterHit(height, HitsUpTo(hits, k - 1), k - 1, k - 1, HitAt(hits, k - 1), ch);
    }
  }

  /** The stage after k lookups: the requests found missing are sent, or the first of them was refused. */
  function AskedStage(height: nat, hits: Hits, online: bool, k: nat, ch: nat): Stage
    requires k <= Lookups(height)
  {
    var reqs := RequestsUpTo(height, hits, k, ch);
    if !online && reqs != [] then Resting else Asking(Hashes(height, HitsUpTo(hits, k), k), reqs, |reqs|)
  }

  lemma AskActsGrow(height: nat, hits: Hits, online: bool, k: nat, ch: nat)
    requires 0 < k <= Lookups(height)
    ensures var before := BH.AskActs(height, hits, online, k - 1, ch);
            BH.AskActs(height, hits, online, k, ch)
            == if !online && RequestsUpTo(height, hits, k - 1, ch) != [] then before
               else before + BH.LookActs(height, hits, online, k - 1, ch)
  {
    hide BH.LookActs, RequestsUpTo;
  }

  /** After a refusal the stage stays at rest. */
  lemma RefusedRests(height: nat, hits: Hits, k: nat, ch: nat)
    requires 0 < k <= Lookups(height) && RequestsUpTo(height, hits, k - 1, ch) != []
    ensures AskedStage(height, hits, false, k - 1, ch) == AskedStage(height, hits, false, k, ch)
  {
    assert RequestsUpTo(height, hits, k - 1, ch) <= RequestsUpTo(height, hits, k, ch);
  }

  lemma BeginAdvances(height: nat, hits: Hits, online: bool, ch: nat)
    ensures AdvanceAll(ch, Resting, BH.AskActs(height, hits, online, 0, ch)) == Some(AskedStage(height, hits, online, 0, ch))
  {
    var kind := Hashes(height, NoHits(), 0);
    assert RequestsUpTo(height, NoHits(), 0, ch) == [] == RequestsUpTo(height, hits, 0, ch) && HitsUpTo(hits, 0) == NoHits();
    assert BH.AskActs(height, hits, online, 0, ch) == [Begin(kind, [])];
    hide RequestsUpTo, HitsUpTo, BH.AskActs, AdvanceAll;
    One(ch, Resting, Begin(kind, []));
  }

  lemma {:induction false} AskAdvances(height: nat, hits: Hits, online: bool, k: nat, ch: nat)
    requires k <= Lookups(height)
    ensures AdvanceAll(ch, Resting, BH.AskActs(height, hits, online, k, ch)) == Some(AskedStage(height, hits, online, k, ch))
  {
    hide AdvanceAll, BH.AskActs, BH.LookActs, RequestsUpTo, AskedStage;
    if k == 0 {
      BeginAdvances(height, hits, online, ch);
    } else {
      AskAdvances(height, hits, online, k - 1, ch);
      AskActsGrow(height, hits, online, k, ch);
      if online || RequestsUpTo(height, hits, k - 1, ch) == [] {
        LookActsAdvance(height, hits, online, k, ch);
        ActsCompose(ch, Resting, BH.AskActs(height, hits, online, k - 1, ch), BH.LookActs(height, hits, online, k - 1, ch));
      } else {
        RefusedRests(height, hits, k, ch);
      }
    }
  }

  lemma LookActsAdvance(height: nat, hits: Hits, online: bool, k: nat, ch: nat)
    requires 0 < k <= Lookups(height) && (online || RequestsUpTo(height, hits, k - 1, ch) == [])
    ensures AdvanceAll(ch, AskedStage(height, hits, online, k - 1, ch), BH.LookActs(height, hits, online, k - 1, ch))
            == Some(AskedStage(height, hits, online, k, ch))
  {
    var st := AskedStage(height, hits, online, k - 1, ch);
    LookUpAdvances(height, hits, online, k, ch);
    One(ch, st, LookUp(HitAt(hits, k - 1)));
    Two(ch, st, LookUp(None), if online then Send(RequestFor(height, k - 1, ch)) else SendRefused);
    hide Advance, AskedStage, AdvanceAll, RequestsUpTo;
  }

  lemma LookUpAdvances(height: nat, hits: Hits, online: bool, k: nat, ch: nat)
    requires 0 < k <= Lookups(height) && (online || RequestsUpTo(height, hits, k - 1, ch) == [])
    ensures var st := Advance(ch, AskedStage(height, hits, online, k - 1, ch), LookUp(HitAt(hits, k - 1)));
            && st.Some?
            && (HitAt(hits, k - 1).Some? ==> st.value == AskedStage(height, hits, online, k, ch))
            && (HitAt(hits, k - 1).None? ==>
                  Advance(ch, st.value, if online then Send(RequestFor(height, k - 1, ch)) else SendRefused)
                  == Some(AskedStage(height, hits, online, k, ch)))
  {
  }

  lemma ReadAdvances(ch: nat, kind: Kind, reqs: seq<Request>, n: nat, r: Response)
    requires kind.Hashes? && n < |reqs|
    ensures Advance(ch, Reading(kind, reqs, n), Read(r)) == Some(if n + 1 == |reqs| then Resting else Reading(kind, reqs, n + 1))
  {
  }

  lemma {:induction false} ReadsAdvance(ch: nat, height: nat, hits: Hits, looked: nat, reqs: seq<Request>,
                                        replies: seq<Response>, n: nat)
    requires n <= |reqs| && n <= |replies| && reqs != []
    ensures var kind := Hashes(height, hits, looked);
            AdvanceAll(ch, Reading(kind, reqs, 0), ReadActs(replies, n))
            == Some(if n == |reqs| then Resting else Reading(kind, reqs, n))
  {
    hide Advance;
    if n > 0 {
      ReadAdvances(ch, Hashes(height, hits, looked), reqs, n - 1, replies[n - 1]);
      ReadsAdvance(ch, height, hits, looked, reqs, replies, n - 1);
      ReadMore(replies, n - 1);
      assert ReadActs(replies, n)[..n - 1] == ReadActs(replies, n - 1);
    }
  }

  lemma AllHitConducted(ch: nat, height: nat, online: bool, replies: seq<Response>, hits: Hits)
    requires HashRequests(height, hits, ch) == []
    ensures IsConducted(ch, HashFlow(ch, height, online, replies, hits))
  {
    var ask := BH.AskActs(height, hits, online, Lookups(height), ch);
    var asked := AskedStage(height, hits, online, Lookups(height), ch);
    AskAdvances(height, hits, online, Lookups(height), ch);
    BH.AfterLookups(height, hits, online, replies, ch);
    hide BH.AskActs, BH.HashActs, BH.HashesOf, BH.ReadCount, RequestsUpTo, HitsUpTo;
    ActsCompose(ch, Resting, ask, [AllHit]);
    One(ch, asked, AllHit);
  }

  lemma RefusedConducted(ch: nat, height: nat, replies: seq<Response>, hits: Hits)
    requires HashRequests(height, hits, ch) != []
    ensures IsConducted(ch, HashFlow(ch, height, false, replies, hits))
  {
    AskAdvances(height, hits, false, Lookups(height), ch);
    BH.SameLength(height, hits, ch, 0);
    hide BH.AskActs, RequestsUpTo, HitsUpTo, BH.ReadCount;
  }

  /** What GetBlockHashes does is in order, and when it returns it is done with its channel. */
  lemma HashConducted(ch: nat, height: nat, online: bool, replies: seq<Response>, hits: Hits)
    ensures IsConducted(ch, HashFlow(ch, height, online, replies, hits))
  {
    hide IsConducted, HashFlow;
    if HashRequests(height, hits, ch) == [] {
      AllHitConducted(ch, height, online, replies, hits);
    } else if online {
      ReadingConducted(ch, height, replies, hits);
    } else {
      RefusedConducted(ch, height, replies, hits);
    }
  }

  /** The stage after n of the replies to a hash batch. */
  function ReadStage(height: nat, hits: Hits, n: nat, ch: nat): Stage {
    var reqs := HashRequests(height, hits, ch);
    if n == |reqs| then Resting else Reading(Hashes(height, HitsUpTo(hits, Lookups(height)), Lookups(height)), reqs, n)
  }

  lemma AskThenStart(ch: nat, height: nat, hits: Hits)
    requires HashRequests(height, hits, ch) != []
    ensures AdvanceAll(ch, Resting, BH.AskActs(height, hits, true, Lookups(height), ch) + [StartReading])
            == Some(Reading(Hashes(height, HitsUpTo(hits, Lookups(height)), Lookups(height)), HashRequests(height, hits, ch), 0))
  {
    AskAdvances(height, hits, true, Lookups(height), ch);
    ActsCompose(ch, Resting, BH.AskActs(height, hits, true, Lookups(height), ch), [StartReading]);
    One(ch, AskedStage(height, hits, true, Lookups(height), ch), StartReading);
    hide BH.AskActs, HitsUpTo, RequestsUpTo, AdvanceAll;
  }

  lemma HashReadsAdvance(ch: nat, height: nat, replies: seq<Response>, hits: Hits)
    requires HashRequests(height, hits, ch) != []
    ensures AdvanceAll(ch, Resting, BH.HashActs(height, hits, true, replies, ch))
            == Some(ReadStage(height, hits, BH.ReadCount(|HashRequests(height, hits, ch)|, replies, 0), ch))
  {
    var reqs := HashRequests(height, hits, ch);
    var ask := BH.AskActs(height, hits, true, Lookups(height), ch);
    var n := BH.ReadCount(|reqs|, replies, 0);
    CountIs(|reqs|, replies, 0);
    AskThenStart(ch, height, hits);
    BH.AfterLookups(height, hits, true, replies, ch);
    hide BH.AskActs, BH.HashActs, BH.HashesOf, HitsUpTo, HashRequests, BH.ReadCount, ReadActs, AdvanceAll, BH.TakenBy;
    ReadsAdvance(ch, height, HitsUpTo(hits, Lookups(height)), Lookups(height), reqs, replies, n);
    ActsCompose(ch, Resting, ask + [StartReading], ReadActs(replies, n));
  }

  /** The loop returns after the last expected reply and waits before it. */
  lemma EndsWith(ch: nat, height: nat, replies: seq<Response>, hits: Hits)
    requires HashRequests(height, hits, ch) != []
    ensures var out, expected := BH.HashesOf(height, hits, true, replies), |HashRequests(height, hits, ch)|;
            && (out.Got? ==> BH.ReadCount(expected, replies, 0) == expected)
            && (out.Waiting? ==> BH.ReadCount(expected, replies, 0) < expected)
  {
    BH.SameLength(height, hits, ch, 0);
    CountIs(|HashRequests(height, hits, ch)|, replies, 0);
    hide BH.NotedAll, BH.Normalised, RequestsUpTo, BH.Breaks, BH.Start;
  }

  lemma ReadingConducted(ch: nat, height: nat, replies: seq<Response>, hits: Hits)
    requires HashRequests(height, hits, ch) != []
    ensures IsConducted(ch, HashFlow(ch, height, true, replies, hits))
  {
    HashReadsAdvance(ch, height, replies, hits);
    EndsWith(ch, height, replies, hits);
    CountIs(|HashRequests(height, hits, ch)|, replies, 0);
    hide BH.HashesOf, BH.HashActs, BH.ReadCount, HashRequests;
  }

  /** The loop takes every expected reply, unless it runs out of replies or dies on one. */
  lemma {:induction false} CountIs(expected: nat, replies: seq<Response>, i: nat)
    requires i <= expected && i <= |replies|
    ensures BH.ReadCount(expected, replies, i) <= expected
    ensures (forall k :: i <= k < expected && k < |replies| ==> !BH.Breaks(replies[k])) ==>
              BH.ReadCount(expected, replies, i) == if |replies| < expected then |replies| else expected
    decreases |replies| - i
  {
    if i < expected && i < |replies| && !BH.Breaks(replies[i]) {
      CountIs(expected, replies, i + 1);
    }
  }

  // ----- the batch of getOthers

  lemma {:induction false} SendsAdvance(ch: nat, kind: Kind, reqs: seq<Request>, n: nat)
    requires n <= |reqs|
    ensures AdvanceAll(ch, Asking(kind, reqs, 0), SendActs(reqs)[..n]) == Some(Asking(kind, reqs, n))
  {
    if n > 0 {
      SendsAdvance(ch, kind, reqs, n - 1);
      assert SendActs(reqs)[..n][..n - 1] == SendActs(reqs)[..n - 1];
    } else {
      assert SendActs(reqs)[..0] == [];
    }
  }

  lemma {:induction false} OtherReadsAdvance(ch: nat, reqs: seq<Request>, replies: seq<Response>, n: nat)
    requires n <= |replies| <= 7 == |reqs|
    ensures AdvanceAll(ch, Reading(Others, reqs, 0), ReadActs(replies, n))
            == Some(if n == 7 && replies[6].error.None? then Resting else Reading(Others, reqs, n))
  {
    if n > 0 {
      OtherReadsAdvance(ch, reqs, replies, n - 1);
      ReadMore(replies, n - 1);
      assert ReadActs(replies, n)[..n - 1] == ReadActs(replies, n - 1);
    }
  }

  lemma {:induction false} LoopTakes<B, R>(dec: OR.Decoders<B, R>, acc: OR.Acc<B, R>, i: nat, replies: seq<Response>)
    requires i <= |replies| <= 7
    ensures OR.Loop(dec, acc, i, replies).Gathered? && i < 7 ==>
              OR.ReadCount(replies, i) == 7 == |replies| && replies[6].error.None?
    ensures OR.Loop(dec, acc, i, replies).Waiting? ==>
              OR.ReadCount(replies, i) == |replies| && (|replies| == 7 && i < 7 ==> replies[6].error.Some?)
    ensures !OR.Loop(dec, acc, i, replies).NotSent?
    decreases |replies| - i
  {
    if i < |replies| {
      OR.LoopTurns(dec, acc, i, replies);
      assert OR.Uint8(i) == i;
      if !OR.Breaks(replies[i]) && (replies[i].error.Some? || i != 6) {
        LoopTakes(dec, if replies[i].error.None? then OR.Filed(dec, acc, replies[i]) else acc, i + 1, replies);
      }
    }
  }

  lemma OthersSent(ch: nat, reqs: seq<Request>)
    requires CanBegin(Others, reqs, ch) && |reqs| == 7
    ensures AdvanceAll(ch, Resting, [Begin(Others, reqs)] + SendActs(reqs) + [StartReading]) == Some(Reading(Others, reqs, 0))
  {
    var sends := [Begin(Others, reqs)] + SendActs(reqs);
    One(ch, Resting, Begin(Others, reqs));
    SendsAdvance(ch, Others, reqs, 7);
    assert SendActs(reqs)[..7] == SendActs(reqs);
    One(ch, Asking(Others, reqs, 7), StartReading);
    hide AdvanceAll, SendActs;
    ActsCompose(ch, Resting, [Begin(Others, reqs)], SendActs(reqs));
    ActsCompose(ch, Resting, sends, [StartReading]);
  }

  /** What getOthers does is in order: seven requests bring at most seven replies. */
  lemma OthersConducted<B, R>(ch: nat, f: Fetched, online: bool, dec: OR.Decoders<B, R>, replies: seq<Response>)
    requires |replies| <= 7
    ensures IsConducted(ch, OthersFlow(ch, f, online, dec, replies))
  {
    var reqs := OR.OthersRequests(f.block, f.parent, f.grandparent, ch);
    assert |reqs| == 7 && CanBegin(Others, reqs, ch);
    hide OR.OthersRequests, OR.Loop, OR.ReadCount, ReadActs, SendActs;
    if !online {
      Two(ch, Resting, Begin(Others, reqs), SendRefused);
      assert OR.OthersActs(online, reqs, replies) == [Begin(Others, reqs), SendRefused];
    } else {
      var sends := [Begin(Others, reqs)] + SendActs(reqs) + [StartReading];
      OthersSent(ch, reqs);
      var n := OR.ReadCount(replies, 0);
      OtherReadsAdvance(ch, reqs, replies, n);
      ActsCompose(ch, Resting, sends, ReadActs(replies, n));
      assert OR.OthersActs(online, reqs, replies) == sends + ReadActs(replies, n);
      LoopTakes(dec, OR.Fresh(dec), 0, replies);
      hide AdvanceAll, OR.OthersActs;
    }
  }

  // ----- whole flows

  lemma FetchConducted(ch: nat, height: nat, heights: HeightWorld, online: bool, replies: seq<Response>, hits: Hits)
    ensures IsConducted(ch, FetchFlow(ch, height, heights, online, replies, hits))
  {
    var h := HeightFlow(ch, height, heights);
    HeightConducted(ch, height, heights);
    hide HeightFlow, HashFlow;
    if h.end.Done? {
      HashConducted(ch, h.end.value, online, replies, hits);
      Continues(ch, h.acts, HashFlow(ch, h.end.value, online, replies, hits));
    }
  }

  /** blockAndTx keeps to the automaton, whatever it meets: when it returns it is done with its channel. */
  lemma BlockConducted<B, R>(ch: nat, height: nat, heights: HeightWorld, hashes: HashWorld, hits: Hits, othersOnline: bool,
                             dec: OR.Decoders<B, R>, others: seq<Response>, query: R -> DS.Query, decodes: string -> bool,
                             network: string, stored: map<nat, string>)
    requires |others| <= 7
    ensures var f := BlockFlow(ch, height, heights, hashes, hits, othersOnline, dec, others, query, decodes, network, stored);
            IsConducted(ch, f) && !ExitOf(f.end).HandedOver?
  {
    var f := FetchFlow(ch, height, heights, hashes.online, hashes.replies, hits);
    FetchConducted(ch, height, heights, hashes.online, hashes.replies, hits);
    NeverHandedOver(ch, height, heights, hashes.online, hashes.replies, hits);
    hide FetchFlow, OthersFlow, MetadataFlow;
    if f.end.Done? {
      var o := OthersFlow(ch, f.end.value, othersOnline, dec, others);
      OthersConducted(ch, f.end.value, othersOnline, dec, others);
      OthersNeverHandedOver(ch, f.end.value, othersOnline, dec, others);
      Continues(ch, f.acts, o);
      if o.end.Done? {
        var m := MetadataFlow(ch, f.end.value.grandparent, query(o.end.value.runtime), decodes, network, stored);
        MetadataConducted(ch, f.end.value.grandparent, query(o.end.value.runtime), decodes, network, stored);
        MetadataNeverHandedOver(ch, f.end.value.grandparent, query(o.end.value.runtime), decodes, network, stored);
        Continues(ch, f.acts + o.acts, m);
      }
    }
  }

  lemma NeverHandedOver(ch: nat, height: nat, heights: HeightWorld, online: bool, replies: seq<Response>, hits: Hits)
    ensures !ExitOf(FetchFlow(ch, height, heights, online, replies, hits).end).HandedOver?
  {
  }

  lemma OthersNeverHandedOver<B, R>(ch: nat, f: Fetched, online: bool, dec: OR.Decoders<B, R>, replies: seq<Response>)
    ensures !ExitOf(OthersFlow(ch, f, online, dec, replies).end).HandedOver?
  {
  }

  lemma MetadataNeverHandedOver(ch: nat, block: string, q: DS.Query, decodes: string -> bool, network: string,
                                stored: map<nat, string>)
    ensures !ExitOf(MetadataFlow(ch, block, q, decodes, network, stored).end).HandedOver?
  {
  }

  lemma VersionConducted(ch: nat, x: Fetched, versionOnline: bool, version: Wait, query: string -> Option<DS.Query>,
                         decodes: string -> bool, network: string, stored: map<nat, string>, key: Option<string>,
                         accountOnline: bool, account: Wait)
    ensures IsConducted(ch, VersionPart(ch, x, versionOnline, version, query, decodes, network, stored, key,
                                        accountOnline, account))
  {
    var v := AskFlow(versionOnline, VersionRequest(x.block, ch), version);
    AskConducted(ch, versionOnline, VersionRequest(x.block, ch), version);
    hide AskFlow, MetadataFlow;
    if v.end.Done? && query(v.end.value).Some? {
      var q := query(v.end.value).value;
      var m := MetadataFlow(ch, x.block, q, decodes, network, stored);
      MetadataConducted(ch, x.block, q, decodes, network, stored);
      Continues(ch, v.acts, m);
      if m.end.Done? {
        AccountConducted(ch, x, q, m.end.value, key, accountOnline, account);
        Continues(ch, v.acts + m.acts, AccountPart(ch, x, q, m.end.value, key, accountOnline, account));
      }
    }
  }

  lemma AccountConducted(ch: nat, x: Fetched, q: DS.Query, metadata: string, key: Option<string>, online: bool, account: Wait)
    ensures IsConducted(ch, AccountPart(ch, x, q, metadata, key, online, account))
  {
    if key.Some? {
      AskConducted(ch, online, AccountRequest(key.value, x.block, ch), account);
    }
  }

  /** The same for GetAccount, which on a timeout leaves its channel to the cleanup. */
  lemma GetAccountConducted(ch: nat, height: nat, heights: HeightWorld, hashes: HashWorld, hits: Hits, versionOnline: bool,
                            version: Wait, query: string -> Option<DS.Query>, decodes: string -> bool, network: string,
                            stored: map<nat, string>, key: Option<string>, accountOnline: bool, account: Wait)
    ensures IsConducted(ch, AccountFlow(ch, height, heights, hashes, hits, versionOnline, version, query, decodes,
                                        network, stored, key, accountOnline, account))
  {
    var f := FetchFlow(ch, height, heights, hashes.online, hashes.replies, hits);
    FetchConducted(ch, height, heights, hashes.online, hashes.replies, hits);
    hide FetchFlow, VersionPart;
    if f.end.Done? {
      VersionConducted(ch, f.end.value, versionOnline, version, query, decodes, network, stored, key, accountOnline, account);
      Continues(ch, f.acts, VersionPart(ch, f.end.value, versionOnline, version, query, decodes, network, stored, key,
                                        accountOnline, account));
    }
  }

  /** So a flow that gives its channel back has read one reply for every request it sent, and one that
      hands it over is owed exactly one. */
  lemma ConductedBalance<T>(ch: nat, f: Flow<T>)
    requires IsConducted(ch, f)
    ensures f.end.Done? || f.end == Stopped(PutBack) ==> |Sent(f.acts)| == |ReadOf(f.acts)|
    ensures f.end == Stopped(HandedOver) ==> |Sent(f.acts)| == |ReadOf(f.acts)| + 1
  {
    SentIsReadPlusOwed(ch, f.acts);
  }
}
