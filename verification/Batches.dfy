/** How a caller uses the channel it borrowed, one batch of requests after the other: what it asks, when it
    starts to read, and when it has read enough. Both the interleaved system and the sequential flows
    follow this automaton. */
module Batches {
  import opened Rpc
  import opened ReplyLoops

  const REQUEST_BLOCK_HASH := 1
  const REQUEST_FINALIZED_HEAD := 3
  const REQUEST_TOP_HEADER := 4
  const REQUEST_PARENT_BLOCK_HASH := 5
  const REQUEST_GRANDPARENT_BLOCK_HASH := 6

  /** The capacity of the channels of the pool. */
  const CAPACITY := 20

  /** What the lookups of GetBlockHashes found; the third one looks for the parent again. */
  datatype Hits = Hits(own: Option<string>, parent: Option<string>, third: Option<string>)

  function NoHits(): Hits {
    Hits(None, None, None)
  }

  function HashRequest(id: nat, height: nat, ch: nat): Request {
    Request(id, "", Call("chain_getBlockHash", [Number(height)]), ch)
  }

  function HeadRequest(ch: nat): Request {
    Request(REQUEST_FINALIZED_HEAD, "", Call("chain_getFinalizedHead", []), ch)
  }

  function HeaderRequest(head: string, ch: nat): Request {
    Request(REQUEST_TOP_HEADER, "", Call("chain_getHeader", [Text(head)]), ch)
  }

  // ----- the lookups of GetBlockHashes

  /** How many lookups a height takes. */
  function Lookups(height: nat): nat {
    if height == 0 then 1 else if height == 1 then 2 else 3
  }

  /** The height that lookup k asks the cache for: the parent's again for the grandparent. */
  function LookupHeight(height: nat, k: nat): nat
    requires k < Lookups(height)
  {
    if k == 0 then height else height - 1
  }

  function HitAt(hits: Hits, k: nat): Option<string> {
    if k == 0 then hits.own else if k == 1 then hits.parent else hits.third
  }

  function WithHit(hits: Hits, k: nat, hit: Option<string>): Hits {
    if k == 0 then hits.(own := hit) else if k == 1 then hits.(parent := hit) else hits.(third := hit)
  }

  /** What is asked of the node when lookup k finds nothing. */
  function RequestFor(height: nat, k: nat, ch: nat): Request
    requires k < Lookups(height)
  {
    if k == 0 then HashRequest(REQUEST_BLOCK_HASH, height, ch)
    else if k == 1 then HashRequest(REQUEST_PARENT_BLOCK_HASH, height - 1, ch)
    else HashRequest(REQUEST_GRANDPARENT_BLOCK_HASH, height - 2, ch)
  }

  /** The requests that the first k lookups bring about. */
  function RequestsUpTo(height: nat, hits: Hits, k: nat, ch: nat): (reqs: seq<Request>)
    requires k <= Lookups(height)
    ensures |reqs| <= k && forall j :: 0 <= j < |reqs| ==> reqs[j].ch == ch
  {
    if k == 0 then []
    else RequestsUpTo(height, hits, k - 1, ch) + (if HitAt(hits, k - 1).None? then [RequestFor(height, k - 1, ch)] else [])
  }

  function HashRequests(height: nat, hits: Hits, ch: nat): (reqs: seq<Request>)
    ensures |reqs| <= 3
  {
    RequestsUpTo(height, hits, Lookups(height), ch)
  }

  /** A later lookup does not change what the earlier ones asked for. */
  lemma {:induction false} LaterHit(height: nat, hits: Hits, k: nat, n: nat, hit: Option<string>, ch: nat)
    requires k <= n < Lookups(height)
    ensures RequestsUpTo(height, WithHit(hits, n, hit), k, ch) == RequestsUpTo(height, hits, k, ch)
  {
    if k > 0 {
      LaterHit(height, hits, k - 1, n, hit, ch);
    }
  }

  // ----- the automaton

  /** hits and looked say what the lookups of a hash batch have found so far. */
  datatype Kind = Hashes(height: nat, hits: Hits, looked: nat) | Others | Single

  predicate GoodBatch(kind: Kind, reqs: seq<Request>, ch: nat) {
    && (forall j :: 0 <= j < |reqs| ==> reqs[j].ch == ch)
    && match kind
       case Hashes(height, hits, looked) => looked <= Lookups(height) && reqs == RequestsUpTo(height, hits, looked, ch)
       case Others => |reqs| == 7
       case Single => |reqs| == 1
  }

  /** A hash batch begins empty, before its first lookup. */
  predicate CanBegin(kind: Kind, reqs: seq<Request>, ch: nat) {
    GoodBatch(kind, reqs, ch) && (kind.Hashes? ==> kind.hits == NoHits() && kind.looked == 0)
  }

  /** Every lookup is done; the other kinds make none. */
  predicate AllLooked(kind: Kind) {
    kind.Hashes? ==> kind.looked == Lookups(kind.height)
  }

  predicate CanLookUp(kind: Kind) {
    kind.Hashes? && kind.looked < Lookups(kind.height)
  }

  function LookedUp(kind: Kind, hit: Option<string>): Kind
    requires CanLookUp(kind)
  {
    Hashes(kind.height, WithHit(kind.hits, kind.looked, hit), kind.looked + 1)
  }

  function AskedAfter(kind: Kind, hit: Option<string>, reqs: seq<Request>, ch: nat): seq<Request>
    requires CanLookUp(kind)
  {
    if hit.None? then reqs + [RequestFor(kind.height, kind.looked, ch)] else reqs
  }

  /** What the code does with a reply it just read, the got-th of n requests. */
  function VerdictOn(kind: Kind, n: nat, got: nat, failed: bool): Verdict {
    match kind
    case Hashes(_, _, _) => AfterHash(n, got)
    case Others => AfterOther(got, failed)
    case Single => Return
  }

  /** Resting: nothing is under way. Asking: sent of the requests were sent. Reading: got replies were read.
      Leaving: the wait for a single reply was given up. */
  datatype Stage =
    | Resting
    | Asking(kind: Kind, reqs: seq<Request>, sent: nat)
    | Reading(kind: Kind, reqs: seq<Request>, got: nat)
    | Leaving

  datatype Act =
    | Begin(kind: Kind, reqs: seq<Request>)
    | LookUp(hit: Option<string>)
    | Send(req: Request)
    | SendRefused
    | StartReading
    | AllHit
    | Read(resp: Response)
    | GiveUp

  /** The stage after an act on channel ch, if the act is in order there. */
  function Advance(ch: nat, st: Stage, act: Act): Option<Stage> {
    match act
    case Begin(kind, reqs) =>
      if st.Resting? && CanBegin(kind, reqs, ch) then Some(Asking(kind, reqs, 0)) else None
    case LookUp(hit) =>
      if st.Asking? && st.sent == |st.reqs| && CanLookUp(st.kind)
      then Some(Asking(LookedUp(st.kind, hit), AskedAfter(st.kind, hit, st.reqs, ch), st.sent)) else None
    case Send(req) =>
      if st.Asking? && st.sent < |st.reqs| && st.reqs[st.sent] == req then Some(st.(sent := st.sent + 1)) else None
    case SendRefused => if st.Asking? && st.sent == 0 < |st.reqs| then Some(Resting) else None
    case StartReading =>
      if st.Asking? && st.sent == |st.reqs| > 0 && AllLooked(st.kind) then Some(Reading(st.kind, st.reqs, 0)) else None
    case AllHit => if st.Asking? && st.reqs == [] && AllLooked(st.kind) then Some(Resting) else None
    case Read(resp) =>
      if st.Reading? && st.got < |st.reqs| then
        match VerdictOn(st.kind, |st.reqs|, st.got, resp.error.Some?)
        case Return => Some(Resting)
        case Again(i) => Some(st.(got := i))
      else None
    case GiveUp => if st.Reading? && st.kind.Single? then Some(Leaving) else None
  }

  function AdvanceAll(ch: nat, st: Stage, acts: seq<Act>): Option<Stage> {
    if acts == [] then Some(st)
    else
      match AdvanceAll(ch, st, acts[..|acts| - 1])
      case None => None
      case Some(mid) => Advance(ch, mid, acts[|acts| - 1])
  }

  lemma {:induction false} ActsCompose(ch: nat, st: Stage, a: seq<Act>, b: seq<Act>)
    ensures AdvanceAll(ch, st, a + b)
            == match AdvanceAll(ch, st, a) case None => None case Some(mid) => AdvanceAll(ch, mid, b)
  {
    if b == [] {
      assert a + b == a;
    } else {
      assert (a + b)[..|a + b| - 1] == a + b[..|b| - 1];
      ActsCompose(ch, st, a, b[..|b| - 1]);
    }
  }

  // ----- sending and reading balance

  function Sent(acts: seq<Act>): seq<Request> {
    if acts == [] then []
    else
      var last := acts[|acts| - 1];
      Sent(acts[..|acts| - 1]) + (if last.Send? then [last.req] else [])
  }

  function ReadOf(acts: seq<Act>): seq<Response> {
    if acts == [] then []
    else
      var last := acts[|acts| - 1];
      ReadOf(acts[..|acts| - 1]) + (if last.Read? then [last.resp] else [])
  }

  function ReadActs(replies: seq<Response>, n: nat): (acts: seq<Act>)
    requires n <= |replies|
    ensures |acts| == n
  {
    seq(n, i requires 0 <= i < n => Read(replies[i]))
  }

  lemma ReadMore(replies: seq<Response>, n: nat)
    requires n < |replies|
    ensures ReadActs(replies, 0) == [] && ReadActs(replies, n + 1) == ReadActs(replies, n) + [Read(replies[n])]
  {
  }

  function SendActs(reqs: seq<Request>): (acts: seq<Act>)
    ensures |acts| == |reqs|
  {
    seq(|reqs|, j requires 0 <= j < |reqs| => Send(reqs[j]))
  }

  /** One request with its reply, if one comes. */
  function AskOne(online: bool, req: Request, reply: Option<Response>): seq<Act> {
    if !online then [Begin(Single, [req]), SendRefused]
    else [Begin(Single, [req]), Send(req), StartReading] + (if reply.Some? then [Read(reply.value)] else [])
  }

  predicate StageOk(ch: nat, st: Stage) {
    match st
    case Asking(kind, reqs, sent) => GoodBatch(kind, reqs, ch) && sent <= |reqs|
    case Reading(kind, reqs, got) =>
      && GoodBatch(kind, reqs, ch) && AllLooked(kind) && got <= |reqs|
      && (!kind.Others? ==> got < |reqs|)
    case _ => true
  }

  /** The requests sent in this batch whose replies were not read yet. */
  function Owed(st: Stage): int {
    match st
    case Resting => 0
    case Asking(_, _, sent) => sent
    case Reading(_, reqs, got) => |reqs| - got
    case Leaving => 1
  }

  lemma LookUpKeeps(ch: nat, kind: Kind, reqs: seq<Request>, hit: Option<string>)
    requires GoodBatch(kind, reqs, ch) && CanLookUp(kind)
    ensures GoodBatch(LookedUp(kind, hit), AskedAfter(kind, hit, reqs, ch), ch)
    ensures reqs <= AskedAfter(kind, hit, reqs, ch)
  {
    LaterHit(kind.height, kind.hits, kind.looked, kind.looked, hit, ch);
  }

  lemma AdvanceKeeps(ch: nat, st: Stage, act: Act)
    requires StageOk(ch, st) && Advance(ch, st, act).Some?
    ensures var st' := Advance(ch, st, act).value;
            && StageOk(ch, st')
            && Owed(st') == Owed(st) + (if act.Send? then 1 else 0) - (if act.Read? then 1 else 0)
  {
    hide RequestsUpTo;
    match act
    case LookUp(hit) =>
      LookUpKeeps(ch, st.kind, st.reqs, hit);
      hide GoodBatch, LookedUp, AskedAfter;
    case Read(resp) => hide CanBegin;
    case Send(_) => hide GoodBatch;
    case _ =>
  }

  /** Conservation: on any path the requests sent are the replies read plus those still owed. A path that
      comes back to rest has read one reply for every request, whatever the replies were; one that gave
      up is owed exactly one. */
  lemma {:induction false} SentIsReadPlusOwed(ch: nat, acts: seq<Act>)
    requires AdvanceAll(ch, Resting, acts).Some?
    ensures var st := AdvanceAll(ch, Resting, acts).value;
            StageOk(ch, st) && |Sent(acts)| == |ReadOf(acts)| + Owed(st)
  {
    hide Advance, StageOk, Owed;
    if acts == [] {
      RestIsOk(ch);
    } else {
      var front, last := acts[..|acts| - 1], acts[|acts| - 1];
      SentIsReadPlusOwed(ch, front);
      AdvanceKeeps(ch, AdvanceAll(ch, Resting, front).value, last);
    }
  }

  lemma RestIsOk(ch: nat)
    ensures StageOk(ch, Resting) && Owed(Resting) == 0
  {
  }

  lemma {:induction false} SentCompose(a: seq<Act>, b: seq<Act>)
    ensures Sent(a + b) == Sent(a) + Sent(b) && ReadOf(a + b) == ReadOf(a) + ReadOf(b)
  {
    if b == [] {
      assert a + b == a;
    } else {
      assert (a + b)[..|a + b| - 1] == a + b[..|b| - 1];
      SentCompose(a, b[..|b| - 1]);
    }
  }
}
