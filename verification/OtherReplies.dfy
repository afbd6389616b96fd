/** getOthers of indexer/getBlock.go: seven requests on one channel, one loop over their replies. */
module OtherReplies {
  import opened Rpc
  import opened ReplyLoops
  import opened Batches

  /** The request ids, which double as the names of what the replies fill in. */
  const CHAIN := 2
  const BLOCK := 7
  const TIMESTAMP := 8
  const EVENTS := 9
  const FEE := 10
  const ERA := 11
  const RUNTIME := 13

  const FIELDS: set<nat> := {CHAIN, BLOCK, TIMESTAMP, EVENTS, FEE, ERA, RUNTIME}

  /** The parts of DecodeDataRequest that the replies fill in. */
  datatype Record = Record(chain: string, block: string, timestamp: string, events: string, nextFeeMultiplier: string,
                           currentEra: string, runtimeParent: string)

  const BLANK := Record("", "", "", "", "", "", "")

  /** json.Unmarshal of the two structured replies: the value left behind, and whether it was well formed. */
  datatype Decoders<!B, !R> = Decoders(noBlock: B, noRuntime: R, block: string -> (B, bool), runtime: string -> (R, bool))

  datatype OthersFault = NotConnected | FromNode(fault: Fault) | BadBlock | BadRuntime

  datatype Acc<B, R> = Acc(rec: Record, block: B, runtime: R, err: Option<OthersFault>)

  datatype Outcome<B, R> = Gathered(acc: Acc<B, R>, read: nat) | Waiting | Panicked | NotSent

  /** What a reply fills in: decided by its method, and by its id only for storage reads. */
  function FieldFor(r: Response): Option<nat> {
    if r.kind == "system_chain" then Some(CHAIN)
    else if r.kind == "chain_getBlock" then Some(BLOCK)
    else if r.kind == "state_getRuntimeVersion" then Some(RUNTIME)
    else if r.kind == "state_getStorage" && r.id in {FEE, ERA, TIMESTAMP, EVENTS} then Some(r.id)
    else None
  }

  predicate Breaks(r: Response) {
    r.error.None? && FieldFor(r).Some? && |r.result| < 2
  }

  function With(rec: Record, field: nat, x: string): Record {
    if field == CHAIN then rec.(chain := x)
    else if field == BLOCK then rec.(block := x)
    else if field == TIMESTAMP then rec.(timestamp := x)
    else if field == EVENTS then rec.(events := x)
    else if field == FEE then rec.(nextFeeMultiplier := x)
    else if field == ERA then rec.(currentEra := x)
    else rec.(runtimeParent := x)
  }

  function Field(rec: Record, field: nat): string {
    if field == CHAIN then rec.chain
    else if field == BLOCK then rec.block
    else if field == TIMESTAMP then rec.timestamp
    else if field == EVENTS then rec.events
    else if field == FEE then rec.nextFeeMultiplier
    else if field == ERA then rec.currentEra
    else rec.runtimeParent
  }

  /** One reply that is not an error. Decoding a block or a runtime version overwrites err. */
  function Filed<B, R>(dec: Decoders<B, R>, acc: Acc<B, R>, r: Response): Acc<B, R>
    requires r.error.None? && !Breaks(r)
  {
    match FieldFor(r)
    case None => acc
    case Some(f) =>
      var filed := acc.(rec := With(acc.rec, f, Unquote(r.result)));
      if f == BLOCK then
        filed.(block := dec.block(r.result).0, err := if dec.block(r.result).1 then None else Some(BadBlock))
      else if f == RUNTIME then
        filed.(runtime := dec.runtime(r.result).0, err := if dec.runtime(r.result).1 then None else Some(BadRuntime))
      else filed
  }

  function Fresh<B, R>(dec: Decoders<B, R>): Acc<B, R> {
    Acc(BLANK, dec.noBlock, dec.noRuntime, None)
  }

  function Uint8(n: nat): nat {
    n % 256
  }

  lemma CountsOn(n: nat)
    ensures Uint8(n + 1) == (Uint8(n) + 1) % 256
  {
  }

  /** The loop from its i-th reply on. Its own counter is a uint8. */
  function Loop<B, R>(dec: Decoders<B, R>, acc: Acc<B, R>, i: nat, replies: seq<Response>): Outcome<B, R>
    decreases |replies| - i
  {
    if i >= |replies| then Waiting
    else
      var r := replies[i];
      if Breaks(r) then Panicked
      else
        var acc' := if r.error.None? then Filed(dec, acc, r)
                    else if Uint8(i) == 7 then acc.(err := Some(FromNode(r.error.value))) else acc;
        match AfterOther(Uint8(i), r.error.Some?)
        case Return => Gathered(acc', i + 1)
        case Again(_) => Loop(dec, acc', i + 1, replies)
  }


  function OthersRequests(blockHash: string, parentHash: string, grandparentHash: string, ch: nat): seq<Request> {
    [Request(CHAIN, "", Call("system_chain", []), ch),
     Request(BLOCK, "", Call("chain_getBlock", [Text(blockHash)]), ch),
     Request(TIMESTAMP, "", Call("state_getStorage", [Key(TimeNow), Text(blockHash)]), ch),
     Request(EVENTS, "", Call("state_getStorage", [Key(SystemEvents), Text(blockHash)]), ch),
     Request(FEE, "", Call("state_getStorage", [Key(NextFeeMultiplier), Text(parentHash)]), ch),
     Request(ERA, "", Call("state_getStorage", [Key(CurrentEra), Text(parentHash)]), ch),
     Request(RUNTIME, "", Call("state_getRuntimeVersion", [Text(grandparentHash)]), ch)]
  }

  /** How many replies the loop takes, from the i-th on. */
  function ReadCount(replies: seq<Response>, i: nat): (n: nat)
    requires i <= |replies|
    ensures i <= n <= |replies|
    decreases |replies| - i
  {
    if i == |replies| then i
    else if Breaks(replies[i]) then i + 1
    else
      match AfterOther(Uint8(i), replies[i].error.Some?)
      case Return => i + 1
      case Again(_) => ReadCount(replies, i + 1)
  }

  /** Everything getOthers does with its channel. */
  function OthersActs(online: bool, reqs: seq<Request>, replies: seq<Response>): seq<Act> {
    [Begin(Others, reqs)]
    + (if !online then [SendRefused] else SendActs(reqs) + [StartReading] + ReadActs(replies, ReadCount(replies, 0)))
  }

  /** One turn of the loop. */
  lemma LoopTurns<B, R>(dec: Decoders<B, R>, acc: Acc<B, R>, i: nat, replies: seq<Response>)
    requires i < |replies|
    ensures Breaks(replies[i]) ==> Loop(dec, acc, i, replies) == Panicked && ReadCount(replies, i) == i + 1
    ensures !Breaks(replies[i]) ==>
              var failed := replies[i].error.Some?;
              var acc' := if !failed then Filed(dec, acc, replies[i])
                          else if Uint8(i) == 7 then acc.(err := Some(FromNode(replies[i].error.value))) else acc;
              var ends := Uint8(i) == (if failed then 7 else 6);
              && Loop(dec, acc, i, replies) == (if ends then Gathered(acc', i + 1) else Loop(dec, acc', i + 1, replies))
              && ReadCount(replies, i) == (if ends then i + 1 else ReadCount(replies, i + 1))
  {
  }

  /** What the loop does with a reply that is no error. */
  method FileReply<B, R>(dec: Decoders<B, R>, res: Response, rec: Record, block: B, runtime: R, err: Option<OthersFault>)
    returns (died: bool, rec': Record, block': B, runtime': R, err': Option<OthersFault>)
    requires res.error.None?
    ensures died <==> Breaks(res)
    ensures !died ==> Acc(rec', block', runtime', err') == Filed(dec, Acc(rec, block, runtime, err), res)
  {
    died, rec', block', runtime', err' := false, rec, block, runtime, err;
    match FieldFor(res)
    case None =>
    case Some(f) =>
      if |res.result| < 2 {
        died := true;
        return;
      }
      rec' := With(rec, f, Unquote(res.result));
      if f == BLOCK {
        var (b, ok) := dec.block(res.result);
        block', err' := b, if ok then None else Some(BadBlock);
      } else if f == RUNTIME {
        var (rv, ok) := dec.runtime(res.result);
        runtime', err' := rv, if ok then None else Some(BadRuntime);
      }
  }

  /** The calls that a list of acts sends, in order. */
  function CallsSent(acts: seq<Act>): seq<Call> {
    if acts == [] then []
    else
      var last := acts[|acts| - 1];
      CallsSent(acts[..|acts| - 1]) + (if last.Send? then [last.req.call] else [])
  }

  lemma {:induction false} CallsCompose(a: seq<Act>, b: seq<Act>)
    ensures CallsSent(a + b) == CallsSent(a) + CallsSent(b)
  {
    if b == [] {
      assert a + b == a;
    } else {
      assert (a + b)[..|a + b| - 1] == a + b[..|b| - 1];
      CallsCompose(a, b[..|b| - 1]);
    }
  }

  lemma {:induction false} ReadsSendNothing(replies: seq<Response>, n: nat)
    requires n <= |replies|
    ensures CallsSent(ReadActs(replies, n)) == []
  {
    if n > 0 {
      ReadMore(replies, n - 1);
      ReadsSendNothing(replies, n - 1);
      assert ReadActs(replies, n)[..n - 1] == ReadActs(replies, n - 1);
    }
  }

  lemma {:induction false} SendsSendThem(reqs: seq<Request>, n: nat)
    requires n <= |reqs|
    ensures |CallsSent(SendActs(reqs)[..n])| == n
    ensures forall j :: 0 <= j < n ==> CallsSent(SendActs(reqs)[..n])[j] == reqs[j].call
  {
    if n > 0 {
      SendsSendThem(reqs, n - 1);
      assert SendActs(reqs)[..n][..n - 1] == SendActs(reqs)[..n - 1];
    } else {
      assert SendActs(reqs)[..0] == [];
    }
  }

  /** The seven calls, and at which hash each of them asks. */
  lemma OthersSend(online: bool, blockHash: string, parentHash: string, grandparentHash: string, ch: nat,
                   replies: seq<Response>)
    ensures CallsSent(OthersActs(online, OthersRequests(blockHash, parentHash, grandparentHash, ch), replies))
            == if !online then [] else
                 [Call("system_chain", []),
                  Call("chain_getBlock", [Text(blockHash)]),
                  Call("state_getStorage", [Key(TimeNow), Text(blockHash)]),
                  Call("state_getStorage", [Key(SystemEvents), Text(blockHash)]),
                  Call("state_getStorage", [Key(NextFeeMultiplier), Text(parentHash)]),
                  Call("state_getStorage", [Key(CurrentEra), Text(parentHash)]),
                  Call("state_getRuntimeVersion", [Text(grandparentHash)])]
  {
    var reqs := OthersRequests(blockHash, parentHash, grandparentHash, ch);
    var n := ReadCount(replies, 0);
    var begin: seq<Act> := [Begin(Others, reqs)];
    assert CallsSent(begin[..0]) == [] && CallsSent(begin) == [];
    if online {
      SendsSendThem(reqs, 7);
      assert SendActs(reqs)[..7] == SendActs(reqs);
      var start: seq<Act> := [StartReading];
      assert CallsSent(start[..0]) == [] && CallsSent(start) == [];
      ReadsSendNothing(replies, n);
      hide CallsSent, ReadActs, SendActs;
      CallsCompose(begin, SendActs(reqs));
      CallsCompose(begin + SendActs(reqs), start);
      CallsCompose(begin + SendActs(reqs) + start, ReadActs(replies, n));
      assert OthersActs(online, reqs, replies) == begin + SendActs(reqs) + start + ReadActs(replies, n);
    } else {
      assert OthersActs(online, reqs, replies) == begin + [SendRefused];
      assert (begin + [SendRefused])[..1] == begin;
    }
  }

  method GetOthers<B, R>(blockHash: string, parentHash: string, grandparentHash: string, ch: nat, online: bool,
                         dec: Decoders<B, R>, replies: seq<Response>)
    returns (out: Outcome<B, R>, acts: seq<Act>)
    ensures acts == OthersActs(online, OthersRequests(blockHash, parentHash, grandparentHash, ch), replies)
    ensures out == if online then Loop(dec, Fresh(dec), 0, replies) else NotSent
    ensures CallsSent(acts) == if !online then [] else
              [Call("system_chain", []),
               Call("chain_getBlock", [Text(blockHash)]),
               Call("state_getStorage", [Key(TimeNow), Text(blockHash)]),
               Call("state_getStorage", [Key(SystemEvents), Text(blockHash)]),
               Call("state_getStorage", [Key(NextFeeMultiplier), Text(parentHash)]),
               Call("state_getStorage", [Key(CurrentEra), Text(parentHash)]),
               Call("state_getRuntimeVersion", [Text(grandparentHash)])]
  {
    OthersSend(online, blockHash, parentHash, grandparentHash, ch, replies);
    hide CallsSent;
    var reqs := OthersRequests(blockHash, parentHash, grandparentHash, ch);
    acts := [Begin(Others, reqs)];
    if !online { return NotSent, acts + [SendRefused]; }
    acts := acts + SendActs(reqs) + [StartReading];
    ghost var asked := acts;
    assert ReadActs(replies, 0) == [];
    assert Uint8(0) == 0;
    hide Uint8, OthersRequests, Filed, FieldFor, ReadActs, SendActs, Loop, ReadCount;
    var rec, block, runtime := BLANK, dec.noBlock, dec.noRuntime;
    var err: Option<OthersFault> := None;
    var i: nat := 0;
    for n := 0 to |replies|
      invariant i == Uint8(n)
      invariant acts == asked + ReadActs(replies, n) && ReadCount(replies, 0) == ReadCount(replies, n)
      invariant Loop(dec, Fresh(dec), 0, replies) == Loop(dec, Acc(rec, block, runtime, err), n, replies)
    {
      var res := replies[n];
      acts := acts + [Read(res)];
      ReadMore(replies, n);
      CountsOn(n);
      LoopTurns(dec, Acc(rec, block, runtime, err), n, replies);
      if res.error.Some? {
        if i == 7 {
          return Gathered(Acc(rec, block, runtime, Some(FromNode(res.error.value))), n + 1), acts;
        }
        i := (i + 1) % 256;
        continue;
      }
      var died;
      died, rec, block, runtime, err := FileReply(dec, res, rec, block, runtime, err);
      if died { return Panicked, acts; }
      if i == 6 {
        return Gathered(Acc(rec, block, runtime, err), n + 1), acts;
      }
      i := (i + 1) % 256;
    }
    return Waiting, acts;
  }

  // ----- when the loop ends

  lemma {:induction false} NeverReturnsAfterEight<B, R>(dec: Decoders<B, R>, acc: Acc<B, R>, i: nat, replies: seq<Response>)
    requires 8 <= i && |replies| <= 262
    ensures !Loop(dec, acc, i, replies).Gathered?
    decreases |replies| - i
  {
    if i < |replies| {
      var r := replies[i];
      if !Breaks(r) {
        NeverReturnsAfterEight(dec, if r.error.None? then Filed(dec, acc, r) else acc, i + 1, replies);
      }
    }
  }

  /** The fold of the first n replies, errors skipped. */
  function FiledAll<B, R>(dec: Decoders<B, R>, replies: seq<Response>): Acc<B, R>
    requires forall r <- replies :: !Breaks(r)
  {
    if replies == [] then Fresh(dec)
    else
      var acc := FiledAll(dec, replies[..|replies| - 1]);
      var last := replies[|replies| - 1];
      if last.error.None? then Filed(dec, acc, last) else acc
  }

  lemma {:induction false} LoopReaches<B, R>(dec: Decoders<B, R>, replies: seq<Response>, i: nat)
    requires forall r <- replies :: !Breaks(r)
    requires i <= |replies| && i <= 6
    ensures Loop(dec, Fresh(dec), 0, replies) == Loop(dec, FiledAll(dec, replies[..i]), i, replies)
  {
    if i > 0 {
      LoopReaches(dec, replies, i - 1);
      assert replies[..i][..i - 1] == replies[..i - 1];
      assert replies[i - 1] in replies;
    }
  }

  /** A run over seven replies returns if and only if the seventh is not an error, and has then read all
      seven. With an error as the seventh reply it waits for an eighth, which never comes on a channel
      with seven requests; if one did come, only a second error in a row would end the loop, until the
      counter comes round after 262 replies. */
  lemma ReturnsIffSeventhSucceeds<B, R>(dec: Decoders<B, R>, replies: seq<Response>)
    requires (forall r <- replies :: !Breaks(r)) && |replies| <= 262
    ensures var out := Loop(dec, Fresh(dec), 0, replies);
            if |replies| >= 7 && replies[6].error.None? then
              out == Gathered(FiledAll(dec, replies[..7]), 7)
            else if |replies| >= 8 && replies[7].error.Some? then
              out == Gathered(FiledAll(dec, replies[..6]).(err := Some(FromNode(replies[7].error.value))), 8)
            else out == Waiting
  {
    hide Filed, Breaks;
    if |replies| <= 6 {
      LoopReaches(dec, replies, |replies|);
    } else {
      LoopReaches(dec, replies, 6);
      assert replies[..7][..6] == replies[..6];
      assert replies[6] in replies;
      if replies[6].error.Some? {
        AfterSeventhError(dec, FiledAll(dec, replies[..6]), replies);
      }
      hide AfterOther;
    }
  }

  /** The seventh reply was an error: only another error ends the loop. */
  lemma AfterSeventhError<B, R>(dec: Decoders<B, R>, acc: Acc<B, R>, replies: seq<Response>)
    requires (forall r <- replies :: !Breaks(r)) && 7 <= |replies| <= 262 && replies[6].error.Some?
    ensures Loop(dec, acc, 6, replies)
            == (if |replies| >= 8 && replies[7].error.Some?
                then Gathered(acc.(err := Some(FromNode(replies[7].error.value))), 8) else Waiting)
  {
    hide Filed;
    assert replies[6] in replies && Loop(dec, acc, 6, replies) == Loop(dec, acc, 7, replies);
    if |replies| >= 8 {
      assert replies[7] in replies;
      if replies[7].error.None? {
        NeverReturnsAfterEight(dec, Filed(dec, acc, replies[7]), 8, replies);
        NeverBreaks(dec, Filed(dec, acc, replies[7]), 8, replies);
      }
    }
  }

  lemma {:induction false} NeverBreaks<B, R>(dec: Decoders<B, R>, acc: Acc<B, R>, i: nat, replies: seq<Response>)
    requires forall r <- replies :: !Breaks(r)
    ensures !Loop(dec, acc, i, replies).Panicked? && !Loop(dec, acc, i, replies).NotSent?
    decreases |replies| - i
  {
    if i < |replies| {
      var r := replies[i];
      assert r in replies;
      var acc' := if r.error.None? then Filed(dec, acc, r)
                  else if Uint8(i) == 7 then acc.(err := Some(FromNode(r.error.value))) else acc;
      NeverBreaks(dec, acc', i + 1, replies);
    }
  }

  lemma {:induction false} PanicsFrom<B, R>(dec: Decoders<B, R>, acc: Acc<B, R>, i: nat, replies: seq<Response>)
    requires i <= |replies|
    ensures Loop(dec, acc, i, replies).Panicked? <==>
            exists k :: i <= k < ReadCount(replies, i) && Breaks(replies[k])
    decreases |replies| - i
  {
    if i < |replies| && !Breaks(replies[i]) {
      var r := replies[i];
      var acc' := if r.error.None? then Filed(dec, acc, r)
                  else if Uint8(i) == 7 then acc.(err := Some(FromNode(r.error.value))) else acc;
      PanicsFrom(dec, acc', i + 1, replies);
    } else if i < |replies| {
      assert Breaks(replies[i]);
    }
  }

  lemma {:induction false} BreakIsReached(replies: seq<Response>, i: nat, k: nat)
    requires i <= k < |replies| <= 7 && Breaks(replies[k])
    ensures exists j :: i <= j < ReadCount(replies, i) && Breaks(replies[j])
    decreases k - i
  {
    if i < k && !Breaks(replies[i]) {
      BreakIsReached(replies, i + 1, k);
    } else {
      assert Breaks(replies[i]);
    }
  }

  /** The call kills the process if and only if one of the replies to its seven requests names a field
      without an error and with less than two bytes. The error object of a reply is not decoded, so this is
      what an error of the node to any of the seven requests does. */
  lemma PanicsIff<B, R>(dec: Decoders<B, R>, replies: seq<Response>)
    requires |replies| <= 7
    ensures Loop(dec, Fresh(dec), 0, replies).Panicked? <==> exists k :: 0 <= k < |replies| && Breaks(replies[k])
    ensures forall k :: 0 <= k < |replies| && FieldFor(replies[k]).Some? && replies[k].error == None && replies[k].result == ""
              ==> Breaks(replies[k])
  {
    PanicsFrom(dec, Fresh(dec), 0, replies);
    if exists k :: 0 <= k < |replies| && Breaks(replies[k]) {
      var k :| 0 <= k < |replies| && Breaks(replies[k]);
      BreakIsReached(replies, 0, k);
    }
  }

  // ----- what the loop returns

  /** The fields that some reply without error fills in. */
  ghost function Told(replies: seq<Response>): set<nat> {
    set r | r in replies && r.error.None? && FieldFor(r).Some? :: FieldFor(r).value
  }

  /** Every reply without error carries the node's answer for its field. */
  ghost predicate AreOwn(answers: nat -> string, replies: seq<Response>) {
    forall k :: 0 <= k < |replies| && replies[k].error.None? && FieldFor(replies[k]).Some? ==>
      replies[k].result == answers(FieldFor(replies[k]).value)
  }

  /** No answer is too short to be cut. */
  ghost predicate AreLong(answers: nat -> string) {
    forall f <- FIELDS :: 2 <= |answers(f)|
  }

  ghost predicate WellFormed<B, R>(dec: Decoders<B, R>, answers: nat -> string) {
    AreLong(answers) && dec.block(answers(BLOCK)).1 && dec.runtime(answers(RUNTIME)).1
  }

  lemma FieldsAreFields(r: Response)
    ensures FieldFor(r).Some? ==> FieldFor(r).value in FIELDS
  {
  }

  lemma NoneBreaks(answers: nat -> string, replies: seq<Response>)
    requires AreLong(answers) && AreOwn(answers, replies)
    ensures forall r <- replies :: !Breaks(r)
  {
    forall r | r in replies ensures !Breaks(r) {
      var k :| 0 <= k < |replies| && replies[k] == r;
      FieldsAreFields(r);
    }
  }

  lemma FieldOfWith(rec: Record, f: nat, x: string, g: nat)
    requires f in FIELDS && g in FIELDS
    ensures Field(With(rec, f, x), g) == if f == g then x else Field(rec, g)
  {
  }

  /** acc has what the replies named by told leave in the fields, whatever their order. */
  ghost predicate FieldsHold<B, R>(dec: Decoders<B, R>, answers: nat -> string, told: set<nat>, acc: Acc<B, R>)
    requires AreLong(answers)
  {
    && (forall f <- FIELDS :: Field(acc.rec, f) == if f in told then Unquote(answers(f)) else "")
    && acc.block == (if BLOCK in told then dec.block(answers(BLOCK)).0 else dec.noBlock)
    && acc.runtime == (if RUNTIME in told then dec.runtime(answers(RUNTIME)).0 else dec.noRuntime)
  }

  /** The same, and no error with well-formed answers. */
  ghost predicate Holds<B, R>(dec: Decoders<B, R>, answers: nat -> string, told: set<nat>, acc: Acc<B, R>)
    requires AreLong(answers)
  {
    FieldsHold(dec, answers, told, acc) && (WellFormed(dec, answers) ==> acc.err == None)
  }

  lemma FiledHolds<B, R>(dec: Decoders<B, R>, answers: nat -> string, told: set<nat>, acc: Acc<B, R>, r: Response, f: nat)
    requires AreLong(answers) && Holds(dec, answers, told, acc)
    requires r.error.None? && !Breaks(r) && FieldFor(r) == Some(f) && f in FIELDS && r.result == answers(f)
    ensures Holds(dec, answers, told + {f}, Filed(dec, acc, r))
  {
    var acc' := Filed(dec, acc, r);
    forall g | g in FIELDS ensures Field(acc'.rec, g) == if g in told + {f} then Unquote(answers(g)) else "" {
      FieldOfWith(acc.rec, f, Unquote(r.result), g);
    }
  }

  /** After any replies, in any order, each field holds its own reply, or is blank when that reply is
      missing or was an error; errors leave no other trace. */
  lemma {:induction false} FieldsHoldTheirReplies<B, R>(dec: Decoders<B, R>, answers: nat -> string, replies: seq<Response>)
    requires AreLong(answers) && AreOwn(answers, replies)
    requires forall r <- replies :: !Breaks(r)
    ensures Holds(dec, answers, Told(replies), FiledAll(dec, replies))
  {
    if replies != [] {
      var front, last := replies[..|replies| - 1], replies[|replies| - 1];
      FieldsHoldTheirReplies(dec, answers, front);
      assert replies == front + [last];
      FieldsAreFields(last);
      if last.error.None? && FieldFor(last).Some? {
        assert Told(replies) == Told(front) + {FieldFor(last).value};
        FiledHolds(dec, answers, Told(front), FiledAll(dec, front), last, FieldFor(last).value);
      } else {
        assert Told(replies) == Told(front);
      }
    }
  }

  /** The record, block and runtime version that the seven answers make, read in full and without error. */
  ghost function Whole<B, R>(dec: Decoders<B, R>, answers: nat -> string): Outcome<B, R>
    requires AreLong(answers)
  {
    Gathered(Acc(Record(Unquote(answers(CHAIN)), Unquote(answers(BLOCK)), Unquote(answers(TIMESTAMP)),
                        Unquote(answers(EVENTS)), Unquote(answers(FEE)), Unquote(answers(ERA)), Unquote(answers(RUNTIME))),
                 dec.block(answers(BLOCK)).0, dec.runtime(answers(RUNTIME)).0, None), 7)
  }

  lemma RecordIs(rec: Record, answers: nat -> string)
    requires AreLong(answers) && forall f <- FIELDS :: Field(rec, f) == Unquote(answers(f))
    ensures rec == Record(Unquote(answers(CHAIN)), Unquote(answers(BLOCK)), Unquote(answers(TIMESTAMP)),
                          Unquote(answers(EVENTS)), Unquote(answers(FEE)), Unquote(answers(ERA)), Unquote(answers(RUNTIME)))
  {
    assert CHAIN in FIELDS && BLOCK in FIELDS && TIMESTAMP in FIELDS && EVENTS in FIELDS && FEE in FIELDS
           && ERA in FIELDS && RUNTIME in FIELDS;
  }

  /** Seven successful replies, in any order: the call returns this one record, block and runtime version, and
      no error if the block and the version are well formed. */
  lemma SevenSuccesses<B, R>(dec: Decoders<B, R>, answers: nat -> string, replies: seq<Response>)
    requires AreLong(answers) && AreOwn(answers, replies)
    requires |replies| == 7 && Told(replies) == FIELDS && (forall r <- replies :: r.error.None?)
    ensures var out, whole := Loop(dec, Fresh(dec), 0, replies), Whole(dec, answers);
            && out.Gathered? && out.read == 7 && out.acc.(err := None) == whole.acc
            && (WellFormed(dec, answers) ==> out == whole)
  {
    hide Loop, FiledAll, Filed, Field;
    NoneBreaks(answers, replies);
    ReturnsIffSeventhSucceeds(dec, replies);
    assert replies[..7] == replies;
    assert replies[6] in replies;
    FieldsHoldTheirReplies(dec, answers, replies);
    hide Told;
    RecordIs(FiledAll(dec, replies).rec, answers);
  }

  /** For every permutation of the seven successful, well-formed replies the call returns this one record,
      block and runtime version, and no error. */
  lemma RepliesInAnyOrder<B, R>(dec: Decoders<B, R>, answers: nat -> string, replies: seq<Response>)
    requires WellFormed(dec, answers) && AreOwn(answers, replies)
    requires |replies| == 7 && Told(replies) == FIELDS && (forall r <- replies :: r.error.None?)
    ensures Loop(dec, Fresh(dec), 0, replies) == Whole(dec, answers)
  {
    SevenSuccesses(dec, answers, replies);
  }

  /** An error reply among the first six goes unnoticed: the call returns without error and with that
      field blank. */
  lemma EarlyErrorIsSwallowed<B, R>(dec: Decoders<B, R>, answers: nat -> string, replies: seq<Response>, f: nat)
    requires WellFormed(dec, answers) && AreOwn(answers, replies)
    requires |replies| == 7 && replies[6].error.None? && f in FIELDS && f !in Told(replies)
    ensures var out := Loop(dec, Fresh(dec), 0, replies);
            out.Gathered? && out.acc.err == None && Field(out.acc.rec, f) == ""
  {
    NoneBreaks(answers, replies);
    ReturnsIffSeventhSucceeds(dec, replies);
    assert replies[..7] == replies;
    FieldsHoldTheirReplies(dec, answers, replies);
  }

  predicate IsParsed(r: Response) {
    r.error.None? && FieldFor(r).Some? && (FieldFor(r).value == BLOCK || FieldFor(r).value == RUNTIME)
  }

  predicate ParsesWell<B, R>(dec: Decoders<B, R>, r: Response)
    requires IsParsed(r)
  {
    if FieldFor(r).value == BLOCK then dec.block(r.result).1 else dec.runtime(r.result).1
  }

  /** Without well-formed replies the error depends on the order: it is reported if and only if the last
      of the block and runtime replies is malformed, for the later one overwrites what the earlier left. */
  lemma {:induction false} ErrorIffLastParseFails<B, R>(dec: Decoders<B, R>, replies: seq<Response>)
    requires forall r <- replies :: !Breaks(r)
    ensures FiledAll(dec, replies).err.Some? <==>
            exists k :: 0 <= k < |replies| && IsParsed(replies[k]) && !ParsesWell(dec, replies[k])
                        && forall j :: k < j < |replies| ==> !IsParsed(replies[j])
  {
    if replies != [] {
      var n := |replies| - 1;
      ErrorIffLastParseFails(dec, replies[..n]);
      assert forall k :: 0 <= k < n ==> replies[..n][k] == replies[k];
    }
  }
}
