/** The metadata decoder store of api/scale/scale.go and GetMetadata of indexer/getBlock.go. */
module DecodeStore {
  import opened Rpc
  import opened Batches

  const REQUEST_PARENT_METADATA := 12

  /** The raw metadata of the chain, by spec version: fixed. */
  type Metadata = nat -> string

  /** MDecoder: the bytes of the metadata, in a buffer of its own; the decoder made of them is left out. */
  class MDecoder {
    const spec: nat
    const bytes: array<char>

    constructor (spec: nat, bytes: array<char>)
      ensures this.spec == spec && this.bytes == bytes
    {
      this.spec, this.bytes := spec, bytes;
    }
  }

  method Buffer(text: string) returns (to: array<char>)
    ensures fresh(to) && to[..] == text
  {
    to := new char[|text|](i requires 0 <= i < |text| => text[i]);
  }

  datatype Lookup = Found(md: MDecoder) | NotStored | WrongNetwork

  datatype Answer =
    | Bytes(bytes: string)
    | NetworkMismatch
    | NotConnected
    | FromNode(fault: Fault)
    | BadMetadata
    | Waiting
    | Panicked

  class DecodeStorage {
    var specName: string
    var decoders: map<nat, MDecoder>
    /** The buffers of the decoders ever stored. */
    ghost var buffers: set<array<char>>

    ghost predicate Valid()
      reads this, buffers
    {
      forall v <- decoders :: decoders[v].spec == v && decoders[v].bytes in buffers
    }

    /** What is stored, by spec version. */
    ghost function Contents(): map<nat, string>
      reads this, buffers
      requires Valid()
    {
      map v | v in decoders :: decoders[v].bytes[..]
    }

    constructor ()
      ensures Valid() && Contents() == map[] && fresh(buffers) && specName == ""
    {
      specName, decoders, buffers := "", map[], {};
    }

    /** Sets the network; the type registry it loads is left out. */
    method Init(name: string)
      requires Valid()
      modifies this`specName
      ensures Valid() && specName == name && Contents() == old(Contents())
    {
      specName := name;
    }

    method GetMDecoder(name: string, version: nat) returns (r: Lookup)
      requires Valid()
      ensures r.WrongNetwork? <==> name != specName
      ensures r.Found? <==> name == specName && version in Contents()
      ensures r.Found? ==> r.md == decoders[version] && r.md.bytes[..] == Contents()[version]
    {
      if specName != name { return WrongNetwork; }
      if version in decoders { return Found(decoders[version]); }
      return NotStored;
    }

    /** Copies the metadata into a fresh buffer, so that the caller may reuse its own. Metadata that
        cannot be decoded is not stored. */
    method SetMetadataDecoder(version: nat, metadata: array<char>, decodes: string -> bool) returns (r: Option<MDecoder>)
      requires Valid()
      modifies this`decoders, this`buffers
      ensures Valid() && fresh(buffers - old(buffers)) && old(buffers) <= buffers
      ensures r.Some? <==> decodes(metadata[..])
      ensures r.Some? ==> Contents() == old(Contents())[version := metadata[..]]
      ensures r.Some? ==> r.value.spec == version && r.value.bytes[..] == metadata[..]
                          && fresh(r.value.bytes) && r.value.bytes in buffers
      ensures r.None? ==> Contents() == old(Contents())
    {
      var copied := Buffer(metadata[..]);
      if !decodes(metadata[..]) { return None; }
      var md := new MDecoder(version, copied);
      decoders := decoders[version := md];
      buffers := buffers + {copied};
      return Some(md);
    }
  }

  function MetadataRequest(blockHash: string, ch: nat): Request {
    Request(REQUEST_PARENT_METADATA, "", Call("state_getMetadata", [Text(blockHash)]), ch)
  }

  /** One call: the network and version asked for, whether a connection was ever up, and the reply, if one comes. */
  datatype Query = Query(name: string, version: nat, online: bool, reply: Option<Response>)

  function FromReply(reply: Option<Response>, decodes: string -> bool): Answer {
    if reply.None? then Waiting
    else if reply.value.error.Some? then FromNode(reply.value.error.value)
    else if |reply.value.result| < 2 then Panicked
    else if !decodes(Unquote(reply.value.result)) then BadMetadata
    else Bytes(Unquote(reply.value.result))
  }

  /** Everything a call does with its channel: nothing, when it finds the version or the network is wrong. */
  function MetadataActs(network: string, stored: map<nat, string>, q: Query, blockHash: string, ch: nat): seq<Act> {
    if q.name != network || q.version in stored then [] else AskOne(q.online, MetadataRequest(blockHash, ch), q.reply)
  }

  /** What a call can answer from a look at the store alone. */
  function Glance(network: string, stored: map<nat, string>, q: Query): Option<Answer> {
    if q.name != network then Some(NetworkMismatch)
    else if q.version in stored then Some(Bytes(stored[q.version]))
    else if !q.online then Some(NotConnected)
    else None
  }

  function AnswerTo(network: string, stored: map<nat, string>, q: Query, decodes: string -> bool): Answer {
    match Glance(network, stored, q)
    case Some(answer) => answer
    case None => FromReply(q.reply, decodes)
  }

  function StoredAfter(network: string, stored: map<nat, string>, q: Query, decodes: string -> bool): map<nat, string> {
    match AnswerTo(network, stored, q, decodes)
    case Bytes(b) => stored[q.version := b]
    case _ => stored
  }

  /** What is done with the reply of the node. */
  method StoreReply(ds: DecodeStorage, version: nat, res: Response, decodes: string -> bool) returns (out: Answer, md: MDecoder?)
    requires ds.Valid()
    modifies ds`decoders, ds`buffers
    ensures ds.Valid() && fresh(ds.buffers - old(ds.buffers)) && old(ds.buffers) <= ds.buffers
    ensures out == FromReply(Some(res), decodes)
    ensures ds.Contents() == if out.Bytes? then old(ds.Contents())[version := out.bytes] else old(ds.Contents())
    ensures out.Bytes? <==> md != null
    ensures md != null ==> md.spec == version && md.bytes[..] == out.bytes && md.bytes in ds.buffers
  {
    md := null;
    if res.error.Some? { return FromNode(res.error.value), md; }
    var s := res.result;
    if |s| < 2 { return Panicked, md; }
    var raw := Buffer(Unquote(s));
    var made := ds.SetMetadataDecoder(version, raw, decodes);
    if made.None? { return BadMetadata, md; }
    return Bytes(Unquote(s)), made.value;
  }

  /** Returns the stored decoder, or asks the node for the metadata and stores what that makes. */
  method GetMetadata(ds: DecodeStorage, ch: nat, blockHash: string, q: Query, decodes: string -> bool)
    returns (out: Answer, md: MDecoder?, acts: seq<Act>)
    requires ds.Valid()
    modifies ds`decoders, ds`buffers
    ensures ds.Valid() && fresh(ds.buffers - old(ds.buffers)) && old(ds.buffers) <= ds.buffers
    ensures out == AnswerTo(ds.specName, old(ds.Contents()), q, decodes)
    ensures ds.Contents() == StoredAfter(ds.specName, old(ds.Contents()), q, decodes)
    ensures out.Bytes? <==> md != null
    ensures md != null ==> md.spec == q.version && md.bytes[..] == out.bytes && md.bytes in ds.buffers
    ensures acts == MetadataActs(ds.specName, old(ds.Contents()), q, blockHash, ch)
  {
    md, acts := null, [];
    var r := ds.GetMDecoder(q.name, q.version);
    if r.WrongNetwork? { return NetworkMismatch, md, acts; }
    if r.Found? {
      assert ds.Contents() == ds.Contents()[q.version := r.md.bytes[..]];
      return Bytes(r.md.bytes[..]), r.md, acts;
    }
    acts := [Begin(Single, [MetadataRequest(blockHash, ch)])];
    if !q.online { return NotConnected, md, acts + [SendRefused]; }
    acts := acts + [Send(MetadataRequest(blockHash, ch)), StartReading];
    if q.reply.None? { return Waiting, md, acts; }
    acts := acts + [Read(q.reply.value)];
    out, md := StoreReply(ds, q.version, q.reply.value, decodes);
  }

  // ----- agreement with the chain

  ghost predicate Agrees(metadata: Metadata, stored: map<nat, string>) {
    forall v <- stored :: stored[v] == metadata(v)
  }

  /** The reply, if it is a success, carries the metadata of the version asked for. */
  ghost predicate IsServed(metadata: Metadata, q: Query) {
    q.reply.Some? && q.reply.value.error.None? && 2 <= |q.reply.value.result| ==>
      Unquote(q.reply.value.result) == metadata(q.version)
  }

  // ----- calls that overlap

  /** A call looks at the store, and later, when it had to ask, stores what the reply gives. Others do the same
      meanwhile, so that several may miss the same version and store it one after the other. */
  datatype Half = Looks(caller: nat, q: Query) | Ends(caller: nat)

  datatype Told = Told(q: Query, answer: Answer)

  datatype Store = Store(stored: map<nat, string>, waiting: map<nat, Query>, told: seq<Told>)

  function Next(network: string, s: Store, half: Half, decodes: string -> bool): Store {
    match half
    case Looks(c, q) => (
      match Glance(network, s.stored, q)
      case Some(answer) => s.(told := s.told + [Told(q, answer)])
      case None => if c in s.waiting then s else s.(waiting := s.waiting[c := q]))
    case Ends(c) =>
      if c !in s.waiting then s
      else
        var q := s.waiting[c];
        var answer := FromReply(q.reply, decodes);
        Store(if answer.Bytes? then s.stored[q.version := answer.bytes] else s.stored, s.waiting - {c},
              s.told + [Told(q, answer)])
  }

  function AfterAll(network: string, halves: seq<Half>, decodes: string -> bool): Store {
    if halves == [] then Store(map[], map[], [])
    else Next(network, AfterAll(network, halves[..|halves| - 1], decodes), halves[|halves| - 1], decodes)
  }

  /** An answer with bytes has those of the chain; whatever a direct query of the node answers with bytes is
      answered so; the network is checked all the same. */
  ghost predicate IsTransparent(metadata: Metadata, network: string, t: Told, decodes: string -> bool) {
    var direct := AnswerTo(network, map[], t.q, decodes);
    && (t.answer.Bytes? ==> t.answer.bytes == metadata(t.q.version))
    && (direct.Bytes? ==> t.answer == direct)
    && (t.answer.NetworkMismatch? <==> direct.NetworkMismatch?)
  }

  ghost predicate StoreOk(metadata: Metadata, network: string, s: Store, decodes: string -> bool) {
    && Agrees(metadata, s.stored)
    && (forall c <- s.waiting :: IsServed(metadata, s.waiting[c]) && s.waiting[c].name == network && s.waiting[c].online)
    && (forall i :: 0 <= i < |s.told| ==> IsTransparent(metadata, network, s.told[i], decodes))
  }

  lemma HalfKeepsStoreOk(metadata: Metadata, network: string, s: Store, half: Half, decodes: string -> bool)
    requires StoreOk(metadata, network, s, decodes) && (half.Looks? ==> IsServed(metadata, half.q))
    ensures StoreOk(metadata, network, Next(network, s, half, decodes), decodes)
    ensures s.stored.Keys <= Next(network, s, half, decodes).stored.Keys
  {
  }

  /** However calls overlap, the store agrees with the chain, forgets no version, and every call is answered
      as a direct query would be. */
  lemma {:induction false} OverlappingCallsAgree(metadata: Metadata, network: string, halves: seq<Half>, k: nat,
                                                 decodes: string -> bool)
    requires k <= |halves| && forall i :: 0 <= i < |halves| && halves[i].Looks? ==> IsServed(metadata, halves[i].q)
    ensures StoreOk(metadata, network, AfterAll(network, halves, decodes), decodes)
    ensures AfterAll(network, halves[..k], decodes).stored.Keys <= AfterAll(network, halves, decodes).stored.Keys
  {
    hide StoreOk, Next, IsServed;
    if halves != [] {
      var n := |halves| - 1;
      var front := halves[..n];
      OverlappingCallsAgree(metadata, network, front, if k < n then k else n, decodes);
      HalfKeepsStoreOk(metadata, network, AfterAll(network, front, decodes), halves[n], decodes);
      if k <= n {
        assert front[..k] == halves[..k];
      } else {
        assert halves[..k] == halves;
      }
    } else {
      EmptyStoreOk(metadata, network, decodes);
    }
  }

  lemma EmptyStoreOk(metadata: Metadata, network: string, decodes: string -> bool)
    ensures StoreOk(metadata, network, Store(map[], map[], []), decodes)
  {
  }
}
