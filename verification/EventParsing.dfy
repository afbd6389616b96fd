/** parseEventDescription of mapper/event_mapper.go as one pass over the data of an event: item k is read
    under the k-th argument name while there are names, and by its own name after that. */
module EventParsing {
  import opened Rpc
  import opened Texts

  datatype EventData = EventData(name: string, value: string)

  datatype RawEvent = RawEvent(index: int, name: string, section: string, description: string, data: seq<EventData>,
                               error: string, raw: string)

  /** A panic stands for the process dying on an index out of range or a nil pointer. */
  datatype Failure = NotEnoughData | BadSender(at: nat) | BadAmount(value: string) | Panic

  datatype Role = Account | From | To | Balance | Error | Silent

  predicate IsAccountName(name: string) {
    name in
    {"account", "approving", "authority_id", "multisig", "stash", "unvested", "target",
     "sub", "main", "cancelling", "lost", "rescuer", "sender", "voter", "founder", "candidate",
     "candidate_id", "vouching", "nominator", "validator", "finder", "real", "primary",
     "restorer", "dest", "deployer", "contract", "creator", "owner", "origin"}
  }

  predicate IsBalanceName(name: string) {
    name in
    {"deposit", "free_balance", "value", "balance", "amount", "offer", "validator_payout", "bond",
     "remainder", "payout", "award", "slashed", "budget_remaining", "burn", "rent_allowance"}
  }

  /** Names that carry nothing and names that are not known (which are only logged) are silent alike. */
  function RoleOf(name: string): Role {
    if IsAccountName(name) then Account
    else if name == "from" || name == "provider" then From
    else if name == "to" || name == "who" || name == "beneficiary" || name == "reaper" then To
    else if IsBalanceName(name) then Balance
    else if name == "error" then Error
    else Silent
  }

  function RolesOf(names: seq<string>): (roles: seq<Role>)
    ensures |roles| == |names| && forall k :: 0 <= k < |names| ==> roles[k] == RoleOf(names[k])
  {
    seq(|names|, k requires 0 <= k < |names| => RoleOf(names[k]))
  }

  /** Two events read their accounts differently from all others. */
  datatype Kind = Endowed | Delegated | Plain

  function KindOf(event: string): Kind {
    if Lower(event) == "endowed" then Endowed else if Lower(event) == "delegated" then Delegated else Plain
  }

  function Quoted(value: string): string
    requires value != ""
  {
    if value[0] == '{' || value[0] == '[' || value[0] == '-' then value
    else if AllDigits(value) then value
    else "\"" + value + "\""
  }

  function Render(d: EventData): string
    requires d.value != ""
  {
    "{\"name\": \"" + d.name + "\", \"value\": " + Quoted(d.value) + "}"
  }

  datatype Effect = Nothing | AddAccount(id: string) | SetRecipient(id: string) | SetSender(id: string)
                  | AddValue(value: string) | MarkError

  function NamedEffect(kind: Kind, role: Role, d: EventData): Effect {
    match role
    case Account =>
      if d.name != "AccountId" then Nothing
      else if kind == Endowed then SetRecipient(d.value) else AddAccount(d.value)
    case From => if d.name == "AccountId" then SetSender(d.value) else Nothing
    case To =>
      if d.name != "AccountId" then Nothing
      else if kind == Delegated then AddAccount(d.value) else SetRecipient(d.value)
    case Balance => if d.name == "Balance" then AddValue(d.value) else Nothing
    case Error => MarkError
    case Silent => Nothing
  }

  function PlainEffect(d: EventData): Effect {
    if d.name == "Balance" then AddValue(d.value)
    else if d.name == "AccountId" then AddAccount(d.value)
    else Nothing
  }

  function EffectAt(kind: Kind, roles: seq<Role>, data: seq<EventData>, k: nat): Effect
    requires k < |data|
  {
    if k < |roles| then NamedEffect(kind, roles[k], data[k]) else PlainEffect(data[k])
  }

  function FaultAt(roles: seq<Role>, data: seq<EventData>, k: nat): Option<Failure> {
    if k >= |data| then Some(NotEnoughData)
    else if k < |roles| && roles[k] == From && data[k].name != "AccountId" then Some(BadSender(k))
    else if data[k].value == "" then Some(Panic)
    else None
  }

  datatype Parsed = Parsed(attributes: seq<string>, accounts: seq<string>, recipient: string, sender: string,
                           values: seq<string>, isError: bool)

  datatype ParseResult = Ok(parsed: Parsed) | Bad(failure: Failure)

  const EMPTY := Parsed([], [], "", "", [], false)

  function Absorbed(p: Parsed, e: Effect): Parsed {
    match e
    case Nothing => p
    case AddAccount(id) => p.(accounts := p.accounts + [id])
    case SetRecipient(id) => p.(recipient := id)
    case SetSender(id) => p.(sender := id)
    case AddValue(v) => p.(values := p.values + [v])
    case MarkError => p.(isError := true)
  }

  /** One item that is not at fault. */
  function Item(p: Parsed, kind: Kind, roles: seq<Role>, data: seq<EventData>, k: nat): Parsed
    requires FaultAt(roles, data, k).None?
  {
    Absorbed(p.(attributes := p.attributes + [Render(data[k])]), EffectAt(kind, roles, data, k))
  }

  /** The first n items, each looked at once. */
  function Pass(kind: Kind, roles: seq<Role>, data: seq<EventData>, n: nat): ParseResult {
    if n == 0 then Ok(EMPTY)
    else
      match Pass(kind, roles, data, n - 1)
      case Bad(f) => Bad(f)
      case Ok(p) =>
        match FaultAt(roles, data, n - 1)
        case Some(f) => Bad(f)
        case None => Ok(Item(p, kind, roles, data, n - 1))
  }

  function Larger(a: nat, b: nat): nat {
    if a < b then b else a
  }

  function OnePass(event: string, names: seq<string>, data: seq<EventData>): ParseResult {
    Pass(KindOf(event), RolesOf(names), data, Larger(|names|, |data|))
  }

  // ----- what the pass computes, said without it

  lemma {:induction false} PassStopsAtFault(kind: Kind, roles: seq<Role>, data: seq<EventData>, n: nat)
    ensures Pass(kind, roles, data, n).Ok? <==> forall k :: 0 <= k < n ==> FaultAt(roles, data, k) == None
  {
    hide FaultAt, Item;
    if n > 0 {
      PassStopsAtFault(kind, roles, data, n - 1);
    }
  }

  lemma SenderNames(names: seq<string>)
    ensures forall k :: 0 <= k < |names| ==> (RolesOf(names)[k] == From <==> names[k] in {"from", "provider"})
  {
    hide RoleOf;
    forall k | 0 <= k < |names| ensures RolesOf(names)[k] == From <==> names[k] in {"from", "provider"} {
      RoleIs(names[k]);
    }
  }

  /** An event is accepted if and only if it has a data item for every name, an account id wherever a sender
      is named, and no empty value. */
  lemma AcceptedIff(event: string, names: seq<string>, data: seq<EventData>)
    ensures OnePass(event, names, data).Ok? <==>
              && |names| <= |data|
              && (forall k :: 0 <= k < |data| ==> data[k].value != "")
              && (forall k :: 0 <= k < |names| && k < |data| && names[k] in {"from", "provider"} ==>
                    data[k].name == "AccountId")
  {
    var roles := RolesOf(names);
    SenderNames(names);
    PassStopsAtFault(KindOf(event), roles, data, Larger(|names|, |data|));
    if |names| > |data| {
      assert FaultAt(roles, data, |data|) == Some(NotEnoughData);
    } else {
      hide RoleOf;
      assert forall k :: 0 <= k < |data| ==>
               (FaultAt(roles, data, k) == None <==>
                data[k].value != "" && (k < |names| && roles[k] == From ==> data[k].name == "AccountId"));
    }
  }

  datatype Test = IsValue | IsAccount | IsRecipient | IsSender | IsError

  /** How item k counts, from its own name and the argument name above it, if it has one. */
  predicate Passes(test: Test, event: string, names: seq<string>, data: seq<EventData>, k: nat) {
    && k < |data|
    && match test
       case IsValue => data[k].name == "Balance" && (k < |names| ==> IsBalanceName(names[k]))
       case IsAccount =>
         && data[k].name == "AccountId"
         && (k < |names| ==>
               || (IsAccountName(names[k]) && Lower(event) != "endowed")
               || (names[k] in {"to", "who", "beneficiary", "reaper"} && Lower(event) == "delegated"))
       case IsRecipient =>
         && k < |names| && data[k].name == "AccountId"
         && ((IsAccountName(names[k]) && Lower(event) == "endowed")
             || (names[k] in {"to", "who", "beneficiary", "reaper"} && Lower(event) != "delegated"))
       case IsSender => k < |names| && names[k] in {"from", "provider"}
       case IsError => k < |names| && names[k] == "error"
  }

  /** The positions among the first n that pass the test, in order. */
  function Positions(test: Test, event: string, names: seq<string>, data: seq<EventData>, n: nat): (at: seq<nat>)
    ensures forall a :: 0 <= a < |at| ==> at[a] < n && at[a] < |data|
  {
    if n == 0 then []
    else Positions(test, event, names, data, n - 1) + (if Passes(test, event, names, data, n - 1) then [n - 1] else [])
  }

  lemma {:induction false} PositionsInOrder(test: Test, event: string, names: seq<string>, data: seq<EventData>, n: nat)
    ensures var at := Positions(test, event, names, data, n);
            && (forall a, b :: 0 <= a < b < |at| ==> at[a] < at[b])
            && (forall k: nat :: k in at <==> k < n && Passes(test, event, names, data, k))
  {
    if n > 0 {
      PositionsInOrder(test, event, names, data, n - 1);
    }
  }

  /** The values of the items that pass the test, in order. */
  function Selected(test: Test, event: string, names: seq<string>, data: seq<EventData>, n: nat): seq<string> {
    if n == 0 then []
    else Selected(test, event, names, data, n - 1)
         + (if Passes(test, event, names, data, n - 1) then [data[n - 1].value] else [])
  }

  lemma {:induction false} SelectedValues(test: Test, event: string, names: seq<string>, data: seq<EventData>, n: nat)
    ensures var at, values := Positions(test, event, names, data, n), Selected(test, event, names, data, n);
            |values| == |at| && forall a :: 0 <= a < |at| ==> values[a] == data[at[a]].value
  {
    hide Passes;
    if n > 0 {
      SelectedValues(test, event, names, data, n - 1);
    }
  }

  /** A selection lists the values at the positions that pass the test: all of them, once, in order. */
  lemma SelectedAt(test: Test, event: string, names: seq<string>, data: seq<EventData>, n: nat)
    ensures var at := Positions(test, event, names, data, n);
            && |Selected(test, event, names, data, n)| == |at|
            && (forall a :: 0 <= a < |at| ==> Selected(test, event, names, data, n)[a] == data[at[a]].value)
            && (forall a, b :: 0 <= a < b < |at| ==> at[a] < at[b])
            && (forall k: nat :: k in at <==> k < n && Passes(test, event, names, data, k))
  {
    hide Passes, Positions, Selected;
    PositionsInOrder(test, event, names, data, n);
    SelectedValues(test, event, names, data, n);
  }

  function LastOr(vs: seq<string>): string {
    if vs == [] then "" else vs[|vs| - 1]
  }

  function Renderings(data: seq<EventData>): (rs: seq<string>)
    requires forall k :: 0 <= k < |data| ==> data[k].value != ""
    ensures |rs| == |data| && forall k :: 0 <= k < |data| ==> rs[k] == Render(data[k])
  {
    seq(|data|, k requires 0 <= k < |data| => Render(data[k]))
  }

  /** p is what the first n items say. */
  ghost predicate Describes(event: string, names: seq<string>, data: seq<EventData>, n: nat, p: Parsed)
    requires n <= |data|
  {
    && (forall k :: 0 <= k < n ==> data[k].value != "")
    && p.attributes == Renderings(data[..n])
    && p.values == Selected(IsValue, event, names, data, n)
    && p.accounts == Selected(IsAccount, event, names, data, n)
    && p.recipient == LastOr(Selected(IsRecipient, event, names, data, n))
    && p.sender == LastOr(Selected(IsSender, event, names, data, n))
    && (p.isError <==> Selected(IsError, event, names, data, n) != [])
  }

  lemma RenderingsExtend(data: seq<EventData>, n: nat)
    requires n < |data| && forall k :: 0 <= k <= n ==> data[k].value != ""
    ensures Renderings(data[..n + 1]) == Renderings(data[..n]) + [Render(data[n])]
  {
  }

  ghost predicate Adds(event: string, names: seq<string>, data: seq<EventData>, n: nat, p: Parsed, q: Parsed)
    requires n < |data| && data[n].value != ""
  {
    var v := data[n].value;
    && q.attributes == p.attributes + [Render(data[n])]
    && q.values == p.values + (if Passes(IsValue, event, names, data, n) then [v] else [])
    && q.accounts == p.accounts + (if Passes(IsAccount, event, names, data, n) then [v] else [])
    && q.recipient == (if Passes(IsRecipient, event, names, data, n) then v else p.recipient)
    && q.sender == (if Passes(IsSender, event, names, data, n) then v else p.sender)
    && q.isError == (p.isError || Passes(IsError, event, names, data, n))
  }

  lemma NamedItemAdds(event: string, names: seq<string>, data: seq<EventData>, n: nat, p: Parsed)
    requires n < |data| && FaultAt(RolesOf(names), data, n).None? && n < |names|
    ensures Adds(event, names, data, n, p, Item(p, KindOf(event), RolesOf(names), data, n))
  {
    hide Render, RoleOf, IsAccountName, IsBalanceName, Lower;
    RoleIs(names[n]);
    match RoleOf(names[n])
    case Account =>
    case To =>
    case _ =>
  }

  /** The five groups of names are disjoint, so that each role stands for its own. */
  lemma RoleIs(name: string)
    ensures RoleOf(name) == Account <==> IsAccountName(name)
    ensures RoleOf(name) == From <==> name in {"from", "provider"}
    ensures RoleOf(name) == To <==> name in {"to", "who", "beneficiary", "reaper"}
    ensures RoleOf(name) == Balance <==> IsBalanceName(name)
    ensures RoleOf(name) == Error <==> name == "error"
  {
  }

  lemma PlainItemAdds(event: string, names: seq<string>, data: seq<EventData>, n: nat, p: Parsed)
    requires n < |data| && FaultAt(RolesOf(names), data, n).None? && n >= |names|
    ensures Adds(event, names, data, n, p, Item(p, KindOf(event), RolesOf(names), data, n))
  {
    hide Render;
  }

  /** What one item adds, test by test. */
  lemma ItemAdds(event: string, names: seq<string>, data: seq<EventData>, n: nat, p: Parsed)
    requires n < |data| && FaultAt(RolesOf(names), data, n).None?
    ensures Adds(event, names, data, n, p, Item(p, KindOf(event), RolesOf(names), data, n))
  {
    hide Adds, Item;
    if n < |names| {
      NamedItemAdds(event, names, data, n, p);
    } else {
      PlainItemAdds(event, names, data, n, p);
    }
  }

  lemma SelectedGrows(test: Test, event: string, names: seq<string>, data: seq<EventData>, n: nat)
    requires n < |data|
    ensures var before, after := Selected(test, event, names, data, n), Selected(test, event, names, data, n + 1);
            && after == before + (if Passes(test, event, names, data, n) then [data[n].value] else [])
            && (after != [] <==> before != [] || Passes(test, event, names, data, n))
            && LastOr(after) == (if Passes(test, event, names, data, n) then data[n].value else LastOr(before))
  {
    hide Passes;
  }

  lemma AddsDescribes(event: string, names: seq<string>, data: seq<EventData>, n: nat, p: Parsed, q: Parsed)
    requires n < |data| && data[n].value != ""
    requires Describes(event, names, data, n, p) && Adds(event, names, data, n, p, q)
    ensures Describes(event, names, data, n + 1, q)
  {
    RenderingsExtend(data, n);
    SelectedGrows(IsValue, event, names, data, n);
    SelectedGrows(IsAccount, event, names, data, n);
    SelectedGrows(IsRecipient, event, names, data, n);
    SelectedGrows(IsSender, event, names, data, n);
    SelectedGrows(IsError, event, names, data, n);
    hide Passes, Render, Renderings, Selected, LastOr;
  }

  lemma {:induction false} PassDescribes(event: string, names: seq<string>, data: seq<EventData>, n: nat)
    requires n <= |data| && Pass(KindOf(event), RolesOf(names), data, n).Ok?
    ensures Describes(event, names, data, n, Pass(KindOf(event), RolesOf(names), data, n).parsed)
  {
    hide Adds, Item;
    if n > 0 {
      PassDescribes(event, names, data, n - 1);
      var before := Pass(KindOf(event), RolesOf(names), data, n - 1).parsed;
      ItemAdds(event, names, data, n - 1, before);
      AddsDescribes(event, names, data, n - 1, before, Item(before, KindOf(event), RolesOf(names), data, n - 1));
    }
  }

  /** An attribute is written as an object with a name and a value. The value is quoted unless it begins with a
      bracket or a minus, or is all digits. */
  ghost predicate IsWritten(x: string, name: string, value: string)
    requires value != ""
  {
    x == "{\"name\": \"" + name + "\", \"value\": "
         + (if value[0] in "{[-" || AllDigits(value) then value else "\"" + value + "\"") + "}"
  }

  /** The result of an accepted event: attribute k renders item k; values and accounts are the selections
      of their items, in order; recipient and sender are the last ones named. */
  lemma AcceptedMeans(event: string, names: seq<string>, data: seq<EventData>)
    requires OnePass(event, names, data).Ok?
    ensures |names| <= |data|
    ensures Describes(event, names, data, |data|, OnePass(event, names, data).parsed)
    ensures |OnePass(event, names, data).parsed.attributes| == |data|
    ensures forall k :: 0 <= k < |data| ==>
              data[k].value != "" && IsWritten(OnePass(event, names, data).parsed.attributes[k], data[k].name, data[k].value)
    ensures forall i :: 0 <= i < |OnePass(event, names, data).parsed.values| ==>
              OnePass(event, names, data).parsed.values[i] != ""
  {
    AcceptedIff(event, names, data);
    PassDescribes(event, names, data, |data|);
    SelectedAt(IsValue, event, names, data, |data|);
    assert data[..|data|] == data;
    hide Selected, Passes, Positions, OnePass, RolesOf, Pass;
  }
}
