/** The event record of mapper/event_mapper.go: filled in place by a two-loop parser with one cursor, then
    extended with amounts and accounts. */
module EventMapper {
  import opened Rpc
  import opened Texts
  import opened EventParsing

  /** The exact side of TransactionAmount. */
  datatype Amount = Amount(numeric: int, currency: string, exp: nat)

  /** EventTransfer: an account with one amount, which is the zero amount when there is not exactly one value. */
  datatype Transfer = Transfer(account: string, amount: Option<Amount>)

  datatype SubsetEvent = SubsetEvent(
    types: seq<string>, section: string, error: Option<string>, additional: Option<seq<string>>,
    amounts: map<string, Amount>, node: map<string, seq<string>>,
    sender: Option<Transfer>, recipient: Option<Transfer>, transfers: map<string, Transfer>)

  // ----- amounts

  predicate AllIntegers(values: seq<string>) {
    forall i :: 0 <= i < |values| ==> ParseInteger(values[i]).Some?
  }

  function AmountOf(value: string, exp: nat, currency: string): Amount
    requires ParseInteger(value).Some?
  {
    Amount(ParseInteger(value).value, currency, exp)
  }

  function AmountMap(values: seq<string>, exp: nat, currency: string): map<string, Amount>
    requires AllIntegers(values)
  {
    if values == [] then map[]
    else
      var n := |values| - 1;
      AmountMap(values[..n], exp, currency)[Itoa(n) := AmountOf(values[n], exp, currency)]
  }

  /** The amount that goes with the transfers: that of the only value, if there is exactly one. */
  function SingleAmount(values: seq<string>, exp: nat, currency: string): Option<Amount>
    requires AllIntegers(values)
  {
    if |values| == 1 then Some(AmountOf(values[0], exp, currency)) else None
  }

  /** The first value that is not an integer ends the mapping; an empty one kills the process. */
  function AmountFault(values: seq<string>): Option<Failure> {
    if values == [] then None
    else
      match AmountFault(values[..|values| - 1])
      case Some(f) => Some(f)
      case None =>
        var last := values[|values| - 1];
        if last == "" then Some(Panic)
        else if ParseInteger(last).None? then Some(BadAmount(last))
        else None
  }

  lemma {:induction false} NoFaultIffIntegers(values: seq<string>)
    ensures AmountFault(values).None? <==> AllIntegers(values)
  {
    if values != [] {
      var n := |values| - 1;
      NoFaultIffIntegers(values[..n]);
      assert values[..n] + [values[n]] == values;
    }
  }

  /** The first n indices, written in decimal. */
  function IndexKeys(n: nat): set<string> {
    if n == 0 then {} else IndexKeys(n - 1) + {Itoa(n - 1)}
  }

  lemma {:induction false} IndexKeysDiffer(n: nat, i: nat)
    ensures Itoa(i) in IndexKeys(n) <==> i < n
  {
    hide Itoa;
    if n > 0 {
      IndexKeysDiffer(n - 1, i);
      if Itoa(i) == Itoa(n - 1) {
        ItoaInjective(i, n - 1);
      }
    }
  }

  lemma {:induction false} IndexKeysCount(n: nat)
    ensures |IndexKeys(n)| == n
  {
    if n > 0 {
      IndexKeysCount(n - 1);
      IndexKeysDiffer(n - 1, n - 1);
    }
  }

  lemma {:induction false} AmountKeys(values: seq<string>, exp: nat, currency: string)
    requires AllIntegers(values)
    ensures AmountMap(values, exp, currency).Keys == IndexKeys(|values|)
  {
    if values != [] {
      AmountKeys(values[..|values| - 1], exp, currency);
    }
  }

  lemma {:induction false} AmountAt(values: seq<string>, exp: nat, currency: string, i: nat)
    requires AllIntegers(values) && i < |values|
    ensures Itoa(i) in AmountMap(values, exp, currency)
    ensures AmountMap(values, exp, currency)[Itoa(i)] == AmountOf(values[i], exp, currency)
  {
    var n := |values| - 1;
    if i < n {
      AmountAt(values[..n], exp, currency, i);
      if Itoa(i) == Itoa(n) {
        ItoaInjective(i, n);
      }
    }
  }

  /** The amounts of an event have one entry for every value, under its own index, and no other. */
  lemma OneEntryPerValue(values: seq<string>, exp: nat, currency: string)
    requires AllIntegers(values)
    ensures var m := AmountMap(values, exp, currency);
            && |m| == |values| && m.Keys == IndexKeys(|values|)
            && (forall i :: 0 <= i < |values| ==> Itoa(i) in m && m[Itoa(i)] == AmountOf(values[i], exp, currency))
  {
    AmountKeys(values, exp, currency);
    IndexKeysCount(|values|);
    assert |AmountMap(values, exp, currency).Keys| == |values|;
    forall i | 0 <= i < |values|
      ensures Itoa(i) in AmountMap(values, exp, currency)
              && AmountMap(values, exp, currency)[Itoa(i)] == AmountOf(values[i], exp, currency)
    {
      AmountAt(values, exp, currency, i);
    }
  }

  ghost function Total(m: map<string, Amount>): int {
    if m == map[] then 0 else var k :| k in m; m[k].numeric + Total(m - {k})
  }

  lemma {:induction false} TotalWithout(m: map<string, Amount>, k: string)
    requires k in m
    ensures Total(m) == m[k].numeric + Total(m - {k})
    decreases |m|
  {
    var j :| j in m && Total(m) == m[j].numeric + Total(m - {j});
    if j != k {
      TotalWithout(m - {j}, k);
      TotalWithout(m - {k}, j);
      assert m - {j} - {k} == m - {k} - {j};
    }
  }

  function Sum(values: seq<string>): int
    requires AllIntegers(values)
  {
    if values == [] then 0 else Sum(values[..|values| - 1]) + ParseInteger(values[|values| - 1]).value
  }

  /** Conservation: the amounts of an event add up to the values it carried. */
  lemma {:induction false} AmountsAddUp(values: seq<string>, exp: nat, currency: string)
    requires AllIntegers(values)
    ensures Total(AmountMap(values, exp, currency)) == Sum(values)
  {
    if values != [] {
      var n := |values| - 1;
      AmountsAddUp(values[..n], exp, currency);
      OneEntryPerValue(values[..n], exp, currency);
      var before, after := AmountMap(values[..n], exp, currency), AmountMap(values, exp, currency);
      IndexKeysDiffer(n, n);
      TotalWithout(after, Itoa(n));
      assert after - {Itoa(n)} == before;
    }
  }

  // ----- accounts

  function NodeOf(p: Parsed, signer: string): map<string, seq<string>> {
    var versions := if p.accounts == [] then map[] else map["versions" := p.accounts];
    var withSender := if p.sender == "" then versions else versions["sender" := [p.sender]];
    var withSigner := if signer == "" then withSender else withSender["signer" := [signer]];
    if p.recipient == "" then withSigner else withSigner["recipient" := [p.recipient]]
  }

  function TransferOf(account: string, amount: Option<Amount>): Option<Transfer> {
    if account == "" then None else Some(Transfer(account, amount))
  }

  datatype EventResult = Mapped(event: SubsetEvent) | Rejected(failure: Failure)

  /** Everything the record of a parsed event holds in the end. */
  function EventFrom(ev: RawEvent, p: Parsed, exp: nat, currency: string, signer: string): EventResult {
    match AmountFault(p.values)
    case Some(f) => Rejected(f)
    case None =>
      NoFaultIffIntegers(p.values);
      var amount := SingleAmount(p.values, exp, currency);
      Mapped(SubsetEvent(
               [Lower(ev.name)] + (if p.isError then ["error"] else []),
               ev.section,
               if ev.error == "" then None else Some(ev.error),
               if ev.data == [] then None else Some(p.attributes),
               AmountMap(p.values, exp, currency),
               NodeOf(p, if ev.error == "" then "" else signer),
               TransferOf(p.sender, amount),
               TransferOf(p.recipient, amount),
               if p.recipient == "" then map[] else map[p.recipient := Transfer(p.recipient, amount)]))
  }

  /** The account lists do not depend on the attributes. */
  lemma SameNode(p: Parsed, q: Parsed, signer: string)
    requires p.(attributes := []) == q.(attributes := [])
    ensures NodeOf(p, signer) == NodeOf(q, signer)
  {
  }

  /** getEvent, from the one-pass parse of its description and data. */
  function EventOf(ev: RawEvent, exp: nat, currency: string, signer: string): EventResult {
    match OnePass(ev.name, ValuesOf(ev.description), ev.data)
    case Bad(f) => Rejected(f)
    case Ok(p) => EventFrom(ev, p, exp, currency, signer)
  }

  /** m holds the amounts of the first i values. */
  ghost predicate AmountsDone(values: seq<string>, i: nat, exp: nat, currency: string, m: map<string, Amount>)
    requires i <= |values|
  {
    AmountFault(values[..i]).None? && AllIntegers(values[..i]) && m == AmountMap(values[..i], exp, currency)
  }

  lemma NextAmount(values: seq<string>, i: nat, exp: nat, currency: string, m: map<string, Amount>)
    requires i < |values| && AmountsDone(values, i, exp, currency, m) && ParseInteger(values[i]).Some?
    ensures AmountsDone(values, i + 1, exp, currency, m[Itoa(i) := AmountOf(values[i], exp, currency)])
  {
    assert values[..i + 1][..i] == values[..i];
    NoFaultIffIntegers(values[..i]);
    NoFaultIffIntegers(values[..i + 1]);
  }

  lemma FirstBadAmount(values: seq<string>, i: nat)
    requires i < |values| && AmountFault(values[..i]).None? && ParseInteger(values[i]).None?
    ensures AmountFault(values) == Some(if values[i] == "" then Panic else BadAmount(values[i]))
  {
    assert values[..i + 1][..i] == values[..i];
    FaultStays(values, i + 1);
  }

  /** A nil amount, for the empty value, is dereferenced by the caller. */
  method GetAmount(value: string, exp: nat, currency: string) returns (failure: Option<Failure>, amount: Option<Amount>)
    ensures failure == if value == "" then Some(Panic) else if ParseInteger(value).None? then Some(BadAmount(value)) else None
    ensures amount == if failure.Some? then None else Some(AmountOf(value, exp, currency))
  {
    if value == "" {
      return Some(Panic), None;
    }
    var parsed := ParseInteger(value);
    if parsed.None? {
      return Some(BadAmount(value)), None;
    }
    return None, Some(Amount(parsed.value, currency, exp));
  }

  /** 0, 1, 2 and so on up to n - 1. */
  function Indices(n: nat): seq<nat> {
    if n == 0 then [] else Indices(n - 1) + [n - 1]
  }

  lemma PassOn(kind: Kind, roles: seq<Role>, data: seq<EventData>, k: nat, p: Parsed)
    requires k < |data| && Pass(kind, roles, data, k) == Ok(p) && FaultAt(roles, data, k).None?
    ensures Pass(kind, roles, data, k + 1)
            == Ok(Absorbed(p.(attributes := p.attributes + [Render(data[k])]), EffectAt(kind, roles, data, k)))
  {
  }

  method NamesAccount(v: string) returns (yes: bool)
    ensures yes == IsAccountName(v)
  {
    return v == "account" || v == "approving" || v == "authority_id" || v == "multisig" || v == "stash" || v == "unvested"
           || v == "target" || v == "sub" || v == "main" || v == "cancelling" || v == "lost" || v == "rescuer"
           || v == "sender" || v == "voter" || v == "founder" || v == "candidate" || v == "candidate_id" || v == "vouching"
           || v == "nominator" || v == "validator" || v == "finder" || v == "real" || v == "primary" || v == "restorer"
           || v == "dest" || v == "deployer" || v == "contract" || v == "creator" || v == "owner" || v == "origin";
  }

  method NamesBalance(v: string) returns (yes: bool)
    ensures yes == IsBalanceName(v)
  {
    return v == "deposit" || v == "free_balance" || v == "value" || v == "balance" || v == "amount" || v == "offer"
           || v == "validator_payout" || v == "bond" || v == "remainder" || v == "payout" || v == "award" || v == "slashed"
           || v == "budget_remaining" || v == "burn" || v == "rent_allowance";
  }

  /** The cases of the switch on an argument name. */
  method NamedRole(v: string) returns (role: Role)
    ensures role == RoleOf(v)
  {
    hide IsAccountName, IsBalanceName;
    var account := NamesAccount(v);
    if account {
      return Account;
    }
    if v == "from" || v == "provider" {
      return From;
    }
    if v == "to" || v == "who" || v == "beneficiary" || v == "reaper" {
      return To;
    }
    var balance := NamesBalance(v);
    if balance {
      return Balance;
    }
    return if v == "error" then Error else Silent;
  }

  class Event {
    var accountIDs: seq<string>
    var recipientAccountID: string
    var senderAccountID: string
    var signerID: string
    var values: seq<string>
    var amount: Option<Amount>
    var eventType: seq<string>

    var error: Option<string>
    var additional: Option<seq<string>>
    var amounts: map<string, Amount>
    var node: map<string, seq<string>>
    var sender: Option<Transfer>
    var recipient: Option<Transfer>
    var transfers: map<string, Transfer>

    ghost function View(attributes: seq<string>): Parsed
      reads this
    {
      Parsed(attributes, accountIDs, recipientAccountID, senderAccountID, values, eventType != [])
    }

    ghost predicate TypeOk()
      reads this
    {
      eventType == [] || eventType == ["error"]
    }

    ghost predicate Blank()
      reads this
    {
      && View([]) == EMPTY && eventType == [] && signerID == "" && amount == None
      && error == None && additional == None && amounts == map[] && node == map[]
      && sender == None && recipient == None && transfers == map[]
    }

    constructor ()
      ensures Blank()
    {
      accountIDs, recipientAccountID, senderAccountID, signerID := [], "", "", "";
      values, amount, eventType := [], None, [];
      error, additional, amounts, node := None, None, map[], map[];
      sender, recipient, transfers := None, None, map[];
    }

    /** One item of the first loop; false when a sender is named over something that is no account id. */
    method ReadNamed(kind: Kind, role: Role, d: EventData, ghost attributes: seq<string>) returns (ok: bool)
      requires TypeOk()
      modifies this`accountIDs, this`recipientAccountID, this`senderAccountID, this`values, this`eventType
      ensures TypeOk()
      ensures ok <==> !(role == From && d.name != "AccountId")
      ensures ok ==> View(attributes) == Absorbed(old(View(attributes)), NamedEffect(kind, role, d))
    {
      ok := true;
      match role {
        case Account =>
          if d.name == "AccountId" {
            if kind == Endowed {
              recipientAccountID := d.value;
            } else {
              accountIDs := accountIDs + [d.value];
            }
          }
        case From =>
          if d.name == "AccountId" {
            senderAccountID := d.value;
          } else {
            senderAccountID := "";
            ok := false;
          }
        case To =>
          if d.name != "AccountIndex" && d.name == "AccountId" {
            if kind == Delegated {
              accountIDs := accountIDs + [d.value];
            } else {
              recipientAccountID := d.value;
            }
          }
        case Balance =>
          if d.name == "Balance" {
            values := values + [d.value];
          }
        case Error => eventType := ["error"];
        case Silent =>
      }
    }

    /** One item of the second loop. */
    method ReadPlain(d: EventData, ghost attributes: seq<string>)
      modifies this`accountIDs, this`values
      ensures View(attributes) == Absorbed(old(View(attributes)), PlainEffect(d))
    {
      if d.name == "Balance" {
        values := values + [d.value];
      } else if d.name == "AccountId" {
        accountIDs := accountIDs + [d.value];
      }
    }

    /** The loop over the argument names. written lists the attribute slots in the order they are written. */
    method ReadNames(ev: RawEvent, names: seq<string>, attributes: array<string>)
      returns (failure: Option<Failure>, lastEvent: nat, written: seq<nat>)
      requires View([]) == EMPTY && TypeOk() && attributes.Length == |ev.data|
      modifies this`accountIDs, this`recipientAccountID, this`senderAccountID, this`values, this`eventType, attributes
      ensures TypeOk()
      ensures failure.None? ==>
                && lastEvent == |names| <= |ev.data| && written == Indices(lastEvent)
                && Pass(KindOf(ev.name), RolesOf(names), ev.data, lastEvent) == Ok(View(attributes[..lastEvent]))
      ensures failure.Some? ==>
                Pass(KindOf(ev.name), RolesOf(names), ev.data, Larger(|names|, |ev.data|)) == Bad(failure.value)
    {
      ghost var roles := RolesOf(names);
      hide Pass, Absorbed, Render, KindOf, NamedEffect, RoleOf;
      NothingPassed(KindOf(ev.name), roles, ev.data);
      var kind := KindOf(ev.name);
      ghost var end := Larger(|roles|, |ev.data|);
      written, failure, lastEvent := [], None, 0;
      var i := 0;
      while i < |names|
        invariant 0 <= i <= |names| && lastEvent == i <= |ev.data|
        invariant TypeOk()
        invariant Pass(kind, roles, ev.data, i) == Ok(View(attributes[..i]))
        invariant written == Indices(i)
      {
        lastEvent := i;
        if lastEvent >= |ev.data| {
          failure := Some(NotEnoughData);
          FirstFaultDecides(kind, roles, ev.data, i, end);
          return;
        }
        var d := ev.data[lastEvent];
        ghost var before := attributes[..i];
        ghost var after := if d.value == "" then before else before + [Render(d)];
        ghost var p := View(before);
        var role := NamedRole(names[i]);
        var ok := ReadNamed(kind, role, d, after);
        if !ok {
          failure := Some(BadSender(lastEvent));
          FirstFaultDecides(kind, roles, ev.data, i, end);
          return;
        }
        if d.value == "" {
          failure := Some(Panic);
          FirstFaultDecides(kind, roles, ev.data, i, end);
          return;
        }
        attributes[lastEvent] := Render(d);
        assert attributes[..i + 1] == after;
        PassOn(kind, roles, ev.data, i, p);
        written := written + [lastEvent];
        lastEvent := lastEvent + 1;
        i := i + 1;
      }
    }

    /** The loop over the rest of the data. */
    method ReadRest(ev: RawEvent, ghost roles: seq<Role>, attributes: array<string>, start: nat, before: seq<nat>)
      returns (failure: Option<Failure>, written: seq<nat>)
      requires |roles| <= start <= |ev.data| && attributes.Length == |ev.data|
      requires Pass(KindOf(ev.name), roles, ev.data, start) == Ok(View(attributes[..start]))
      requires before == Indices(start)
      modifies this`accountIDs, this`values, attributes
      ensures failure.None? ==> Pass(KindOf(ev.name), roles, ev.data, |ev.data|) == Ok(View(attributes[..]))
                                && written == Indices(|ev.data|)
      ensures failure.Some? ==> Pass(KindOf(ev.name), roles, ev.data, |ev.data|) == Bad(failure.value)
    {
      hide Pass, Absorbed, Render, KindOf;
      ghost var kind := KindOf(ev.name);
      failure, written := None, before;
      var lastEvent := start;
      while lastEvent < |ev.data|
        invariant start <= lastEvent <= |ev.data|
        invariant Pass(kind, roles, ev.data, lastEvent) == Ok(View(attributes[..lastEvent]))
        invariant written == Indices(lastEvent)
      {
        var d := ev.data[lastEvent];
        if d.value == "" {
          failure := Some(Panic);
          FirstFaultDecides(kind, roles, ev.data, lastEvent, |ev.data|);
          return;
        }
        ghost var after := attributes[..lastEvent] + [Render(d)];
        PassOn(kind, roles, ev.data, lastEvent, View(attributes[..lastEvent]));
        attributes[lastEvent] := Render(d);
        assert attributes[..lastEvent + 1] == after;
        ReadPlain(d, after);
        written := written + [lastEvent];
        lastEvent := lastEvent + 1;
      }
      assert attributes[..lastEvent] == attributes[..];
    }

    /** The two loops share the cursor: the second goes on where the first left off, so that every attribute
        slot is written, once, in order. */
    method ParseEventDescription(ev: RawEvent) returns (failure: Option<Failure>, written: seq<nat>)
      requires Blank()
      modifies this`accountIDs, this`recipientAccountID, this`senderAccountID, this`values, this`eventType, this`additional
      ensures TypeOk()
      ensures match OnePass(ev.name, ValuesOf(ev.description), ev.data)
              case Bad(f) => failure == Some(f)
              case Ok(p) =>
                && failure == None && View(p.attributes) == p
                && additional == (if ev.data == [] then None else Some(p.attributes))
                && written == Indices(|ev.data|)
    {
      hide Pass, KindOf, Indices, ValuesOf;
      var attributes := new string[|ev.data|];
      var names := GetValues(ev.description);
      ghost var roles := RolesOf(names);
      var lastEvent;
      failure, lastEvent, written := ReadNames(ev, names, attributes);
      if failure.Some? {
        return;
      }
      failure, written := ReadRest(ev, roles, attributes, lastEvent, written);
      if failure.Some? {
        return;
      }
      if attributes.Length > 0 {
        additional := Some(attributes[..]);
      }
    }

    method HandleError(message: string, signer: string)
      modifies this`error, this`signerID
      ensures error == Some(message) && signerID == signer
    {
      error := Some(message);
      signerID := signer;
    }

    method AppendAmounts(exp: nat, currency: string) returns (failure: Option<Failure>)
      requires amounts == map[] && amount == None
      modifies this`amounts, this`amount
      ensures failure == AmountFault(values)
      ensures failure.None? ==> AllIntegers(values) && amounts == AmountMap(values, exp, currency)
                                && amount == SingleAmount(values, exp, currency)
    {
      failure := None;
      var n := |values|;
      assert values[..n] == values;
      var i := 0;
      while i < n
        invariant 0 <= i <= n == |values| && AmountsDone(values, i, exp, currency, amounts) && failure.None?
        invariant amount == if n == 1 && i == 1 then SingleAmount(values[..i], exp, currency) else None
      {
        var next: Option<Amount>;
        failure, next := GetAmount(values[i], exp, currency);
        if failure.Some? {
          FirstBadAmount(values, i);
          return;
        }
        NextAmount(values, i, exp, currency, amounts);
        amounts := amounts[Itoa(i) := next.value];
        if n == 1 && i == 0 {
          amount := next;
        }
        i := i + 1;
      }
    }

    method AppendSender()
      modifies this`sender, this`node
      ensures if senderAccountID == "" then sender == old(sender) && node == old(node)
              else sender == Some(Transfer(senderAccountID, amount)) && node == old(node)["sender" := [senderAccountID]]
    {
      if senderAccountID == "" { return; }
      sender := Some(Transfer(senderAccountID, amount));
      node := node["sender" := [senderAccountID]];
    }

    method AppendSigner()
      modifies this`node
      ensures node == if signerID == "" then old(node) else old(node)["signer" := [signerID]]
    {
      if signerID == "" { return; }
      node := node["signer" := [signerID]];
    }

    method AppendRecipient()
      modifies this`recipient, this`node, this`transfers
      ensures if recipientAccountID == ""
              then recipient == old(recipient) && node == old(node) && transfers == old(transfers)
              else recipient == Some(Transfer(recipientAccountID, amount))
                   && node == old(node)["recipient" := [recipientAccountID]]
                   && transfers == map[recipientAccountID := Transfer(recipientAccountID, amount)]
    {
      if recipientAccountID == "" { return; }
      recipient := Some(Transfer(recipientAccountID, amount));
      node := node["recipient" := [recipientAccountID]];
      transfers := map[recipientAccountID := Transfer(recipientAccountID, amount)];
    }

    method AppendAccounts()
      requires node == map[] && sender == None && recipient == None && transfers == map[]
      modifies this`node, this`sender, this`recipient, this`transfers
      ensures node == NodeOf(View([]), signerID)
      ensures sender == TransferOf(senderAccountID, amount) && recipient == TransferOf(recipientAccountID, amount)
      ensures transfers == if recipientAccountID == "" then map[]
                           else map[recipientAccountID := Transfer(recipientAccountID, amount)]
    {
      if accountIDs == [] && senderAccountID == "" && recipientAccountID == "" && signerID == "" {
        return;
      }
      node := map[];
      if accountIDs != [] {
        node := node["versions" := accountIDs];
      }
      AppendSender();
      AppendSigner();
      AppendRecipient();
    }

    /** The rest of getEvent once the description is parsed. */
    method Finish(ev: RawEvent, exp: nat, currency: string, signer: string, ghost p: Parsed) returns (r: EventResult)
      requires View(p.attributes) == p && TypeOk() && signerID == "" && amount == None && error == None
      requires additional == if ev.data == [] then None else Some(p.attributes)
      requires amounts == map[] && node == map[] && sender == None && recipient == None && transfers == map[]
      modifies this
      ensures r == EventFrom(ev, p, exp, currency, signer)
    {
      hide NodeOf, TransferOf, AmountMap, SingleAmount, AmountFault, AllIntegers, Lower;
      if ev.error != "" {
        HandleError(ev.error, signer);
      }
      var failure := AppendAmounts(exp, currency);
      if failure.Some? {
        return Rejected(failure.value);
      }
      AppendAccounts();
      var types := [Lower(ev.name)];
      if eventType != [] {
        types := types + eventType;
      }
      SameNode(View([]), p, signerID);
      r := Mapped(SubsetEvent(types, ev.section, error, additional, amounts, node, sender, recipient, transfers));
    }
  }

  lemma NothingPassed(kind: Kind, roles: seq<Role>, data: seq<EventData>)
    ensures Pass(kind, roles, data, 0) == Ok(EMPTY)
  {
  }

  lemma {:induction false} FirstFaultDecides(kind: Kind, roles: seq<Role>, data: seq<EventData>, k: nat, n: nat)
    requires k < n && Pass(kind, roles, data, k).Ok? && FaultAt(roles, data, k).Some?
    ensures Pass(kind, roles, data, n) == Bad(FaultAt(roles, data, k).value)
  {
    if k < n - 1 {
      FirstFaultDecides(kind, roles, data, k, n - 1);
    }
  }

  lemma {:induction false} FaultStays(values: seq<string>, k: nat)
    requires k <= |values| && AmountFault(values[..k]).Some?
    ensures AmountFault(values) == AmountFault(values[..k])
  {
    if k < |values| {
      var front := values[..|values| - 1];
      assert front[..k] == values[..k];
      FaultStays(front, k);
    } else {
      assert values[..k] == values;
    }
  }

  method GetEvent(ev: RawEvent, exp: nat, currency: string, signer: string) returns (r: EventResult)
    ensures r == EventOf(ev, exp, currency, signer)
  {
    var e := new Event();
    var failure, _ := e.ParseEventDescription(ev);
    if failure.Some? {
      return Rejected(failure.value);
    }
    ghost var p := OnePass(ev.name, ValuesOf(ev.description), ev.data).parsed;
    r := e.Finish(ev, exp, currency, signer, p);
  }

  // ----- what a mapped event tells

  /** No accepted event carries an empty value, so the nil amount is never dereferenced: mapping an event
      dies only on an empty data value. */
  lemma PanicsOnlyOnEmptyData(ev: RawEvent, exp: nat, currency: string, signer: string)
    requires EventOf(ev, exp, currency, signer) == Rejected(Panic)
    ensures exists k :: 0 <= k < |ev.data| && ev.data[k].value == ""
  {
    var names := ValuesOf(ev.description);
    var parse := OnePass(ev.name, names, ev.data);
    if parse.Ok? {
      AcceptedMeans(ev.name, names, ev.data);
      NeverPanics(parse.parsed.values);
    } else {
      PassFaultIsReal(KindOf(ev.name), RolesOf(names), ev.data, Larger(|names|, |ev.data|));
    }
  }

  lemma {:induction false} NeverPanics(values: seq<string>)
    requires forall i :: 0 <= i < |values| ==> values[i] != ""
    ensures AmountFault(values) != Some(Panic)
  {
    if values != [] {
      NeverPanics(values[..|values| - 1]);
    }
  }

  lemma {:induction false} PassFaultIsReal(kind: Kind, roles: seq<Role>, data: seq<EventData>, n: nat)
    requires Pass(kind, roles, data, n).Bad?
    ensures exists k :: 0 <= k < n && FaultAt(roles, data, k) == Some(Pass(kind, roles, data, n).failure)
  {
    if Pass(kind, roles, data, n - 1).Bad? {
      PassFaultIsReal(kind, roles, data, n - 1);
    }
  }

  /** With exactly one value the sender, the recipient and the transfer all carry its amount; otherwise they
      carry the zero amount. */
  lemma TransfersCarryTheValue(ev: RawEvent, exp: nat, currency: string, signer: string)
    requires EventOf(ev, exp, currency, signer).Mapped?
    ensures var e := EventOf(ev, exp, currency, signer).event;
            var amount := if |e.amounts| == 1 && "0" in e.amounts then Some(e.amounts["0"]) else None;
            && (e.sender.Some? ==> e.sender.value.amount == amount)
            && (e.recipient.Some? ==> e.recipient.value.amount == amount && e.recipient.value.account in e.transfers)
            && (forall a <- e.transfers :: e.transfers[a] == Transfer(a, amount) && e.recipient == Some(e.transfers[a]))
  {
    var p := OnePass(ev.name, ValuesOf(ev.description), ev.data).parsed;
    NoFaultIffIntegers(p.values);
    OneEntryPerValue(p.values, exp, currency);
    assert Itoa(0) == "0";
  }

  ghost predicate IsLastOf(x: string, selected: seq<string>) {
    selected != [] && x == selected[|selected| - 1]
  }

  lemma NodeHolds(p: Parsed, signer: string)
    ensures var node := NodeOf(p, signer);
            && ("versions" in node <==> p.accounts != []) && ("versions" in node ==> node["versions"] == p.accounts)
            && ("sender" in node <==> p.sender != "") && ("sender" in node ==> node["sender"] == [p.sender])
            && ("signer" in node <==> signer != "") && ("signer" in node ==> node["signer"] == [signer])
            && ("recipient" in node <==> p.recipient != "") && ("recipient" in node ==> node["recipient"] == [p.recipient])
  {
  }

  lemma EventFields(ev: RawEvent, p: Parsed, exp: nat, currency: string, signer: string)
    requires EventFrom(ev, p, exp, currency, signer).Mapped?
    ensures var e := EventFrom(ev, p, exp, currency, signer).event;
            && AllIntegers(p.values) && e.amounts == AmountMap(p.values, exp, currency)
            && e.node == NodeOf(p, if ev.error == "" then "" else signer)
            && (p.sender == "" ==> e.sender == None)
            && (p.sender != "" ==> e.sender.Some? && e.sender.value.account == p.sender)
            && (p.recipient == "" ==> e.recipient == None && e.transfers == map[])
            && (p.recipient != "" ==> e.recipient.Some? && e.recipient.value.account == p.recipient
                                      && e.transfers.Keys == {p.recipient})
            && e.types == [Lower(ev.name)] + (if p.isError then ["error"] else [])
            && e.section == ev.section && e.error == (if ev.error == "" then None else Some(ev.error))
  {
    NoFaultIffIntegers(p.values);
    hide AmountMap, NodeOf, AmountFault, Lower, AllIntegers;
  }

  /** What mapped events hold, by argument name. Sender and recipient are the last values named so; they are
      missing exactly when nothing is. */
  lemma MappedAccounts(ev: RawEvent, exp: nat, currency: string, signer: string)
    requires EventOf(ev, exp, currency, signer).Mapped?
    ensures var e, names := EventOf(ev, exp, currency, signer).event, ValuesOf(ev.description);
            var senders := Selected(IsSender, ev.name, names, ev.data, |ev.data|);
            var recipients := Selected(IsRecipient, ev.name, names, ev.data, |ev.data|);
            var accounts := Selected(IsAccount, ev.name, names, ev.data, |ev.data|);
            && (e.sender.Some? <==> senders != []) && ("sender" in e.node <==> senders != [])
            && (senders != [] ==> IsLastOf(e.sender.value.account, senders) && e.node["sender"] == [e.sender.value.account])
            && (e.recipient.Some? <==> recipients != []) && ("recipient" in e.node <==> recipients != [])
            && (recipients == [] ==> e.transfers == map[])
            && (recipients != [] ==>
                  && IsLastOf(e.recipient.value.account, recipients)
                  && e.node["recipient"] == [e.recipient.value.account] && e.transfers.Keys == {e.recipient.value.account})
            && ("versions" in e.node <==> accounts != []) && (accounts != [] ==> e.node["versions"] == accounts)
            && ("signer" in e.node <==> ev.error != "" && signer != "") && ("signer" in e.node ==> e.node["signer"] == [signer])
  {
    var names := ValuesOf(ev.description);
    var p := OnePass(ev.name, names, ev.data).parsed;
    hide Selected, Renderings, OnePass, EventFrom, ValuesOf, NodeOf, Passes, AllDigits, LastOr, IsLastOf;
    AcceptedMeans(ev.name, names, ev.data);
    LastSelected(IsSender, ev.name, names, ev.data);
    LastSelected(IsRecipient, ev.name, names, ev.data);
    EventFields(ev, p, exp, currency, signer);
    NodeHolds(p, if ev.error == "" then "" else signer);
  }

  /** The amounts are those of the balances named so or past the names, under their index; the type is the name
      of the event in lower case, with an error beside it when an error is named. */
  lemma MappedAmounts(ev: RawEvent, exp: nat, currency: string, signer: string)
    requires EventOf(ev, exp, currency, signer).Mapped?
    ensures var e, names := EventOf(ev, exp, currency, signer).event, ValuesOf(ev.description);
            var values := Selected(IsValue, ev.name, names, ev.data, |ev.data|);
            && |e.amounts| == |values|
            && (forall i :: 0 <= i < |values| ==>
                  && Itoa(i) in e.amounts && ParseInteger(values[i]).Some?
                  && e.amounts[Itoa(i)] == Amount(ParseInteger(values[i]).value, currency, exp))
            && e.section == ev.section && e.error == (if ev.error == "" then None else Some(ev.error))
            && e.types == [Lower(ev.name)]
                          + (if Selected(IsError, ev.name, names, ev.data, |ev.data|) == [] then [] else ["error"])
  {
    var names := ValuesOf(ev.description);
    var p := OnePass(ev.name, names, ev.data).parsed;
    hide Selected, Renderings, OnePass, EventFrom, ValuesOf, NodeOf, Passes, AmountMap, Itoa, ParseInteger, Lower;
    AcceptedMeans(ev.name, names, ev.data);
    EventFields(ev, p, exp, currency, signer);
    OneEntryPerValue(p.values, exp, currency);
  }

  /** No selected value is empty, so the last one is missing exactly when none is selected. */
  lemma LastSelected(test: Test, event: string, names: seq<string>, data: seq<EventData>)
    requires forall k :: 0 <= k < |data| ==> data[k].value != ""
    ensures var vs := Selected(test, event, names, data, |data|);
            (LastOr(vs) == "" <==> vs == []) && (vs != [] ==> IsLastOf(LastOr(vs), vs))
  {
    SelectedAt(test, event, names, data, |data|);
  }

  // ----- an example

  const TRANSFER_ARGS := "from, to, value"

  /** An event with the arguments of a transfer. */
  function TransferEvent(a: string, b: string, value: string): RawEvent {
    RawEvent(0, "Transfer", "balances", "\\[" + TRANSFER_ARGS + "\\]",
             [EventData("AccountId", a), EventData("AccountId", b), EventData("Balance", value)], "", "")
  }

  lemma TransferArgs(d: string)
    requires d == "\\[" + TRANSFER_ARGS + "\\]"
    ensures FindArgs(d, 0) == Some(TRANSFER_ARGS)
  {
    assert MatchesAt(d, 0, |d|);
    MatchEndIsTheMatch(d, 0, |d|);
    assert d[2..|d| - 2] == TRANSFER_ARGS;
    hide MatchesAt, MatchEnd, RunEnd;
  }

  lemma TransferSplit()
    ensures Split(TRANSFER_ARGS) == ["from", " to", " value"]
  {
    var parts := ["from", " to", " value"];
    assert parts[..2] == ["from", " to"] && parts[..2][..1] == ["from"];
    assert Join(parts) == TRANSFER_ARGS;
    hide Split;
    JoinRoundTrip(parts);
  }

  lemma TransferNames(a: string, b: string, value: string)
    ensures ValuesOf(TransferEvent(a, b, value).description) == ["from", "to", "value"]
  {
    hide FindArgs, Split;
    TransferArgs(TransferEvent(a, b, value).description);
    TransferSplit();
    assert " to"[1..] == "to" && " value"[1..] == "value";
    assert Trimmed(["from", " to", " value"]) == ["from", "to", "value"];
  }

  lemma TransferSelects(test: Test, a: string, b: string, value: string)
    ensures Selected(test, "Transfer", ["from", "to", "value"], TransferEvent(a, b, value).data, 3)
            == match test case IsSender => [a] case IsRecipient => [b] case IsValue => [value] case _ => []
  {
    var names, data := ["from", "to", "value"], TransferEvent(a, b, value).data;
    assert Lower("Transfer")[0] == 't';
    assert Selected(test, "Transfer", names, data, 0) == [];
    assert Selected(test, "Transfer", names, data, 1) == if test == IsSender then [a] else [];
    assert Selected(test, "Transfer", names, data, 2)
           == match test case IsSender => [a] case IsRecipient => [b] case _ => [];
  }

  lemma TransferParsed(a: string, b: string, value: string)
    requires a != "" && b != "" && value != ""
    ensures var r := OnePass("Transfer", ["from", "to", "value"], TransferEvent(a, b, value).data);
            r.Ok? && r.parsed.values == [value] && r.parsed.sender == a && r.parsed.recipient == b
  {
    var ev, names := TransferEvent(a, b, value), ["from", "to", "value"];
    hide OnePass, Selected, Passes, Renderings, AllDigits;
    AcceptedIff(ev.name, names, ev.data);
    AcceptedMeans(ev.name, names, ev.data);
    TransferSelects(IsSender, a, b, value);
    TransferSelects(IsRecipient, a, b, value);
    TransferSelects(IsValue, a, b, value);
  }

  /** The sender of a transfer is who stands under from, its recipient who stands under to, and the value goes
      to both. */
  lemma TransferIsMapped(a: string, b: string, n: nat, exp: nat, currency: string, signer: string)
    requires a != "" && b != ""
    ensures var r := EventOf(TransferEvent(a, b, Itoa(n)), exp, currency, signer);
            && r.Mapped?
            && r.event.sender == Some(Transfer(a, Some(Amount(n, currency, exp))))
            && r.event.recipient == Some(Transfer(b, Some(Amount(n, currency, exp))))
            && r.event.transfers == map[b := Transfer(b, Some(Amount(n, currency, exp)))]
  {
    hide OnePass, ParseInteger, Itoa, ValuesOf, Lower;
    TransferNames(a, b, Itoa(n));
    ItoaRoundTrip(n);
    TransferParsed(a, b, Itoa(n));
    NoFaultIffIntegers([Itoa(n)]);
  }
}
