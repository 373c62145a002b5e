/** Clients of the registry that compose its operations; each is proved from
    the operations' contracts alone. */
module Scenarios {
  import opened Types
  import opened Validation
  import opened CoinHelpers
  import opened Contract

  /** After `init`, the Config query answers both prices as given. */
  method InitThenQueryConfig(store: Store, api: Api, msg: InitMsg) returns (r: Result<QueryResponse>)
    modifies store
    ensures r == Ok(ConfigState(State(msg.purchasePrice, msg.transferPrice)))
  {
    store.Init(msg);
    r := store.Query(api, Config);
  }

  /** After a successful registration the name resolves to the sender,
    provided the host converts the sender's address back and forth. */
  method RegisterThenResolve(store: Store, api: Api, info: MessageInfo, name: string)
    returns (r: Result<()>, q: Result<ResolveRecordResponse>)
    modifies store
    ensures r.Ok? ==> api.canonicalAddress(info.sender).Some?
    ensures r.Ok? && api.humanAddress(api.canonicalAddress(info.sender).value) == Some(info.sender)
      ==> q == Ok(ResolveRecordResponse(Some(info.sender)))
  {
    r := store.TryRegister(api, info, name);
    q := store.QueryResolver(api, name);
  }

  /** After a successful transfer the name resolves to the recipient,
    provided the host converts the recipient's address back and forth. */
  method TransferThenResolve(store: Store, api: Api, info: MessageInfo, name: string, to: HumanAddr)
    returns (r: Result<()>, q: Result<ResolveRecordResponse>)
    modifies store
    ensures r.Ok? ==> api.canonicalAddress(to).Some?
    ensures r.Ok? && api.humanAddress(api.canonicalAddress(to).value) == Some(to)
      ==> q == Ok(ResolveRecordResponse(Some(to)))
  {
    r := store.TryTransfer(api, info, name, to);
    q := store.QueryResolver(api, name);
  }

  /** A failed request, repeated, fails the same way and changes nothing. */
  method RepeatFailedRequest(store: Store, api: Api, info: MessageInfo, msg: HandleMsg)
    returns (first: Result<()>, second: Result<()>)
    modifies store
    ensures first.Err? ==> second == first
    ensures first.Err? ==> store.config == old(store.config) && store.resolver == old(store.resolver)
  {
    first := store.Handle(api, info, msg);
    second := first;
    if first.Err? {
      second := store.Handle(api, info, msg);
    }
  }

  /** "alice" is an acceptable name. */
  lemma AliceIsValid()
    ensures ValidateName("alice") == Ok(())
  {
  }

  /** A coin of exactly the price pays it. */
  lemma PaysInFull(price: Coin)
    ensures AssertSentSufficientCoin([price], Some(price)).Ok?
  {
  }

  /** Register "alice", refuse a second registration and underpayment,
    refuse a transfer by a non-owner, then let the owner hand it over. The
    refusals of a taken name and of a non-owner go through `handle`. */
  method RegistrationWalkthrough(api: Api, a: CanonicalAddr, b: CanonicalAddr, c: CanonicalAddr)
    returns (taken: Result<()>, underpaid: Result<()>, notOwner: Result<()>,
             resolved: Result<ResolveRecordResponse>, ghostName: Result<ResolveRecordResponse>)
    requires api.canonicalAddress("addr-a") == Some(a)
    requires api.canonicalAddress("addr-b") == Some(b)
    requires api.canonicalAddress("addr-c") == Some(c)
    requires api.humanAddress(c) == Some("addr-c")
    requires a != b
    ensures taken == Err(NameTaken)
    ensures underpaid == Err(InsufficientFunds)
    ensures notOwner == Err(NotOwner)
    ensures resolved == Ok(ResolveRecordResponse(Some("addr-c")))
    ensures ghostName == Ok(ResolveRecordResponse(None))
  {
    var price := Coin("earth", 100);
    var store := new Store();
    store.Init(InitMsg(Some(price), Some(price)));
    AliceIsValid();
    PaysInFull(price);

    var r := store.TryRegister(api, MessageInfo("addr-a", [Coin("earth", 100)]), "alice");
    assert r.Ok?;
    assert store.resolver["alice"] == NameRecord(a);

    taken := store.Handle(api, MessageInfo("addr-b", [Coin("earth", 100)]), Register("alice"));
    assert store.resolver["alice"] == NameRecord(a);

    underpaid := store.TryRegister(api, MessageInfo("addr-a", [Coin("earth", 50)]), "bob");
    assert "bob" !in store.resolver;

    notOwner := store.Handle(api, MessageInfo("addr-b", [Coin("earth", 100)]), Transfer("alice", "addr-c"));
    assert store.resolver["alice"] == NameRecord(a);

    r := store.TryTransfer(api, MessageInfo("addr-a", [Coin("earth", 100)]), "alice", "addr-c");
    assert r.Ok?;
    resolved := store.QueryResolver(api, "alice");
    ghostName := store.QueryResolver(api, "ghost");
  }

  /** A transfer is charged the purchase price: paying the (lower) stored
    transfer price is refused, and a free transfer price does not make the
    transfer free. */
  method TransferChargesPurchasePrice(api: Api, a: CanonicalAddr)
    returns (paidTransferPrice: Result<()>, freeTransferPrice: Result<()>)
    requires api.canonicalAddress("addr-a") == Some(a)
    requires api.canonicalAddress("addr-c").Some?
    ensures paidTransferPrice == Err(InsufficientFunds)
    ensures freeTransferPrice == Err(InsufficientFunds)
  {
    var store := new Store();
    store.Init(InitMsg(Some(Coin("earth", 100)), Some(Coin("earth", 10))));
    AliceIsValid();
    PaysInFull(Coin("earth", 100));
    var r := store.TryRegister(api, MessageInfo("addr-a", [Coin("earth", 100)]), "alice");
    assert r.Ok?;

    paidTransferPrice := store.TryTransfer(api, MessageInfo("addr-a", [Coin("earth", 10)]), "alice", "addr-c");
    assert store.resolver["alice"] == NameRecord(a);

    var other := new Store();
    other.Init(InitMsg(Some(Coin("earth", 100)), None));
    r := other.TryRegister(api, MessageInfo("addr-a", [Coin("earth", 100)]), "alice");
    assert r.Ok?;
    freeTransferPrice := other.TryTransfer(api, MessageInfo("addr-a", []), "alice", "addr-c");
  }
}
