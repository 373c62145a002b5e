/** The name registry: its stored configuration and resolver, the two
    state-changing handlers and the two queries. */
module Contract {
  import opened Types
  import opened Validation
  import opened CoinHelpers

  /** The configuration slot. `transferPrice` is stored but no handler reads it. */
  datatype State = State(purchasePrice: Option<Coin>, transferPrice: Option<Coin>)

  /** The record stored under each registered name. */
  datatype NameRecord = NameRecord(owner: CanonicalAddr)

  datatype InitMsg = InitMsg(purchasePrice: Option<Coin>, transferPrice: Option<Coin>)

  datatype HandleMsg =
    | Register(name: string)
    | Transfer(name: string, to: HumanAddr)

  datatype QueryMsg =
    | ResolveRecord(name: string)
    | Config

  datatype ResolveRecordResponse = ResolveRecordResponse(address: Option<HumanAddr>)

  /** What a query answers, before it is encoded for the caller. */
  datatype QueryResponse =
    | Resolved(resolved: ResolveRecordResponse)
    | ConfigState(state: State)

  /** The closure `try_transfer` hands to the resolver's `update`: the record
      must exist and the sender must be its owner; then only the owner changes. */
  function OwnerSwap(api: Api, sender: HumanAddr, newOwner: CanonicalAddr, record: Option<NameRecord>)
    : (r: Result<NameRecord>)
    ensures r.Ok? <==> record.Some? && api.canonicalAddress(sender) == Some(record.value.owner)
    ensures r.Ok? ==> r.value == NameRecord(newOwner)
    ensures record.None? ==> r == Err(NameNotFound)
    ensures record.Some? && api.canonicalAddress(sender).None? ==> r == Err(CanonicalizeFailed(sender))
    ensures record.Some? && api.canonicalAddress(sender).Some? && r.Err? ==> r == Err(NotOwner)
  {
    match record
    case None => Err(NameNotFound)
    case Some(rec) =>
      match api.canonicalAddress(sender)
      case None => Err(CanonicalizeFailed(sender))
      case Some(s) =>
        if s != rec.owner then Err(NotOwner)
        else Ok(rec.(owner := newOwner))
  }

  /** The contract's storage: the configuration singleton and the bucket that
      maps each name to its record. */
  class Store {
    var config: Option<State>
    var resolver: map<string, NameRecord>

    /** Storage before the contract is instantiated. */
    constructor ()
      ensures config == None && resolver == map[]
    {
      config := None;
      resolver := map[];
    }

    /** `config(...).load()`: fails when nothing was saved yet. */
    function LoadConfig(): (r: Result<State>)
      reads this
      ensures r.Ok? <==> config.Some?
      ensures r.Ok? ==> r.value == config.value
      ensures r.Err? ==> r.error == ConfigNotFound
    {
      match config
      case None => Err(ConfigNotFound)
      case Some(s) => Ok(s)
    }

    /** `resolver(...).may_load(key)`. */
    function MayLoad(key: string): (r: Option<NameRecord>)
      reads this
      ensures r.Some? <==> key in resolver
      ensures r.Some? ==> r.value == resolver[key]
    {
      if key in resolver then Some(resolver[key]) else None
    }

    /** `config(...).save(...)`. */
    method SaveConfig(state: State)
      modifies this
      ensures config == Some(state) && resolver == old(resolver)
    {
      config := Some(state);
    }

    /** `resolver(...).save(key, ...)`. */
    method Save(key: string, record: NameRecord)
      modifies this
      ensures resolver == old(resolver)[key := record] && config == old(config)
    {
      resolver := resolver[key := record];
    }

    /** `resolver(...).update(key, action)`: shows `action` the current record
      (or its absence) and writes what it returns, only when it succeeds. */
    method Update(key: string, action: Option<NameRecord> -> Result<NameRecord>)
      returns (r: Result<NameRecord>)
      modifies this
      ensures r == action(old(MayLoad(key)))
      ensures r.Ok? ==> resolver == old(resolver)[key := r.value]
      ensures r.Err? ==> resolver == old(resolver)
      ensures config == old(config)
    {
      r := action(MayLoad(key));
      if r.Ok? {
        resolver := resolver[key := r.value];
      }
    }

    /** The funds pass the guard against the stored purchase price. */
    predicate PaysPurchasePrice(funds: seq<Coin>)
      reads this
    {
      config.Some? && AssertSentSufficientCoin(funds, config.value.purchasePrice).Ok?
    }

    /** Every check of `try_register` passes: the name is valid, the funds pay
      the purchase price, the sender's address converts, and the name is free. */
    predicate RegisterSucceeds(api: Api, info: MessageInfo, name: string)
      reads this
    {
      && ValidateName(name).Ok?
      && PaysPurchasePrice(info.sentFunds)
      && api.canonicalAddress(info.sender).Some?
      && name !in resolver
    }

    /** Every check of `try_transfer` passes: the funds pay the purchase price,
      the recipient's address converts, the name is registered, and the
      sender's address converts to its owner. */
    predicate TransferSucceeds(api: Api, info: MessageInfo, name: string, to: HumanAddr)
      reads this
    {
      && PaysPurchasePrice(info.sentFunds)
      && api.canonicalAddress(to).Some?
      && name in resolver
      && api.canonicalAddress(info.sender) == Some(resolver[name].owner)
    }

    /** `init`: stores both prices exactly as given. */
    method Init(msg: InitMsg)
      modifies this
      ensures config == Some(State(msg.purchasePrice, msg.transferPrice))
      ensures resolver == old(resolver)
    {
      SaveConfig(State(msg.purchasePrice, msg.transferPrice));
    }

    /** `try_register`: validate the name, check the funds against the
      purchase price, then claim the name for the sender unless it is taken.
      Every failure leaves the storage as it was. */
    method TryRegister(api: Api, info: MessageInfo, name: string) returns (r: Result<()>)
      modifies this
      ensures config == old(config)
      ensures ValidateName(name).Err? ==> r == ValidateName(name)
      ensures ValidateName(name).Ok? && old(config).None? ==> r == Err(ConfigNotFound)
      ensures ValidateName(name).Ok? && old(config).Some? && !old(PaysPurchasePrice(info.sentFunds))
        ==> r == Err(InsufficientFunds)
      ensures ValidateName(name).Ok? && old(PaysPurchasePrice(info.sentFunds))
        && api.canonicalAddress(info.sender).None?
        ==> r == Err(CanonicalizeFailed(info.sender))
      ensures ValidateName(name).Ok? && old(PaysPurchasePrice(info.sentFunds))
        && api.canonicalAddress(info.sender).Some? && name in old(resolver)
        ==> r == Err(NameTaken)
      ensures r.Ok? <==> old(RegisterSucceeds(api, info, name))
      ensures r.Ok? ==> resolver == old(resolver)[name := NameRecord(api.canonicalAddress(info.sender).value)]
      ensures r.Err? ==> resolver == old(resolver)
    {
      var valid := ValidateName(name);
      if valid.Err? {
        return valid;
      }
      var state := LoadConfig();
      if state.Err? {
        return Err(state.error);
      }
      var paid := AssertSentSufficientCoin(info.sentFunds, state.value.purchasePrice);
      if paid.Err? {
        return paid;
      }
      var owner := api.canonicalAddress(info.sender);
      if owner.None? {
        return Err(CanonicalizeFailed(info.sender));
      }
      if MayLoad(name).Some? {
        return Err(NameTaken);
      }
      Save(name, NameRecord(owner.value));
      return Ok(());
    }

    /** `try_transfer`: check the funds against the PURCHASE price (the
      stored transfer price is not consulted), then hand the name to `to`
      through one `update` that fails unless the record exists and the
      sender owns it. Every failure leaves the storage as it was. */
    method TryTransfer(api: Api, info: MessageInfo, name: string, to: HumanAddr) returns (r: Result<()>)
      modifies this
      ensures config == old(config)
      ensures old(config).None? ==> r == Err(ConfigNotFound)
      ensures old(config).Some? && !old(PaysPurchasePrice(info.sentFunds)) ==> r == Err(InsufficientFunds)
      ensures old(PaysPurchasePrice(info.sentFunds)) && api.canonicalAddress(to).None?
        ==> r == Err(CanonicalizeFailed(to))
      ensures old(PaysPurchasePrice(info.sentFunds)) && api.canonicalAddress(to).Some?
        && name !in old(resolver)
        ==> r == Err(NameNotFound)
      ensures old(PaysPurchasePrice(info.sentFunds)) && api.canonicalAddress(to).Some?
        && name in old(resolver) && api.canonicalAddress(info.sender).None?
        ==> r == Err(CanonicalizeFailed(info.sender))
      ensures old(PaysPurchasePrice(info.sentFunds)) && api.canonicalAddress(to).Some?
        && name in old(resolver) && api.canonicalAddress(info.sender).Some?
        && api.canonicalAddress(info.sender) != Some(old(resolver)[name].owner)
        ==> r == Err(NotOwner)
      ensures r.Ok? <==> old(TransferSucceeds(api, info, name, to))
      ensures r.Ok? ==> resolver == old(resolver)[name := NameRecord(api.canonicalAddress(to).value)]
      ensures r.Err? ==> resolver == old(resolver)
    {
      var state := LoadConfig();
      if state.Err? {
        return Err(state.error);
      }
      var paid := AssertSentSufficientCoin(info.sentFunds, state.value.purchasePrice);
      if paid.Err? {
        return paid;
      }
      var newOwner := api.canonicalAddress(to);
      if newOwner.None? {
        return Err(CanonicalizeFailed(to));
      }
      var updated := Update(name, record => OwnerSwap(api, info.sender, newOwner.value, record));
      if updated.Err? {
        return Err(updated.error);
      }
      return Ok(());
    }

    /** `handle`: dispatches a request and returns what its handler returns:
      it succeeds exactly when that handler's checks pass, and then makes that
      handler's one change. Whatever the request, the
      configuration is untouched, no name is ever removed, at most the
      request's name changes, a newly taken name belongs to the sender, and
      only the current owner can make a name change hands. */
    method Handle(api: Api, info: MessageInfo, msg: HandleMsg) returns (r: Result<()>)
      modifies this
      ensures config == old(config)
      // A Register request fails with `try_register`'s errors, in its order.
      ensures msg.Register? && ValidateName(msg.name).Err? ==> r == ValidateName(msg.name)
      ensures msg.Register? && ValidateName(msg.name).Ok? && old(config).None? ==> r == Err(ConfigNotFound)
      ensures msg.Register? && ValidateName(msg.name).Ok? && old(config).Some?
        && !old(PaysPurchasePrice(info.sentFunds))
        ==> r == Err(InsufficientFunds)
      ensures msg.Register? && ValidateName(msg.name).Ok? && old(PaysPurchasePrice(info.sentFunds))
        && api.canonicalAddress(info.sender).None?
        ==> r == Err(CanonicalizeFailed(info.sender))
      ensures msg.Register? && ValidateName(msg.name).Ok? && old(PaysPurchasePrice(info.sentFunds))
        && api.canonicalAddress(info.sender).Some? && msg.name in old(resolver)
        ==> r == Err(NameTaken)
      // A Transfer request fails with `try_transfer`'s errors, in its order.
      ensures msg.Transfer? && old(config).None? ==> r == Err(ConfigNotFound)
      ensures msg.Transfer? && old(config).Some? && !old(PaysPurchasePrice(info.sentFunds))
        ==> r == Err(InsufficientFunds)
      ensures msg.Transfer? && old(PaysPurchasePrice(info.sentFunds)) && api.canonicalAddress(msg.to).None?
        ==> r == Err(CanonicalizeFailed(msg.to))
      ensures msg.Transfer? && old(PaysPurchasePrice(info.sentFunds)) && api.canonicalAddress(msg.to).Some?
        && msg.name !in old(resolver)
        ==> r == Err(NameNotFound)
      ensures msg.Transfer? && old(PaysPurchasePrice(info.sentFunds)) && api.canonicalAddress(msg.to).Some?
        && msg.name in old(resolver) && api.canonicalAddress(info.sender).None?
        ==> r == Err(CanonicalizeFailed(info.sender))
      ensures msg.Transfer? && old(PaysPurchasePrice(info.sentFunds)) && api.canonicalAddress(msg.to).Some?
        && msg.name in old(resolver) && api.canonicalAddress(info.sender).Some?
        && api.canonicalAddress(info.sender) != Some(old(resolver)[msg.name].owner)
        ==> r == Err(NotOwner)
      ensures msg.Register? ==> (r.Ok? <==> old(RegisterSucceeds(api, info, msg.name)))
      ensures msg.Register? && r.Ok? ==>
        resolver == old(resolver)[msg.name := NameRecord(api.canonicalAddress(info.sender).value)]
      ensures msg.Transfer? ==> (r.Ok? <==> old(TransferSucceeds(api, info, msg.name, msg.to)))
      ensures msg.Transfer? && r.Ok? ==>
        resolver == old(resolver)[msg.name := NameRecord(api.canonicalAddress(msg.to).value)]
      ensures r.Err? ==> resolver == old(resolver)
      ensures old(resolver).Keys <= resolver.Keys <= old(resolver).Keys + {msg.name}
      ensures forall n :: n in old(resolver) && n != msg.name ==> resolver[n] == old(resolver)[n]
      ensures msg.name !in old(resolver) && msg.name in resolver ==>
        msg.Register? && api.canonicalAddress(info.sender) == Some(resolver[msg.name].owner)
      ensures msg.name in old(resolver) && resolver[msg.name] != old(resolver)[msg.name] ==>
        msg.Transfer? && api.canonicalAddress(info.sender) == Some(old(resolver)[msg.name].owner)
    {
      match msg
      case Register(name) =>
        r := TryRegister(api, info, name);
      case Transfer(name, to) =>
        r := TryTransfer(api, info, name, to);
    }

    /** `query_resolver`: a missing name is answered with no address, not
      with an error; a registered one with its owner's human address. */
    function QueryResolver(api: Api, name: string): (r: Result<ResolveRecordResponse>)
      reads this
      ensures r == Ok(ResolveRecordResponse(None)) <==> name !in resolver
      ensures r.Ok? && r.value.address.Some? ==>
        name in resolver && api.humanAddress(resolver[name].owner) == r.value.address
      ensures r.Err? ==>
        name in resolver && api.humanAddress(resolver[name].owner).None?
        && r.error == HumanizeFailed(resolver[name].owner)
    {
      match MayLoad(name)
      case None => Ok(ResolveRecordResponse(None))
      case Some(record) =>
        match api.humanAddress(record.owner)
        case None => Err(HumanizeFailed(record.owner))
        case Some(h) => Ok(ResolveRecordResponse(Some(h)))
    }

    /** `query`: the Config query answers the stored prices verbatim. */
    function Query(api: Api, msg: QueryMsg): (r: Result<QueryResponse>)
      reads this
      ensures msg.Config? ==> (r.Ok? <==> config.Some?)
      ensures msg.Config? && r.Ok? ==> r.value == ConfigState(config.value)
      ensures msg.Config? && r.Err? ==> r.error == ConfigNotFound
      ensures msg.ResolveRecord? && r.Ok? ==> r.value.Resolved?
      ensures msg.ResolveRecord? ==>
        (r == Ok(Resolved(ResolveRecordResponse(None))) <==> msg.name !in resolver)
      ensures msg.ResolveRecord? && r.Ok? && r.value.resolved.address.Some? ==>
        msg.name in resolver && api.humanAddress(resolver[msg.name].owner) == r.value.resolved.address
      ensures msg.ResolveRecord? && r.Err? ==>
        msg.name in resolver && api.humanAddress(resolver[msg.name].owner).None?
        && r.error == HumanizeFailed(resolver[msg.name].owner)
    {
      match msg
      case ResolveRecord(name) =>
        (match QueryResolver(api, name)
         case Err(e) => Err(e)
         case Ok(resp) => Ok(Resolved(resp)))
      case Config =>
        (match LoadConfig()
         case Err(e) => Err(e)
         case Ok(s) => Ok(ConfigState(s)))
    }
  }
}
