/** Shared vocabulary of the name service: the host's result and error
    types, coins, addresses, and the host's address-conversion API. */
module Types {

  newtype byte = x: int | 0 <= x < 256

  /** An address as the user writes it. */
  type HumanAddr = string

  /** The host's canonical (binary) form of an address. */
  datatype CanonicalAddr = CanonicalAddr(bytes: seq<byte>)

  datatype Option<T> = None | Some(value: T)

  /** Every way a request can fail. The first seven are the contract's own
      `generic_err` failures; the last three come from the host. */
  datatype Error =
    | NameTooShort
    | NameTooLong
    | InvalidCharacter(c: char)
    | InsufficientFunds
    | NameTaken
    | NameNotFound
    | NotOwner
    | ConfigNotFound
    | CanonicalizeFailed(human: HumanAddr)
    | HumanizeFailed(canonical: CanonicalAddr)
  {
    /** Whether this failure is one the contract raises with `generic_err`. */
    predicate IsGeneric() {
      !ConfigNotFound? && !CanonicalizeFailed? && !HumanizeFailed?
    }
  }

  /** The text the contract puts into `generic_err` for each of its failures. */
  function Message(e: Error): (m: string)
    requires e.IsGeneric()
    ensures e.InvalidCharacter? ==> |m| == 22 && m[20] == e.c
  {
    match e
    case NameTooShort => "Name too short"
    case NameTooLong => "Name too long"
    case InvalidCharacter(c) => "Invalid character: '" + [c] + "'"
    case InsufficientFunds => "Insufficient funds sent"
    case NameTaken => "Name is already taken"
    case NameNotFound => "Name does not exist"
    case NotOwner => "Sender must be the owner of the address"
  }

  /** Distinct failures are reported with distinct texts, so the text of an
      invalid-character failure identifies the offending character. */
  lemma MessageInjective(e1: Error, e2: Error)
    requires e1.IsGeneric() && e2.IsGeneric()
    ensures Message(e1) == Message(e2) ==> e1 == e2
  {
  }

  /** `StdResult<T>`: a value or the failure that aborted the request. */
  datatype Result<T> = Ok(value: T) | Err(error: Error)

  /** An amount of one denomination; `Uint128` amounts are modelled as `nat`. */
  datatype Coin = Coin(denom: string, amount: nat)

  /** The host's address conversions (`deps.api`), each of which may fail. */
  datatype Api = Api(
    canonicalAddress: HumanAddr -> Option<CanonicalAddr>,
    humanAddress: CanonicalAddr -> Option<HumanAddr>)

  /** The part of a request's envelope the contract reads. */
  datatype MessageInfo = MessageInfo(sender: HumanAddr, sentFunds: seq<Coin>)
}
