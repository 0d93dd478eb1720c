/**
 * Values exchanged by the coin-flip consumer contract: the few CosmWasm
 * standard types it touches (coins, environment, message info, responses,
 * standard errors), the message types of the entropy beacon, and the
 * contract's own messages, stored state and error type.
 */
module Types {

  /** Widths of the Rust integer types the contract uses. */
  const U8_LIMIT: nat := 0x100
  const U64_LIMIT: nat := 0x1_0000_0000_0000_0000
  const UINT128_MAX: nat := 0xffff_ffff_ffff_ffff_ffff_ffff_ffff_ffff

  type U8 = x: int | 0 <= x < U8_LIMIT
  type U64 = x: nat | x < U64_LIMIT
  type Uint128 = x: nat | x <= UINT128_MAX

  /** Account and contract addresses are compared as plain strings. */
  type Addr = string

  /** Serialised bytes, as carried by a `Binary`. */
  type Binary = seq<U8>

  datatype Option<T> = None | Some(value: T)

  /** A native coin: its denomination and its amount. */
  datatype Coin = Coin(denom: string, amount: Uint128)

  /** One key/value attribute of a response. */
  datatype Attribute = Attribute(key: string, value: string)

  /** The standard library's error kinds the contract can propagate with `?`. */
  datatype StdError =
    | NotFound       // a storage item that was never saved
    | GenericErr     // a failed cross-contract query or serialisation
    | ParseErr       // bytes that do not decode into the expected type

  datatype StdResult<T> = StdOk(value: T) | StdErr(error: StdError)

  /** What the chain tells the contract about itself. */
  datatype Env = Env(contractAddress: Addr)

  /** Who called the contract and which coins came with the call. */
  datatype MessageInfo = MessageInfo(sender: Addr, funds: seq<Coin>)

  /** The correlation data the consumer asks the beacon to hand back. */
  datatype EntropyCallbackData = EntropyCallbackData(originalSender: Addr)

  /** A request for entropy as the consumer builds it for the beacon. */
  datatype EntropyRequest = EntropyRequest(
    callbackGasLimit: U64,
    callbackAddress: Addr,
    funds: seq<Coin>,
    callbackMsg: EntropyCallbackData)

  /**
   * An outbound message: the request, converted for execution against the
   * beacon contract at `beacon`. The wire encoding is not modelled.
   */
  datatype CosmosMsg = BeaconExecute(beacon: Addr, request: EntropyRequest)

  /** The beacon's callback: the entropy, who requested it, and the opaque correlation bytes. */
  datatype EntropyCallbackMsg = EntropyCallbackMsg(entropy: seq<U8>, requester: Addr, msg: Binary)

  /** A contract response: outbound messages and attributes, both in emission order. */
  datatype Response = Response(messages: seq<CosmosMsg>, attributes: seq<Attribute>)
  {
    function AddMessage(m: CosmosMsg): Response
    {
      Response(messages + [m], attributes)
    }

    function AddAttribute(key: string, value: string): Response
    {
      Response(messages, attributes + [Attribute(key, value)])
    }
  }

  /** `Response::new()`. */
  const EmptyResponse: Response := Response([], [])

  datatype InstantiateMsg = InstantiateMsg(entropyBeaconAddr: Addr)

  datatype ExecuteMsg =
    | Coinflip
    | ReceiveEntropy(data: EntropyCallbackMsg)

  /** The contract's only stored record. */
  datatype State = State(entropyBeaconAddr: Addr)

  datatype ContractError =
    | Std(cause: StdError)
    | Unauthorized
    | InsufficientFunds

  /**
   * How one entry-point invocation ends: a response, an error returned to
   * the caller, or a panic that aborts the transaction.
   */
  datatype Outcome =
    | Ok(response: Response)
    | Err(error: ContractError)
    | Panic
}
