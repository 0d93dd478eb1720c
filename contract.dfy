/**
 * The coin-flip consumer: a contract that pays an entropy beacon to request
 * random bytes (`Coinflip`), and later, when the beacon calls it back
 * (`ReceiveEntropy`), checks who is calling and turns the parity of the last
 * random byte into "heads" or "tails".
 *
 * The two collaborators outside the contract are parameters: the beacon's
 * fee quote (a cross-contract query that may fail) and the decoder of the
 * correlation bytes (a deserialiser that may fail).
 */
module Contract {
  import opened Types
  import opened Funds

  /** Gas the consumer reserves for the beacon's callback. */
  const CALLBACK_GAS_LIMIT: U64 := 100_000

  /** The only denomination the consumer pays the beacon in. */
  const NATIVE_DENOM: string := "uluna"

  /** The beacon's fee for a callback gas limit, asked of the beacon at the given address. */
  type FeeQuery = (U64, Addr) -> StdResult<Uint128>

  /** `from_binary::<EntropyCallbackData>`. */
  type CallbackDecoder = Binary -> StdResult<EntropyCallbackData>

  /** The attribute value for the parity of the deciding byte. */
  function FlipResult(last: U8): (r: string)
    ensures r == "heads" <==> last % 2 == 0
    ensures r == "tails" <==> last % 2 == 1
  {
    if last % 2 == 0 then "heads" else "tails"
  }

  /**
   * The request the consumer sends when a caller pays for a flip: the fixed
   * gas limit, its own address for the callback, exactly the quoted fee in
   * the native denomination, and the caller as correlation data.
   */
  function FlipRequest(env: Env, info: MessageInfo, fee: Uint128): (req: EntropyRequest)
    ensures req.callbackGasLimit == 100_000
    ensures req.callbackAddress == env.contractAddress
    ensures req.callbackMsg.originalSender == info.sender
    // one coin, in the native denomination, worth exactly the fee
    ensures |req.funds| == 1 && req.funds[0].denom == "uluna"
    ensures TotalAmount(req.funds) == fee
  {
    EntropyRequest(CALLBACK_GAS_LIMIT, env.contractAddress, [Coin(NATIVE_DENOM, fee)],
                   EntropyCallbackData(info.sender))
  }

  /** The `Coinflip` branch of `execute`, given the loaded state. */
  function CoinflipOutcome(state: Option<State>, env: Env, info: MessageInfo, quote: FeeQuery): (r: Outcome)
    // nothing stored yet: loading the state fails first
    ensures state.None? ==> r == Err(Std(NotFound))
    // the sum of the attached amounts must fit in a Uint128
    ensures state.Some? && TotalAmount(info.funds) > UINT128_MAX ==> r == Panic
    // a failed fee query is passed on unchanged
    ensures state.Some? && TotalAmount(info.funds) <= UINT128_MAX
            && quote(CALLBACK_GAS_LIMIT, state.value.entropyBeaconAddr).StdErr?
            ==> r == Err(Std(quote(CALLBACK_GAS_LIMIT, state.value.entropyBeaconAddr).error))
    // paying less than the quote is refused, and only that is refused for lack of funds
    ensures r == Err(InsufficientFunds) <==>
              && state.Some?
              && TotalAmount(info.funds) <= UINT128_MAX
              && quote(CALLBACK_GAS_LIMIT, state.value.entropyBeaconAddr).StdOk?
              && TotalAmount(info.funds) < quote(CALLBACK_GAS_LIMIT, state.value.entropyBeaconAddr).value
    // paying at least the quote (equality included) succeeds
    ensures r.Ok? <==>
              && state.Some?
              && TotalAmount(info.funds) <= UINT128_MAX
              && quote(CALLBACK_GAS_LIMIT, state.value.entropyBeaconAddr).StdOk?
              && TotalAmount(info.funds) >= quote(CALLBACK_GAS_LIMIT, state.value.entropyBeaconAddr).value
    // a success emits exactly one request to the stored beacon and no attribute
    ensures r.Ok? ==>
              && r.response.attributes == []
              && |r.response.messages| == 1
              && r.response.messages[0].beacon == state.value.entropyBeaconAddr
              && r.response.messages[0].request.callbackGasLimit == 100_000
              && r.response.messages[0].request.callbackAddress == env.contractAddress
              && r.response.messages[0].request.callbackMsg.originalSender == info.sender
              && r.response.messages[0].request.funds
                 == [Coin("uluna", quote(CALLBACK_GAS_LIMIT, state.value.entropyBeaconAddr).value)]
  {
    match state
    case None => Err(Std(NotFound))
    case Some(st) =>
      var sent := TotalAmount(info.funds);
      if sent > UINT128_MAX then Panic
      else
        match quote(CALLBACK_GAS_LIMIT, st.entropyBeaconAddr)
        case StdErr(e) => Err(Std(e))
        case StdOk(fee) =>
          if sent < fee then Err(InsufficientFunds)
          else Ok(EmptyResponse.AddMessage(BeaconExecute(st.entropyBeaconAddr, FlipRequest(env, info, fee))))
  }

  /**
   * What a callback must satisfy before its payload is trusted: it comes
   * from the stored beacon, and it answers a request this contract made.
   */
  predicate Authentic(st: State, env: Env, info: MessageInfo, data: EntropyCallbackMsg)
  {
    info.sender == st.entropyBeaconAddr && data.requester == env.contractAddress
  }

  /**
   * The two checks as the contract runs them, sender first, requester
   * second, stopping at the first failure. `None` means both passed.
   */
  function Authenticate(st: State, env: Env, info: MessageInfo, data: EntropyCallbackMsg): (failure: Option<ContractError>)
    ensures failure == None <==> Authentic(st, env, info, data)
    ensures failure != None ==> failure == Some(Unauthorized)
  {
    if info.sender != st.entropyBeaconAddr then Some(Unauthorized)
    else if data.requester != env.contractAddress then Some(Unauthorized)
    else None
  }

  /** The `ReceiveEntropy` branch of `execute`, given the loaded state. */
  function ReceiveEntropyOutcome(state: Option<State>, env: Env, info: MessageInfo, data: EntropyCallbackMsg,
                                 decode: CallbackDecoder): (r: Outcome)
    ensures state.None? ==> r == Err(Std(NotFound))
    // the first check: any caller but the beacon is refused, whatever it sends
    ensures state.Some? && info.sender != state.value.entropyBeaconAddr ==> r == Err(Unauthorized)
    // the second check: a callback for another requester is refused
    ensures state.Some? && data.requester != env.contractAddress ==> r == Err(Unauthorized)
    // and nothing else is refused as unauthorized
    ensures r == Err(Unauthorized) <==> state.Some? && !Authentic(state.value, env, info, data)
    // the correlation bytes are decoded only after both checks, and a decoding failure is passed on
    ensures state.Some? && Authentic(state.value, env, info, data) && decode(data.msg).StdErr?
            ==> r == Err(Std(decode(data.msg).error))
    // an empty entropy panics at `last().unwrap()`, and nothing else panics
    ensures r == Panic <==>
              state.Some? && Authentic(state.value, env, info, data) && decode(data.msg).StdOk? && data.entropy == []
    // a genuine, decodable callback with entropy succeeds, and only such a callback
    ensures r.Ok? <==>
              state.Some? && Authentic(state.value, env, info, data) && decode(data.msg).StdOk? && data.entropy != []
    // a success names the original caller, then the parity of the last byte, and sends nothing
    ensures r.Ok? ==>
              && state.Some? && Authentic(state.value, env, info, data)
              && decode(data.msg).StdOk? && data.entropy != []
              && r.response.messages == []
              && |r.response.attributes| == 2
              && r.response.attributes[0]
                 == Attribute("flip_original_caller", decode(data.msg).value.originalSender)
              && r.response.attributes[1].key == "flip_result"
              && (r.response.attributes[1].value == "heads" <==> data.entropy[|data.entropy| - 1] % 2 == 0)
              && (r.response.attributes[1].value == "tails" <==> data.entropy[|data.entropy| - 1] % 2 == 1)
  {
    match state
    case None => Err(Std(NotFound))
    case Some(st) =>
      match Authenticate(st, env, info, data)
      case Some(e) => Err(e)
      case None =>
        match decode(data.msg)
        case StdErr(e) => Err(Std(e))
        case StdOk(callbackData) =>
          var response := EmptyResponse.AddAttribute("flip_original_caller", callbackData.originalSender);
          if data.entropy == [] then Panic
          else Ok(response.AddAttribute("flip_result", FlipResult(data.entropy[|data.entropy| - 1])))
  }

  /** `execute`: dispatch on the message kind. */
  function ExecuteOutcome(state: Option<State>, env: Env, info: MessageInfo, msg: ExecuteMsg,
                          quote: FeeQuery, decode: CallbackDecoder): (r: Outcome)
    ensures state.None? ==> r == Err(Std(NotFound))
    // only a flip can send a message, and a successful one sends exactly one and no attribute
    ensures r.Ok? && msg.Coinflip? ==> |r.response.messages| == 1 && r.response.attributes == []
    ensures r.Ok? && msg.ReceiveEntropy? ==> r.response.messages == [] && |r.response.attributes| == 2
    // lack of funds is a flip's error, lack of authority a callback's
    ensures r == Err(InsufficientFunds) ==> msg.Coinflip?
    ensures r == Err(Unauthorized) ==> msg.ReceiveEntropy?
  {
    match msg
    case Coinflip => CoinflipOutcome(state, env, info, quote)
    case ReceiveEntropy(data) => ReceiveEntropyOutcome(state, env, info, data, decode)
  }

  /**
   * The amount sent with a flip beyond what it takes to succeed is not
   * forwarded: two successful flips by the same caller emit the same
   * response, however much each attached and in whichever denominations.
   */
  lemma CoinflipPaysQuotedFeeOnly(state: Option<State>, env: Env, info1: MessageInfo, info2: MessageInfo,
                                  quote: FeeQuery)
    requires info1.sender == info2.sender
    requires CoinflipOutcome(state, env, info1, quote).Ok?
    requires CoinflipOutcome(state, env, info2, quote).Ok?
    ensures CoinflipOutcome(state, env, info1, quote) == CoinflipOutcome(state, env, info2, quote)
  {
  }

  /** Attaching more (up to the Uint128 range) never turns a successful flip into a failure. */
  lemma CoinflipMonotoneInFunds(state: Option<State>, env: Env, info: MessageInfo, extra: seq<Coin>,
                                quote: FeeQuery)
    requires CoinflipOutcome(state, env, info, quote).Ok?
    requires TotalAmount(info.funds + extra) <= UINT128_MAX
    ensures CoinflipOutcome(state, env, MessageInfo(info.sender, info.funds + extra), quote)
            == CoinflipOutcome(state, env, info, quote)
  {
    TotalAmountAppend(info.funds, extra);
  }

  /**
   * Until a callback has passed both checks, nothing it carries matters: the
   * entropy, the correlation bytes and the decoder cannot change the refusal.
   */
  lemma UnauthenticatedCallbackIgnoresPayload(st: State, env: Env, info: MessageInfo,
                                              data1: EntropyCallbackMsg, data2: EntropyCallbackMsg,
                                              decode1: CallbackDecoder, decode2: CallbackDecoder)
    requires data1.requester == data2.requester
    requires !Authentic(st, env, info, data1)
    ensures ReceiveEntropyOutcome(Some(st), env, info, data1, decode1) == Err(Unauthorized)
    ensures ReceiveEntropyOutcome(Some(st), env, info, data1, decode1)
            == ReceiveEntropyOutcome(Some(st), env, info, data2, decode2)
  {
  }

  /**
   * The flip depends on the entropy only through the parity of its last
   * byte: two callbacks alike except for their entropy, whose last bytes
   * have the same parity, end alike.
   */
  lemma FlipDependsOnlyOnLastByteParity(state: Option<State>, env: Env, info: MessageInfo,
                                        data1: EntropyCallbackMsg, data2: EntropyCallbackMsg,
                                        decode: CallbackDecoder)
    requires data1.requester == data2.requester && data1.msg == data2.msg
    requires data1.entropy != [] && data2.entropy != []
    requires data1.entropy[|data1.entropy| - 1] % 2 == data2.entropy[|data2.entropy| - 1] % 2
    ensures ReceiveEntropyOutcome(state, env, info, data1, decode)
            == ReceiveEntropyOutcome(state, env, info, data2, decode)
  {
  }

  /**
   * One whole round of the protocol. If the decoder inverts the encoding the
   * beacon applies to the correlation data, then the callback the beacon
   * makes for a successful request (from the beacon the request was sent
   * to, naming this contract as requester, carrying the request's own
   * correlation data back) succeeds, names the caller who paid for the flip
   * and reports the parity of the entropy's last byte.
   */
  lemma ProtocolRoundTrip(st: State, env: Env, info: MessageInfo, quote: FeeQuery,
                          encode: EntropyCallbackData -> Binary, decode: CallbackDecoder,
                          entropy: seq<U8>, callbackFunds: seq<Coin>)
    requires forall d :: decode(encode(d)) == StdOk(d)
    requires CoinflipOutcome(Some(st), env, info, quote).Ok?
    requires entropy != []
    ensures
      var sent := CoinflipOutcome(Some(st), env, info, quote).response.messages[0];
      var callback := EntropyCallbackMsg(entropy, env.contractAddress, encode(sent.request.callbackMsg));
      ReceiveEntropyOutcome(Some(st), env, MessageInfo(sent.beacon, callbackFunds), callback, decode)
      == Ok(Response([], [Attribute("flip_original_caller", info.sender),
                          Attribute("flip_result", if entropy[|entropy| - 1] % 2 == 0 then "heads" else "tails")]))
  {
  }

  /**
   * A deployed consumer. Its storage holds one item, the state naming the
   * trusted beacon, which only `Instantiate` writes.
   */
  class Consumer {
    /** The `STATE` storage item; `None` until the contract is instantiated. */
    var state: Option<State>

    /** Empty storage, before instantiation. */
    constructor ()
      ensures state == None
    {
      state := None;
    }

    /** `instantiate`: store the beacon address given in the message. */
    method Instantiate(env: Env, info: MessageInfo, msg: InstantiateMsg) returns (r: Outcome)
      modifies this
      ensures state == Some(State(msg.entropyBeaconAddr))
      ensures r == Ok(Response([], [Attribute("method", "instantiate")]))
    {
      state := Some(State(msg.entropyBeaconAddr));
      r := Ok(EmptyResponse.AddAttribute("method", "instantiate"));
    }

    /**
     * `execute`: both branches only load the state, so the method may not
     * change anything; its result is the one the specification functions give.
     */
    method Execute(env: Env, info: MessageInfo, msg: ExecuteMsg, quote: FeeQuery, decode: CallbackDecoder)
      returns (r: Outcome)
      ensures r == ExecuteOutcome(state, env, info, msg, quote, decode)
    {
      if state.None? {
        return Err(Std(NotFound));
      }
      var beaconAddr := state.value.entropyBeaconAddr;
      match msg
      case Coinflip =>
        var sentAmount := SumFunds(info.funds);
        if sentAmount.None? {
          return Panic;
        }
        var callbackGasLimit := CALLBACK_GAS_LIMIT;
        var beaconFee := quote(callbackGasLimit, beaconAddr);
        if beaconFee.StdErr? {
          return Err(Std(beaconFee.error));
        }
        if sentAmount.value < beaconFee.value {
          return Err(InsufficientFunds);
        }
        var request := EntropyRequest(callbackGasLimit, env.contractAddress,
                                      [Coin(NATIVE_DENOM, beaconFee.value)],
                                      EntropyCallbackData(info.sender));
        r := Ok(EmptyResponse.AddMessage(BeaconExecute(beaconAddr, request)));
      case ReceiveEntropy(data) =>
        if info.sender != beaconAddr {
          return Err(Unauthorized);
        }
        if data.requester != env.contractAddress {
          return Err(Unauthorized);
        }
        var entropy := data.entropy;
        var callbackData := decode(data.msg);
        if callbackData.StdErr? {
          return Err(Std(callbackData.error));
        }
        var response := EmptyResponse;
        response := response.AddAttribute("flip_original_caller", callbackData.value.originalSender);
        if entropy == [] {
          return Panic;
        }
        if entropy[|entropy| - 1] % 2 == 0 {
          response := response.AddAttribute("flip_result", "heads");
        } else {
          response := response.AddAttribute("flip_result", "tails");
        }
        r := Ok(response);
    }
  }

  /**
   * A full round against one deployed consumer: instantiate it with a
   * beacon, have a player pay enough for a flip, and let the beacon deliver
   * the entropy. The flip succeeds for the player, and the stored beacon
   * address is the one given at instantiation after both executions.
   */
  method PlayRound(env: Env, beacon: Addr, player: Addr, funds: seq<Coin>, quote: FeeQuery,
                   encode: EntropyCallbackData -> Binary, decode: CallbackDecoder, entropy: seq<U8>)
    returns (consumer: Consumer, request: Outcome, flip: Outcome)
    requires forall d :: decode(encode(d)) == StdOk(d)
    requires quote(CALLBACK_GAS_LIMIT, beacon).StdOk?
    requires quote(CALLBACK_GAS_LIMIT, beacon).value <= TotalAmount(funds) <= UINT128_MAX
    requires entropy != []
    ensures consumer.state == Some(State(beacon))
    ensures request.Ok? && |request.response.messages| == 1 && request.response.messages[0].beacon == beacon
    ensures flip == Ok(Response([], [Attribute("flip_original_caller", player),
                                     Attribute("flip_result", FlipResult(entropy[|entropy| - 1]))]))
  {
    consumer := new Consumer();
    var _ := consumer.Instantiate(env, MessageInfo(player, []), InstantiateMsg(beacon));
    request := consumer.Execute(env, MessageInfo(player, funds), Coinflip, quote, decode);
    var sent := request.response.messages[0];
    var callback := EntropyCallbackMsg(entropy, env.contractAddress, encode(sent.request.callbackMsg));
    ProtocolRoundTrip(State(beacon), env, MessageInfo(player, funds), quote, encode, decode, entropy, []);
    flip := consumer.Execute(env, MessageInfo(sent.beacon, []), ReceiveEntropy(callback), quote, decode);
  }
}
