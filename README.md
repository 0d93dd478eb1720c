# Coin-flip entropy consumer, modelled in Dafny

The modelled contract is a CosmWasm consumer of an entropy beacon. It is deployed once with
the address of the beacon it trusts (`instantiate`). It then accepts two execute messages:

- `Coinflip`: a player attaches coins. The contract adds up their amounts, whatever their
  denomination, and asks the beacon what a callback with a gas limit of 100 000 costs. If the
  player paid at least that much, it sends the beacon one entropy request. The request pays
  exactly the quoted fee in `uluna`, names the contract itself as callback address and carries
  the player's address as correlation data.
- `ReceiveEntropy`: the beacon's callback. The contract refuses it unless it comes from the
  stored beacon, and then unless it answers a request this contract made. Only then does it
  decode the correlation data. It reports the original player and "heads" or "tails" according
  to the parity of the last entropy byte.

Files:

- `types.dfy` (module `Types`): coins, addresses, environment, message info, responses and
  standard errors; the beacon's request and callback messages; the contract's messages, stored
  `State` and `ContractError`. `Outcome` is how an invocation ends: `Ok(response)`,
  `Err(error)`, or `Panic` (a Rust panic, which aborts the transaction).
- `funds.dfy` (module `Funds`): the attached amount. `TotalAmount` is the exact sum of every
  coin's amount. `SumFunds` adds left to right with `Uint128` addition, which panics on
  overflow.
- `contract.dfy` (module `Contract`): the two `execute` branches as functions of the loaded
  state (`CoinflipOutcome`, `ReceiveEntropyOutcome`), the lemmas relating several calls, and
  the class `Consumer`. Its field `state` is the `STATE` storage item. `Instantiate` writes it.
  `Execute` has no `modifies` clause, so Dafny checks that neither branch changes storage.

The two cross-contract collaborators are parameters. The beacon's fee query is a function
`(gas limit, beacon address) -> StdResult<Uint128>`, so it may fail. The decoding of the
correlation bytes (`from_binary`) is a function `Binary -> StdResult<EntropyCallbackData>`,
which may fail too. The round-trip lemma assumes only that this decoder inverts whatever
encoding the beacon's request used.

Behaviour the model keeps from the code:

- `entropy.last().unwrap()` panics on empty entropy, and the model yields `Panic`.
- `STATE.load` before `instantiate` fails, and the model yields `Std(NotFound)`.
- A failed fee query passes on its `StdError` unchanged.
- `instantiate` does not guard against being run twice, so the model's `Instantiate` overwrites.

`Consumer.Execute` is the imperative rendering of `execute`: early returns, the summing loop,
and the response built attribute by attribute. Its postcondition proves that it computes
exactly what the functions `ExecuteOutcome`, `CoinflipOutcome` and `ReceiveEntropyOutcome`
specify. The functions are where the properties are stated and proved.

## Model

| member | source | states |
|---|---|---|
| `Funds.TotalAmount` | src/contract.rs:49-50 | the sent amount is a sum over every attached coin, no coin filtered by denomination: each coin's amount is at most the total, and no coins give 0 |
| `Funds.TotalAmountAppend` | src/contract.rs:50 | the sum over two lists of coins put together is the sum of their sums |
| `Funds.TotalAmountPrefix` | src/contract.rs:50 | the coins seen so far never sum to more than all the coins |
| `Funds.TotalAmountIgnoresDenoms` | src/contract.rs:49-50 | two coin lists with the same amounts in the same order have the same total, whatever their denominations |
| `Funds.SumFunds` | src/contract.rs:50 | the iterator sum yields the exact total when it fits in a Uint128 and panics (None) exactly when it does not |
| `Contract.FlipResult` | src/contract.rs:109-113 | the result is "heads" iff the byte is even and "tails" iff it is odd |
| `Contract.FlipRequest` | src/contract.rs:67-79 | the request has gas limit 100 000, the contract's own address as callback and the sender as original_sender, and pays one uluna coin whose amount totals exactly the fee |
| `Contract.CoinflipOutcome` | src/contract.rs:46-82 | the Coinflip branch. It fails NotFound without state and panics on a Uint128 overflow of the sum. It passes on a failed fee query. It fails InsufficientFunds exactly when the sum is below the quote, and succeeds exactly when the sum is at least the quote. A success has no attributes and one message, addressed to the stored beacon, with gas limit 100 000, the contract's own address as callback, the sender as original_sender and funds exactly [uluna coin for the quote] |
| `Contract.Authenticate` | src/contract.rs:88-95 | the ordered sender-then-requester checks pass exactly when the callback comes from the stored beacon and names this contract as requester, and any failure is Unauthorized |
| `Contract.ReceiveEntropyOutcome` | src/contract.rs:84-115 | the ReceiveEntropy branch. A sender other than the stored beacon is Unauthorized whatever the rest of the message, and so is a requester other than this contract; Unauthorized occurs exactly when one of the two checks fails. Decoding happens only after both checks and its failure is passed on. It panics exactly when an authenticated, decodable callback has empty entropy. A callback succeeds exactly when it passes both checks, decodes and has non-empty entropy. A success sends no message and has exactly two attributes in order: flip_original_caller = decoded original_sender, then flip_result = heads iff the last byte is even, tails iff odd |
| `Contract.ExecuteOutcome` | src/contract.rs:44-116 | the dispatch on the message: without state every message fails NotFound; only a flip sends a message (exactly one, no attributes) and only a flip fails InsufficientFunds; a successful callback sends nothing and sets two attributes, and only a callback fails Unauthorized |
| `Contract.CoinflipPaysQuotedFeeOnly` | src/contract.rs:62-73 | two successful flips by the same sender produce the same response however much each attached: any excess over the quote is not forwarded |
| `Contract.CoinflipMonotoneInFunds` | src/contract.rs:50-64 | attaching more coins (within the Uint128 range) never turns a successful flip into a failure |
| `Contract.UnauthenticatedCallbackIgnoresPayload` | src/contract.rs:87-101 | a callback failing either check is refused Unauthorized, and its entropy, correlation bytes and the decoder do not affect the result |
| `Contract.FlipDependsOnlyOnLastByteParity` | src/contract.rs:98-113 | two callbacks differing only in entropy whose last bytes have equal parity end identically |
| `Contract.ProtocolRoundTrip` | src/contract.rs:66-114 | if the decoder inverts the encoding of the correlation data, the beacon's callback for a successful request succeeds, names the paying sender as original caller and reports heads iff the last entropy byte is even |
| `Contract.Consumer.Instantiate` | src/contract.rs:22-35 | stores exactly the given beacon address and responds with the single attribute method = instantiate |
| `Contract.Consumer.Execute` | src/contract.rs:37-117 | the imperative execute (early returns, the summing loop, the response built attribute by attribute) gives the result of the two branch functions and changes no storage |
| `Contract.PlayRound` | src/contract.rs:22-115 | instantiate, a paid flip and the beacon's callback against one consumer: the request goes to the stored beacon, the flip reports the player and the parity of the last byte, and the stored beacon address is unchanged |

## Left out

- `query` (it is `unimplemented!()`) and `migrate` (it only returns an attribute): neither has logic to model.
- `set_contract_version` and the cw2 version record: version bookkeeping with no effect on either branch. Its possible storage error is not modelled.
- Storage errors of `STATE.save` in `instantiate`: the model's `Instantiate` always succeeds.
- The internals of the beacon's calculate-fee query: the query is a parameter whose result may be an error.
- The internals of `from_binary`: decoding is a parameter that may fail.
- The wire encoding performed by `into_cosmos`, and its serialisation error: the outbound message is the request paired with the beacon address.
- `Funds.SumFunds`: the overflow panic follows cosmwasm_std's `Uint128` addition, which is not part of this model. The model assumes checked addition that panics once a partial sum exceeds 2^128 - 1.
- Denomination checking: the code deliberately does not check the denomination of attached coins, and neither does the model.
- The entry-point attributes and the host's message dispatch: `Consumer.Execute` takes the decoded `ExecuteMsg` directly.
