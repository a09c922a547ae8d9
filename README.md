# disperse_collect: the amount logic and transaction sequencing, in Dafny

This project models the core of an HTTP service that pays out funds on an
EVM chain. Disperse sends one-to-many through a DisperseCollect contract.
Collect pulls many-to-one: a native-coin transfer, or an ERC-20
`transferFrom`, per source address. The model covers three pieces:

- **The percentage splitter** `DisperseClient::calculate_amounts`
  (`Splitter`). Basis points must sum to exactly 10000. Each share is
  `total * p / 10000`, rounded down, and the remainder is never
  redistributed.
- **The client** `DisperseClient` (`ClientSpec` for what each operation
  does, `Client.DisperseClient` for the imperative version). The main part
  is the fail-fast collection loop. For each `(from[i], amounts[i])` pair
  it queries a balance and stops at the first pair whose balance is below
  its amount. Otherwise it submits a transfer and pushes its hash. Earlier
  transfers are never undone.
- **The handlers** in `handlers/collect.rs` and `handlers/disperse.rs`
  (`CollectHandlers`, `DisperseHandlers`):
  - the zero-amount and empty-list guards;
  - the equal split `amount / n` over `n` sources;
  - the answer built from the first hash;
  - approve-then-disperse for tokens;
  - split-then-disperse for the percentage route.

The JSON-RPC node is an oracle, `Chain.Oracle`. Its answers to the chain-id
query, the balance queries and the submissions may depend on everything that
came before (the trace). Each of these answers can also be an error.
`Chain.Network` is the object the client talks to. Its `trace` field is an
effect log that records every round trip in order: `ChainIdQuery`,
`BalanceQuery` and `Submission`. A `Submission` is an attempted
submission. It is logged even when the node refuses it, and a refusal also
stands for failures before anything is broadcast (nonce or gas filling, gas
estimation). So `Submitted(trace)` lists what the service tried to send, not
what was mined. Every method is proved to return, and to
leave in `trace`, exactly what a pure function of `ClientSpec`,
`CollectHandlers` or `DisperseHandlers` gives. The properties are proved
about those functions.

Amounts are unbounded naturals. Addresses are 20 bytes and hashes 32 bytes.
They have byte structure only so that the response text (`"0x"` followed by
64 lower-case hex digits) and the address in error messages can be stated.
In error messages the address appears as `{}` formats an H160: `0x`, the
first two bytes, `…`, then the last two bytes.

`collect_eth` and `collect_token` run the same loop. Only the balance query
and the transaction differ, and those depend only on the asset. So the
model has one loop method, `Client.DisperseClient.Collect`, with an `Asset`
parameter (`Eth` or `Token(address)`). The two entry points add their own
prologues. `collect_eth` checks that the lengths agree. `collect_token`
checks nothing, so it gets `zip`'s shorter length.

The model follows the code in these points:
- The split may fall short of the total, by up to one unit per recipient.
- The split error does not name the observed sum.
- No handler checks that `recipients` and `amounts` or `percentages` have
  the same length.
- `collect_token` does not check lengths either.
- The ETH collect handler does not guard against an empty `from` list. It
  panics on `amount / 0` after it has built the client. The model returns
  this as the explicit outcome `Api.Outcome.Panicked`.

## Model

| member | source | states |
|---|---|---|
| `Hex.LowerHex` | api/src/handlers/collect.rs:30 | hash text has two lower-case hex digits per byte, so 64 for a hash |
| `Hex.ParseLowerHexInverts` | api/src/handlers/collect.rs:30 | reading the hex text back gives the original bytes (round trip) |
| `Hex.HashText` | api/src/handlers/collect.rs:65-67 | the `tx_hash` field is 66 characters: `0x` then lower-case hex digits only |
| `Hex.HashTextInjective` | api/src/handlers/disperse.rs:68-70 | different hashes give different `tx_hash` texts, so the answer identifies one transaction |
| `Hex.AddressDisplay` | api/src/disperse_client.rs:99-102 | the address in an insufficient-balance message is 11 characters: `0x`, then 4 hex digits that read back as the first two bytes, an ellipsis, then 4 hex digits that read back as the last two bytes |
| `Errors.ClientError.Message` | api/src/disperse_client.rs:99-102 | an insufficient-balance message ends with the short owner's abbreviated address; a network error shows the node's text unchanged |
| `Errors.MessageIdentifiesError` | api/src/disperse_client.rs:66-103 | apart from network errors, the message tells which error it was (split, length mismatch, ETH or token shortfall) and the abbreviated display (first two and last two bytes) of the address that fell short, though not the full address |
| `Base.Sum` | api/src/handlers/disperse.rs:44-47 | the sum of the amounts covers every single amount |
| `Base.SumIsFold` | api/src/disperse_client.rs:123 | summing from the front equals the fold from zero that adds the amounts in order |
| `Hex.AddressDisplayIsLossy` | api/src/disperse_client.rs:159-162 | two distinct addresses can render alike, so the message alone may not identify the short source |
| `Splitter.Shares` | api/src/disperse_client.rs:74-77 | one amount per percentage, in the same order; entry i is total × p_i / 10000 rounded down |
| `Splitter.CalculateAmounts` | api/src/disperse_client.rs:66-78 | error (`InvalidSplit`) exactly when the percentages do not sum to 10000, so an empty list is refused; on success the same length and order, floor shares, a sum ≤ total, and a shortfall < the number of percentages |
| `Splitter.SharesBound` | api/src/disperse_client.rs:74-77 | for any percentages, rounding each share down loses between 0 and 9999/10000 of a unit per share |
| `Splitter.SplitShortfall` | api/src/disperse_client.rs:67-77 | with percentages summing to 10000, the amounts never exceed the total and fall short by less than their count |
| `Splitter.ExactSplitExample` | api/src/disperse_client.rs:66-78 | 1000 over [5000, 3000, 2000] gives [500, 300, 200] |
| `Splitter.TruncatingSplitExample` | api/src/disperse_client.rs:74-77 | 1001 over [3334, 3333, 3333] gives [333, 333, 333], which sums to 999 |
| `Splitter.NearMissExamples` | api/src/disperse_client.rs:67-71 | sums of 9999 and 10001 are refused |
| `Chain.Network.ChainId` | api/src/disperse_client.rs:35 | one chain-id round trip is logged, and the node's answer for the trace so far is returned |
| `Chain.Network.Balance` | api/src/disperse_client.rs:97 | one balance query is logged (native `get_balance` or token `balanceOf`), and the node's answer is returned |
| `Chain.Network.Send` | api/src/disperse_client.rs:62 | one submission is logged, and the node's hash or refusal is returned |
| `ClientSpec.ConnectRun` | api/src/disperse_client.rs:30-55 | building a client costs exactly one round trip, appended to the trace, and submits nothing |
| `ClientSpec.SubmitRun` | api/src/disperse_client.rs:57-64 | a send appends exactly one attempted submission of that transaction, accepted or not; it succeeds exactly when the node accepts, and a refusal becomes a network error |
| `ClientSpec.SignedBy` | api/src/disperse_client.rs:61 | signing replaces the sender with the operating wallet and leaves target, value and call data alone |
| `ClientSpec.RevokeTx` | api/src/disperse_client.rs:190-197 | revoking is the token's `approve(collector, 0)`, with no value attached |
| `ClientSpec.Collection.Count` | api/src/disperse_client.rs:156 | the number of pairs `zip` forms: the shorter length |
| `ClientSpec.Collection.TxAt` | api/src/disperse_client.rs:106-111 | every collection transfer is signed by the operating wallet |
| `ClientSpec.Collection.Transfers` | api/src/disperse_client.rs:95-113 | the first k transfers in pair order, entry j being pair j's transfer |
| `ClientSpec.CollectFrom` | api/src/disperse_client.rs:95-115 | the loop's result has one hash per pair and keeps the earlier hashes as a prefix; it fails only with insufficient balance (of the job's asset) or a network error; the trace only grows, so nothing submitted is undone |
| `ClientSpec.CollectEthRun` | api/src/disperse_client.rs:86-90 | lists of different lengths give `LengthMismatch` with no balance query or submission; success has one hash per source |
| `ClientSpec.CollectTokenRun` | api/src/disperse_client.rs:156 | success has min(\|from\|, \|amounts\|) hashes |
| `ClientSpec.TransfersSubmitted` | api/src/disperse_client.rs:95-113 | k passing pairs submit exactly their k transfers, in order |
| `ClientSpec.CollectSucceeds` | api/src/disperse_client.rs:92-115 | on success: one transfer per pair in input order; every balance covered its amount; hash j is the node's answer to transfer j |
| `ClientSpec.CollectStopsAtShortfall` | api/src/disperse_client.rs:95-103 | an insufficient-balance error names from[k], the first pair whose balance was below its amount; every earlier transfer stays submitted; nothing is sent for k or later |
| `ClientSpec.CollectReachesShortfall` | api/src/disperse_client.rs:156-163 | converse: if all pairs before k pass and pair k's balance is short, the run stops there naming from[k], with only the first k transfers submitted |
| `ClientSpec.CollectAllPass` | api/src/disperse_client.rs:95-115 | converse of success: when every balance covers its amount (equality passes) and every send is accepted, the run succeeds |
| `ClientSpec.CollectStopsAtNetworkFailure` | api/src/disperse_client.rs:97-111 | a failed balance query or refused send at pair k ends the run at once; the earlier pairs were all transferred |
| `ClientSpec.EthTransferShape` | api/src/disperse_client.rs:106-112 | the native transfer for pair j goes to `to` with value amounts[j] and is signed by the wallet, not by from[j], whose balance was checked |
| `ClientSpec.TokenTransferShape` | api/src/disperse_client.rs:165 | the token transfer for pair j is `transferFrom(from[j], to, amounts[j])` on the token, with no value attached |
| `ClientSpec.CollectIgnoresSurplus` | api/src/disperse_client.rs:156 | surplus entries of the longer list have no effect: the run equals the run on the `zip`ped prefix |
| `ClientSpec.ShortSecondSourceExample` | api/src/disperse_client.rs:95-112 | sources A (balance 100, asked 100) and B (balance 50, asked 100): the error names B, and only A's transfer was sent |
| `Client.DisperseClient.Connect` | api/src/disperse_client.rs:30-55 | building a client costs one chain-id round trip; it fails exactly when that fails, and otherwise gives a client on this network with this configuration |
| `Client.DisperseClient.SignAndSend` | api/src/disperse_client.rs:57-64 | submits the request re-signed by the wallet |
| `Client.DisperseClient.Collect` | api/src/disperse_client.rs:92-115 | the loop method's result and trace are exactly those of `CollectRun` |
| `Client.DisperseClient.CollectEth` | api/src/disperse_client.rs:80-116 | result and trace are exactly those of `CollectEthRun` |
| `Client.DisperseClient.CollectToken` | api/src/disperse_client.rs:140-171 | result and trace are exactly those of `CollectTokenRun` |
| `Client.DisperseClient.DisperseEth` | api/src/disperse_client.rs:118-127 | submits one contract call carrying the sum of the amounts as its value |
| `Client.DisperseClient.DisperseToken` | api/src/disperse_client.rs:129-138 | submits one contract call with the token, recipients and amounts unchanged |
| `Client.DisperseClient.ApproveTokenCollection` | api/src/disperse_client.rs:173-188 | submits the token's `approve(collector, amount)` |
| `Client.DisperseClient.RevokeTokenCollection` | api/src/disperse_client.rs:190-197 | submits `RevokeTx`, the token's `approve(collector, 0)` with no value attached: exactly what an approval of zero does |
| `CollectHandlers.EqualSplit` | api/src/handlers/collect.rs:25-26 | n amounts, each amount / n |
| `CollectHandlers.EqualSplitBound` | api/src/handlers/collect.rs:25-26 | the equal shares sum to at most the amount and fall short by less than n; all are 0 when amount < n |
| `CollectHandlers.CollectEthReply` | api/src/handlers/collect.rs:14-34 | the trace only grows; a zero amount costs no round trip; the handler panics exactly when the amount is nonzero, `from` is empty and the client was built; success implies that every guard and the client build passed |
| `CollectHandlers.CollectTokenReply` | api/src/handlers/collect.rs:37-68 | the trace only grows; a zero amount or an empty `from` costs no round trip; success implies that every guard and the client build passed |
| `CollectHandlers.CollectEthHandler` | api/src/handlers/collect.rs:14-34 | response (or panic) and trace are exactly those of `CollectEthReply` |
| `CollectHandlers.CollectTokenHandler` | api/src/handlers/collect.rs:37-68 | response and trace are exactly those of `CollectTokenReply` |
| `CollectHandlers.ZeroAmountRefused` | api/src/handlers/collect.rs:15-17 | both handlers answer "Amount cannot be zero" to a zero amount, before any round trip |
| `CollectHandlers.EmptySources` | api/src/handlers/collect.rs:42-46 | the token handler refuses an empty `from` before any round trip; the ETH handler panics after the chain-id round trip |
| `CollectHandlers.EthReplyFollowsRun` | api/src/handlers/collect.rs:19-33 | past the guards: a failed client build answers with its error after one round trip; otherwise success answers only with the first hash, and any client error becomes the error response with that error's text and no hash |
| `CollectHandlers.TokenReplyFollowsRun` | api/src/handlers/collect.rs:48-67 | the same for the token handler: a failed client build answers with its error after one round trip; otherwise the first hash on success, the client error's text on failure |
| `CollectHandlers.CollectEthSuccess` | api/src/handlers/collect.rs:24-31 | a success answer means one wallet-signed transfer of amount / \|from\| to `to` per source, in order; the text is the first transfer's hash |
| `CollectHandlers.CollectTokenSuccess` | api/src/handlers/collect.rs:53-67 | a success answer means one `transferFrom(from[j], to, amount / \|from\|)` per source, in order; the text is the first call's hash |
| `CollectHandlers.CollectEthShortfall` | api/src/handlers/collect.rs:28-33 | a shortfall at source k answers with the error naming from[k]; only the first k transfers were submitted |
| `DisperseHandlers.DisperseTokenReply` | api/src/handlers/disperse.rs:38-73 | the trace only grows, by at most three round trips; success implies the client was built and exactly two transactions were submitted |
| `DisperseHandlers.DisperseEthByPercentageReply` | api/src/handlers/disperse.rs:76-98 | the trace only grows, by at most two round trips; success implies the client was built, the percentages summed to 10000 and exactly one transaction was submitted |
| `DisperseHandlers.DisperseTokenHandler` | api/src/handlers/disperse.rs:38-73 | response and trace are exactly those of `DisperseTokenReply` |
| `DisperseHandlers.DisperseEthByPercentageHandler` | api/src/handlers/disperse.rs:76-98 | response and trace are exactly those of `DisperseEthByPercentageReply` |
| `DisperseHandlers.DisperseTokenSteps` | api/src/handlers/disperse.rs:44-72 | approves the contract for exactly the sum of the amounts, then disperses with recipients and amounts unchanged, answering with the dispersal's hash; a refused approval sends nothing more and its message starts "Token approval failed: "; a failed client build sends nothing |
| `DisperseHandlers.InvalidSplitSendsNothing` | api/src/handlers/disperse.rs:79-88 | percentages not summing to 10000 still cost the chain-id round trip, then give an error and no transaction |
| `DisperseHandlers.ValidSplitDisperses` | api/src/handlers/disperse.rs:84-97 | a valid split sends one dispersal whose amounts are the splitter's output for the unchanged recipients; the value attached is their sum, ≤ total and short by less than the number of percentages; success answers with the `0x` hex text of that dispersal's hash |

## Left out

- HTTP routing, JSON (de)serialisation and the 200/500 status mapping are not modelled (api/src/main.rs, api/src/models.rs, api/src/models/*.rs, api/src/error.rs). The request records follow api/src/models/collect.rs and api/src/models/disperse.rs.
- The `disperse_eth` and `disperse_token_by_percentage` handlers (api/src/handlers/disperse.rs:18-35, 101-125) are not modelled. They only forward to `DisperseContract` in contract/src/lib.rs, whose bindings are generated from a contract ABI. Percentage splitting on that route happens on-chain.
- What happens on-chain is not modelled: ERC-20 balances and allowances, and the DisperseCollect contract. The node is an oracle whose balance and send answers are arbitrary functions of the trace.
- Signing, nonces, gas and the chain id's use in signatures are left to that oracle. Building a client is reduced to its chain-id round trip.
- Configuration from the environment is a `ClientSpec.Config` parameter. The model leaves out the `expect` panics on missing variables and the parse errors for the URL, key and address.
- `Splitter.CalculateAmounts`: does not model 256-bit overflow. The source panics when `total * p` or the sum of the percentages exceeds 2^256 - 1. Amounts here are unbounded naturals.
- `Client.DisperseClient.DisperseEth`: does not model 256-bit overflow of the value sum. The same holds for the approval total in `DisperseHandlers.DisperseTokenHandler`.
- async/await is not modelled: each handler runs its round trips strictly in sequence, and no concurrency is involved.
- Building a client in the model does not re-read the configuration or open a new provider connection. Only the round trip is recorded.
