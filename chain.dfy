/** The JSON-RPC node as seen from this service. What the node answers is an
    oracle: each answer may depend on everything asked and sent before it
    (balances move as transfers land, nonces advance, broadcasts can fail).
    The `Network` object records every round trip in `trace`. */
module Chain {
  import opened Base

  datatype Oracle = Oracle(
    chainId: Trace -> Result<nat, string>,
    balance: (Trace, Asset, Address) -> Result<nat, string>,
    send: (Trace, Tx) -> Result<TxHash, string>)

  class Network {
    const oracle: Oracle
    var trace: Trace

    constructor (oracle: Oracle)
      ensures this.oracle == oracle && trace == []
    {
      this.oracle := oracle;
      trace := [];
    }

    /** `provider.get_chainid()`. */
    method ChainId() returns (r: Result<nat, string>)
      modifies this
      ensures trace == old(trace) + [ChainIdQuery]
      ensures r == oracle.chainId(old(trace))
    {
      r := oracle.chainId(trace);
      trace := trace + [ChainIdQuery];
    }

    /** `provider.get_balance(owner)` for the native coin, or the token
        contract's `balanceOf(owner)`. */
    method Balance(asset: Asset, owner: Address) returns (r: Result<nat, string>)
      modifies this
      ensures trace == old(trace) + [BalanceQuery(asset, owner)]
      ensures r == oracle.balance(old(trace), asset, owner)
    {
      r := oracle.balance(trace, asset, owner);
      trace := trace + [BalanceQuery(asset, owner)];
    }

    /** Signs and broadcasts `tx`; the node answers with its hash or an error. */
    method Send(tx: Tx) returns (r: Result<TxHash, string>)
      modifies this
      ensures trace == old(trace) + [Submission(tx)]
      ensures r == oracle.send(old(trace), tx)
    {
      r := oracle.send(trace, tx);
      trace := trace + [Submission(tx)];
    }
  }
}
