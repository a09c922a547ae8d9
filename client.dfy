/** `DisperseClient`: holds the node connection and the configuration, and
    turns each operation into round trips on the `Network`. Every method is
    proved to leave the trace, and to return, exactly what the matching
    function of `ClientSpec` says. */
module Client {
  import opened Base
  import opened Errors
  import opened Chain
  import opened ClientSpec

  class DisperseClient {
    const net: Network
    const config: Config

    constructor (net: Network, config: Config)
      ensures this.net == net && this.config == config
    {
      this.net := net;
      this.config := config;
    }

    /** `DisperseClient::new`: asks the node for its chain id; a failure
        there is the only way building a client fails in this model. */
    static method Connect(net: Network, config: Config) returns (r: Result<DisperseClient, string>)
      modifies net
      ensures net.trace == ConnectRun(net.oracle, old(net.trace)).trace
      ensures r.Ok? <==> ConnectRun(net.oracle, old(net.trace)).out.Ok?
      ensures r.Err? ==> r.error == ConnectRun(net.oracle, old(net.trace)).out.error
      ensures r.Ok? ==> fresh(r.value) && r.value.net == net && r.value.config == config
    {
      var chainId := net.ChainId();
      if chainId.Err? {
        return Err(chainId.error);
      }
      var client := new DisperseClient(net, config);
      return Ok(client);
    }

    /** Broadcasts a transaction that already names its signer. */
    method Submit(tx: Tx) returns (r: Result<TxHash, ClientError>)
      modifies net
      ensures Step(r, net.trace) == SubmitRun(net.oracle, old(net.trace), tx)
    {
      var sent := net.Send(tx);
      r := match sent
        case Ok(h) => Ok(h)
        case Err(m) => Err(Network(m));
    }

    /** `sign_and_send_transaction`: the request's sender is replaced by the
        operating wallet before it is sent. */
    method SignAndSend(request: Tx) returns (r: Result<TxHash, ClientError>)
      modifies net
      ensures Step(r, net.trace) == SubmitRun(net.oracle, old(net.trace), SignedBy(request, config.wallet))
    {
      r := Submit(request.(sender := config.wallet));
    }

    /** The loop of `collect_eth` and `collect_token`: for each (from, amount)
        pair in order, query the balance, stop at the first shortfall, submit
        the transfer and keep its hash. */
    method Collect(asset: Asset, from: seq<Address>, to: Address, amounts: seq<nat>)
      returns (r: Result<seq<TxHash>, ClientError>)
      modifies net
      ensures Step(r, net.trace)
           == CollectRun(net.oracle, Collection(config.wallet, asset, from, to, amounts), old(net.trace))
    {
      ghost var job := Collection(config.wallet, asset, from, to, amounts);
      var n := if |from| <= |amounts| then |from| else |amounts|;
      var hashes: seq<TxHash> := [];
      var i := 0;
      while i < n
        invariant n == job.Count() && i <= n && |hashes| == i
        invariant CollectFrom(net.oracle, job, i, net.trace, hashes) == CollectRun(net.oracle, job, old(net.trace))
      {
        var balance := net.Balance(asset, from[i]);
        if balance.Err? {
          return Err(Network(balance.error));
        }
        if balance.value < amounts[i] {
          return Err(InsufficientBalance(asset, from[i]));
        }
        var sent: Result<TxHash, ClientError>;
        match asset {
          case Eth =>
            sent := SignAndSend(TransferRequest(from[i], to, amounts[i]));
          case Token(token) =>
            sent := Submit(ContractCall(config.wallet, token, TransferFrom(from[i], to, amounts[i])));
        }
        if sent.Err? {
          return Err(sent.error);
        }
        hashes := hashes + [sent.value];
        i := i + 1;
      }
      return Ok(hashes);
    }

    /** `collect_eth`: refuses lists of different lengths, then collects. */
    method CollectEth(from: seq<Address>, to: Address, amounts: seq<nat>)
      returns (r: Result<seq<TxHash>, ClientError>)
      modifies net
      ensures Step(r, net.trace) == CollectEthRun(net.oracle, config, old(net.trace), from, to, amounts)
    {
      if |from| != |amounts| {
        return Err(LengthMismatch);
      }
      r := Collect(Eth, from, to, amounts);
    }

    /** `collect_token`: collects over the pairs `zip` forms. */
    method CollectToken(token: Address, from: seq<Address>, to: Address, amounts: seq<nat>)
      returns (r: Result<seq<TxHash>, ClientError>)
      modifies net
      ensures Step(r, net.trace) == CollectTokenRun(net.oracle, config, old(net.trace), token, from, to, amounts)
    {
      r := Collect(Token(token), from, to, amounts);
    }

    /** `disperse_eth`: one contract call whose value is the sum of the amounts. */
    method DisperseEth(recipients: seq<Address>, amounts: seq<nat>) returns (r: Result<TxHash, ClientError>)
      modifies net
      ensures Step(r, net.trace) == SubmitRun(net.oracle, old(net.trace), DisperseEthTx(config, recipients, amounts))
    {
      var total := Sum(amounts);
      r := Submit(Tx(config.wallet, config.contract, total, Call.DisperseEth(recipients, amounts)));
    }

    /** `disperse_token`: one contract call, no value attached. */
    method DisperseToken(token: Address, recipients: seq<Address>, amounts: seq<nat>) returns (r: Result<TxHash, ClientError>)
      modifies net
      ensures Step(r, net.trace) == SubmitRun(net.oracle, old(net.trace), DisperseTokenTx(config, token, recipients, amounts))
    {
      r := Submit(ContractCall(config.wallet, config.contract, Call.DisperseToken(token, recipients, amounts)));
    }

    /** `approve_token_collection`: the token's approve(collector, amount). */
    method ApproveTokenCollection(token: Address, collector: Address, amount: nat) returns (r: Result<TxHash, ClientError>)
      modifies net
      ensures Step(r, net.trace) == SubmitRun(net.oracle, old(net.trace), ApproveTx(config, token, collector, amount))
    {
      r := Submit(ContractCall(config.wallet, token, Approve(collector, amount)));
    }

    /** `revoke_token_collection`: exactly an approval of zero. */
    method RevokeTokenCollection(token: Address, collector: Address) returns (r: Result<TxHash, ClientError>)
      modifies net
      ensures Step(r, net.trace) == SubmitRun(net.oracle, old(net.trace), RevokeTx(config, token, collector))
    {
      r := ApproveTokenCollection(token, collector, 0);
    }
  }
}
