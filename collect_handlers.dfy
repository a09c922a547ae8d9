/** The HTTP handlers `collect_eth` and `collect_token`: guard the request,
    build a client, split the requested amount equally over the source
    addresses, collect, and answer with the first transaction's hash. */
module CollectHandlers {
  import opened Base
  import opened Errors
  import opened Chain
  import opened ClientSpec
  import opened Client
  import opened Api
  import Hex

  datatype CollectEthRequest = CollectEthRequest(from: seq<Address>, to: Address, amount: nat)

  datatype CollectTokenRequest = CollectTokenRequest(token: Address, from: seq<Address>, to: Address, amount: nat)

  /** `vec![amount / n; n]`: the same share for each of n addresses. */
  function EqualSplit(amount: nat, n: nat): (amounts: seq<nat>)
    requires n > 0
    ensures |amounts| == n
    ensures forall i :: 0 <= i < n ==> amounts[i] == amount / n
  {
    seq(n, _ => amount / n)
  }

  lemma {:induction false} SumConstant(q: nat, n: nat)
    ensures Sum(seq(n, _ => q)) == n * q
  {
    if n > 0 {
      assert seq(n, _ => q)[1..] == seq(n - 1, _ => q);
      SumConstant(q, n - 1);
    }
  }

  /** The equal shares never exceed the requested amount, fall short of it
      by less than the number of addresses, and are all zero when the amount
      is smaller than that number. */
  lemma EqualSplitBound(amount: nat, n: nat)
    requires n > 0
    ensures Sum(EqualSplit(amount, n)) <= amount
    ensures amount - Sum(EqualSplit(amount, n)) < n
    ensures amount < n ==> forall i :: 0 <= i < n ==> EqualSplit(amount, n)[i] == 0
  {
    var q, r := amount / n, amount % n;
    SumConstant(q, n);
    assert EqualSplit(amount, n) == seq(n, _ => q);
    assert amount == n * q + r && 0 <= r < n;
    assert Sum(EqualSplit(amount, n)) == n * q;
    if amount < n {
      assert q == 0;
    }
  }

  /** The `collect_eth` handler as written: zero amount refused; client built;
      an empty `from` reaches `amount / 0`, which panics; otherwise the client's
      result becomes the response, carrying only the first hash. */
  function CollectEthReply(o: Oracle, config: Config, t: Trace, req: CollectEthRequest): (r: Step<Outcome>)
    ensures t <= r.trace
    ensures req.amount == 0 ==> r.trace == t
    ensures r.out.Panicked? <==> req.amount > 0 && req.from == [] && o.chainId(t).Ok?
    ensures r.out.Responded? && r.out.response.Success? ==> req.amount > 0 && |req.from| > 0 && o.chainId(t).Ok?
  {
    if req.amount == 0 then Step(Responded(Error("Amount cannot be zero")), t)
    else
      var connected := ConnectRun(o, t);
      if connected.out.Err? then Step(Responded(Error(connected.out.error)), connected.trace)
      else if |req.from| == 0 then Step(Panicked, connected.trace)
      else
        var run := CollectEthRun(o, config, connected.trace, req.from, req.to, EqualSplit(req.amount, |req.from|));
        match run.out
        case Ok(hashes) => Step(Responded(Success(Hex.HashText(hashes[0]))), run.trace)
        case Err(e) => Step(Responded(Error(e.Message())), run.trace)
  }

  /** The `collect_token` handler: zero amount and empty `from` refused before
      anything else; the rest as for `collect_eth`. */
  function CollectTokenReply(o: Oracle, config: Config, t: Trace, req: CollectTokenRequest): (r: Step<ApiResponse>)
    ensures t <= r.trace
    ensures req.amount == 0 || req.from == [] ==> r.trace == t
    ensures r.out.Success? ==> req.amount > 0 && |req.from| > 0 && o.chainId(t).Ok?
  {
    if req.amount == 0 then Step(Error("Amount cannot be zero"), t)
    else if |req.from| == 0 then Step(Error("No source addresses provided"), t)
    else
      var connected := ConnectRun(o, t);
      if connected.out.Err? then Step(Error(connected.out.error), connected.trace)
      else
        var amounts := EqualSplit(req.amount, |req.from|);
        var run := CollectTokenRun(o, config, connected.trace, req.token, req.from, req.to, amounts);
        match run.out
        case Ok(hashes) => Step(Success(Hex.HashText(hashes[0])), run.trace)
        case Err(e) => Step(Error(e.Message()), run.trace)
  }

  method CollectEthHandler(net: Network, config: Config, req: CollectEthRequest) returns (outcome: Outcome)
    modifies net
    ensures Step(outcome, net.trace) == CollectEthReply(net.oracle, config, old(net.trace), req)
  {
    if req.amount == 0 {
      return Responded(Error("Amount cannot be zero"));
    }
    var client := DisperseClient.Connect(net, config);
    if client.Err? {
      return Responded(Error(client.error));
    }
    var n := |req.from|;
    if n == 0 {
      // U256 division by zero panics
      return Panicked;
    }
    var amounts := EqualSplit(req.amount, n);
    var hashes := client.value.CollectEth(req.from, req.to, amounts);
    match hashes {
      case Ok(hs) => return Responded(Success(Hex.HashText(hs[0])));
      case Err(e) => return Responded(Error(e.Message()));
    }
  }

  method CollectTokenHandler(net: Network, config: Config, req: CollectTokenRequest) returns (response: ApiResponse)
    modifies net
    ensures Step(response, net.trace) == CollectTokenReply(net.oracle, config, old(net.trace), req)
  {
    if req.amount == 0 {
      return Error("Amount cannot be zero");
    }
    if |req.from| == 0 {
      return Error("No source addresses provided");
    }
    var client := DisperseClient.Connect(net, config);
    if client.Err? {
      return Error(client.error);
    }
    var amounts := EqualSplit(req.amount, |req.from|);
    var hashes := client.value.CollectToken(req.token, req.from, req.to, amounts);
    match hashes {
      case Ok(hs) => return Success(Hex.HashText(hs[0]));
      case Err(e) => return Error(e.Message());
    }
  }

  /** Both handlers refuse a zero amount before any round trip. */
  lemma ZeroAmountRefused(o: Oracle, config: Config, t: Trace, eth: CollectEthRequest, token: CollectTokenRequest)
    requires eth.amount == 0 && token.amount == 0
    ensures CollectEthReply(o, config, t, eth) == Step(Responded(Error("Amount cannot be zero")), t)
    ensures CollectTokenReply(o, config, t, token) == Step(Error("Amount cannot be zero"), t)
  {
  }

  /** The token handler refuses an empty `from` before any round trip; the
      ETH handler has no such guard and panics after building the client. */
  lemma EmptySources(o: Oracle, config: Config, t: Trace, eth: CollectEthRequest, token: CollectTokenRequest)
    requires eth.amount > 0 && token.amount > 0 && eth.from == [] && token.from == []
    ensures CollectTokenReply(o, config, t, token) == Step(Error("No source addresses provided"), t)
    ensures o.chainId(t).Ok? ==> CollectEthReply(o, config, t, eth) == Step(Panicked, t + [ChainIdQuery])
  {
  }

  /** The collection an ETH request turns into. */
  function EthJob(config: Config, req: CollectEthRequest): Collection
    requires |req.from| > 0
  {
    Collection(config.wallet, Eth, req.from, req.to, EqualSplit(req.amount, |req.from|))
  }

  /** A successful ETH collection sent one transfer of amount / |from| from
      the operating wallet to `to` per source address, in order, and its
      response is the first of those transfers' hashes. */
  lemma CollectEthSuccess(o: Oracle, config: Config, t: Trace, req: CollectEthRequest)
    requires CollectEthReply(o, config, t, req).out.Responded?
    requires CollectEthReply(o, config, t, req).out.response.Success?
    ensures req.amount > 0 && |req.from| > 0
    ensures Submitted(CollectEthReply(o, config, t, req).trace) == Submitted(t) + EthJob(config, req).Transfers(|req.from|)
    ensures forall j :: 0 <= j < |req.from| ==>
      EthJob(config, req).TxAt(j) == Tx(config.wallet, req.to, req.amount / |req.from|, NoCall)
    ensures SendAt(o, EthJob(config, req), t + [ChainIdQuery], 0).Ok?
    ensures CollectEthReply(o, config, t, req).out.response.txHash
         == Hex.HashText(SendAt(o, EthJob(config, req), t + [ChainIdQuery], 0).value)
  {
    var t1 := t + [ChainIdQuery];
    var job := EthJob(config, req);
    CollectSucceeds(o, job, t1);
    SubmittedAppend(t, [ChainIdQuery]);
    assert Submitted([ChainIdQuery]) == [];
  }

  function TokenJob(config: Config, req: CollectTokenRequest): Collection
    requires |req.from| > 0
  {
    Collection(config.wallet, Token(req.token), req.from, req.to, EqualSplit(req.amount, |req.from|))
  }

  /** A successful token collection called transferFrom(from[j], to,
      amount / |from|) on the token once per source address, in order, and
      its response is the first call's hash. */
  lemma CollectTokenSuccess(o: Oracle, config: Config, t: Trace, req: CollectTokenRequest)
    requires CollectTokenReply(o, config, t, req).out.Success?
    ensures req.amount > 0 && |req.from| > 0
    ensures Submitted(CollectTokenReply(o, config, t, req).trace) == Submitted(t) + TokenJob(config, req).Transfers(|req.from|)
    ensures forall j :: 0 <= j < |req.from| ==>
      TokenJob(config, req).TxAt(j) == Tx(config.wallet, req.token, 0, TransferFrom(req.from[j], req.to, req.amount / |req.from|))
    ensures SendAt(o, TokenJob(config, req), t + [ChainIdQuery], 0).Ok?
    ensures CollectTokenReply(o, config, t, req).out.txHash
         == Hex.HashText(SendAt(o, TokenJob(config, req), t + [ChainIdQuery], 0).value)
  {
    var t1 := t + [ChainIdQuery];
    var job := TokenJob(config, req);
    CollectSucceeds(o, job, t1);
    SubmittedAppend(t, [ChainIdQuery]);
    assert Submitted([ChainIdQuery]) == [];
  }

  /** Past its guards, the ETH handler answers with what the collection run
      gave: the first hash on success, the client error's text otherwise. */
  lemma EthReplyFollowsRun(o: Oracle, config: Config, t: Trace, req: CollectEthRequest)
    requires req.amount > 0 && |req.from| > 0
    ensures o.chainId(t).Err? ==>
      CollectEthReply(o, config, t, req) == Step(Responded(Error(o.chainId(t).error)), t + [ChainIdQuery])
    ensures o.chainId(t).Ok? ==>
      var run := CollectRun(o, EthJob(config, req), t + [ChainIdQuery]);
      && CollectEthReply(o, config, t, req).trace == run.trace
      && (run.out.Err? ==> CollectEthReply(o, config, t, req).out == Responded(Error(run.out.error.Message())))
      && (run.out.Ok? ==>
            |run.out.value| == |req.from|
            && CollectEthReply(o, config, t, req).out == Responded(Success(Hex.HashText(run.out.value[0]))))
  {
    var job := EthJob(config, req);
    assert |req.from| == |job.amounts|;
  }

  /** Past its guards, the token handler answers with what the collection run
      gave: the first hash on success, the client error's text otherwise. */
  lemma TokenReplyFollowsRun(o: Oracle, config: Config, t: Trace, req: CollectTokenRequest)
    requires req.amount > 0 && |req.from| > 0
    ensures o.chainId(t).Err? ==>
      CollectTokenReply(o, config, t, req) == Step(Error(o.chainId(t).error), t + [ChainIdQuery])
    ensures o.chainId(t).Ok? ==>
      var run := CollectRun(o, TokenJob(config, req), t + [ChainIdQuery]);
      && CollectTokenReply(o, config, t, req).trace == run.trace
      && (run.out.Err? ==> CollectTokenReply(o, config, t, req).out == Error(run.out.error.Message()))
      && (run.out.Ok? ==>
            |run.out.value| == |req.from|
            && CollectTokenReply(o, config, t, req).out == Success(Hex.HashText(run.out.value[0])))
  {
    var job := TokenJob(config, req);
    assert job.Count() == |req.from|;
  }

  /** A shortfall anywhere makes the ETH handler answer with the client's
      error, which names the first short address and carries no hash; the
      transfers before it stay submitted. */
  lemma CollectEthShortfall(o: Oracle, config: Config, t: Trace, req: CollectEthRequest, k: nat)
    requires req.amount > 0 && k < |req.from| && o.chainId(t).Ok?
    requires forall j :: 0 <= j < k ==> Passed(o, EthJob(config, req), t + [ChainIdQuery], j)
    requires BalanceAt(o, EthJob(config, req), t + [ChainIdQuery], k).Ok?
    requires BalanceAt(o, EthJob(config, req), t + [ChainIdQuery], k).value < req.amount / |req.from|
    ensures CollectEthReply(o, config, t, req).out
         == Responded(Error(InsufficientBalance(Eth, req.from[k]).Message()))
    ensures Submitted(CollectEthReply(o, config, t, req).trace)
         == Submitted(t) + EthJob(config, req).Transfers(k)
  {
    var t1 := t + [ChainIdQuery];
    CollectReachesShortfall(o, EthJob(config, req), t1, k);
    EthReplyFollowsRun(o, config, t, req);
    SubmittedAppend(t, [ChainIdQuery]);
    assert Submitted([ChainIdQuery]) == [];
  }
}
