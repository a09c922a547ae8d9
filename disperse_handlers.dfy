/** The HTTP handlers `disperse_token` (approve the contract for the total,
    then disperse) and `disperse_eth_by_percentage` (split, then disperse). */
module DisperseHandlers {
  import opened Base
  import opened Errors
  import opened Chain
  import opened ClientSpec
  import opened Client
  import opened Api
  import Splitter
  import Hex

  datatype DisperseTokenRequest = DisperseTokenRequest(token: Address, recipients: seq<Address>, amounts: seq<nat>)

  datatype DisperseEthPercentageRequest =
    DisperseEthPercentageRequest(recipients: seq<Address>, percentages: seq<nat>, totalAmount: nat)

  const ApprovalFailedPrefix: string := "Token approval failed: "

  /** `disperse_token`: build the client, approve the contract to spend the
      sum of the amounts, then disperse; a failed approval stops there. */
  function DisperseTokenReply(o: Oracle, config: Config, t: Trace, req: DisperseTokenRequest): (r: Step<ApiResponse>)
    ensures t <= r.trace && |r.trace| <= |t| + 3
    ensures r.out.Success? ==> o.chainId(t).Ok? && |Submitted(r.trace)| == |Submitted(t)| + 2
  {
    var connected := ConnectRun(o, t);
    if connected.out.Err? then Step(Error(connected.out.error), connected.trace)
    else
      var total := Sum(req.amounts);
      var approval := SubmitRun(o, connected.trace, ApproveTx(config, req.token, config.contract, total));
      if approval.out.Err? then Step(Error(ApprovalFailedPrefix + approval.out.error.Message()), approval.trace)
      else
        var dispersal := SubmitRun(o, approval.trace, DisperseTokenTx(config, req.token, req.recipients, req.amounts));
        match dispersal.out
        case Ok(h) => Step(Success(Hex.HashText(h)), dispersal.trace)
        case Err(e) => Step(Error(e.Message()), dispersal.trace)
  }

  /** `disperse_eth_by_percentage`: build the client, split the total, then
      disperse the split amounts; an invalid split stops before any
      transaction. */
  function DisperseEthByPercentageReply(o: Oracle, config: Config, t: Trace, req: DisperseEthPercentageRequest)
    : (r: Step<ApiResponse>)
    ensures t <= r.trace && |r.trace| <= |t| + 2
    ensures r.out.Success? ==>
      o.chainId(t).Ok? && Sum(req.percentages) == Splitter.BasisPoints && |Submitted(r.trace)| == |Submitted(t)| + 1
  {
    var connected := ConnectRun(o, t);
    if connected.out.Err? then Step(Error(connected.out.error), connected.trace)
    else
      match Splitter.CalculateAmounts(req.totalAmount, req.percentages)
      case Err(e) => Step(Error(e.Message()), connected.trace)
      case Ok(amounts) =>
        var dispersal := SubmitRun(o, connected.trace, DisperseEthTx(config, req.recipients, amounts));
        match dispersal.out
        case Ok(h) => Step(Success(Hex.HashText(h)), dispersal.trace)
        case Err(e) => Step(Error(e.Message()), dispersal.trace)
  }

  method DisperseTokenHandler(net: Network, config: Config, req: DisperseTokenRequest) returns (response: ApiResponse)
    modifies net
    ensures Step(response, net.trace) == DisperseTokenReply(net.oracle, config, old(net.trace), req)
  {
    var client := DisperseClient.Connect(net, config);
    if client.Err? {
      return Error(client.error);
    }
    var total := Sum(req.amounts);
    var approval := client.value.ApproveTokenCollection(req.token, client.value.config.contract, total);
    if approval.Err? {
      return Error(ApprovalFailedPrefix + approval.error.Message());
    }
    var dispersal := client.value.DisperseToken(req.token, req.recipients, req.amounts);
    match dispersal {
      case Ok(h) => return Success(Hex.HashText(h));
      case Err(e) => return Error(e.Message());
    }
  }

  method DisperseEthByPercentageHandler(net: Network, config: Config, req: DisperseEthPercentageRequest)
    returns (response: ApiResponse)
    modifies net
    ensures Step(response, net.trace) == DisperseEthByPercentageReply(net.oracle, config, old(net.trace), req)
  {
    var client := DisperseClient.Connect(net, config);
    if client.Err? {
      return Error(client.error);
    }
    var amounts := Splitter.CalculateAmounts(req.totalAmount, req.percentages);
    if amounts.Err? {
      return Error(amounts.error.Message());
    }
    var dispersal := client.value.DisperseEth(req.recipients, amounts.value);
    match dispersal {
      case Ok(h) => return Success(Hex.HashText(h));
      case Err(e) => return Error(e.Message());
    }
  }

  lemma SubmittedOne(t: Trace, tx: Tx)
    ensures Submitted(t + [Submission(tx)]) == Submitted(t) + [tx]
  {
    SubmittedAppend(t, [Submission(tx)]);
    assert [Submission(tx)][..0] == [];
  }

  lemma SubmittedChainId(t: Trace)
    ensures Submitted(t + [ChainIdQuery]) == Submitted(t)
  {
    SubmittedAppend(t, [ChainIdQuery]);
    assert [ChainIdQuery][..0] == [];
  }

  /** `disperse_token` first approves the contract for exactly the sum of the
      amounts; if that is refused it sends nothing more and prefixes the
      error; otherwise it sends the dispersal with the request's recipients
      and amounts unchanged, whatever their lengths, and answers with the
      dispersal's hash. Nothing is sent if the client cannot be built. */
  lemma DisperseTokenSteps(o: Oracle, config: Config, t: Trace, req: DisperseTokenRequest)
    ensures var r := DisperseTokenReply(o, config, t, req);
      var t1 := t + [ChainIdQuery];
      var approve := ApproveTx(config, req.token, config.contract, Sum(req.amounts));
      var disperse := Tx(config.wallet, config.contract, 0, DisperseToken(req.token, req.recipients, req.amounts));
      if o.chainId(t).Err? then
        r.out.Error? && Submitted(r.trace) == Submitted(t)
      else if o.send(t1, approve).Err? then
        && approve == Tx(config.wallet, req.token, 0, Approve(config.contract, Sum(req.amounts)))
        && Submitted(r.trace) == Submitted(t) + [approve]
        && r.out.Error? && ApprovalFailedPrefix <= r.out.message
      else
        && Submitted(r.trace) == Submitted(t) + [approve, disperse]
        && (r.out.Success? <==> o.send(t1 + [Submission(approve)], disperse).Ok?)
        && (r.out.Success? ==> r.out.txHash == Hex.HashText(o.send(t1 + [Submission(approve)], disperse).value))
  {
    var t1 := t + [ChainIdQuery];
    var approve := ApproveTx(config, req.token, config.contract, Sum(req.amounts));
    var disperse := DisperseTokenTx(config, req.token, req.recipients, req.amounts);
    var r := DisperseTokenReply(o, config, t, req);
    if o.chainId(t).Err? {
      assert r == Step(Error(o.chainId(t).error), t1);
    } else if o.send(t1, approve).Err? {
      var approval := SubmitRun(o, t1, approve);
      assert r == Step(Error(ApprovalFailedPrefix + approval.out.error.Message()), approval.trace);
      assert r.out.message[..|ApprovalFailedPrefix|] == ApprovalFailedPrefix;
    } else {
      var approval := SubmitRun(o, t1, approve);
      var dispersal := SubmitRun(o, approval.trace, disperse);
      assert r.trace == dispersal.trace;
      assert Submitted(r.trace) == Submitted(t) + [approve] + [disperse];
    }
  }

  /** An invalid split (percentages not summing to 100.00%) still pays for
      building the client, then answers with the split error and sends no
      transaction. */
  lemma InvalidSplitSendsNothing(o: Oracle, config: Config, t: Trace, req: DisperseEthPercentageRequest)
    requires Sum(req.percentages) != Splitter.BasisPoints
    ensures var r := DisperseEthByPercentageReply(o, config, t, req);
      && r.out.Error?
      && r.trace == t + [ChainIdQuery]
      && (o.chainId(t).Ok? ==> r.out.message == "Percentages must sum to 100.00%")
  {
  }

  /** A valid split sends one dispersal whose amounts are the splitter's
      output for the request's recipients, unchanged whatever their number;
      the value attached is their sum, which is at most the requested total
      and short of it by less than the number of percentages. */
  lemma ValidSplitDisperses(o: Oracle, config: Config, t: Trace, req: DisperseEthPercentageRequest)
    requires Sum(req.percentages) == Splitter.BasisPoints && o.chainId(t).Ok?
    ensures var r := DisperseEthByPercentageReply(o, config, t, req);
      exists tx :: (
        && Submitted(r.trace) == Submitted(t) + [tx]
        && tx.sender == config.wallet && tx.target == config.contract
        && tx.call.DisperseEth? && tx.call.recipients == req.recipients
        && |tx.call.amounts| == |req.percentages|
        && (forall i :: 0 <= i < |req.percentages| ==>
              tx.call.amounts[i] == req.totalAmount * req.percentages[i] / Splitter.BasisPoints)
        && tx.value == Sum(tx.call.amounts)
        && tx.value <= req.totalAmount && req.totalAmount - tx.value < |req.percentages|
        && (r.out.Success? <==> o.send(t + [ChainIdQuery], tx).Ok?)
        && (r.out.Success? ==> r.out.txHash == Hex.HashText(o.send(t + [ChainIdQuery], tx).value)))
  {
    var t1 := t + [ChainIdQuery];
    var amounts := Splitter.CalculateAmounts(req.totalAmount, req.percentages).value;
    var tx := DisperseEthTx(config, req.recipients, amounts);
    SubmittedChainId(t);
    SubmittedOne(t1, tx);
  }
}
