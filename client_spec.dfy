/** What each `DisperseClient` operation does, as functions from the node's
    oracle and the trace so far to the result and the trace after it. The
    methods of `Client.DisperseClient` are proved equal to these, and the
    properties of the operations are proved here about them. */
module ClientSpec {
  import opened Base
  import opened Errors
  import opened Chain

  /** The configuration a client is built from: the operating wallet that
      signs every transaction, and the DisperseCollect contract's address. */
  datatype Config = Config(wallet: Address, contract: Address)

  /** `DisperseClient::new`: its one round trip asks the node for its chain id. */
  function ConnectRun(o: Oracle, t: Trace): (s: Step<Result<nat, string>>)
    ensures t <= s.trace && |s.trace| == |t| + 1
    ensures Submitted(s.trace) == Submitted(t)
  {
    var t' := t + [ChainIdQuery];
    assert t'[..|t|] == t;
    Step(o.chainId(t), t')
  }

  /** Signs and broadcasts one transaction; a refusal becomes a client error. */
  function SubmitRun(o: Oracle, t: Trace, tx: Tx): (s: Step<Result<TxHash, ClientError>>)
    ensures t <= s.trace && |s.trace| == |t| + 1
    ensures Submitted(s.trace) == Submitted(t) + [tx]
    ensures s.out.Ok? <==> o.send(t, tx).Ok?
    ensures s.out.Err? ==> s.out.error.Network?
  {
    assert (t + [Submission(tx)])[..|t|] == t;
    var answer := match o.send(t, tx)
      case Ok(h) => Ok(h)
      case Err(m) => Err(Network(m));
    Step(answer, t + [Submission(tx)])
  }

  /** `TransactionRequest::new().from(from).to(to).value(value)`. */
  function TransferRequest(from: Address, to: Address, value: nat): Tx
  {
    Tx(from, to, value, NoCall)
  }

  /** `sign_and_send_transaction` replaces whatever sender the request named
      with the operating wallet. */
  function SignedBy(tx: Tx, wallet: Address): (signed: Tx)
    ensures signed.sender == wallet
    ensures signed.target == tx.target && signed.value == tx.value && signed.call == tx.call
  {
    tx.(sender := wallet)
  }

  /** A contract call sent through the signing middleware: signed by the
      wallet, no native value attached. */
  function ContractCall(wallet: Address, target: Address, call: Call): Tx
  {
    Tx(wallet, target, 0, call)
  }

  /** `disperse_eth`: one call to the contract carrying the sum of the amounts. */
  function DisperseEthTx(config: Config, recipients: seq<Address>, amounts: seq<nat>): Tx
  {
    Tx(config.wallet, config.contract, Sum(amounts), DisperseEth(recipients, amounts))
  }

  /** `disperse_token`: one call to the contract, no value attached. */
  function DisperseTokenTx(config: Config, token: Address, recipients: seq<Address>, amounts: seq<nat>): Tx
  {
    ContractCall(config.wallet, config.contract, DisperseToken(token, recipients, amounts))
  }

  /** `approve_token_collection`: the token's `approve(collector, amount)`. */
  function ApproveTx(config: Config, token: Address, collector: Address, amount: nat): Tx
  {
    ContractCall(config.wallet, token, Approve(collector, amount))
  }

  /** `revoke_token_collection` is an approval of zero. */
  function RevokeTx(config: Config, token: Address, collector: Address): (tx: Tx)
    ensures tx.call == Approve(collector, 0) && tx.target == token && tx.value == 0
  {
    ApproveTx(config, token, collector, 0)
  }

  // ---------------------------------------------------------------------
  // The collection loop shared by collect_eth and collect_token

  /** One collection request: pull `amounts[j]` from `from[j]` to `to`, in
      `asset`, for every pair the two lists form. */
  datatype Collection = Collection(wallet: Address, asset: Asset, from: seq<Address>, to: Address, amounts: seq<nat>)
  {
    /** The number of (from, amount) pairs `zip` produces. */
    function Count(): (n: nat)
      ensures n <= |from| && n <= |amounts|
      ensures n == |from| || n == |amounts|
    {
      if |from| <= |amounts| then |from| else |amounts|
    }

    function Query(j: nat): Event
      requires j < Count()
    {
      BalanceQuery(asset, from[j])
    }

    /** The transfer submitted for pair j. */
    function TxAt(j: nat): (tx: Tx)
      requires j < Count()
      ensures tx.sender == wallet
    {
      match asset
      case Eth => SignedBy(TransferRequest(from[j], to, amounts[j]), wallet)
      case Token(token) => ContractCall(wallet, token, TransferFrom(from[j], to, amounts[j]))
    }

    /** The round trips of the first k pairs when each of them passes. */
    function EventsUpTo(k: nat): (t: Trace)
      requires k <= Count()
      ensures |t| == 2 * k
    {
      if k == 0 then [] else EventsUpTo(k - 1) + [Query(k - 1), Submission(TxAt(k - 1))]
    }

    /** The transfers of the first k pairs, in order. */
    function Transfers(k: nat): (txs: seq<Tx>)
      requires k <= Count()
      ensures |txs| == k
      ensures forall j :: 0 <= j < k ==> txs[j] == TxAt(j)
    {
      if k == 0 then [] else Transfers(k - 1) + [TxAt(k - 1)]
    }
  }

  /** The loop body for pairs i.. given the trace t and the hashes collected
      so far: query the balance, stop at the first pair whose balance is below
      its amount, otherwise submit the transfer and record its hash. Nothing
      already submitted is undone. */
  function CollectFrom(o: Oracle, job: Collection, i: nat, t: Trace, hashes: seq<TxHash>)
    : (s: Step<Result<seq<TxHash>, ClientError>>)
    requires i <= job.Count() && |hashes| == i
    ensures s.out.Ok? ==> |s.out.value| == job.Count() && s.out.value[..i] == hashes
    ensures s.out.Err? ==> s.out.error.InsufficientBalance? || s.out.error.Network?
    ensures s.out.Err? && s.out.error.InsufficientBalance? ==> s.out.error.asset == job.asset
    ensures t <= s.trace
    decreases job.Count() - i
  {
    if i == job.Count() then Step(Ok(hashes), t)
    else
      var queried := t + [job.Query(i)];
      match o.balance(t, job.asset, job.from[i])
      case Err(m) => Step(Err(Network(m)), queried)
      case Ok(balance) =>
        if balance < job.amounts[i] then
          Step(Err(InsufficientBalance(job.asset, job.from[i])), queried)
        else
          var tx := job.TxAt(i);
          var sent := queried + [Submission(tx)];
          match o.send(queried, tx)
          case Err(m) => Step(Err(Network(m)), sent)
          case Ok(h) => CollectFrom(o, job, i + 1, sent, hashes + [h])
  }

  function CollectRun(o: Oracle, job: Collection, t: Trace): Step<Result<seq<TxHash>, ClientError>>
  {
    CollectFrom(o, job, 0, t, [])
  }

  /** `collect_eth`: refuses lists of different lengths before any round trip. */
  function CollectEthRun(o: Oracle, config: Config, t: Trace, from: seq<Address>, to: Address, amounts: seq<nat>)
    : (s: Step<Result<seq<TxHash>, ClientError>>)
    ensures |from| != |amounts| ==> s.out == Err(LengthMismatch) && s.trace == t
    ensures s.out.Ok? ==> |from| == |amounts| == |s.out.value|
    ensures t <= s.trace
  {
    if |from| != |amounts| then Step(Err(LengthMismatch), t)
    else CollectRun(o, Collection(config.wallet, Eth, from, to, amounts), t)
  }

  /** `collect_token`: no length check; pairs beyond the shorter list are ignored. */
  function CollectTokenRun(o: Oracle, config: Config, t: Trace, token: Address, from: seq<Address>, to: Address, amounts: seq<nat>)
    : (s: Step<Result<seq<TxHash>, ClientError>>)
    ensures s.out.Ok? ==> |s.out.value| == (if |from| <= |amounts| then |from| else |amounts|)
    ensures t <= s.trace
  {
    CollectRun(o, Collection(config.wallet, Token(token), from, to, amounts), t)
  }

  // ---------------------------------------------------------------------
  // What the collection loop does, stated over the whole run

  /** The trace before pair j is processed, if every earlier pair passed. */
  function Before(job: Collection, t0: Trace, j: nat): Trace
    requires j <= job.Count()
  {
    t0 + job.EventsUpTo(j)
  }

  function BalanceAt(o: Oracle, job: Collection, t0: Trace, j: nat): Result<nat, string>
    requires j < job.Count()
  {
    o.balance(Before(job, t0, j), job.asset, job.from[j])
  }

  function SendAt(o: Oracle, job: Collection, t0: Trace, j: nat): Result<TxHash, string>
    requires j < job.Count()
  {
    o.send(Before(job, t0, j) + [job.Query(j)], job.TxAt(j))
  }

  /** Pair j's balance covers its amount (equality suffices) and its
      transfer was accepted. */
  predicate Passed(o: Oracle, job: Collection, t0: Trace, j: nat)
    requires j < job.Count()
  {
    var b := BalanceAt(o, job, t0, j);
    b.Ok? && b.value >= job.amounts[j] && SendAt(o, job, t0, j).Ok?
  }

  lemma BeforeNext(job: Collection, t0: Trace, i: nat)
    requires i < job.Count()
    ensures Before(job, t0, i) + [job.Query(i)] + [Submission(job.TxAt(i))] == Before(job, t0, i + 1)
  {
  }

  lemma {:induction false} TransfersSubmitted(job: Collection, t0: Trace, k: nat)
    requires k <= job.Count()
    ensures Submitted(Before(job, t0, k)) == Submitted(t0) + job.Transfers(k)
    decreases k
  {
    if k > 0 {
      TransfersSubmitted(job, t0, k - 1);
      var step := [job.Query(k - 1), Submission(job.TxAt(k - 1))];
      assert Before(job, t0, k) == Before(job, t0, k - 1) + step;
      SubmittedAppend(Before(job, t0, k - 1), step);
      assert step[..1] == [job.Query(k - 1)];
      assert step[..1][..0] == [];
      assert Submitted(step[..1]) == [];
      assert Submitted(step) == [job.TxAt(k - 1)];
    } else {
      assert Before(job, t0, 0) == t0;
    }
  }

  lemma {:induction false} CollectFromSucceeds(o: Oracle, job: Collection, t0: Trace, i: nat, hashes: seq<TxHash>)
    requires i <= job.Count() && |hashes| == i
    requires CollectFrom(o, job, i, Before(job, t0, i), hashes).out.Ok?
    ensures CollectFrom(o, job, i, Before(job, t0, i), hashes).trace == Before(job, t0, job.Count())
    ensures forall j :: i <= j < job.Count() ==>
      Passed(o, job, t0, j) && SendAt(o, job, t0, j) == Ok(CollectFrom(o, job, i, Before(job, t0, i), hashes).out.value[j])
    decreases job.Count() - i
  {
    if i < job.Count() {
      var h := SendAt(o, job, t0, i).value;
      BeforeNext(job, t0, i);
      CollectFromSucceeds(o, job, t0, i + 1, hashes + [h]);
      var rest := CollectFrom(o, job, i + 1, Before(job, t0, i + 1), hashes + [h]).out.value;
      assert rest[..i + 1] == hashes + [h];
      assert rest[i] == h;
    }
  }

  /** On success the run submitted exactly one transfer per pair, in input
      order, and recorded as the j-th hash the node's answer to the j-th
      transfer; every pair's balance covered its amount. */
  lemma CollectSucceeds(o: Oracle, job: Collection, t0: Trace)
    requires CollectRun(o, job, t0).out.Ok?
    ensures CollectRun(o, job, t0).trace == Before(job, t0, job.Count())
    ensures Submitted(CollectRun(o, job, t0).trace) == Submitted(t0) + job.Transfers(job.Count())
    ensures |CollectRun(o, job, t0).out.value| == job.Count()
    ensures forall j :: 0 <= j < job.Count() ==>
      Passed(o, job, t0, j) && SendAt(o, job, t0, j) == Ok(CollectRun(o, job, t0).out.value[j])
  {
    assert Before(job, t0, 0) == t0;
    CollectFromSucceeds(o, job, t0, 0, []);
    TransfersSubmitted(job, t0, job.Count());
  }

  lemma {:induction false} CollectFromShortfall(o: Oracle, job: Collection, t0: Trace, i: nat, hashes: seq<TxHash>)
    requires i <= job.Count() && |hashes| == i
    requires CollectFrom(o, job, i, Before(job, t0, i), hashes).out.Err?
    requires CollectFrom(o, job, i, Before(job, t0, i), hashes).out.error.InsufficientBalance?
    ensures exists k :: (
      i <= k < job.Count()
      && (forall j :: i <= j < k ==> Passed(o, job, t0, j))
      && CollectFrom(o, job, i, Before(job, t0, i), hashes).out.error.owner == job.from[k]
      && BalanceAt(o, job, t0, k).Ok? && BalanceAt(o, job, t0, k).value < job.amounts[k]
      && CollectFrom(o, job, i, Before(job, t0, i), hashes).trace == Before(job, t0, k) + [job.Query(k)])
    decreases job.Count() - i
  {
    var b := BalanceAt(o, job, t0, i);
    if b.Ok? && b.value >= job.amounts[i] {
      var h := SendAt(o, job, t0, i).value;
      BeforeNext(job, t0, i);
      CollectFromShortfall(o, job, t0, i + 1, hashes + [h]);
    }
  }

  /** Fail fast: a run that reports an insufficient balance names the first
      pair k whose balance was below its amount; every pair before k was
      transferred and stays transferred, and nothing was sent for k or any
      later pair. */
  lemma CollectStopsAtShortfall(o: Oracle, job: Collection, t0: Trace)
    requires CollectRun(o, job, t0).out.Err? && CollectRun(o, job, t0).out.error.InsufficientBalance?
    ensures exists k :: (
      0 <= k < job.Count()
      && (forall j :: 0 <= j < k ==> Passed(o, job, t0, j))
      && CollectRun(o, job, t0).out.error == InsufficientBalance(job.asset, job.from[k])
      && BalanceAt(o, job, t0, k).Ok? && BalanceAt(o, job, t0, k).value < job.amounts[k]
      && CollectRun(o, job, t0).trace == Before(job, t0, k) + [job.Query(k)]
      && Submitted(CollectRun(o, job, t0).trace) == Submitted(t0) + job.Transfers(k))
  {
    var run := CollectRun(o, job, t0);
    assert Before(job, t0, 0) == t0;
    assert run == CollectFrom(o, job, 0, Before(job, t0, 0), []);
    CollectFromShortfall(o, job, t0, 0, []);
    var k :| 0 <= k < job.Count()
      && (forall j :: 0 <= j < k ==> Passed(o, job, t0, j))
      && run.out.error.owner == job.from[k]
      && BalanceAt(o, job, t0, k).Ok? && BalanceAt(o, job, t0, k).value < job.amounts[k]
      && run.trace == Before(job, t0, k) + [job.Query(k)];
    assert run.out.error == InsufficientBalance(job.asset, job.from[k]);
    TransfersSubmitted(job, t0, k);
    SubmittedAppend(Before(job, t0, k), [job.Query(k)]);
    assert Submitted([job.Query(k)]) == [];
    assert Submitted(run.trace) == Submitted(t0) + job.Transfers(k);
  }

  lemma {:induction false} CollectFromReachesShortfall(o: Oracle, job: Collection, t0: Trace, i: nat, hashes: seq<TxHash>, k: nat)
    requires i <= k < job.Count() && |hashes| == i
    requires forall j :: i <= j < k ==> Passed(o, job, t0, j)
    requires BalanceAt(o, job, t0, k).Ok? && BalanceAt(o, job, t0, k).value < job.amounts[k]
    ensures CollectFrom(o, job, i, Before(job, t0, i), hashes)
         == Step(Err(InsufficientBalance(job.asset, job.from[k])), Before(job, t0, k) + [job.Query(k)])
    decreases k - i
  {
    if i < k {
      assert Passed(o, job, t0, i);
      var h := SendAt(o, job, t0, i).value;
      BeforeNext(job, t0, i);
      CollectFromReachesShortfall(o, job, t0, i + 1, hashes + [h], k);
    }
  }

  /** The converse: if every pair before k passes and pair k's balance is
      below its amount, the run stops there naming from[k]. */
  lemma CollectReachesShortfall(o: Oracle, job: Collection, t0: Trace, k: nat)
    requires k < job.Count()
    requires forall j :: 0 <= j < k ==> Passed(o, job, t0, j)
    requires BalanceAt(o, job, t0, k).Ok? && BalanceAt(o, job, t0, k).value < job.amounts[k]
    ensures CollectRun(o, job, t0) == Step(Err(InsufficientBalance(job.asset, job.from[k])), Before(job, t0, k) + [job.Query(k)])
    ensures Submitted(CollectRun(o, job, t0).trace) == Submitted(t0) + job.Transfers(k)
  {
    assert Before(job, t0, 0) == t0;
    CollectFromReachesShortfall(o, job, t0, 0, [], k);
    TransfersSubmitted(job, t0, k);
    SubmittedAppend(Before(job, t0, k), [job.Query(k)]);
    assert Submitted([job.Query(k)]) == [];
  }

  lemma {:induction false} CollectFromAllPass(o: Oracle, job: Collection, t0: Trace, i: nat, hashes: seq<TxHash>)
    requires i <= job.Count() && |hashes| == i
    requires forall j :: i <= j < job.Count() ==> Passed(o, job, t0, j)
    ensures CollectFrom(o, job, i, Before(job, t0, i), hashes).out.Ok?
    decreases job.Count() - i
  {
    if i < job.Count() {
      assert Passed(o, job, t0, i);
      var h := SendAt(o, job, t0, i).value;
      BeforeNext(job, t0, i);
      CollectFromAllPass(o, job, t0, i + 1, hashes + [h]);
    }
  }

  /** The converse of CollectSucceeds: when every pair passes, the run succeeds. */
  lemma CollectAllPass(o: Oracle, job: Collection, t0: Trace)
    requires forall j :: 0 <= j < job.Count() ==> Passed(o, job, t0, j)
    ensures CollectRun(o, job, t0).out.Ok?
  {
    assert Before(job, t0, 0) == t0;
    CollectFromAllPass(o, job, t0, 0, []);
  }

  lemma {:induction false} CollectFromNetworkFailure(o: Oracle, job: Collection, t0: Trace, i: nat, hashes: seq<TxHash>)
    requires i <= job.Count() && |hashes| == i
    requires CollectFrom(o, job, i, Before(job, t0, i), hashes).out.Err?
    requires CollectFrom(o, job, i, Before(job, t0, i), hashes).out.error.Network?
    ensures exists k :: (
      i <= k < job.Count()
      && (forall j :: i <= j < k ==> Passed(o, job, t0, j))
      && NetworkStop(o, job, t0, k, CollectFrom(o, job, i, Before(job, t0, i), hashes)))
    decreases job.Count() - i
  {
    var b := BalanceAt(o, job, t0, i);
    if b.Ok? && b.value >= job.amounts[i] && SendAt(o, job, t0, i).Ok? {
      var h := SendAt(o, job, t0, i).value;
      BeforeNext(job, t0, i);
      CollectFromNetworkFailure(o, job, t0, i + 1, hashes + [h]);
    } else {
      BeforeNext(job, t0, i);
      assert NetworkStop(o, job, t0, i, CollectFrom(o, job, i, Before(job, t0, i), hashes));
    }
  }

  /** How a run that ends in a network error at pair k looks: either the
      balance query of pair k failed (nothing sent for k), or it passed and
      the node refused pair k's transfer. */
  predicate NetworkStop(o: Oracle, job: Collection, t0: Trace, k: nat, s: Step<Result<seq<TxHash>, ClientError>>)
    requires k < job.Count()
  {
    var b := BalanceAt(o, job, t0, k);
    s.out.Err? && s.out.error.Network? &&
    if b.Err? then
      b.error == s.out.error.message && s.trace == Before(job, t0, k) + [job.Query(k)]
    else
      b.value >= job.amounts[k] && SendAt(o, job, t0, k) == Err(s.out.error.message)
      && s.trace == Before(job, t0, k + 1)
  }

  /** A network failure also stops the loop at once: the earlier pairs were
      all transferred, and no round trip follows the failing one. */
  lemma CollectStopsAtNetworkFailure(o: Oracle, job: Collection, t0: Trace)
    requires CollectRun(o, job, t0).out.Err? && CollectRun(o, job, t0).out.error.Network?
    ensures exists k :: (
      0 <= k < job.Count()
      && (forall j :: 0 <= j < k ==> Passed(o, job, t0, j))
      && NetworkStop(o, job, t0, k, CollectRun(o, job, t0)))
  {
    assert Before(job, t0, 0) == t0;
    CollectFromNetworkFailure(o, job, t0, 0, []);
  }

  /** The native-coin transfer for pair j goes to `to` with value amounts[j],
      and is signed by the operating wallet, not by from[j] whose balance was
      checked. */
  lemma EthTransferShape(job: Collection, j: nat)
    requires job.asset == Eth && j < job.Count()
    ensures job.TxAt(j) == Tx(job.wallet, job.to, job.amounts[j], NoCall)
  {
  }

  /** The token transfer for pair j is the token contract's
      transferFrom(from[j], to, amounts[j]). */
  lemma TokenTransferShape(job: Collection, j: nat)
    requires job.asset.Token? && j < job.Count()
    ensures job.TxAt(j) == Tx(job.wallet, job.asset.token, 0, TransferFrom(job.from[j], job.to, job.amounts[j]))
  {
  }

  /** The job restricted to the pairs `zip` forms. */
  function Trimmed(job: Collection): (trimmed: Collection)
    ensures trimmed.Count() == job.Count() == |trimmed.from| == |trimmed.amounts|
  {
    job.(from := job.from[..job.Count()], amounts := job.amounts[..job.Count()])
  }

  lemma {:induction false} CollectFromTrimmed(o: Oracle, job: Collection, i: nat, t: Trace, hashes: seq<TxHash>)
    requires i <= job.Count() && |hashes| == i
    ensures CollectFrom(o, job, i, t, hashes) == CollectFrom(o, Trimmed(job), i, t, hashes)
    decreases job.Count() - i
  {
    if i < job.Count() {
      var trimmed := Trimmed(job);
      assert trimmed.from[i] == job.from[i] && trimmed.amounts[i] == job.amounts[i];
      assert trimmed.TxAt(i) == job.TxAt(i);
      var queried := t + [job.Query(i)];
      var sent := queried + [Submission(job.TxAt(i))];
      match o.send(queried, job.TxAt(i)) {
        case Ok(h) => CollectFromTrimmed(o, job, i + 1, sent, hashes + [h]);
        case Err(_) =>
      }
    }
  }

  /** Surplus entries of the longer list have no effect at all: a collection
      behaves exactly as the one cut to the pairs `zip` forms. */
  lemma CollectIgnoresSurplus(o: Oracle, job: Collection, t: Trace)
    ensures CollectRun(o, job, t) == CollectRun(o, Trimmed(job), t)
  {
    CollectFromTrimmed(o, job, 0, t, []);
  }

  /** Two sources A and B each asked for 100, A holding exactly 100 and B
      only 50: A's transfer is submitted (an equal balance passes), the run
      then stops naming B and nothing is sent for B. */
  lemma ShortSecondSourceExample(wallet: Address, a: Address, b: Address, to: Address, h: TxHash, t0: Trace)
    requires a != b
    ensures var o := Oracle(
        _ => Ok(1),
        (_, _, owner) => if owner == b then Ok(50) else Ok(100),
        (_, _) => Ok(h));
      var job := Collection(wallet, Eth, [a, b], to, [100, 100]);
      && CollectRun(o, job, t0).out == Err(InsufficientBalance(Eth, b))
      && Submitted(CollectRun(o, job, t0).trace) == Submitted(t0) + [Tx(wallet, to, 100, NoCall)]
  {
    var o := Oracle(
        _ => Ok(1),
        (_, _, owner) => if owner == b then Ok(50) else Ok(100),
        (_, _) => Ok(h));
    var job := Collection(wallet, Eth, [a, b], to, [100, 100]);
    assert Passed(o, job, t0, 0);
    CollectReachesShortfall(o, job, t0, 1);
    assert job.Transfers(1) == [job.TxAt(0)];
  }
}
