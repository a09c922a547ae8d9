/** Values shared by the whole model: bytes, addresses, transaction hashes,
    the transactions this service builds and the log of every round trip it
    makes to the JSON-RPC node. */
module Base {

  datatype Option<+T> = None | Some(value: T)

  datatype Result<+T, +E> = Ok(value: T) | Err(error: E)

  type Byte = b: int | 0 <= b < 256

  /** A 20-byte account or contract address (`H160`). */
  type Address = s: seq<Byte> | |s| == 20 witness seq(20, _ => 0)

  /** A 32-byte transaction hash (`H256`). */
  type TxHash = s: seq<Byte> | |s| == 32 witness seq(32, _ => 0)

  /** What a balance is counted in: the native coin, or an ERC-20 token
      identified by its contract address. */
  datatype Asset = Eth | Token(token: Address)

  /** The call data carried by a transaction. */
  datatype Call =
    | NoCall                                                            // plain value transfer
    | TransferFrom(holder: Address, recipient: Address, value: nat)     // ERC-20 transferFrom
    | Approve(spender: Address, value: nat)                             // ERC-20 approve
    | DisperseEth(recipients: seq<Address>, amounts: seq<nat>)          // contract disperseEth
    | DisperseToken(token: Address, recipients: seq<Address>, amounts: seq<nat>)

  /** A transaction as handed to the signer: who signs it, where it goes,
      the native value attached and the call data. */
  datatype Tx = Tx(sender: Address, target: Address, value: nat, call: Call)

  /** One round trip to the node. */
  datatype Event =
    | ChainIdQuery                              // eth_chainId, made when a client is built
    | BalanceQuery(asset: Asset, owner: Address)
    | Submission(tx: Tx)                        // an attempted submission, logged even when the node refuses it

  type Trace = seq<Event>

  /** A computation's output together with the trace after it ran. */
  datatype Step<+T> = Step(out: T, trace: Trace)

  /** The transactions a trace attempted to submit, in order, whether or
      not the node accepted them. */
  function Submitted(t: Trace): (txs: seq<Tx>)
    ensures |txs| <= |t|
  {
    if t == [] then []
    else
      var last := t[|t| - 1];
      Submitted(t[..|t| - 1]) + (if last.Submission? then [last.tx] else [])
  }

  lemma {:induction false} SubmittedAppend(a: Trace, b: Trace)
    ensures Submitted(a + b) == Submitted(a) + Submitted(b)
    decreases |b|
  {
    if b == [] {
      assert a + b == a;
    } else {
      var b' := b[..|b| - 1];
      assert (a + b)[..|a + b| - 1] == a + b';
      SubmittedAppend(a, b');
    }
  }

  /** The sum of a list of amounts, on unbounded naturals. Every amount is
      covered by it. */
  function Sum(xs: seq<nat>): (s: nat)
    ensures forall i :: 0 <= i < |xs| ==> xs[i] <= s
  {
    if xs == [] then 0
    else
      assert forall i :: 1 <= i < |xs| ==> xs[i] == xs[1..][i - 1];
      xs[0] + Sum(xs[1..])
  }

  /** `fold(U256::zero(), |acc, x| acc + x)`: the accumulator takes the
      amounts from the front, so the last amount is added last. */
  function FoldSum(xs: seq<nat>): nat
  {
    if xs == [] then 0 else FoldSum(xs[..|xs| - 1]) + xs[|xs| - 1]
  }

  /** Summing from the front gives what the fold gives. */
  lemma {:induction false} SumIsFold(xs: seq<nat>)
    ensures Sum(xs) == FoldSum(xs)
    decreases |xs|
  {
    if xs != [] {
      var init, last := xs[..|xs| - 1], xs[|xs| - 1];
      assert xs == init + [last];
      SumAppend(init, [last]);
      assert Sum([last]) == last + Sum([]);
      SumIsFold(init);
    }
  }

  lemma {:induction false} SumAppend(a: seq<nat>, b: seq<nat>)
    ensures Sum(a + b) == Sum(a) + Sum(b)
    decreases |a|
  {
    if a == [] {
      assert a + b == b;
    } else {
      assert (a + b)[1..] == a[1..] + b;
      SumAppend(a[1..], b);
    }
  }
}
