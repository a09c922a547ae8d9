/** The errors the client reports, and the text each one displays as
    (`e.to_string()` in the handlers). */
module Errors {
  import opened Base
  import Hex

  datatype ClientError =
    | InvalidSplit                                  // percentages do not sum to 100.00%
    | LengthMismatch                                // collect_eth: |from| != |amounts|
    | InsufficientBalance(asset: Asset, owner: Address)
    | Network(message: string)                      // any failure of a round trip, propagated by `?`
  {
    /** A balance error ends with the short owner's address; a network
        error shows the node's own text unchanged. */
    function Message(): (m: string)
      ensures InsufficientBalance? ==> |m| >= 11 && m[|m| - 11..] == Hex.AddressDisplay(owner)
      ensures Network? ==> m == message
    {
      match this
      case InvalidSplit => "Percentages must sum to 100.00%"
      case LengthMismatch => "Address and amount arrays must have same length"
      case InsufficientBalance(Eth, owner) =>
        "Insufficient ETH balance for address: " + Hex.AddressDisplay(owner)
      case InsufficientBalance(Token(_), owner) =>
        "Insufficient token balance for address: " + Hex.AddressDisplay(owner)
      case Network(message) => message
    }
  }

  /** Apart from a network error, whose text is the node's, the message tells
      which error it was: the kind, the asset kind (native coin or token)
      and the owner's abbreviated address. */
  lemma MessageIdentifiesError(e1: ClientError, e2: ClientError)
    requires !e1.Network? && !e2.Network? && e1.Message() == e2.Message()
    ensures e1.InvalidSplit? == e2.InvalidSplit? && e1.LengthMismatch? == e2.LengthMismatch?
    ensures e1.InsufficientBalance? ==>
      && e2.InsufficientBalance?
      && e1.asset.Eth? == e2.asset.Eth?
      && Hex.AddressDisplay(e1.owner) == Hex.AddressDisplay(e2.owner)
  {
    var m := e1.Message();
    assert |"Percentages must sum to 100.00%"| == 31;
    assert |"Address and amount arrays must have same length"| == 47;
    assert |"Insufficient ETH balance for address: "| == 38;
    assert |"Insufficient token balance for address: "| == 40;
    if e1.InsufficientBalance? {
      assert m[|m| - 11..] == Hex.AddressDisplay(e1.owner);
      assert e2.Message()[|m| - 11..] == Hex.AddressDisplay(e2.owner);
    }
  }
}
