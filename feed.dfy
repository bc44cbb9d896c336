/**
 * The explorer's token-transfer feed (the `tokentx` action, newest first) after the HTTP
 * call and the JSON decoding: the records that bot.py and utils.py read.
 */
module Feed {
  import opened Optional
  import opened Text

  /** One entry of the feed's `result` list, with `value`, `tokenDecimal` and `timeStamp` already parsed by `int(...)`. */
  datatype Transfer = Transfer(
    hash: string,
    to: string,
    tokenSymbol: string,
    contractAddress: string,
    value: nat,
    tokenDecimal: nat,
    timeStamp: int)

  /** An explorer response: the HTTP status code, the payload's `status` and its `result` list, if present. */
  datatype FeedResponse = FeedResponse(statusCode: int, status: string, result: Option<seq<Transfer>>)

  /**
   * The entries a caller goes on to read: present only for an HTTP 200 whose payload has
   * status "1" and a `result` list; every other response carries no data.
   */
  function Entries(resp: FeedResponse): Option<seq<Transfer>> {
    if resp.statusCode == 200 && resp.status == "1" && resp.result.Some? then resp.result else None
  }

  function Pow10(n: nat): (r: nat)
    ensures r >= 1
  {
    if n == 0 then 1 else 10 * Pow10(n - 1)
  }

  /** `int(value) / 10 ** int(tokenDecimal)`, computed exactly. */
  function Amount(tx: Transfer): (r: real)
    ensures r >= 0.0
  {
    tx.value as real / Pow10(tx.tokenDecimal) as real
  }

  datatype Direction = Buy | Sell

  /** "Buy" when the transfer goes to the wallet (addresses compared lower-cased), "Sell" otherwise. */
  function Classify(tx: Transfer, wallet: string): Direction {
    if Lower(tx.to) == Lower(wallet) then Buy else Sell
  }

  /** A transfer is a buy exactly when its recipient equals the wallet ignoring letter case. */
  lemma ClassifyBuyIff(tx: Transfer, wallet: string)
    ensures Classify(tx, wallet) == Buy <==> EqualsIgnoringCase(tx.to, wallet)
    ensures Classify(tx, wallet) == Sell <==> !EqualsIgnoringCase(tx.to, wallet)
  {
    LowerEqualIff(tx.to, wallet);
  }

  /** The direction does not depend on how the wallet address is capitalised. */
  lemma ClassifyIgnoresWalletCase(tx: Transfer, wallet: string)
    ensures Classify(tx, Upper(wallet)) == Classify(tx, wallet)
    ensures Classify(tx, Lower(wallet)) == Classify(tx, wallet)
  {
    LowerOfUpper(wallet);
    assert forall i :: 0 <= i < |wallet| ==> LowerChar(LowerChar(wallet[i])) == LowerChar(wallet[i]);
    assert Lower(Lower(wallet)) == Lower(wallet);
  }
}
