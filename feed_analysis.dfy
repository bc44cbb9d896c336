/**
 * The post-processing of utils.py over the explorer's transfer feed: `get_token_balances`
 * (aggregation by contract address) and `get_last_transactions` (the first buy and the
 * first sell in feed order, newest first). Amounts are exact reals.
 */
module FeedAnalysis {
  import opened Optional
  import opened Feed

  /** One value of the `token_balances` dictionary. */
  datatype TokenBalance = TokenBalance(symbol: string, balance: real, contractAddress: string)

  /** The `tx_details` dictionary of `get_last_transactions`. */
  datatype TxDetails = TxDetails(symbol: string, amount: real, txHash: string, timestamp: int, contractAddress: string)

  function Details(tx: Transfer): TxDetails {
    TxDetails(tx.tokenSymbol, Amount(tx), tx.hash, tx.timeStamp, tx.contractAddress)
  }

  function DetailsOf(tx: Option<Transfer>): Option<TxDetails> {
    match tx
    case None => None
    case Some(t) => Some(Details(t))
  }

  // ---------------------------------------------------------------------------
  // get_token_balances

  /** Some entry of `feed` has contract address `a`. */
  ghost predicate Mentions(feed: seq<Transfer>, a: string) {
    exists i :: 0 <= i < |feed| && feed[i].contractAddress == a
  }

  /** The contract addresses of `feed`, each once, as the dictionary's keys come to be. */
  function Contracts(feed: seq<Transfer>): seq<string>
    decreases |feed|
  {
    if feed == [] then []
    else
      var prior := Contracts(feed[..|feed| - 1]);
      var a := feed[|feed| - 1].contractAddress;
      if a in prior then prior else prior + [a]
  }

  /** The sum of the amounts of all entries of `feed` with contract address `a`. */
  function Total(feed: seq<Transfer>, a: string): real
    decreases |feed|
  {
    if feed == [] then 0.0
    else
      var last := feed[|feed| - 1];
      Total(feed[..|feed| - 1], a) + (if last.contractAddress == a then Amount(last) else 0.0)
  }

  /** The token symbol of the first entry of `feed` with contract address `a` ("" when there is none). */
  function FirstSymbol(feed: seq<Transfer>, a: string): string
    decreases |feed|
  {
    if feed == [] then ""
    else if feed[0].contractAddress == a then feed[0].tokenSymbol
    else FirstSymbol(feed[1..], a)
  }

  /** The dictionary entry aggregated for contract `a`. */
  function Aggregated(feed: seq<Transfer>, a: string): TokenBalance {
    TokenBalance(FirstSymbol(feed, a), Total(feed, a), a)
  }

  /**
   * `get_token_balances`: no entries for a response without data; otherwise one entry per
   * contract address, in the order the addresses first appear, each carrying the symbol of
   * the first entry with that address and the sum of all amounts with that address.
   */
  method TokenBalances(resp: FeedResponse) returns (balances: seq<TokenBalance>)
    ensures Entries(resp).None? ==> balances == []
    ensures Entries(resp).Some? ==>
      var feed := Entries(resp).value;
      && |balances| == |Contracts(feed)|
      && forall k :: 0 <= k < |balances| ==> balances[k] == Aggregated(feed, Contracts(feed)[k])
  {
    if resp.statusCode != 200 {
      return [];
    }
    if resp.status != "1" || resp.result.None? {
      return [];
    }
    var feed := resp.result.value;
    var keys: seq<string> := [];
    var table: map<string, TokenBalance> := map[];
    for i := 0 to |feed|
      invariant keys == Contracts(feed[..i])
      invariant forall a :: a in table <==> a in keys
      invariant forall a :: a in table ==> table[a] == Aggregated(feed[..i], a)
    {
      var tx := feed[i];
      var value := Amount(tx);
      var address := tx.contractAddress;
      assert feed[..i + 1][..i] == feed[..i];
      forall a | a in table ensures FirstSymbol(feed[..i + 1], a) == FirstSymbol(feed[..i], a) {
        ContractsMentions(feed[..i], a);
        FirstSymbolAppend(feed[..i], tx, a);
        assert feed[..i + 1] == feed[..i] + [tx];
      }
      if address in table {
        var entry := table[address];
        table := table[address := entry.(balance := entry.balance + value)];
      } else {
        ContractsMentions(feed[..i], address);
        FirstSymbolAppend(feed[..i], tx, address);
        TotalUnmentioned(feed[..i], address);
        assert feed[..i + 1] == feed[..i] + [tx];
        table := table[address := TokenBalance(tx.tokenSymbol, value, address)];
        keys := keys + [address];
      }
    }
    assert feed[..|feed|] == feed;
    balances := seq(|keys|, k requires 0 <= k < |keys| => table[keys[k]]);
  }

  lemma {:induction false} FirstSymbolAppend(feed: seq<Transfer>, tx: Transfer, a: string)
    ensures FirstSymbol(feed + [tx], a) ==
      if Mentions(feed, a) then FirstSymbol(feed, a)
      else if tx.contractAddress == a then tx.tokenSymbol else ""
    decreases |feed|
  {
    if feed == [] {
      assert [tx][1..] == [];
    } else {
      assert (feed + [tx])[1..] == feed[1..] + [tx];
      FirstSymbolAppend(feed[1..], tx, a);
      if feed[0].contractAddress != a {
        if Mentions(feed, a) {
          var i :| 0 <= i < |feed| && feed[i].contractAddress == a;
          assert feed[1..][i - 1] == feed[i];
        }
        if Mentions(feed[1..], a) {
          var i :| 0 <= i < |feed[1..]| && feed[1..][i].contractAddress == a;
          assert feed[i + 1] == feed[1..][i];
        }
      } else {
        assert Mentions(feed, a) by { assert feed[0].contractAddress == a; }
      }
    }
  }

  /** An address is among the aggregated contracts exactly when some entry of the feed has it. */
  lemma {:induction false} ContractsMentions(feed: seq<Transfer>, a: string)
    ensures a in Contracts(feed) <==> Mentions(feed, a)
    decreases |feed|
  {
    if feed != [] {
      var prior := feed[..|feed| - 1];
      ContractsMentions(prior, a);
      if Mentions(feed, a) {
        var i :| 0 <= i < |feed| && feed[i].contractAddress == a;
        if i < |feed| - 1 {
          assert prior[i] == feed[i];
        }
      }
      if Mentions(prior, a) {
        var i :| 0 <= i < |prior| && prior[i].contractAddress == a;
        assert feed[i] == prior[i];
      }
    }
  }

  /** No contract address is aggregated twice. */
  lemma {:induction false} ContractsDistinct(feed: seq<Transfer>)
    ensures forall i, j :: 0 <= i < j < |Contracts(feed)| ==> Contracts(feed)[i] != Contracts(feed)[j]
    decreases |feed|
  {
    if feed != [] {
      ContractsDistinct(feed[..|feed| - 1]);
    }
  }

  /**
   * The aggregated contracts appear in order of first appearance: wherever the later of two
   * occurs in the feed, the earlier has already occurred before it.
   */
  lemma {:induction false} ContractsInFirstAppearanceOrder(feed: seq<Transfer>, k1: int, k2: int, i2: int)
    requires 0 <= k1 < k2 < |Contracts(feed)|
    requires 0 <= i2 < |feed| && feed[i2].contractAddress == Contracts(feed)[k2]
    ensures exists i1 :: 0 <= i1 < i2 && feed[i1].contractAddress == Contracts(feed)[k1]
    decreases |feed|
  {
    var prior := feed[..|feed| - 1];
    var c := Contracts(prior);
    var last := feed[|feed| - 1];
    if k2 < |c| {
      ContractsMentions(prior, Contracts(feed)[k2]);
      if i2 < |prior| {
        assert prior[i2] == feed[i2];
        ContractsInFirstAppearanceOrder(prior, k1, k2, i2);
        var i1 :| 0 <= i1 < i2 && prior[i1].contractAddress == c[k1];
        assert feed[i1] == prior[i1];
      } else {
        ContractsMentions(prior, c[k1]);
        var i1 :| 0 <= i1 < |prior| && prior[i1].contractAddress == c[k1];
        assert feed[i1] == prior[i1];
      }
    } else {
      // the later address is the new last key, so it does not occur before the last entry
      ContractsMentions(prior, last.contractAddress);
      assert i2 == |prior|;
      ContractsMentions(prior, c[k1]);
      var i1 :| 0 <= i1 < |prior| && prior[i1].contractAddress == c[k1];
      assert feed[i1] == prior[i1];
    }
  }

  /** The symbol aggregated for an address is the `tokenSymbol` of the earliest entry with that address. */
  lemma {:induction false} FirstSymbolIsFirst(feed: seq<Transfer>, i: int)
    requires 0 <= i < |feed|
    requires forall j :: 0 <= j < i ==> feed[j].contractAddress != feed[i].contractAddress
    ensures FirstSymbol(feed, feed[i].contractAddress) == feed[i].tokenSymbol
    decreases |feed|
  {
    if i > 0 {
      assert forall j :: 0 <= j < i - 1 ==> feed[1..][j] == feed[j + 1];
      FirstSymbolIsFirst(feed[1..], i - 1);
    }
  }

  lemma {:induction false} TotalUnmentioned(feed: seq<Transfer>, a: string)
    requires !Mentions(feed, a)
    ensures Total(feed, a) == 0.0
    decreases |feed|
  {
    if feed != [] {
      var prior := feed[..|feed| - 1];
      assert forall i :: 0 <= i < |prior| ==> prior[i] == feed[i];
      TotalUnmentioned(prior, a);
    }
  }

  // ---------------------------------------------------------------------------
  // get_last_transactions

  /** The earliest entry of `feed` whose direction relative to `wallet` is `d`. */
  function FirstOf(feed: seq<Transfer>, wallet: string, d: Direction): Option<Transfer>
    decreases |feed|
  {
    if feed == [] then None
    else if Classify(feed[0], wallet) == d then Some(feed[0])
    else FirstOf(feed[1..], wallet, d)
  }

  /** `FirstOf` finds an entry exactly when one exists, and what it finds is the earliest. */
  lemma {:induction false} FirstOfIsEarliest(feed: seq<Transfer>, wallet: string, d: Direction)
    ensures FirstOf(feed, wallet, d).None? <==>
      forall i :: 0 <= i < |feed| ==> Classify(feed[i], wallet) != d
    ensures FirstOf(feed, wallet, d).Some? ==>
      exists i :: 0 <= i < |feed| && feed[i] == FirstOf(feed, wallet, d).value
        && Classify(feed[i], wallet) == d
        && forall j :: 0 <= j < i ==> Classify(feed[j], wallet) != d
    decreases |feed|
  {
    if feed != [] && Classify(feed[0], wallet) != d {
      FirstOfIsEarliest(feed[1..], wallet, d);
      assert forall i :: 0 < i < |feed| ==> feed[i] == feed[1..][i - 1];
      if FirstOf(feed[1..], wallet, d).Some? {
        var i :| 0 <= i < |feed[1..]| && feed[1..][i] == FirstOf(feed[1..], wallet, d).value
          && Classify(feed[1..][i], wallet) == d
          && forall j :: 0 <= j < i ==> Classify(feed[1..][j], wallet) != d;
        assert feed[i + 1] == feed[1..][i];
      }
    } else if feed != [] {
      assert feed[0] == FirstOf(feed, wallet, d).value;
    }
  }

  lemma {:induction false} FirstOfAppend(feed: seq<Transfer>, rest: seq<Transfer>, wallet: string, d: Direction)
    ensures FirstOf(feed + rest, wallet, d) ==
      if FirstOf(feed, wallet, d).Some? then FirstOf(feed, wallet, d) else FirstOf(rest, wallet, d)
    decreases |feed|
  {
    if feed == [] {
      assert feed + rest == rest;
    } else {
      assert (feed + rest)[1..] == feed[1..] + rest;
      FirstOfAppend(feed[1..], rest, wallet, d);
    }
  }

  /**
   * `get_last_transactions`: both absent for a response without data; otherwise the details
   * of the earliest buy and of the earliest sell in feed order, each absent when the feed has
   * none. The loop stops as soon as both are found, with the same result as a full scan.
   */
  method LastTransactions(resp: FeedResponse, wallet: string)
    returns (buy: Option<TxDetails>, sell: Option<TxDetails>)
    ensures Entries(resp).None? ==> buy == None && sell == None
    ensures Entries(resp).Some? ==>
      && buy == DetailsOf(FirstOf(Entries(resp).value, wallet, Buy))
      && sell == DetailsOf(FirstOf(Entries(resp).value, wallet, Sell))
  {
    buy, sell := None, None;
    if resp.statusCode != 200 {
      return;
    }
    if resp.status != "1" || resp.result.None? {
      return;
    }
    var feed := resp.result.value;
    var i := 0;
    while i < |feed|
      invariant 0 <= i <= |feed|
      invariant buy == DetailsOf(FirstOf(feed[..i], wallet, Buy))
      invariant sell == DetailsOf(FirstOf(feed[..i], wallet, Sell))
    {
      var tx := feed[i];
      var direction := Classify(tx, wallet);
      var details := Details(tx);
      assert feed[..i + 1] == feed[..i] + [tx];
      assert [tx][1..] == [];
      FirstOfAppend(feed[..i], [tx], wallet, Buy);
      FirstOfAppend(feed[..i], [tx], wallet, Sell);
      if direction == Buy && buy.None? {
        buy := Some(details);
      } else if direction == Sell && sell.None? {
        sell := Some(details);
      }
      i := i + 1;
      if buy.Some? && sell.Some? {
        break;
      }
    }
    assert feed == feed[..i] + feed[i..];
    FirstOfAppend(feed[..i], feed[i..], wallet, Buy);
    FirstOfAppend(feed[..i], feed[i..], wallet, Sell);
  }
}
