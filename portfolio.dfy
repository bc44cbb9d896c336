/**
 * The token list that bot.py's `/profile` handler shows: the aggregated balances filtered to
 * positive non-BNB tokens, cut to ten, with the native BNB balance put in front.
 */
module Portfolio {
  import opened Text
  import opened FeedAnalysis

  /** One line of the "Tokens Held" list: the native coin (symbol "BNB"), or an aggregated token. */
  datatype Holding = NativeBnb(balance: real) | Token(token: TokenBalance)

  /** The list-comprehension condition: a positive balance and a symbol that is not "BNB" in any letter case. */
  predicate Listed(t: TokenBalance) {
    t.balance > 0.0 && Upper(t.symbol) != "BNB"
  }

  /** `[token for token in tokens if ...]`: the listed tokens, in their original order. */
  function ListedTokens(tokens: seq<TokenBalance>): (r: seq<TokenBalance>)
    ensures |r| <= |tokens|
    ensures forall t :: t in r <==> t in tokens && Listed(t)
  {
    if tokens == [] then []
    else if Listed(tokens[0]) then [tokens[0]] + ListedTokens(tokens[1..])
    else ListedTokens(tokens[1..])
  }

  /**
   * The filter works element by element and keeps order and repetitions: filtering a
   * concatenation is concatenating the filtered parts, and a single token is kept exactly
   * when it is listed.
   */
  lemma {:induction false} ListedTokensAppend(xs: seq<TokenBalance>, ys: seq<TokenBalance>)
    ensures ListedTokens(xs + ys) == ListedTokens(xs) + ListedTokens(ys)
    ensures forall t :: ListedTokens([t]) == if Listed(t) then [t] else []
  {
    if xs == [] {
      assert xs + ys == ys;
    } else {
      assert (xs + ys)[0] == xs[0] && (xs + ys)[1..] == xs[1..] + ys;
      ListedTokensAppend(xs[1..], ys);
    }
  }

  /**
   * The holdings shown: the native balance first, followed by the first ten listed tokens
   * (all of them when there are fewer), in order; so at most eleven lines, and no later line
   * is BNB or has a balance that is not positive.
   */
  function Holdings(tokens: seq<TokenBalance>, nativeBnb: real): (r: seq<Holding>)
    ensures 1 <= |r| <= 11
    ensures r[0] == NativeBnb(nativeBnb)
    ensures forall k :: 1 <= k < |r| ==> r[k].Token? && Listed(r[k].token) && r[k].token in tokens
    ensures |ListedTokens(tokens)| <= 10 ==> |r| == 1 + |ListedTokens(tokens)|
    ensures |ListedTokens(tokens)| > 10 ==> |r| == 11
    ensures forall k :: 1 <= k < |r| ==> r[k].token == ListedTokens(tokens)[k - 1]
  {
    var listed := ListedTokens(tokens);
    var n := if |listed| > 10 then 10 else |listed|;
    var r := [NativeBnb(nativeBnb)] + seq(n, k requires 0 <= k < n => Token(listed[k]));
    assert forall k :: 1 <= k < |r| ==> r[k] == Token(listed[k - 1]);
    assert forall k :: 0 <= k < n ==> listed[k] in listed;
    r
  }

  /** A token spelled "bnb", "Bnb" or any other casing of BNB is never listed. */
  lemma BnbInAnyCaseIsDropped(t: TokenBalance)
    requires EqualsIgnoringCase(t.symbol, "BNB")
    ensures !Listed(t)
  {
    var s := t.symbol;
    assert |s| == 3;
    forall i | 0 <= i < 3 ensures UpperChar(s[i]) == "BNB"[i] {
      assert LowerChar(s[i]) == LowerChar("BNB"[i]);
    }
    assert Upper(s) == "BNB";
  }
}
