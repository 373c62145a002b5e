/** The payment guard shared by registration and transfer. */
module CoinHelpers {
  import opened Types

  /** The closure given to `any`: one coin pays `required` on its own. A coin
      of exactly the price pays it; a coin of another denomination never does,
      whatever its amount. */
  predicate Covers(coin: Coin, required: Coin): (b: bool)
    ensures coin == required ==> b
    ensures coin.denom != required.denom ==> !b
  {
    coin.denom == required.denom && coin.amount >= required.amount
  }

  /** A price that does not have to be paid. */
  predicate IsFree(required: Option<Coin>) {
    required.None? || required.value.amount == 0
  }

  /** `sent.iter().any(...)`: whether some single coin covers `required`. */
  function AnyCovers(sent: seq<Coin>, required: Coin): (b: bool)
    ensures b <==> exists i :: 0 <= i < |sent| && Covers(sent[i], required)
  {
    if sent == [] then false
    else if Covers(sent[0], required) then true
    else
      var rest := AnyCovers(sent[1..], required);
      assert forall i :: 1 <= i < |sent| ==> sent[i] == sent[1..][i - 1];
      rest
  }

  /** `assert_sent_sufficient_coin`: a free price accepts any funds; otherwise
      one coin of the price's denomination must reach the price by itself. */
  function AssertSentSufficientCoin(sent: seq<Coin>, required: Option<Coin>): (r: Result<()>)
    ensures r.Ok? || r == Err(InsufficientFunds)
    ensures r.Ok? <==>
      IsFree(required) || exists i :: 0 <= i < |sent| && Covers(sent[i], required.value)
  {
    if required.Some? && required.value.amount > 0 then
      if AnyCovers(sent, required.value) then Ok(()) else Err(InsufficientFunds)
    else Ok(())
  }

  /** Attaching no funds fails against every price that is not free. */
  lemma EmptyFundsInsufficient(required: Coin)
    requires required.amount > 0
    ensures AssertSentSufficientCoin([], Some(required)) == Err(InsufficientFunds)
  {
  }

  /** Amounts are not summed: when every coin of the right denomination is
      below the price, the funds fail however many such coins there are. */
  lemma NoSumming(sent: seq<Coin>, required: Coin)
    requires required.amount > 0
    requires forall i :: 0 <= i < |sent| && sent[i].denom == required.denom ==>
      sent[i].amount < required.amount
    ensures AssertSentSufficientCoin(sent, Some(required)) == Err(InsufficientFunds)
  {
  }

  /** Two coins of 60 do not pay a price of 100, although together they would. */
  lemma TwoSmallCoinsFail()
    ensures AssertSentSufficientCoin([Coin("earth", 60), Coin("earth", 60)], Some(Coin("earth", 100)))
      == Err(InsufficientFunds)
  {
  }

  /** More funds never hurt: funds that pass still pass with coins added. */
  lemma {:induction false} SufficientMonotone(sent: seq<Coin>, more: seq<Coin>, required: Option<Coin>)
    requires multiset(sent) <= multiset(more)
    ensures AssertSentSufficientCoin(sent, required).Ok? ==> AssertSentSufficientCoin(more, required).Ok?
  {
    if !IsFree(required) && AssertSentSufficientCoin(sent, required).Ok? {
      var i :| 0 <= i < |sent| && Covers(sent[i], required.value);
      assert sent[i] in multiset(sent);
      assert sent[i] in more;
      var j :| 0 <= j < |more| && more[j] == sent[i];
      assert Covers(more[j], required.value);
    }
  }

  /** Appending coins, before or after, keeps passing funds passing. */
  lemma SufficientAppend(sent: seq<Coin>, extra: seq<Coin>, required: Option<Coin>)
    ensures AssertSentSufficientCoin(sent, required).Ok? ==>
      AssertSentSufficientCoin(sent + extra, required).Ok? &&
      AssertSentSufficientCoin(extra + sent, required).Ok?
  {
    SufficientMonotone(sent, sent + extra, required);
    SufficientMonotone(sent, extra + sent, required);
  }

  /** The order in which coins are attached does not matter. */
  lemma SufficientOrderIrrelevant(sent: seq<Coin>, reordered: seq<Coin>, required: Option<Coin>)
    requires multiset(sent) == multiset(reordered)
    ensures AssertSentSufficientCoin(sent, required) == AssertSentSufficientCoin(reordered, required)
  {
    SufficientMonotone(sent, reordered, required);
    SufficientMonotone(reordered, sent, required);
  }
}
