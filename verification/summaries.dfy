/**
  The totals both pages compute with `reduce`: the grand total, the part paid in cash
  ("dinheiro"), the part paid any other way ("online") and the number of services.
*/
module Summaries {
  import opened Domain
  import opened Seqs

  datatype Totals = Totals(total: real, dinheiro: real, online: real, count: nat)

  const NoTotals: Totals := Totals(0.0, 0.0, 0.0, 0)

  /** The sum of the prices, in list order. */
  function PriceSum(s: seq<Service>): real
  {
    if s == [] then 0.0 else s[0].price + PriceSum(s[1..])
  }

  predicate IsCash(s: Service)
  {
    s.paymentMethod == Dinheiro
  }

  function CashOf(): Service -> bool
  {
    (s: Service) => IsCash(s)
  }

  function OnlineOf(): Service -> bool
  {
    (s: Service) => !IsCash(s)
  }

  /** One step of the reducer: the price goes to the total and to exactly one of the two
      payment buckets, and the count goes up by one. */
  function Tally(acc: Totals, s: Service): (r: Totals)
    ensures r.total == acc.total + s.price && r.count == acc.count + 1
    ensures IsCash(s) ==> r.dinheiro == acc.dinheiro + s.price && r.online == acc.online
    ensures !IsCash(s) ==> r.online == acc.online + s.price && r.dinheiro == acc.dinheiro
  {
    if s.paymentMethod == Dinheiro then
      Totals(acc.total + s.price, acc.dinheiro + s.price, acc.online, acc.count + 1)
    else
      Totals(acc.total + s.price, acc.dinheiro, acc.online + s.price, acc.count + 1)
  }

  /** `s.reduce(Tally, acc)`. */
  function FoldTotals(acc: Totals, s: seq<Service>): Totals
    decreases |s|
  {
    if s == [] then acc else FoldTotals(Tally(acc, s[0]), s[1..])
  }

  /** The summary of `s`, starting from zero. */
  function TotalsOf(s: seq<Service>): Totals
  {
    FoldTotals(NoTotals, s)
  }

  /** The reduce as the loop it performs, one service at a time on a mutable accumulator. */
  method Summarize(s: seq<Service>) returns (acc: Totals)
    ensures acc == TotalsOf(s)
  {
    acc := NoTotals;
    for i := 0 to |s|
      invariant FoldTotals(acc, s[i..]) == TotalsOf(s)
    {
      assert s[i..][1..] == s[i + 1..];
      acc := Tally(acc, s[i]);
    }
    assert s[|s|..] == [];
  }

  /** Folding adds the list's price sum to the total, its cash services' prices to
      `dinheiro`, every other service's price to `online`, and its length to the count. */
  lemma {:induction false} FoldTotalsSplit(acc: Totals, s: seq<Service>)
    ensures FoldTotals(acc, s) == Totals(
      acc.total + PriceSum(s),
      acc.dinheiro + PriceSum(Filter(s, CashOf())),
      acc.online + PriceSum(Filter(s, OnlineOf())),
      acc.count + |s|)
    decreases |s|
  {
    if s != [] {
      FoldTotalsSplit(Tally(acc, s[0]), s[1..]);
      FilterSplits(s);
    }
  }

  /** Every service's price is in exactly one of the two buckets. */
  lemma {:induction false} PriceSumSplits(s: seq<Service>)
    ensures PriceSum(s) == PriceSum(Filter(s, CashOf())) + PriceSum(Filter(s, OnlineOf()))
  {
    if s != [] {
      PriceSumSplits(s[1..]);
      FilterSplits(s);
    }
  }

  /** Filtering a non-empty list by payment method takes its head into exactly one of the two
      parts. */
  lemma FilterSplits(s: seq<Service>)
    requires s != []
    ensures PriceSum(Filter(s, CashOf())) == (if IsCash(s[0]) then s[0].price else 0.0) + PriceSum(Filter(s[1..], CashOf()))
    ensures PriceSum(Filter(s, OnlineOf())) == (if IsCash(s[0]) then 0.0 else s[0].price) + PriceSum(Filter(s[1..], OnlineOf()))
  {
    var head := if IsCash(s[0]) then [s[0]] else [];
    var rest := if IsCash(s[0]) then [] else [s[0]];
    PriceSumAppend(head, Filter(s[1..], CashOf()));
    PriceSumAppend(rest, Filter(s[1..], OnlineOf()));
  }

  /** The summary's total is the cash part plus the online part, and its count is the number
      of services summarised. */
  lemma SummaryBalanced(s: seq<Service>)
    ensures TotalsOf(s).total == TotalsOf(s).dinheiro + TotalsOf(s).online
    ensures TotalsOf(s).count == |s|
    ensures TotalsOf(s).dinheiro == PriceSum(Filter(s, CashOf()))
    ensures TotalsOf(s).online == PriceSum(Filter(s, OnlineOf()))
  {
    FoldTotalsSplit(NoTotals, s);
    PriceSumSplits(s);
  }

  /** Price sums add up over concatenation. */
  lemma {:induction false} PriceSumAppend(a: seq<Service>, b: seq<Service>)
    ensures PriceSum(a + b) == PriceSum(a) + PriceSum(b)
  {
    if a == [] {
      assert a + b == b;
    } else {
      assert (a + b)[1..] == a[1..] + b;
      PriceSumAppend(a[1..], b);
    }
  }
}
