/**
 * FIFO matching of sells against buys (`BrokerStatement::process_trades` and
 * `validate_open_positions` in src/broker_statement/mod.rs): every unprocessed
 * sell consumes the oldest unsold buys of its symbol, one lot per buy.
 */
module Fifo {
  import opened Wrappers
  import opened Currency
  import opened Trades

  /** A buy of `symbol` with shares left to sell. */
  predicate IsOpen(buy: StockBuy, symbol: string)
  {
    buy.symbol == symbol && !IsSold(buy)
  }

  /** Every buy's sold counter lies between zero and its quantity. */
  predicate LedgerValid(buys: seq<StockBuy>)
  {
    forall i :: 0 <= i < |buys| ==> SoldInRange(buys[i])
  }

  /** Every sell still to be processed has a non-negative quantity. */
  predicate SellsValid(sells: seq<StockSell>)
  {
    forall i :: 0 <= i < |sells| ==> IsProcessed(sells[i]) || sells[i].quantity >= 0.0
  }

  /** The symbols that have an open buy. */
  function OpenSymbols(buys: seq<StockBuy>): set<string>
  {
    set i | 0 <= i < |buys| && !IsSold(buys[i]) :: buys[i].symbol
  }

  /** The oldest open buy of `symbol` at index `k` or later. */
  function OldestOpenFrom(buys: seq<StockBuy>, symbol: string, k: nat): (r: Option<nat>)
    requires k <= |buys|
    ensures r.Some? ==> k <= r.value < |buys|
    decreases |buys| - k
  {
    if k == |buys| then None
    else if IsOpen(buys[k], symbol) then Some(k)
    else OldestOpenFrom(buys, symbol, k + 1)
  }

  /** The search finds an open buy with no open buy of the symbol between `k` and it, or finds none at all. */
  lemma {:induction false} OldestOpenFacts(buys: seq<StockBuy>, symbol: string, k: nat)
    requires k <= |buys|
    ensures var r := OldestOpenFrom(buys, symbol, k);
      (r.Some? ==> IsOpen(buys[r.value], symbol) && forall j :: k <= j < r.value ==> !IsOpen(buys[j], symbol))
      && (r.None? ==> forall j :: k <= j < |buys| ==> !IsOpen(buys[j], symbol))
    decreases |buys| - k
  {
    if k < |buys| && !IsOpen(buys[k], symbol) {
      OldestOpenFacts(buys, symbol, k + 1);
    }
  }

  function Min(a: real, b: real): real
  {
    if a <= b then a else b
  }

  /** `part` of an amount that belongs to `total` shares. */
  function ProRate(amount: Cash, total: real, part: real): Cash
    requires total != 0.0
  {
    MulBy(DivBy(amount, total), part)
  }

  /** Prorated parts add up: two lots of a buy carry the commission of their joint quantity. */
  lemma ProRateAdditive(amount: Cash, total: real, a: real, b: real)
    requires total != 0.0
    ensures ProRate(amount, total, a).amount + ProRate(amount, total, b).amount == ProRate(amount, total, a + b).amount
    ensures ProRate(amount, total, total) == amount
  {
    var unit := amount.amount / total;
    assert unit * a + unit * b == unit * (a + b);
    assert unit * total == amount.amount;
  }

  /**
   * The lot a buy contributes to a sell: the quantity taken at the buy's price,
   * with the buy's volume and commission prorated by the quantity.
   */
  function SourceOf(buy: StockBuy, quantity: real): (r: StockSellSource)
    requires buy.quantity != 0.0
    ensures SourceQuantity(r) == quantity && r.multiplier == 1.0
    ensures r.commission == ProRate(buy.commission, buy.quantity, quantity)
    ensures r.volume == ProRate(buy.volume, buy.quantity, quantity)
    ensures r.price == buy.price && r.conclusionDate == buy.conclusionDate && r.executionDate == buy.executionDate
  {
    StockSellSource(quantity, 1.0, buy.price,
                    ProRate(buy.volume, buy.quantity, quantity), ProRate(buy.commission, buy.quantity, quantity),
                    buy.conclusionDate, buy.executionDate)
  }

  /** Every lot takes a positive quantity. */
  predicate PositiveLots(sources: seq<StockSellSource>)
  {
    forall a :: 0 <= a < |sources| ==> sources[a].quantity > 0.0
  }

  /** `after` differs from `before` only in sold counters of `symbol`'s buys, which only grow. */
  predicate Advanced(before: seq<StockBuy>, after: seq<StockBuy>, symbol: string)
  {
    |after| == |before|
    && forall j {:trigger AdvancedAt(before[j], after[j], symbol)} ::
      0 <= j < |before| ==> AdvancedAt(before[j], after[j], symbol)
  }

  /** One buy after a matching of `symbol`: only a buy of that symbol may have sold more. */
  predicate AdvancedAt(before: StockBuy, after: StockBuy, symbol: string)
  {
    after.(sold := before.sold) == before && before.sold <= after.sold
    && (before.symbol != symbol ==> after == before)
  }

  lemma AdvancedReflexive(buys: seq<StockBuy>, symbol: string)
    ensures Advanced(buys, buys, symbol)
  {
    forall j | 0 <= j < |buys|
      ensures AdvancedAt(buys[j], buys[j], symbol)
    {
    }
  }

  /** Selling part of one buy of `symbol` advances the ledger. */
  lemma AdvancedBySell(buys: seq<StockBuy>, i: nat, q: real, symbol: string)
    requires i < |buys| && buys[i].symbol == symbol && 0.0 <= q <= GetUnsold(buys[i])
    ensures Advanced(buys, buys[i := Sell(buys[i], q)], symbol)
  {
    var after := buys[i := Sell(buys[i], q)];
    forall j | 0 <= j < |buys|
      ensures AdvancedAt(buys[j], after[j], symbol)
    {
      if j == i {
        assert after[j] == Sell(buys[i], q);
      }
    }
  }

  lemma AdvancedTransitive(a: seq<StockBuy>, b: seq<StockBuy>, c: seq<StockBuy>, symbol: string)
    requires Advanced(a, b, symbol) && Advanced(b, c, symbol)
    ensures Advanced(a, c, symbol)
  {
    forall j | 0 <= j < |a|
      ensures AdvancedAt(a[j], c[j], symbol)
    {
      assert AdvancedAt(a[j], b[j], symbol) && AdvancedAt(b[j], c[j], symbol);
    }
  }

  /** The unsold shares of `symbol`, over all buys. */
  function UnsoldOf(buys: seq<StockBuy>, symbol: string): real
    decreases |buys|
  {
    if |buys| == 0 then 0.0
    else
      var last := buys[|buys| - 1];
      UnsoldOf(buys[..|buys| - 1], symbol) + (if last.symbol == symbol then GetUnsold(last) else 0.0)
  }

  /** Selling `q` of one buy of `symbol` takes `q` off the symbol's unsold shares. */
  lemma {:induction false} UnsoldOfSell(buys: seq<StockBuy>, i: nat, q: real, symbol: string)
    requires i < |buys| && GetUnsold(buys[i]) >= q
    ensures UnsoldOf(buys[i := Sell(buys[i], q)], symbol)
      == UnsoldOf(buys, symbol) - (if buys[i].symbol == symbol then q else 0.0)
    decreases |buys|
  {
    var after := buys[i := Sell(buys[i], q)];
    var n := |buys| - 1;
    if i < n {
      assert after[..n] == buys[..n][i := Sell(buys[i], q)];
      UnsoldOfSell(buys[..n], i, q, symbol);
    } else {
      assert after[..n] == buys[..n];
    }
  }

  /**
   * The FIFO matching of one sell: while shares remain, the oldest open buy of the
   * symbol (searching from `k`) gives min(remaining, its unsold shares); a sell
   * that finds no open buy is an error.
   */
  function Match(buys: seq<StockBuy>, symbol: string, remaining: real, k: nat, acc: seq<StockSellSource>)
    : (r: Result<(seq<StockBuy>, seq<StockSellSource>)>)
    requires k <= |buys| && LedgerValid(buys)
    ensures r.Ok? ==> LedgerValid(r.value.0) && |r.value.0| == |buys|
    decreases |buys| - k
  {
    if remaining <= 0.0 then Ok((buys, acc))
    else match OldestOpenFrom(buys, symbol, k)
      case None => Err("There are no open positions for it")
      case Some(i) =>
        OldestOpenFacts(buys, symbol, k);
        assert SoldInRange(buys[i]);
        var q := Min(remaining, GetUnsold(buys[i]));
        Match(buys[i := Sell(buys[i], q)], symbol, remaining - q, i + 1, acc + [SourceOf(buys[i], q)])
  }

  /** One step of the matching, from the oldest open buy `i`. */
  lemma MatchUnfold(buys: seq<StockBuy>, symbol: string, remaining: real, k: nat, acc: seq<StockSellSource>, i: nat)
    requires k <= |buys| && LedgerValid(buys) && remaining > 0.0
    requires OldestOpenFrom(buys, symbol, k) == Some(i)
    ensures IsOpen(buys[i], symbol) && forall j :: k <= j < i ==> !IsOpen(buys[j], symbol)
    ensures buys[i].quantity != 0.0 && GetUnsold(buys[i]) > 0.0
    ensures var q := Min(remaining, GetUnsold(buys[i]));
      LedgerValid(buys[i := Sell(buys[i], q)])
      && Match(buys, symbol, remaining, k, acc)
         == Match(buys[i := Sell(buys[i], q)], symbol, remaining - q, i + 1, acc + [SourceOf(buys[i], q)])
  {
    OldestOpenFacts(buys, symbol, k);
    assert SoldInRange(buys[i]);
  }

  /** The matching stops once no shares remain, and fails when no open buy is left. */
  lemma MatchEnds(buys: seq<StockBuy>, symbol: string, remaining: real, k: nat, acc: seq<StockSellSource>)
    requires k <= |buys| && LedgerValid(buys)
    ensures remaining <= 0.0 ==> Match(buys, symbol, remaining, k, acc) == Ok((buys, acc))
    ensures remaining > 0.0 && OldestOpenFrom(buys, symbol, k).None? ==>
      Match(buys, symbol, remaining, k, acc) == Err("There are no open positions for it")
  {
  }

  /** A matching only grows the sold counters of the symbol's buys. */
  lemma {:induction false} MatchAdvances(buys: seq<StockBuy>, symbol: string, remaining: real, k: nat,
      acc: seq<StockSellSource>, after: seq<StockBuy>, sources: seq<StockSellSource>)
    requires k <= |buys| && LedgerValid(buys)
    requires Match(buys, symbol, remaining, k, acc) == Ok((after, sources))
    ensures Advanced(buys, after, symbol)
    decreases |buys| - k
  {
    MatchEnds(buys, symbol, remaining, k, acc);
    if remaining <= 0.0 {
      AdvancedReflexive(buys, symbol);
    } else {
      var i := OldestOpenFrom(buys, symbol, k).value;
      MatchUnfold(buys, symbol, remaining, k, acc, i);
      var q := Min(remaining, GetUnsold(buys[i]));
      var sold := buys[i := Sell(buys[i], q)];
      AdvancedBySell(buys, i, q, symbol);
      MatchAdvances(sold, symbol, remaining - q, i + 1, acc + [SourceOf(buys[i], q)], after, sources);
      AdvancedTransitive(buys, sold, after, symbol);
    }
  }

  /** The lots of a matching add up to the shares sought. */
  lemma {:induction false} MatchLotsAddUp(buys: seq<StockBuy>, symbol: string, remaining: real, k: nat,
      acc: seq<StockSellSource>)
    requires k <= |buys| && LedgerValid(buys)
    ensures var r := Match(buys, symbol, remaining, k, acc);
      r.Ok? ==> SourcesQuantity(r.value.1) == SourcesQuantity(acc) + (if remaining > 0.0 then remaining else 0.0)
    decreases |buys| - k
  {
    MatchEnds(buys, symbol, remaining, k, acc);
    var oldest := OldestOpenFrom(buys, symbol, k);
    if remaining > 0.0 && oldest.Some? {
      var i := oldest.value;
      MatchUnfold(buys, symbol, remaining, k, acc, i);
      var q := Min(remaining, GetUnsold(buys[i]));
      var source := SourceOf(buys[i], q);
      var sold := buys[i := Sell(buys[i], q)];
      assert (acc + [source])[..|acc|] == acc;
      MatchLotsAddUp(sold, symbol, remaining - q, i + 1, acc + [source]);
    }
  }

  /** A matching takes the shares sought off the symbol's unsold total. */
  lemma {:induction false} MatchTakesUnsold(buys: seq<StockBuy>, symbol: string, remaining: real, k: nat,
      acc: seq<StockSellSource>)
    requires k <= |buys| && LedgerValid(buys)
    ensures var r := Match(buys, symbol, remaining, k, acc);
      r.Ok? ==> UnsoldOf(r.value.0, symbol) == UnsoldOf(buys, symbol) - (if remaining > 0.0 then remaining else 0.0)
    decreases |buys| - k
  {
    MatchEnds(buys, symbol, remaining, k, acc);
    var oldest := OldestOpenFrom(buys, symbol, k);
    if remaining > 0.0 && oldest.Some? {
      var i := oldest.value;
      MatchUnfold(buys, symbol, remaining, k, acc, i);
      var q := Min(remaining, GetUnsold(buys[i]));
      var source := SourceOf(buys[i], q);
      var sold := buys[i := Sell(buys[i], q)];
      UnsoldOfSell(buys, i, q, symbol);
      MatchTakesUnsold(sold, symbol, remaining - q, i + 1, acc + [source]);
    }
  }

  /** Every lot of a matching takes a positive quantity. */
  lemma {:induction false} MatchLotsPositive(buys: seq<StockBuy>, symbol: string, remaining: real, k: nat,
      acc: seq<StockSellSource>)
    requires k <= |buys| && LedgerValid(buys)
    ensures var r := Match(buys, symbol, remaining, k, acc);
      r.Ok? && PositiveLots(acc) ==> PositiveLots(r.value.1)
    decreases |buys| - k
  {
    MatchEnds(buys, symbol, remaining, k, acc);
    var oldest := OldestOpenFrom(buys, symbol, k);
    if remaining > 0.0 && oldest.Some? {
      var i := oldest.value;
      MatchUnfold(buys, symbol, remaining, k, acc, i);
      var q := Min(remaining, GetUnsold(buys[i]));
      var source := SourceOf(buys[i], q);
      var sold := buys[i := Sell(buys[i], q)];
      MatchLotsPositive(sold, symbol, remaining - q, i + 1, acc + [source]);
    }
  }

  /** A buy that is not open stays so when only sold counters grow. */
  lemma NotOpenStays(before: seq<StockBuy>, after: seq<StockBuy>, symbol: string, i: nat)
    requires Advanced(before, after, symbol) && LedgerValid(after) && i < |before|
    requires !IsOpen(before[i], symbol)
    ensures !IsOpen(after[i], symbol)
  {
    assert AdvancedAt(before[i], after[i], symbol);
    assert SoldInRange(after[i]);
  }

  /** When a buy of the symbol gained sales, every older buy of the symbol is fully sold. */
  predicate FifoOrder(before: seq<StockBuy>, after: seq<StockBuy>, symbol: string)
    requires |after| == |before|
  {
    forall i, j :: 0 <= i < j < |before| && before[j].symbol == symbol && after[j].sold > before[j].sold
      ==> !IsOpen(after[i], symbol)
  }

  /** The order survives one more sale from the oldest open buy `index`. */
  lemma FifoStep(buys: seq<StockBuy>, sold: seq<StockBuy>, after: seq<StockBuy>, symbol: string, index: nat)
    requires |sold| == |buys| == |after| && index < |buys|
    requires forall j :: 0 <= j < |buys| && j != index ==> sold[j] == buys[j]
    requires forall i :: 0 <= i < index ==> !IsOpen(sold[i], symbol)
    requires Advanced(sold, after, symbol) && LedgerValid(after)
    requires after == sold || FifoOrder(sold, after, symbol)
    ensures FifoOrder(buys, after, symbol)
  {
    forall i, j | 0 <= i < j < |buys| && buys[j].symbol == symbol && after[j].sold > buys[j].sold
      ensures !IsOpen(after[i], symbol)
    {
      if j == index {
        NotOpenStays(sold, after, symbol, i);
      } else {
        assert sold[j] == buys[j];
      }
    }
  }

  /** Selling from the oldest open buy keeps every older buy closed, and closes it when it is sold out. */
  lemma SaleKeepsPrefix(buys: seq<StockBuy>, symbol: string, k: nat, index: nat, q: real)
    requires k <= index < |buys| && q <= GetUnsold(buys[index])
    requires forall j :: 0 <= j < k ==> !IsOpen(buys[j], symbol)
    requires forall j :: k <= j < index ==> !IsOpen(buys[j], symbol)
    ensures var sold := buys[index := Sell(buys[index], q)];
      (forall j :: 0 <= j < index ==> !IsOpen(sold[j], symbol))
      && (q == GetUnsold(buys[index]) ==> forall j :: 0 <= j < index + 1 ==> !IsOpen(sold[j], symbol))
  {
  }

  /** Buys are consumed oldest first. */
  lemma {:induction false} MatchIsFifo(buys: seq<StockBuy>, symbol: string, remaining: real, k: nat,
                                       acc: seq<StockSellSource>, after: seq<StockBuy>, sources: seq<StockSellSource>)
    requires k <= |buys| && LedgerValid(buys)
    requires forall j :: 0 <= j < k ==> !IsOpen(buys[j], symbol)
    requires Match(buys, symbol, remaining, k, acc) == Ok((after, sources))
    ensures |after| == |buys| && FifoOrder(buys, after, symbol)
    decreases |buys| - k
  {
    MatchEnds(buys, symbol, remaining, k, acc);
    if remaining > 0.0 {
      var index := OldestOpenFrom(buys, symbol, k).value;
      MatchUnfold(buys, symbol, remaining, k, acc, index);
      var q := Min(remaining, GetUnsold(buys[index]));
      var source := SourceOf(buys[index], q);
      var sold := buys[index := Sell(buys[index], q)];
      MatchAdvances(sold, symbol, remaining - q, index + 1, acc + [source], after, sources);
      SaleKeepsPrefix(buys, symbol, k, index, q);
      if remaining - q > 0.0 {
        MatchIsFifo(sold, symbol, remaining - q, index + 1, acc + [source], after, sources);
      } else {
        MatchEnds(sold, symbol, remaining - q, index + 1, acc + [source]);
      }
      FifoStep(buys, sold, after, symbol, index);
    } else {
      assert FifoOrder(buys, buys, symbol);
    }
  }

  /**
   * The matching of every sell from the `k`-th on, in order. A sell whose symbol
   * had no open buy when matching began (`known` lacks it) is an error even
   * before any shares are sought.
   */
  function ProcessFrom(buys: seq<StockBuy>, sells: seq<StockSell>, k: nat, known: set<string>)
    : (r: Result<(seq<StockBuy>, seq<StockSell>)>)
    requires k <= |sells| && LedgerValid(buys) && SellsValid(sells)
    ensures r.Ok? ==> LedgerValid(r.value.0) && |r.value.0| == |buys| && |r.value.1| == |sells|
    ensures r.Ok? ==> forall j :: 0 <= j < |sells| ==> r.value.1[j].(sources := sells[j].sources) == sells[j]
    decreases |sells| - k
  {
    if k == |sells| then Ok((buys, sells))
    else if IsProcessed(sells[k]) then ProcessFrom(buys, sells, k + 1, known)
    else if sells[k].symbol !in known then Err("There are no open positions for it")
    else match Match(buys, sells[k].symbol, sells[k].quantity, 0, [])
      case Err(e) => Err(e)
      case Ok((after, sources)) =>
        MatchLotsAddUp(buys, sells[k].symbol, sells[k].quantity, 0, []);
        var processed := sells[k := Process(sells[k], sources)];
        assert SellsValid(processed);
        ProcessFrom(after, processed, k + 1, known)
  }

  // The per-symbol stacks of `process_trades`: open buy indices, newest first.

  predicate Decreasing(stack: seq<nat>)
  {
    forall a, b :: 0 <= a < b < |stack| ==> stack[a] > stack[b]
  }

  /** `stack` lists, newest first, exactly the open buys of `symbol` at index `lo` or later. */
  ghost predicate IsStackFrom(stack: seq<nat>, buys: seq<StockBuy>, symbol: string, lo: nat)
  {
    Decreasing(stack)
    && (forall a :: 0 <= a < |stack| ==> lo <= stack[a] < |buys|)
    && (forall j :: lo <= j < |buys| ==> (IsOpen(buys[j], symbol) <==> j in stack))
  }

  ghost predicate StacksOf(stacks: map<string, seq<nat>>, buys: seq<StockBuy>)
  {
    (forall s :: s in stacks ==> IsStackFrom(stacks[s], buys, s, 0))
    && (forall j :: 0 <= j < |buys| && !IsSold(buys[j]) ==> buys[j].symbol in stacks)
  }

  /** The stacks after scanning the buys from the newest down to index `lo`. */
  ghost predicate StacksFrom(stacks: map<string, seq<nat>>, buys: seq<StockBuy>, lo: nat)
  {
    (forall s :: s in stacks ==> IsStackFrom(stacks[s], buys, s, lo) && |stacks[s]| > 0)
    && (forall s :: s !in stacks ==> forall j :: lo <= j < |buys| ==> !IsOpen(buys[j], s))
  }

  lemma BuildStep(stacks: map<string, seq<nat>>, buys: seq<StockBuy>, index: nat)
    requires index < |buys| && StacksFrom(stacks, buys, index + 1)
    ensures var buy := buys[index];
      StacksFrom(if IsSold(buy) then stacks
                 else stacks[buy.symbol := (if buy.symbol in stacks then stacks[buy.symbol] else []) + [index]],
                 buys, index)
  {
    var buy := buys[index];
    if !IsSold(buy) {
      var stack := if buy.symbol in stacks then stacks[buy.symbol] else [];
      var pushed := stack + [index];
      assert IsStackFrom(pushed, buys, buy.symbol, index) by {
        forall j | index <= j < |buys|
          ensures IsOpen(buys[j], buy.symbol) <==> j in pushed
        {
          if j > index && j in pushed {
            var a :| 0 <= a < |pushed| && pushed[a] == j;
            assert a < |stack|;
          }
        }
      }
    }
  }

  lemma StacksFromStart(stacks: map<string, seq<nat>>, buys: seq<StockBuy>)
    requires StacksFrom(stacks, buys, 0)
    ensures StacksOf(stacks, buys) && stacks.Keys == OpenSymbols(buys)
  {
    forall s | s in stacks
      ensures s in OpenSymbols(buys)
    {
      var top := stacks[s][0];
      assert top in stacks[s];
    }
    forall s | s in OpenSymbols(buys)
      ensures s in stacks
    {
      var i :| 0 <= i < |buys| && !IsSold(buys[i]) && buys[i].symbol == s;
      assert IsOpen(buys[i], s);
    }
    forall j | 0 <= j < |buys| && !IsSold(buys[j])
      ensures buys[j].symbol in stacks
    {
      assert IsOpen(buys[j], buys[j].symbol);
    }
  }

  /** The first loop of `process_trades`: the stacks of every symbol with an open buy. */
  method BuildStacks(buys: seq<StockBuy>) returns (stacks: map<string, seq<nat>>)
    ensures StacksOf(stacks, buys) && stacks.Keys == OpenSymbols(buys)
  {
    stacks := map[];
    var index := |buys|;
    while index > 0
      invariant 0 <= index <= |buys|
      invariant StacksFrom(stacks, buys, index)
    {
      index := index - 1;
      BuildStep(stacks, buys, index);
      var buy := buys[index];
      if !IsSold(buy) {
        var stack := if buy.symbol in stacks then stacks[buy.symbol] else [];
        stacks := stacks[buy.symbol := stack + [index]];
      }
    }
    StacksFromStart(stacks, buys);
  }

  /** The newest-first stack's last entry is the oldest open buy. */
  lemma StackTop(stack: seq<nat>, buys: seq<StockBuy>, symbol: string, k: nat)
    requires IsStackFrom(stack, buys, symbol, 0) && |stack| > 0 && k <= |buys|
    requires forall j :: 0 <= j < k ==> !IsOpen(buys[j], symbol)
    ensures OldestOpenFrom(buys, symbol, k) == Some(stack[|stack| - 1])
  {
    var top := stack[|stack| - 1];
    assert top in stack;
    var r := OldestOpenFrom(buys, symbol, k);
    OldestOpenFacts(buys, symbol, k);
    assert r.Some?;
    assert r.value in stack;
  }

  /** Selling from the oldest open buy keeps the stack exact, once a fully sold buy is popped. */
  lemma StackStep(stack: seq<nat>, buys: seq<StockBuy>, symbol: string, q: real)
    requires IsStackFrom(stack, buys, symbol, 0) && |stack| > 0
    requires GetUnsold(buys[stack[|stack| - 1]]) >= q
    ensures var index := stack[|stack| - 1];
      var after := buys[index := Sell(buys[index], q)];
      IsStackFrom(if IsSold(after[index]) then stack[..|stack| - 1] else stack, after, symbol, 0)
  {
    var index := stack[|stack| - 1];
    assert index in stack;
    var after := buys[index := Sell(buys[index], q)];
    if IsSold(after[index]) {
      var popped := stack[..|stack| - 1];
      forall j | 0 <= j < |after|
        ensures IsOpen(after[j], symbol) <==> j in popped
      {
        if j in popped {
          var a :| 0 <= a < |popped| && popped[a] == j;
          assert stack[a] == j;
        } else if j != index {
          assert j !in stack;
        }
      }
    }
  }

  /** A buy that is open after a matching of `symbol` was open before it; other symbols' stacks are untouched. */
  lemma AdvancedKeepsStacks(stacks: map<string, seq<nat>>, before: seq<StockBuy>, after: seq<StockBuy>,
                            symbol: string, stack: seq<nat>)
    requires StacksOf(stacks, before) && LedgerValid(before) && Advanced(before, after, symbol)
    requires symbol in stacks && IsStackFrom(stack, after, symbol, 0)
    ensures StacksOf(stacks[symbol := stack], after)
  {
    forall s | s in stacks && s != symbol
      ensures IsStackFrom(stacks[s], after, s, 0)
    {
      forall j | 0 <= j < |after|
        ensures IsOpen(after[j], s) <==> IsOpen(before[j], s)
      {
        assert AdvancedAt(before[j], after[j], symbol);
      }
    }
    forall j | 0 <= j < |after| && !IsSold(after[j])
      ensures after[j].symbol in stacks
    {
      assert AdvancedAt(before[j], after[j], symbol);
      assert SoldInRange(before[j]);
    }
  }

  /** The state of the inner loop: a valid ledger with an exact stack, and the rest of the matching still to come. */
  ghost predicate MatchLoop(buys: seq<StockBuy>, symbol: string, quantity: real, current: seq<StockBuy>,
                            rest: seq<nat>, remaining: real, k: nat, sources: seq<StockSellSource>)
  {
    LedgerValid(buys) && LedgerValid(current) && k <= |current| && IsStackFrom(rest, current, symbol, 0)
    && (remaining > 0.0 ==> forall j :: 0 <= j < k ==> !IsOpen(current[j], symbol))
    && Match(current, symbol, remaining, k, sources) == Match(buys, symbol, quantity, 0, [])
  }

  /** One turn of the inner loop: the oldest open buy gives a lot, and the matching goes on from the next index. */
  lemma MatchStep(buys: seq<StockBuy>, symbol: string, quantity: real, current: seq<StockBuy>,
                  rest: seq<nat>, remaining: real, k: nat, sources: seq<StockSellSource>)
    requires MatchLoop(buys, symbol, quantity, current, rest, remaining, k, sources)
    requires |rest| > 0 && remaining > 0.0
    ensures rest[|rest| - 1] < |current| && current[rest[|rest| - 1]].quantity != 0.0
    ensures var index := rest[|rest| - 1];
      var buy := current[index];
      var q := Min(remaining, GetUnsold(buy));
      var next := current[index := Sell(buy, q)];
      var nextRest := if IsSold(next[index]) then rest[..|rest| - 1] else rest;
      MatchLoop(buys, symbol, quantity, next, nextRest, remaining - q, index + 1, sources + [SourceOf(buy, q)])
      && (remaining - q > 0.0 ==> |nextRest| < |rest|)
  {
    var index := rest[|rest| - 1];
    assert index in rest;
    StackTop(rest, current, symbol, k);
    MatchUnfold(current, symbol, remaining, k, sources, index);
    var q := Min(remaining, GetUnsold(current[index]));
    StackStep(rest, current, symbol, q);
  }

  /** An empty stack while shares remain: the matching fails. */
  lemma MatchEmpty(buys: seq<StockBuy>, symbol: string, quantity: real, current: seq<StockBuy>,
                   remaining: real, k: nat, sources: seq<StockSellSource>)
    requires MatchLoop(buys, symbol, quantity, current, [], remaining, k, sources) && remaining > 0.0
    ensures Match(buys, symbol, quantity, 0, []) == Err("There are no open positions for it")
  {
    OldestOpenFacts(current, symbol, k);
    assert OldestOpenFrom(current, symbol, k).None?;
    MatchEnds(current, symbol, remaining, k, sources);
  }

  /** The inner loop of `process_trades` for one sell: pops fully sold buys off its symbol's stack. */
  method MatchSell(buys: seq<StockBuy>, stack: seq<nat>, symbol: string, quantity: real)
    returns (r: Result<(seq<StockBuy>, seq<StockSellSource>)>, rest: seq<nat>)
    requires LedgerValid(buys) && IsStackFrom(stack, buys, symbol, 0)
    ensures r == Match(buys, symbol, quantity, 0, [])
    ensures r.Ok? ==> IsStackFrom(rest, r.value.0, symbol, 0)
  {
    var remaining := quantity;
    var sources: seq<StockSellSource> := [];
    var current := buys;
    rest := stack;
    ghost var k: nat := 0;
    while remaining > 0.0
      invariant MatchLoop(buys, symbol, quantity, current, rest, remaining, k, sources)
      decreases |rest|, if remaining > 0.0 then 1 else 0
    {
      if |rest| == 0 {
        MatchEmpty(buys, symbol, quantity, current, remaining, k, sources);
        r := Err("There are no open positions for it");
        return;
      }
      MatchStep(buys, symbol, quantity, current, rest, remaining, k, sources);
      var index := rest[|rest| - 1];
      var buy := current[index];
      var sellQuantity := Min(remaining, GetUnsold(buy));
      sources := sources + [SourceOf(buy, sellQuantity)];
      remaining := remaining - sellQuantity;
      current := current[index := Sell(buy, sellQuantity)];
      rest := if IsSold(current[index]) then rest[..|rest| - 1] else rest;
      k := index + 1;
    }
    MatchEnds(current, symbol, remaining, k, sources);
    r := Ok((current, sources));
  }

  /** The state of the outer loop: valid ledgers, exact stacks, and the rest of the processing still to come. */
  ghost predicate ProcessLoop(buys: seq<StockBuy>, sells: seq<StockSell>, known: set<string>,
                              current: seq<StockBuy>, processed: seq<StockSell>,
                              stacks: map<string, seq<nat>>, i: nat)
  {
    LedgerValid(buys) && SellsValid(sells)
    && i <= |processed| && LedgerValid(current) && SellsValid(processed)
    && StacksOf(stacks, current) && stacks.Keys == known
    && ProcessFrom(current, processed, i, known) == ProcessFrom(buys, sells, 0, known)
  }

  /** A processed sell is skipped. */
  lemma ProcessSkip(buys: seq<StockBuy>, sells: seq<StockSell>, known: set<string>,
                    current: seq<StockBuy>, processed: seq<StockSell>, stacks: map<string, seq<nat>>, i: nat)
    requires ProcessLoop(buys, sells, known, current, processed, stacks, i)
    requires i < |processed| && IsProcessed(processed[i])
    ensures ProcessLoop(buys, sells, known, current, processed, stacks, i + 1)
  {
  }

  /** A sell whose symbol has no stack, or whose matching fails, fails the whole processing. */
  lemma ProcessFails(buys: seq<StockBuy>, sells: seq<StockSell>, known: set<string>,
                     current: seq<StockBuy>, processed: seq<StockSell>, stacks: map<string, seq<nat>>, i: nat)
    requires ProcessLoop(buys, sells, known, current, processed, stacks, i)
    requires i < |processed| && !IsProcessed(processed[i])
    ensures processed[i].symbol !in stacks ==>
      ProcessFrom(buys, sells, 0, known) == Err("There are no open positions for it")
    ensures processed[i].symbol in stacks ==>
      var matched := Match(current, processed[i].symbol, processed[i].quantity, 0, []);
      matched.Err? ==> ProcessFrom(buys, sells, 0, known) == Err(matched.error)
  {
  }

  /** A matched sell gets its lots, and its symbol's stack is replaced by the one left after matching. */
  lemma ProcessStep(buys: seq<StockBuy>, sells: seq<StockSell>, known: set<string>,
                    current: seq<StockBuy>, processed: seq<StockSell>, stacks: map<string, seq<nat>>, i: nat,
                    rest: seq<nat>)
    requires ProcessLoop(buys, sells, known, current, processed, stacks, i)
    requires i < |processed| && !IsProcessed(processed[i]) && processed[i].symbol in stacks
    requires Match(current, processed[i].symbol, processed[i].quantity, 0, []).Ok?
    requires IsStackFrom(rest, Match(current, processed[i].symbol, processed[i].quantity, 0, []).value.0,
                         processed[i].symbol, 0)
    ensures var sell := processed[i];
      var matched := Match(current, sell.symbol, sell.quantity, 0, []).value;
      SourcesQuantity(matched.1) == sell.quantity
      && ProcessLoop(buys, sells, known, matched.0, processed[i := Process(sell, matched.1)],
                     stacks[sell.symbol := rest], i + 1)
  {
    var sell := processed[i];
    var matched := Match(current, sell.symbol, sell.quantity, 0, []).value;
    MatchLotsAddUp(current, sell.symbol, sell.quantity, 0, []);
    MatchAdvances(current, sell.symbol, sell.quantity, 0, [], matched.0, matched.1);
    AdvancedKeepsStacks(stacks, current, matched.0, sell.symbol, rest);
    assert SellsValid(processed[i := Process(sell, matched.1)]);
  }

  /**
   * The second loop of `process_trades`: every unprocessed sell, in order, is
   * matched against its symbol's stack and given its lots.
   */
  method ProcessSells(buys: seq<StockBuy>, sells: seq<StockSell>)
    returns (r: Result<(seq<StockBuy>, seq<StockSell>)>)
    requires LedgerValid(buys) && SellsValid(sells)
    ensures r == ProcessFrom(buys, sells, 0, OpenSymbols(buys))
  {
    var stacks := BuildStacks(buys);
    ghost var known := stacks.Keys;
    var current := buys;
    var processed := sells;
    var i := 0;
    while i < |processed|
      invariant ProcessLoop(buys, sells, known, current, processed, stacks, i)
      decreases |processed| - i
    {
      var sell := processed[i];
      if IsProcessed(sell) {
        ProcessSkip(buys, sells, known, current, processed, stacks, i);
      } else {
        ProcessFails(buys, sells, known, current, processed, stacks, i);
        if sell.symbol !in stacks {
          r := Err("There are no open positions for it");
          return;
        }
        var matched, rest := MatchSell(current, stacks[sell.symbol], sell.symbol, sell.quantity);
        if matched.Err? {
          r := Err(matched.error);
          return;
        }
        ProcessStep(buys, sells, known, current, processed, stacks, i, rest);
        stacks := stacks[sell.symbol := rest];
        current := matched.value.0;
        processed := processed[i := Process(sell, matched.value.1)];
      }
      i := i + 1;
    }
    r := Ok((current, processed));
  }

  // `validate_open_positions`.

  /** The unsold shares of every symbol with an open buy. */
  function UnsoldPositions(buys: seq<StockBuy>): map<string, real>
    decreases |buys|
  {
    if |buys| == 0 then map[]
    else
      var positions := UnsoldPositions(buys[..|buys| - 1]);
      var buy := buys[|buys| - 1];
      if IsSold(buy) then positions
      else positions[buy.symbol := (if buy.symbol in positions then positions[buy.symbol] else 0.0) + GetUnsold(buy)]
  }

  /** The positions are exactly the symbols with an open buy, each holding the symbol's unsold shares. */
  lemma {:induction false} UnsoldPositionsAreTotals(buys: seq<StockBuy>)
    requires LedgerValid(buys)
    ensures UnsoldPositions(buys).Keys == OpenSymbols(buys)
    ensures forall s :: s in UnsoldPositions(buys) ==> UnsoldPositions(buys)[s] == UnsoldOf(buys, s)
    ensures forall s :: s !in UnsoldPositions(buys) ==> UnsoldOf(buys, s) == 0.0
    decreases |buys|
  {
    if |buys| > 0 {
      var n := |buys| - 1;
      assert LedgerValid(buys[..n]);
      UnsoldPositionsAreTotals(buys[..n]);
      assert OpenSymbols(buys) == OpenSymbols(buys[..n]) + (if IsSold(buys[n]) then {} else {buys[n].symbol}) by {
        forall s | s in OpenSymbols(buys)
          ensures s in OpenSymbols(buys[..n]) + (if IsSold(buys[n]) then {} else {buys[n].symbol})
        {
          var i :| 0 <= i < |buys| && !IsSold(buys[i]) && buys[i].symbol == s;
          if i < n {
            assert buys[..n][i] == buys[i];
          }
        }
        forall s | s in OpenSymbols(buys[..n])
          ensures s in OpenSymbols(buys)
        {
          var i :| 0 <= i < n && !IsSold(buys[..n][i]) && buys[..n][i].symbol == s;
          assert buys[i] == buys[..n][i];
        }
      }
    }
  }

  /** `validate_open_positions`: sums the unsold shares per symbol and compares them with the declared positions. */
  method ValidateOpenPositions(buys: seq<StockBuy>, declared: map<string, real>) returns (r: Result<()>)
    ensures r.Ok? <==> UnsoldPositions(buys) == declared
  {
    var positions: map<string, real> := map[];
    var i := 0;
    while i < |buys|
      invariant 0 <= i <= |buys|
      invariant positions == UnsoldPositions(buys[..i])
    {
      var buy := buys[i];
      assert buys[..i + 1][..i] == buys[..i];
      if !IsSold(buy) {
        var quantity := GetUnsold(buy);
        if buy.symbol in positions {
          positions := positions[buy.symbol := positions[buy.symbol] + quantity];
        } else {
          positions := positions[buy.symbol := quantity];
        }
      }
      i := i + 1;
    }
    assert buys[..i] == buys;
    if positions != declared {
      return Err("The calculated open positions don't match declared ones in the statement");
    }
    r := Ok(());
  }
}
