/** The egg and BBC pool: its two values, their history rows, and the quoted rate. Exact rationals throughout. */
module Pool {
  import opened Sums

  datatype Entry = Entry(inn: real, out: real, last: real)

  /** One value of the pool with its history table. */
  datatype Column = Column(value: real, history: seq<Entry>)

  datatype Pool = Pool(egg: Column, bbc: Column, rates: seq<real>)

  /** To the nearest integer, halves away from zero. */
  function Round(x: real): int
  {
    if x >= 0.0 then (x + 0.5).Floor else -(0.5 - x).Floor
  }

  /** `toFixed(2)`. */
  function ToFixed2(x: real): real
  {
    Round(x * 100.0) as real / 100.0
  }

  /** `toFixed(5)`. */
  function ToFixed5(x: real): real
  {
    Round(x * 100000.0) as real / 100000.0
  }

  datatype Op =
    | Claim(eggs: real)
    | Buy(amount: real, percent: real, bbcCurrency: bool, sees: bool)  // `sees`: the rate lookup sees the new value
    | Sell(eggsIn: real, bbcOut: real, bbcCurrency: bool)
    | Deposit(bbc: real, egg: real)
    | Withdraw(bbc: real, egg: real)

  /** A change of the value with its history row, which shows `last`. */
  function Put(c: Column, amount: real, last: real): Column
  {
    Column(c.value + amount, c.history + [Entry(amount, 0.0, last)])
  }

  function Take(c: Column, amount: real, last: real): Column
  {
    Column(c.value - amount, c.history + [Entry(0.0, amount, last)])
  }

  /** A deposit or a withdrawal: the value always changes, a positive amount leaves a history row. */
  function Edit(c: Column, amount: real, deposit: bool): Column
  {
    var value := if deposit then c.value + amount else c.value - amount;
    if amount <= 0.0 then Column(value, c.history)
    else if deposit then Put(c, amount, ToFixed2(value))
    else Take(c, amount, ToFixed2(value))
  }

  /** The pool's share of a purchase, by the configured percentage. */
  function Revenue(amount: real, percent: real): (r: real)
    ensures amount > 0.0 && percent >= 0.0 ==> r >= 0.0
  {
    amount * (percent / 100.0)
  }

  /** The values and history rows after an operation. */
  function Change(p: Pool, op: Op): Pool
  {
    match op
    case Claim(e) => p.(egg := Take(p.egg, e, p.egg.value - e))
    case Buy(amount, percent, bbcCurrency, _) =>
      var r := Revenue(amount, percent);
      if amount <= 0.0 || !bbcCurrency then p else p.(bbc := Put(p.bbc, r, ToFixed2(p.bbc.value + r)))
    case Sell(e, b, bbcCurrency) =>
      if !bbcCurrency then p
      else p.(egg := Put(p.egg, e, p.egg.value + e), bbc := Take(p.bbc, b, p.bbc.value - b))
    case Deposit(b, e) => p.(bbc := Edit(p.bbc, b, true), egg := Edit(p.egg, e, true))
    case Withdraw(b, e) => p.(bbc := Edit(p.bbc, b, false), egg := Edit(p.egg, e, false))
  }

  /** The rate rows an operation writes, q being the pool it left. A claim's fails for a zero egg value only, and
      what was written before it, through the outer client, stays; the others need a positive egg value. */
  function NewRates(p: Pool, q: Pool, op: Op): seq<real>
  {
    if q == p && (op.Buy? || op.Sell?) then []
    else if q.egg.value == 0.0 || (q.egg.value < 0.0 && !op.Claim?) then []
    else [ToFixed5((if op.Buy? && !op.sees then p.bbc.value else q.bbc.value) / q.egg.value)]
  }

  function Step(p: Pool, op: Op): Pool
  {
    var q := Change(p, op);
    q.(rates := p.rates + NewRates(p, q, op))
  }

  function Run(p: Pool, ops: seq<Op>): Pool
  {
    if ops == [] then p else Step(Run(p, ops[..|ops| - 1]), ops[|ops| - 1])
  }

  // ---- rounding ----

  function Abs(x: real): real
  {
    if x >= 0.0 then x else -x
  }

  lemma RoundIsClose(x: real)
    ensures Abs(Round(x) as real - x) <= 0.5
  {
  }

  lemma ToFixed2IsClose(x: real)
    ensures Abs(ToFixed2(x) - x) <= 0.005
  {
    RoundIsClose(x * 100.0);
  }

  lemma ToFixed5IsClose(x: real)
    ensures Abs(ToFixed5(x) - x) <= 0.000005
  {
    RoundIsClose(x * 100000.0);
  }

  /** They have two and five decimals. */
  lemma FixedDecimals(x: real)
    ensures (ToFixed2(x) * 100.0).Floor as real == ToFixed2(x) * 100.0
    ensures (ToFixed5(x) * 100000.0).Floor as real == ToFixed5(x) * 100000.0
  {
    assert ToFixed2(x) * 100.0 == Round(x * 100.0) as real;
    assert ToFixed5(x) * 100000.0 == Round(x * 100000.0) as real;
  }

  lemma ToFixed5Monotone(x: real, y: real)
    requires x <= y
    ensures ToFixed5(x) <= ToFixed5(y)
  {
    RoundMonotone(x * 100000.0, y * 100000.0);
  }

  lemma RoundMonotone(x: real, y: real)
    requires x <= y
    ensures Round(x) <= Round(y)
  {
    if x >= 0.0 {
      assert (x + 0.5).Floor <= (y + 0.5).Floor;
    } else if y < 0.0 {
      assert (0.5 - y).Floor <= (0.5 - x).Floor;
    } else {
      assert (0.5 - x).Floor >= 0 && (y + 0.5).Floor >= 0;
    }
  }

  // ---- the histories account for the values ----

  const NET: Entry -> real := (e: Entry) => e.inn - e.out

  /** Value equals opening plus ins minus outs, and the newest `last` is within half a cent. */
  predicate Accounts(c: Column, opening: real)
  {
    && c.value == opening + Sum(c.history, NET)
    && (c.history != [] ==> Abs(c.history[|c.history| - 1].last - c.value) <= 0.005)
  }

  lemma ChangeAccounts(c: Column, opening: real, amount: real, last: real)
    requires Accounts(c, opening)
    ensures Abs(last - (c.value + amount)) <= 0.005 ==> Accounts(Put(c, amount, last), opening)
    ensures Abs(last - (c.value - amount)) <= 0.005 ==> Accounts(Take(c, amount, last), opening)
  {
    SumAppend(c.history, Entry(amount, 0.0, last), NET);
    SumAppend(c.history, Entry(0.0, amount, last), NET);
  }

  lemma FixedPutAccounts(c: Column, opening: real, amount: real)
    requires Accounts(c, opening)
    ensures Accounts(Put(c, amount, ToFixed2(c.value + amount)), opening)
  {
    ToFixed2IsClose(c.value + amount);
    ChangeAccounts(c, opening, amount, ToFixed2(c.value + amount));
  }

  lemma FixedTakeAccounts(c: Column, opening: real, amount: real)
    requires Accounts(c, opening)
    ensures Accounts(Take(c, amount, ToFixed2(c.value - amount)), opening)
  {
    ToFixed2IsClose(c.value - amount);
    ChangeAccounts(c, opening, amount, ToFixed2(c.value - amount));
  }

  /** A deposit or withdrawal stays accounted for exactly when it is not negative. */
  lemma EditAccounts(c: Column, opening: real, amount: real, deposit: bool)
    requires Accounts(c, opening)
    ensures Accounts(Edit(c, amount, deposit), opening) <==> amount >= 0.0
  {
    if deposit { FixedPutAccounts(c, opening, amount); } else { FixedTakeAccounts(c, opening, amount); }
  }

  predicate Accounted(p: Pool, egg0: real, bbc0: real)
  {
    Accounts(p.egg, egg0) && Accounts(p.bbc, bbc0)
  }

  /** The inputs that keep the books: deposits and withdrawals must not be negative. */
  predicate NotNegative(op: Op)
  {
    (op.Deposit? || op.Withdraw?) ==> op.bbc >= 0.0 && op.egg >= 0.0
  }

  lemma TradeAccounts(p: Pool, op: Op, egg0: real, bbc0: real)
    requires Accounted(p, egg0, bbc0) && (op.Claim? || op.Sell?)
    ensures Accounted(Change(p, op), egg0, bbc0)
  {
    match op
    case Claim(e) => ChangeAccounts(p.egg, egg0, e, p.egg.value - e);
    case Sell(e, b, _) =>
      ChangeAccounts(p.egg, egg0, e, p.egg.value + e);
      ChangeAccounts(p.bbc, bbc0, b, p.bbc.value - b);
  }

  lemma BuyAccounts(p: Pool, op: Op, egg0: real, bbc0: real)
    requires Accounted(p, egg0, bbc0) && op.Buy?
    ensures Accounted(Change(p, op), egg0, bbc0)
  {
    FixedPutAccounts(p.bbc, bbc0, Revenue(op.amount, op.percent));
  }

  lemma DepositAccounts(p: Pool, b: real, e: real, deposit: bool, egg0: real, bbc0: real)
    requires Accounted(p, egg0, bbc0)
    ensures Accounted(p.(bbc := Edit(p.bbc, b, deposit), egg := Edit(p.egg, e, deposit)), egg0, bbc0) <==>
            b >= 0.0 && e >= 0.0
  {
    EditAccounts(p.bbc, bbc0, b, deposit);
    EditAccounts(p.egg, egg0, e, deposit);
  }

  lemma ChangeKeepsAccounts(p: Pool, op: Op, egg0: real, bbc0: real)
    requires Accounted(p, egg0, bbc0)
    ensures Accounted(Change(p, op), egg0, bbc0) <==> NotNegative(op)
  {
    if op.Deposit? || op.Withdraw? {
      DepositAccounts(p, op.bbc, op.egg, op.Deposit?, egg0, bbc0);
    } else if op.Buy? {
      BuyAccounts(p, op, egg0, bbc0);
    } else {
      TradeAccounts(p, op, egg0, bbc0);
    }
  }

  /** One step keeps the books exactly when it is not a negative deposit or withdrawal. */
  lemma StepAccounts(p: Pool, op: Op, egg0: real, bbc0: real)
    requires Accounted(p, egg0, bbc0)
    ensures Accounted(Step(p, op), egg0, bbc0) <==> NotNegative(op)
  {
    ChangeKeepsAccounts(p, op, egg0, bbc0);
    assert Step(p, op).egg == Change(p, op).egg && Step(p, op).bbc == Change(p, op).bbc;
  }

  /** Whatever the opening values, books that were kept still are. */
  ghost predicate KeepsBooks(p: Pool, q: Pool)
  {
    forall egg0, bbc0 :: Accounted(p, egg0, bbc0) ==> Accounted(q, egg0, bbc0)
  }

  lemma StepKeepsBooks(p: Pool, op: Op)
    ensures NotNegative(op) ==> KeepsBooks(p, Step(p, op))
  {
    if NotNegative(op) {
      forall egg0, bbc0 | Accounted(p, egg0, bbc0) ensures Accounted(Step(p, op), egg0, bbc0) {
        StepAccounts(p, op, egg0, bbc0);
      }
    }
  }

  /** In every serial run without negative deposits or withdrawals both values equal their opening value plus ins
      minus outs, and the newest `last` of each is within half a cent of its value. */
  lemma {:induction false} RunAccounts(p: Pool, ops: seq<Op>)
    requires p.egg.history == [] && p.bbc.history == []
    requires forall i :: 0 <= i < |ops| ==> NotNegative(ops[i])
    ensures Accounted(Run(p, ops), p.egg.value, p.bbc.value)
  {
    if ops != [] {
      RunAccounts(p, ops[..|ops| - 1]);
      StepAccounts(Run(p, ops[..|ops| - 1]), ops[|ops| - 1], p.egg.value, p.bbc.value);
    }
  }

  // ---- what goes in and what comes out ----

  /** What an operation brings the eggs: claims and withdrawals take, sells and deposits bring. */
  function EggFlow(op: Op): real
  {
    match op
    case Claim(eggs) => -eggs
    case Buy(_, _, _, _) => 0.0
    case Sell(eggsIn, _, bbcCurrency) => if bbcCurrency then eggsIn else 0.0
    case Deposit(_, egg) => egg
    case Withdraw(_, egg) => -egg
  }

  /** What it brings BBC: buys bring their share, deposits bring, sells and withdrawals take. */
  function BbcFlow(op: Op): real
  {
    match op
    case Claim(_) => 0.0
    case Buy(amount, percent, bbcCurrency, _) => if bbcCurrency && amount > 0.0 then amount * (percent / 100.0) else 0.0
    case Sell(_, bbcOut, bbcCurrency) => if bbcCurrency then -bbcOut else 0.0
    case Deposit(bbc, _) => bbc
    case Withdraw(bbc, _) => -bbc
  }

  function Flow(ops: seq<Op>, flow: Op -> real): real
  {
    if ops == [] then 0.0 else Flow(ops[..|ops| - 1], flow) + flow(ops[|ops| - 1])
  }

  lemma StepFlows(p: Pool, op: Op)
    ensures Step(p, op).egg.value == p.egg.value + EggFlow(op)
    ensures Step(p, op).bbc.value == p.bbc.value + BbcFlow(op)
  {
  }

  /** In every serial run, negative inputs included, each value is its opening value plus what each operation
      brought. */
  lemma {:induction false} ValuesAreFlows(p: Pool, ops: seq<Op>)
    ensures Run(p, ops).egg.value == p.egg.value + Flow(ops, EggFlow)
    ensures Run(p, ops).bbc.value == p.bbc.value + Flow(ops, BbcFlow)
  {
    if ops != [] {
      ValuesAreFlows(p, ops[..|ops| - 1]);
      StepFlows(Run(p, ops[..|ops| - 1]), ops[|ops| - 1]);
    }
  }

  /** The history row an amount leaves: in or out, with the value it leaves in cents. */
  function EntryOf(amount: real, incoming: bool, last: real): seq<Entry>
  {
    if amount <= 0.0 then [] else if incoming then [Entry(amount, 0.0, last)] else [Entry(0.0, amount, last)]
  }

  /** Which history rows each operation writes, and what they show. */
  lemma StepEntries(p: Pool, op: Op)
    ensures var q := Step(p, op);
            match op
            case Claim(eggs) =>
              q.egg.history == p.egg.history + [Entry(0.0, eggs, q.egg.value)] && q.bbc.history == p.bbc.history
            case Buy(amount, percent, bbcCurrency, _) =>
              && q.egg.history == p.egg.history
              && q.bbc.history == if bbcCurrency && amount > 0.0 then
                                    p.bbc.history + [Entry(amount * (percent / 100.0), 0.0, ToFixed2(q.bbc.value))]
                                  else p.bbc.history
            case Sell(eggsIn, bbcOut, bbcCurrency) =>
              && q.egg.history == (if bbcCurrency then p.egg.history + [Entry(eggsIn, 0.0, q.egg.value)]
                                   else p.egg.history)
              && q.bbc.history == if bbcCurrency then p.bbc.history + [Entry(0.0, bbcOut, q.bbc.value)]
                                  else p.bbc.history
            case Deposit(bbc, egg) =>
              && q.bbc.history == p.bbc.history + EntryOf(bbc, true, ToFixed2(q.bbc.value))
              && q.egg.history == p.egg.history + EntryOf(egg, true, ToFixed2(q.egg.value))
            case Withdraw(bbc, egg) =>
              && q.bbc.history == p.bbc.history + EntryOf(bbc, false, ToFixed2(q.bbc.value))
              && q.egg.history == p.egg.history + EntryOf(egg, false, ToFixed2(q.egg.value))
  {
    assert p.egg.history + [] == p.egg.history && p.bbc.history + [] == p.bbc.history;
    if op.Buy? && op.bbcCurrency && op.amount > 0.0 {
      var share := Revenue(op.amount, op.percent);
      assert share == op.amount * (op.percent / 100.0);
      assert Step(p, op).bbc.value == p.bbc.value + share;
      assert Step(p, op).bbc.history == p.bbc.history + [Entry(share, 0.0, ToFixed2(Step(p, op).bbc.value))];
    } else if op.Buy? {
      assert Step(p, op).bbc.history == p.bbc.history;
    }
  }

  /** Halves go away from zero. */
  lemma RoundHalves(n: int)
    ensures Round(n as real + 0.5) == if n >= 0 then n + 1 else n
  {
  }

  /** An operation writes one rate row, of BBC over eggs, when it changes the pool and leaves eggs in it; a claim also
      when it leaves a debt of eggs; any other writes none. */
  lemma WhenRatesAreWritten(p: Pool, op: Op)
    ensures var q := Step(p, op);
            var writes := match op
                          case Claim(_) => q.egg.value != 0.0
                          case Buy(amount, _, bbcCurrency, _) => amount > 0.0 && bbcCurrency && q.egg.value > 0.0
                          case Sell(_, _, bbcCurrency) => bbcCurrency && q.egg.value > 0.0
                          case Deposit(_, _) => q.egg.value > 0.0
                          case Withdraw(_, _) => q.egg.value > 0.0;
            |q.rates| == |p.rates| + (if writes then 1 else 0) && q.rates[..|p.rates|] == p.rates
  {
    if op.Buy? && op.amount > 0.0 && op.bbcCurrency { assert |Change(p, op).bbc.history| > |p.bbc.history|; }
    if op.Sell? && op.bbcCurrency { assert |Change(p, op).bbc.history| > |p.bbc.history|; }
  }

  // ---- the quoted rate ----

  /** The rate a fresh quote would show. */
  function Quoted(p: Pool): real
    requires p.egg.value > 0.0
  {
    ToFixed5(p.bbc.value / p.egg.value)
  }

  lemma RatioMonotone(b1: real, e1: real, b2: real, e2: real)
    requires b1 <= b2 && 0.0 <= b2 && e1 >= e2 > 0.0
    ensures b1 / e1 <= b2 / e2
  {
    var q := b2 / e2;
    assert q >= 0.0 && q * e2 == b2;
    assert q * e1 >= q * e2;
    assert b1 <= q * e1;
  }

  /** A step that writes a rate row writes one within 0.000005 of the pool's ratio, unless it is a buy whose lookup
      misses its own update: that one quotes the ratio from before. */
  lemma RateRowIsClose(p: Pool, op: Op)
    requires |Step(p, op).rates| > |p.rates|
    ensures var q := Step(p, op);
            var bbc := if op.Buy? && !op.sees then p.bbc.value else q.bbc.value;
            && q.egg.value != 0.0 && |q.rates| == |p.rates| + 1 && q.rates[..|p.rates|] == p.rates
            && q.rates[|p.rates|] == ToFixed5(bbc / q.egg.value)
            && Abs(q.rates[|p.rates|] - bbc / q.egg.value) <= 0.000005
  {
    var q := Step(p, op);
    ToFixed5IsClose((if op.Buy? && !op.sees then p.bbc.value else q.bbc.value) / q.egg.value);
  }

  /** A buy that misses its own update: its row quotes the ratio from before. */
  predicate Stale(op: Op)
  {
    op.Buy? && !op.sees
  }

  /** The purchase keeps BBC within half a unit of the fifth decimal, for each egg, of what the rate before it says. */
  predicate Fits(p: Pool, revenue: real)
    requires p.egg.value > 0.0
  {
    Abs(Quoted(p) * p.egg.value - (p.bbc.value + revenue)) <= 0.000005 * p.egg.value
  }

  lemma ProductOrder(x: real, y: real, e: real)
    requires e > 0.0
    ensures x <= y <==> x * e <= y * e
  {
    if x <= y { assert (y - x) * e >= 0.0; } else { assert (x - y) * e > 0.0; }
  }

  lemma CloseTimes(x: real, y: real, gap: real, e: real)
    requires e > 0.0
    ensures Abs(x - y) <= gap <==> Abs(x * e - y * e) <= gap * e
  {
    ProductOrder(x - y, gap, e);
    ProductOrder(y - x, gap, e);
    assert (x - y) * e == x * e - y * e && (y - x) * e == y * e - x * e;
  }

  lemma FitsMeansClose(p: Pool, revenue: real)
    requires p.egg.value > 0.0
    ensures Abs(Quoted(p) - (p.bbc.value + revenue) / p.egg.value) <= 0.000005 <==> Fits(p, revenue)
  {
    CloseTimes(Quoted(p), (p.bbc.value + revenue) / p.egg.value, 0.000005, p.egg.value);
  }

  /** A rate row is within 0.000005 of the pool's ratio if and only if it is not a stale buy's, or what the purchase
      adds fits that rate. */
  lemma RateRowIsCurrentIff(p: Pool, op: Op)
    requires |Step(p, op).rates| > |p.rates|
    ensures Step(p, op).egg.value != 0.0 && (op.Buy? ==> p.egg.value > 0.0)
    ensures var q := Step(p, op);
            Abs(q.rates[|p.rates|] - q.bbc.value / q.egg.value) <= 0.000005 <==>
            (Stale(op) ==> Fits(p, Revenue(op.amount, op.percent)))
  {
    RateRowIsClose(p, op);
    if Stale(op) { FitsMeansClose(p, Revenue(op.amount, op.percent)); }
  }

  lemma QuotedIsClose(p: Pool)
    requires p.egg.value > 0.0
    ensures Abs(Quoted(p) * p.egg.value - p.bbc.value) <= 0.000005 * p.egg.value
  {
    var ratio := p.bbc.value / p.egg.value;
    ToFixed5IsClose(ratio);
    CloseTimes(ToFixed5(ratio), ratio, 0.000005, p.egg.value);
  }

  lemma FitsIsSmall(p: Pool, revenue: real)
    requires p.egg.value > 0.0 && Fits(p, revenue)
    ensures Abs(revenue) <= 0.00001 * p.egg.value
  {
    QuotedIsClose(p);
    TwiceClose(Quoted(p) * p.egg.value, p.bbc.value, revenue, 0.000005 * p.egg.value);
  }

  lemma TwiceClose(x: real, y: real, more: real, gap: real)
    requires Abs(x - y) <= gap && Abs(x - (y + more)) <= gap
    ensures Abs(more) <= 2.0 * gap
  {
  }

  /** So every stale purchase that adds more than 0.00001 BBC for each egg in the pool leaves a row that is off: with
      one egg and no BBC, a purchase of 100 quotes 0 for a ratio of 100. */
  lemma StaleRateMisses(p: Pool, op: Op)
    requires Stale(op) && op.bbcCurrency && op.amount > 0.0 && p.egg.value > 0.0
    requires Abs(Revenue(op.amount, op.percent)) > 0.00001 * p.egg.value
    ensures var q := Step(p, op);
            |q.rates| == |p.rates| + 1 && Abs(q.rates[|p.rates|] - q.bbc.value / q.egg.value) > 0.000005
  {
    RateRowIsCurrentIff(p, op);
    if Fits(p, Revenue(op.amount, op.percent)) { FitsIsSmall(p, Revenue(op.amount, op.percent)); }
  }

  /** While BBC is not negative and eggs are positive, selling eggs never raises the quoted rate, and claiming or
      buying never lowers it. */
  lemma RateMoves(p: Pool, op: Op)
    requires p.egg.value > 0.0 && p.bbc.value >= 0.0 && Step(p, op).egg.value > 0.0
    ensures op.Sell? && op.eggsIn >= 0.0 && op.bbcOut >= 0.0 ==> Quoted(Step(p, op)) <= Quoted(p)
    ensures (op.Claim? && op.eggs >= 0.0) || (op.Buy? && op.percent >= 0.0) ==> Quoted(Step(p, op)) >= Quoted(p)
  {
    var q := Step(p, op);
    if op.Sell? && op.eggsIn >= 0.0 && op.bbcOut >= 0.0 {
      RatioMonotone(q.bbc.value, q.egg.value, p.bbc.value, p.egg.value);
      ToFixed5Monotone(q.bbc.value / q.egg.value, p.bbc.value / p.egg.value);
    } else if (op.Claim? && op.eggs >= 0.0) || (op.Buy? && op.percent >= 0.0) {
      RatioMonotone(p.bbc.value, p.egg.value, q.bbc.value, q.egg.value);
      ToFixed5Monotone(p.bbc.value / p.egg.value, q.bbc.value / q.egg.value);
    }
  }

  /** Claims and buys that leave eggs in the pool. */
  predicate OnlyRaises(p: Pool, ops: seq<Op>)
  {
    ops != [] ==>
      var most, op := ops[..|ops| - 1], ops[|ops| - 1];
      && OnlyRaises(p, most) && ((op.Claim? && op.eggs >= 0.0) || (op.Buy? && op.percent >= 0.0))
      && Run(p, ops).egg.value > 0.0
  }

  /** Over any run of claims and buys every quoted row is at least the rate at the start, at most the rate at the
      end, and no row is below an earlier one, stale lookups included. */
  lemma {:induction false} RatesRise(p: Pool, ops: seq<Op>)
    requires p.rates == [] && p.egg.value > 0.0 && p.bbc.value >= 0.0 && OnlyRaises(p, ops)
    ensures var q := Run(p, ops);
            && q.egg.value > 0.0 && q.bbc.value >= 0.0 && Quoted(p) <= Quoted(q)
            && (forall i :: 0 <= i < |q.rates| ==> Quoted(p) <= q.rates[i] <= Quoted(q))
            && forall i, j :: 0 <= i < j < |q.rates| ==> q.rates[i] <= q.rates[j]
  {
    if ops != [] {
      var most, op := ops[..|ops| - 1], ops[|ops| - 1];
      RatesRise(p, most);
      var m, q := Run(p, most), Run(p, ops);
      RateMoves(m, op);
      if |q.rates| > |m.rates| {
        RateRowIsClose(m, op);
        assert q.rates == m.rates + [q.rates[|m.rates|]];
      }
    }
  }

  // ---- the service ----

  class PoolService {
    var eggValue: real
    var bbcValue: real
    var eggHistory: seq<Entry>
    var bbcHistory: seq<Entry>
    var rateHistory: seq<real>

    ghost function View(): Pool
      reads this
    {
      Pool(Column(eggValue, eggHistory), Column(bbcValue, bbcHistory), rateHistory)
    }

    method UpdatePoolClaimGoldenEgg(eggs: real) returns (ok: bool)
      modifies this
      ensures View() == Step(old(View()), Claim(eggs)) && ok == (eggValue != 0.0)
      ensures eggValue == old(eggValue) - eggs && bbcValue == old(bbcValue)
      ensures KeepsBooks(old(View()), View())
    {
      StepKeepsBooks(View(), Claim(eggs));
      var found := eggValue;
      eggValue := eggValue - eggs;
      eggHistory := eggHistory + [Entry(0.0, eggs, found - eggs)];
      if eggValue == 0.0 { return false; }
      rateHistory := rateHistory + [ToFixed5(bbcValue / eggValue)];
      ok := true;
    }

    method UpdatePoolBuyEggEvent(amount: real, revenuePercent: real, bbcCurrency: bool, sees: bool)
      modifies this
      ensures View() == Step(old(View()), Buy(amount, revenuePercent, bbcCurrency, sees))
      ensures eggValue == old(eggValue)
      ensures bbcValue == old(bbcValue) + if bbcCurrency && amount > 0.0 then amount * (revenuePercent / 100.0) else 0.0
      ensures KeepsBooks(old(View()), View())
    {
      StepKeepsBooks(View(), Buy(amount, revenuePercent, bbcCurrency, sees));
      if amount <= 0.0 || !bbcCurrency { return; }
      var revenue := Revenue(amount, revenuePercent);
      var found := bbcValue;
      bbcValue := bbcValue + revenue;
      bbcHistory := bbcHistory + [Entry(revenue, 0.0, ToFixed2(found + revenue))];
      WriteRate(if sees then bbcValue else found);
    }

    method UpdatePoolSellGoldenEgg(eggs: real, bbc: real, bbcCurrency: bool)
      modifies this
      ensures View() == Step(old(View()), Sell(eggs, bbc, bbcCurrency))
      ensures bbcCurrency ==> eggValue == old(eggValue) + eggs && bbcValue == old(bbcValue) - bbc
      ensures KeepsBooks(old(View()), View())
    {
      StepKeepsBooks(View(), Sell(eggs, bbc, bbcCurrency));
      if !bbcCurrency { return; }
      var foundEgg, foundBbc := eggValue, bbcValue;
      eggValue := eggValue + eggs;
      eggHistory := eggHistory + [Entry(eggs, 0.0, foundEgg + eggs)];
      bbcValue := bbcValue - bbc;
      bbcHistory := bbcHistory + [Entry(0.0, bbc, foundBbc - bbc)];
      WriteRate(bbcValue);
    }

    method DepositPoolValue(bbc: real, egg: real)
      modifies this
      ensures View() == Step(old(View()), Deposit(bbc, egg))
      ensures eggValue == old(eggValue) + egg && bbcValue == old(bbcValue) + bbc
      ensures bbc >= 0.0 && egg >= 0.0 ==> KeepsBooks(old(View()), View())
    {
      StepKeepsBooks(View(), Deposit(bbc, egg));
      var foundEgg, foundBbc := eggValue, bbcValue;
      bbcValue, eggValue := bbcValue + bbc, eggValue + egg;
      if bbc > 0.0 { bbcHistory := bbcHistory + [Entry(bbc, 0.0, ToFixed2(foundBbc + bbc))]; }
      if egg > 0.0 { eggHistory := eggHistory + [Entry(egg, 0.0, ToFixed2(foundEgg + egg))]; }
      WriteRate(bbcValue);
    }

    method WithdrawalPoolValue(bbc: real, egg: real)
      modifies this
      ensures View() == Step(old(View()), Withdraw(bbc, egg))
      ensures eggValue == old(eggValue) - egg && bbcValue == old(bbcValue) - bbc
      ensures bbc >= 0.0 && egg >= 0.0 ==> KeepsBooks(old(View()), View())
    {
      StepKeepsBooks(View(), Withdraw(bbc, egg));
      var foundEgg, foundBbc := eggValue, bbcValue;
      bbcValue, eggValue := bbcValue - bbc, eggValue - egg;
      if bbc > 0.0 { bbcHistory := bbcHistory + [Entry(0.0, bbc, ToFixed2(foundBbc - bbc))]; }
      if egg > 0.0 { eggHistory := eggHistory + [Entry(0.0, egg, ToFixed2(foundEgg - egg))]; }
      WriteRate(bbcValue);
    }

    method WriteRate(bbc: real)
      modifies this`rateHistory
      ensures rateHistory == old(rateHistory) + if eggValue > 0.0 then [ToFixed5(bbc / eggValue)] else []
    {
      if eggValue > 0.0 {
        rateHistory := rateHistory + [ToFixed5(bbc / eggValue)];
      }
    }
  }
}
