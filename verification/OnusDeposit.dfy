/** Deposits announced by ONUS: the callback is checked, money moves from the broker to the user with bounded
    retries, and the transaction number is recorded afterwards. Callbacks are served one at a time. */
module OnusDeposit {
  import opened Common
  import opened Sums

  type Account = int

  datatype Row = Row(account: Account, currency: string, amount: real)

  /** A movement of money, and whether its number was recorded afterwards. */
  datatype Move = Move(number: string, recorded: bool)

  datatype State = State(rows: seq<Row>, recorded: set<string>, moves: seq<Move>)

  /** The transaction as ONUS reports it. */
  datatype Remote = Remote(number: string, currency: string, amount: real, recent: bool, senderMatches: bool)

  /** One callback with what it meets outside: the account it names, the answer of each attempt at reading the
      transaction and at moving the money, and whether recording the result succeeds. */
  datatype Callback = Callback(
    number: string, currency: string, amount: real,
    user: Option<Account>, remote: Remote,
    lookups: nat -> bool, transfers: nat -> bool, records: bool)

  datatype Reply =
    | Success | CoinInvalid | AmountInvalidMin | AmountInvalid | AccountInvalid | TransactionInvalid
    | InvalidPayload | OutOfDate | ReceiverInvalid | AlreadyExisted | ProcessFailed | RecordFailed

  const MAX_RETRY: nat := 5

  /** Position of the first row of an account and currency. */
  function FindRow(rows: seq<Row>, a: Account, c: string): (i: Option<nat>)
    ensures i.Some? ==> i.value < |rows| && rows[i.value].account == a && rows[i.value].currency == c
    ensures i.Some? ==> forall j :: 0 <= j < i.value ==> rows[j].account != a || rows[j].currency != c
    ensures i.None? ==> forall j :: 0 <= j < |rows| ==> rows[j].account != a || rows[j].currency != c
  {
    if rows == [] then None
    else
      var n := |rows| - 1;
      var i := FindRow(rows[..n], a, c);
      if i.Some? then i
      else if rows[n].account == a && rows[n].currency == c then Some(n) else None
  }

  /** The retry recursion: whether some attempt from `attempt` on succeeds, and how many were made. */
  function Retry(tries: nat -> bool, attempt: nat): (r: (bool, nat))
    decreases MAX_RETRY - attempt
  {
    if tries(attempt) then (true, 1)
    else if attempt < MAX_RETRY then
      var r := Retry(tries, attempt + 1); (r.0, r.1 + 1)
    else (false, 1)
  }

  /** The first call makes at most five attempts, and succeeds exactly when one of these five does. */
  lemma FiveAttempts(tries: nat -> bool)
    ensures 1 <= Retry(tries, 1).1 <= 5
    ensures Retry(tries, 1).0 <==> tries(1) || tries(2) || tries(3) || tries(4) || tries(5)
  {
    RetryIsBounded(tries, 1);
  }

  /** A first call makes at most five attempts, stops at the first success, and fails only after five failures. */
  lemma {:induction false} RetryIsBounded(tries: nat -> bool, attempt: nat)
    requires 1 <= attempt <= MAX_RETRY
    ensures var r := Retry(tries, attempt);
            && 1 <= r.1 <= MAX_RETRY + 1 - attempt
            && (forall k :: attempt <= k < attempt + r.1 - 1 ==> !tries(k))
            && (if r.0 then tries(attempt + r.1 - 1)
                else r.1 == MAX_RETRY + 1 - attempt && forall k :: attempt <= k <= MAX_RETRY ==> !tries(k))
    decreases MAX_RETRY - attempt
  {
    if !tries(attempt) && attempt < MAX_RETRY { RetryIsBounded(tries, attempt + 1); }
  }

  /** The checks made before anything is written, in their order. */
  function Check(s: State, broker: Account, cb: Callback): Option<Reply>
  {
    var row := FindRow(s.rows, broker, cb.currency);
    if cb.currency != "VNDC" && cb.currency != "BBC" then Some(CoinInvalid)
    else if cb.amount < 1000.0 then Some(AmountInvalidMin)
    else if row.None? || s.rows[row.value].amount - cb.amount < 0.0 then Some(AmountInvalid)
    else if cb.user.None? then Some(AccountInvalid)
    else if !Retry(cb.lookups, 1).0 then Some(TransactionInvalid)
    else if cb.remote.number != cb.number || cb.remote.currency != cb.currency || cb.remote.amount != cb.amount then
      Some(InvalidPayload)
    else if !cb.remote.recent then Some(OutOfDate)
    else if !cb.remote.senderMatches then Some(ReceiverInvalid)
    else if cb.number in s.recorded then Some(AlreadyExisted)
    else None
  }

  /** The user's row, created empty when it is missing. */
  function Upsert(rows: seq<Row>, a: Account, c: string): (r: seq<Row>)
    ensures rows <= r && FindRow(r, a, c).Some?
  {
    if FindRow(rows, a, c).Some? then rows
    else
      assert (rows + [Row(a, c, 0.0)])[..|rows|] == rows;
      rows + [Row(a, c, 0.0)]
  }

  function AddTo(rows: seq<Row>, i: nat, amount: real): seq<Row>
    requires i < |rows|
  {
    rows[i := rows[i].(amount := rows[i].amount + amount)]
  }

  /** BROKER_PROCESS: out of the broker's row, into the user's. */
  function Transfer(rows: seq<Row>, giver: nat, to: nat, amount: real): seq<Row>
    requires giver < |rows| && to < |rows|
  {
    AddTo(AddTo(rows, giver, -amount), to, amount)
  }

  function Process(s: State, broker: Account, cb: Callback): (State, Reply)
  {
    var refused := Check(s, broker, cb);
    if refused.Some? then (s, refused.value)
    else
      var rows := Upsert(s.rows, cb.user.value, cb.currency);
      var source, target := FindRow(rows, broker, cb.currency), FindRow(rows, cb.user.value, cb.currency);
      if source.None? || !Retry(cb.transfers, 1).0 then (s.(rows := rows), ProcessFailed)
      else
        var moved := Transfer(rows, source.value, target.value, cb.amount);
        if cb.records then (State(moved, s.recorded + {cb.number}, s.moves + [Move(cb.number, true)]), Success)
        else (State(moved, s.recorded, s.moves + [Move(cb.number, false)]), RecordFailed)
  }

  function Run(s: State, broker: Account, callbacks: seq<Callback>): State
  {
    if callbacks == [] then s
    else Process(Run(s, broker, callbacks[..|callbacks| - 1]), broker, callbacks[|callbacks| - 1]).0
  }

  // ---- what a callback does ----

  /** What an account holds in a currency, in its first row of it, and nothing without one. */
  function Holding(rows: seq<Row>, a: Account, c: string): real
  {
    if rows == [] then 0.0
    else if rows[0].account == a && rows[0].currency == c then rows[0].amount
    else Holding(rows[1..], a, c)
  }

  lemma {:induction false} HoldingIsFirst(rows: seq<Row>, a: Account, c: string)
    ensures var i := FindRow(rows, a, c);
            Holding(rows, a, c) == if i.Some? then rows[i.value].amount else 0.0
  {
    if rows != [] {
      var i := FindRow(rows, a, c);
      if rows[0].account == a && rows[0].currency == c {
        assert i == Some(0);
      } else {
        HoldingIsFirst(rows[1..], a, c);
        var j := FindRow(rows[1..], a, c);
        if i.Some? { assert rows[1..][i.value - 1] == rows[i.value]; }
        if j.Some? { assert rows[j.value + 1] == rows[1..][j.value]; }
        assert i.Some? && j.Some? ==> i.value == j.value + 1;
      }
    }
  }

  /** The callback passes every check: a supported currency, at least 1000, at most what the broker holds, a known user,
      a lookup that succeeds within five attempts and agrees with it, is recent and names the sender, and a new
      number. */
  predicate Valid(s: State, broker: Account, cb: Callback)
  {
    && (cb.currency == "VNDC" || cb.currency == "BBC") && cb.amount >= 1000.0
    && Holding(s.rows, broker, cb.currency) >= cb.amount && cb.user.Some?
    && (cb.lookups(1) || cb.lookups(2) || cb.lookups(3) || cb.lookups(4) || cb.lookups(5))
    && cb.remote.number == cb.number && cb.remote.currency == cb.currency && cb.remote.amount == cb.amount
    && cb.remote.recent && cb.remote.senderMatches && cb.number !in s.recorded
  }

  /** One of the five attempts at moving the money succeeds. */
  predicate Transferable(cb: Callback)
  {
    cb.transfers(1) || cb.transfers(2) || cb.transfers(3) || cb.transfers(4) || cb.transfers(5)
  }

  /** The reply names the first check that fails. */
  function FirstRefusal(s: State, broker: Account, cb: Callback): Reply
  {
    if cb.currency != "VNDC" && cb.currency != "BBC" then CoinInvalid
    else if cb.amount < 1000.0 then AmountInvalidMin
    else if Holding(s.rows, broker, cb.currency) < cb.amount then AmountInvalid
    else if cb.user.None? then AccountInvalid
    else if !(cb.lookups(1) || cb.lookups(2) || cb.lookups(3) || cb.lookups(4) || cb.lookups(5)) then TransactionInvalid
    else if cb.remote.number != cb.number || cb.remote.currency != cb.currency || cb.remote.amount != cb.amount then
      InvalidPayload
    else if !cb.remote.recent then OutOfDate
    else if !cb.remote.senderMatches then ReceiverInvalid
    else AlreadyExisted
  }

  /** The callback's reply: the first check that fails, then whether the money moved, then whether it was recorded; and
      the number is recorded exactly on success. */
  lemma ReplyMeans(s: State, broker: Account, cb: Callback)
    ensures var (t, reply) := Process(s, broker, cb);
            && reply == (if !Valid(s, broker, cb) then FirstRefusal(s, broker, cb)
                         else if !Transferable(cb) then ProcessFailed
                         else if cb.records then Success else RecordFailed)
            && t.recorded == (if reply == Success then s.recorded + {cb.number} else s.recorded)
            && t.moves == if reply == Success || reply == RecordFailed
                          then s.moves + [Move(cb.number, reply == Success)] else s.moves
  {
    HoldingIsFirst(s.rows, broker, cb.currency);
    FiveAttempts(cb.lookups);
    FiveAttempts(cb.transfers);
    if Check(s, broker, cb).None? {
      FindRowStable(s.rows, Upsert(s.rows, cb.user.value, cb.currency), broker, cb.currency);
    }
  }

  /** What a callback brings an account in a currency: the amount to its user and from the broker, if it moved. */
  function Brings(reply: Reply, broker: Account, cb: Callback, a: Account, c: string): real
  {
    if c != cb.currency || !(reply == Success || reply == RecordFailed) || cb.user.None? then 0.0
    else (if cb.user.value == a then cb.amount else 0.0) - if broker == a then cb.amount else 0.0
  }

  lemma AddToHolding(rows: seq<Row>, i: nat, amount: real, a: Account, c: string)
    requires i < |rows| && FindRow(rows, rows[i].account, rows[i].currency) == Some(i)
    ensures Holding(AddTo(rows, i, amount), a, c)
         == Holding(rows, a, c) + if rows[i].account == a && rows[i].currency == c then amount else 0.0
  {
    var more := AddTo(rows, i, amount);
    HoldingIsFirst(rows, a, c);
    HoldingIsFirst(more, a, c);
    assert forall j :: 0 <= j < |rows| ==> more[j].account == rows[j].account && more[j].currency == rows[j].currency;
    if FindRow(rows, a, c).Some? { FindRowStable(rows, more, a, c); }
  }

  lemma UpsertHolding(rows: seq<Row>, b: Account, d: string, a: Account, c: string)
    ensures Holding(Upsert(rows, b, d), a, c) == Holding(rows, a, c)
  {
    var more := Upsert(rows, b, d);
    HoldingIsFirst(rows, a, c);
    HoldingIsFirst(more, a, c);
    assert forall j :: 0 <= j < |rows| ==> more[j] == rows[j];
    if FindRow(rows, a, c).Some? { FindRowStable(rows, more, a, c); }
  }

  lemma TransferHolding(rows: seq<Row>, i: nat, j: nat, amount: real, a: Account, c: string)
    requires i < |rows| && FindRow(rows, rows[i].account, rows[i].currency) == Some(i)
    requires j < |rows| && FindRow(rows, rows[j].account, rows[j].currency) == Some(j)
    ensures Holding(Transfer(rows, i, j, amount), a, c)
         == Holding(rows, a, c) - (if rows[i].account == a && rows[i].currency == c then amount else 0.0)
              + if rows[j].account == a && rows[j].currency == c then amount else 0.0
  {
    var half := AddTo(rows, i, -amount);
    AddToHolding(rows, i, -amount, a, c);
    FindRowStable(rows, half, rows[j].account, rows[j].currency);
    AddToHolding(half, j, amount, a, c);
  }

  /** Every account ends with what it held and what the callback brings it: on a move the user gains the amount and the
      broker loses it, and nobody else gains or loses anything. */
  lemma ProcessBrings(s: State, broker: Account, cb: Callback, a: Account, c: string)
    ensures var (t, reply) := Process(s, broker, cb);
            Holding(t.rows, a, c) == Holding(s.rows, a, c) + Brings(reply, broker, cb, a, c)
  {
    if Check(s, broker, cb).None? {
      var user := cb.user.value;
      var rows := Upsert(s.rows, user, cb.currency);
      UpsertHolding(s.rows, user, cb.currency, a, c);
      FindRowStable(s.rows, rows, broker, cb.currency);
      var source, target := FindRow(rows, broker, cb.currency).value, FindRow(rows, user, cb.currency).value;
      if Retry(cb.transfers, 1).0 { TransferHolding(rows, source, target, cb.amount, a, c); }
    }
  }

  /** What a run brings an account in a currency. */
  function AllBrought(s: State, broker: Account, callbacks: seq<Callback>, a: Account, c: string): real
  {
    if callbacks == [] then 0.0
    else
      var most, cb := callbacks[..|callbacks| - 1], callbacks[|callbacks| - 1];
      AllBrought(s, broker, most, a, c) + Brings(Process(Run(s, broker, most), broker, cb).1, broker, cb, a, c)
  }

  /** In every run an account holds its opening amount plus what moved to it, less, for the broker, what moved from
      it. */
  lemma {:induction false} HoldingIsBrought(s: State, broker: Account, callbacks: seq<Callback>, a: Account, c: string)
    ensures Holding(Run(s, broker, callbacks).rows, a, c)
         == Holding(s.rows, a, c) + AllBrought(s, broker, callbacks, a, c)
  {
    if callbacks != [] {
      var most := callbacks[..|callbacks| - 1];
      HoldingIsBrought(s, broker, most, a, c);
      ProcessBrings(Run(s, broker, most), broker, callbacks[|callbacks| - 1], a, c);
    }
  }

  /** Rows are never removed, and only the broker's first row and the user's change. */
  lemma OtherRowsStay(s: State, broker: Account, cb: Callback, i: nat)
    requires i < |s.rows|
    ensures var t := Process(s, broker, cb).0;
            && i < |t.rows| && t.rows[i].account == s.rows[i].account && t.rows[i].currency == s.rows[i].currency
            && (t.rows[i] != s.rows[i] ==>
                  && s.rows[i].currency == cb.currency && cb.user.Some?
                  && (s.rows[i].account == broker || s.rows[i].account == cb.user.value)
                  && forall j :: 0 <= j < i ==>
                       s.rows[j].account != s.rows[i].account || s.rows[j].currency != cb.currency)
  {
    if Check(s, broker, cb).None? {
      FindRowStable(s.rows, Upsert(s.rows, cb.user.value, cb.currency), broker, cb.currency);
    }
  }

  // ---- conservation ----

  function InCurrency(c: string): Row -> real
  {
    (r: Row) => if r.currency == c then r.amount else 0.0
  }

  lemma TransferConserves(rows: seq<Row>, i: nat, j: nat, amount: real, c: string)
    requires i < |rows| && j < |rows| && rows[i].currency == rows[j].currency
    ensures Sum(Transfer(rows, i, j, amount), InCurrency(c)) == Sum(rows, InCurrency(c))
  {
    var half := AddTo(rows, i, -amount);
    SumUpdate(rows, i, half[i], InCurrency(c));
    SumUpdate(half, j, AddTo(half, j, amount)[j], InCurrency(c));
  }

  lemma ProcessConserves(s: State, broker: Account, cb: Callback, c: string)
    ensures Sum(Process(s, broker, cb).0.rows, InCurrency(c)) == Sum(s.rows, InCurrency(c))
  {
    if Check(s, broker, cb).None? {
      var rows := Upsert(s.rows, cb.user.value, cb.currency);
      SumAppend(s.rows, Row(cb.user.value, cb.currency, 0.0), InCurrency(c));
      var source, target := FindRow(rows, broker, cb.currency), FindRow(rows, cb.user.value, cb.currency);
      if source.Some? { TransferConserves(rows, source.value, target.value, cb.amount, c); }
    }
  }

  /** Whatever callbacks come and whichever attempts fail, the total of every currency is constant. */
  lemma {:induction false} TotalsConstant(s: State, broker: Account, callbacks: seq<Callback>, c: string)
    ensures Sum(Run(s, broker, callbacks).rows, InCurrency(c)) == Sum(s.rows, InCurrency(c))
  {
    if callbacks != [] {
      var most := callbacks[..|callbacks| - 1];
      TotalsConstant(s, broker, most, c);
      ProcessConserves(Run(s, broker, most), broker, callbacks[|callbacks| - 1], c);
    }
  }

  // ---- the broker ----

  /** The first rows of an account keep their places when rows are appended or change amount. */
  lemma {:induction false} FindRowStable(rows: seq<Row>, more: seq<Row>, a: Account, c: string)
    requires |rows| <= |more| && FindRow(rows, a, c).Some?
    requires forall i :: 0 <= i < |rows| ==> more[i].account == rows[i].account && more[i].currency == rows[i].currency
    ensures FindRow(more, a, c) == FindRow(rows, a, c)
    decreases |more|
  {
    var n := |more| - 1;
    assert |more| == |rows| ==> forall j :: 0 <= j < n ==>
      more[..n][j].account == rows[..n][j].account && more[..n][j].currency == rows[..n][j].currency;
    if |more| > |rows| {
      FindRowStable(rows, more[..n], a, c);
    } else if FindRow(rows[..n], a, c).Some? {
      FindRowStable(rows[..n], more[..n], a, c);
    }
  }

  predicate Solvent(rows: seq<Row>, broker: Account, c: string)
  {
    var i := FindRow(rows, broker, c);
    i.Some? && rows[i.value].amount >= 0.0
  }

  lemma TransferKeepsSolvent(rows: seq<Row>, i: nat, j: nat, amount: real, broker: Account, c: string)
    requires i < |rows| && j < |rows| && Solvent(rows, broker, c)
    requires 0.0 <= amount <= rows[i].amount
    ensures Solvent(Transfer(rows, i, j, amount), broker, c)
  {
    var k := FindRow(rows, broker, c).value;
    FindRowStable(rows, Transfer(rows, i, j, amount), broker, c);
    assert k != i && k != j ==> Transfer(rows, i, j, amount)[k] == rows[k];
  }

  lemma ProcessKeepsSolvent(s: State, broker: Account, cb: Callback, c: string)
    requires Solvent(s.rows, broker, c)
    ensures Solvent(Process(s, broker, cb).0.rows, broker, c)
  {
    if Check(s, broker, cb).None? {
      var rows := Upsert(s.rows, cb.user.value, cb.currency);
      FindRowStable(s.rows, rows, broker, c);
      FindRowStable(s.rows, rows, broker, cb.currency);
      var source, target := FindRow(rows, broker, cb.currency).value, FindRow(rows, cb.user.value, cb.currency).value;
      assert Solvent(rows, broker, c) && 0.0 <= cb.amount <= rows[source].amount;
      TransferKeepsSolvent(rows, source, target, cb.amount, broker, c);
    }
  }

  /** A broker row that starts at zero or above never goes below. */
  lemma {:induction false} BrokerNeverNegative(s: State, broker: Account, callbacks: seq<Callback>, c: string)
    requires Solvent(s.rows, broker, c)
    ensures Solvent(Run(s, broker, callbacks).rows, broker, c)
  {
    if callbacks != [] {
      BrokerNeverNegative(s, broker, callbacks[..|callbacks| - 1], c);
      ProcessKeepsSolvent(Run(s, broker, callbacks[..|callbacks| - 1]), broker, callbacks[|callbacks| - 1], c);
    }
  }

  // ---- how often a number moves money ----

  function MovesOf(number: string): Move -> real
  {
    (m: Move) => if m.number == number then 1.0 else 0.0
  }

  function LostOf(number: string): Move -> real
  {
    (m: Move) => if m.number == number && !m.recorded then 1.0 else 0.0
  }

  predicate Tallied(s: State, number: string)
  {
    Sum(s.moves, MovesOf(number)) == Sum(s.moves, LostOf(number)) + if number in s.recorded then 1.0 else 0.0
  }

  lemma RecordKeepsTally(s: State, m: Move, rows: seq<Row>, number: string)
    requires Tallied(s, number) && m.number !in s.recorded
    ensures Tallied(State(rows, s.recorded + if m.recorded then {m.number} else {}, s.moves + [m]), number)
  {
    SumAppend(s.moves, m, MovesOf(number));
    SumAppend(s.moves, m, LostOf(number));
  }

  lemma ProcessKeepsTally(s: State, broker: Account, cb: Callback, number: string)
    requires Tallied(s, number)
    ensures Tallied(Process(s, broker, cb).0, number)
  {
    var r := Process(s, broker, cb).0;
    if r.moves != s.moves {
      var m := Move(cb.number, cb.records);
      RecordKeepsTally(s, m, r.rows, number);
      assert r == State(r.rows, s.recorded + if m.recorded then {m.number} else {}, s.moves + [m]);
    }
  }

  /** In every run the times a number moved money are one if it is recorded, plus the times it moved money and was
      then not recorded. */
  lemma {:induction false} MovesAreRecordedOrLost(s: State, broker: Account, callbacks: seq<Callback>, number: string)
    requires s.moves == [] && s.recorded == {}
    ensures Tallied(Run(s, broker, callbacks), number)
  {
    if callbacks != [] {
      var most := callbacks[..|callbacks| - 1];
      MovesAreRecordedOrLost(s, broker, most, number);
      ProcessKeepsTally(Run(s, broker, most), broker, callbacks[|callbacks| - 1], number);
    }
  }

  /** So a number moves money at most once when none of its recordings fails. */
  lemma {:induction false} MovesAtMostOnce(s: State, broker: Account, callbacks: seq<Callback>, number: string)
    requires s.moves == [] && s.recorded == {}
    requires forall i :: 0 <= i < |callbacks| && callbacks[i].number == number ==> callbacks[i].records
    ensures Sum(Run(s, broker, callbacks).moves, MovesOf(number)) <= 1.0
  {
    MovesAreRecordedOrLost(s, broker, callbacks, number);
    AllRecorded(s, broker, callbacks, number);
    var moves := Run(s, broker, callbacks).moves;
    SumZero(moves, LostOf(number));
  }

  predicate NoneLost(moves: seq<Move>, number: string)
  {
    forall i :: 0 <= i < |moves| ==> LostOf(number)(moves[i]) == 0.0
  }

  lemma {:induction false} AllRecorded(s: State, broker: Account, callbacks: seq<Callback>, number: string)
    requires s.moves == []
    requires forall i :: 0 <= i < |callbacks| && callbacks[i].number == number ==> callbacks[i].records
    ensures NoneLost(Run(s, broker, callbacks).moves, number)
  {
    if callbacks != [] {
      var most, cb := callbacks[..|callbacks| - 1], callbacks[|callbacks| - 1];
      AllRecorded(s, broker, most, number);
      var was, moves := Run(s, broker, most).moves, Run(s, broker, callbacks).moves;
      assert moves == was || moves == was + [Move(cb.number, cb.records)];
    }
  }

  /** A valid callback that moves its money without being recorded is still valid while the broker holds enough. */
  lemma UnrecordedStaysValid(s: State, broker: Account, cb: Callback)
    requires Valid(s, broker, cb) && Transferable(cb) && !cb.records && cb.user.value != broker
    requires Holding(s.rows, broker, cb.currency) >= 2.0 * cb.amount
    ensures Valid(Process(s, broker, cb).0, broker, cb)
  {
    ReplyMeans(s, broker, cb);
    ProcessBrings(s, broker, cb, broker, cb.currency);
  }

  /** A callback whose recording fails moves the same money again when it is repeated. */
  lemma FailedRecordingRepeats(s: State, broker: Account, cb: Callback)
    requires Check(s, broker, cb).None? && !cb.records && cb.transfers(1) && cb.user.value != broker
    requires s.rows[FindRow(s.rows, broker, cb.currency).value].amount >= 2.0 * cb.amount
    ensures var once := Process(s, broker, cb).0;
            var twice := Process(once, broker, cb).0;
            && |once.moves| == |s.moves| + 1 && |twice.moves| == |s.moves| + 2
            && Holding(twice.rows, cb.user.value, cb.currency)
                 == Holding(s.rows, cb.user.value, cb.currency) + 2.0 * cb.amount
  {
    var once := Process(s, broker, cb).0;
    ReplyMeans(s, broker, cb);
    HoldingIsFirst(s.rows, broker, cb.currency);
    UnrecordedStaysValid(s, broker, cb);
    ReplyMeans(once, broker, cb);
    ProcessBrings(s, broker, cb, cb.user.value, cb.currency);
    ProcessBrings(once, broker, cb, cb.user.value, cb.currency);
  }

  /** What a callback does, said without its steps: the reply; the user gains the amount and the broker loses it exactly
      when the money moved, and nothing else changes hands; totals, solvent broker rows and tallies are kept. */
  ghost predicate Outcome(s: State, broker: Account, cb: Callback, t: State, reply: Reply)
  {
    var moved := reply == Success || reply == RecordFailed;
    && reply == (if !Valid(s, broker, cb) then FirstRefusal(s, broker, cb)
                 else if !Transferable(cb) then ProcessFailed
                 else if cb.records then Success else RecordFailed)
    && (moved && cb.user.value != broker ==>
          && Holding(t.rows, broker, cb.currency) == Holding(s.rows, broker, cb.currency) - cb.amount
          && Holding(t.rows, cb.user.value, cb.currency) == Holding(s.rows, cb.user.value, cb.currency) + cb.amount)
    && (forall a, c ::
          !moved || cb.user.value == broker || c != cb.currency || (a != broker && a != cb.user.value) ==>
            Holding(t.rows, a, c) == Holding(s.rows, a, c))
    && (forall c :: Sum(t.rows, InCurrency(c)) == Sum(s.rows, InCurrency(c)))
    && (forall c :: Solvent(s.rows, broker, c) ==> Solvent(t.rows, broker, c))
    && forall number :: Tallied(s, number) ==> Tallied(t, number)
  }

  lemma ProcessHasOutcome(s: State, broker: Account, cb: Callback)
    ensures Outcome(s, broker, cb, Process(s, broker, cb).0, Process(s, broker, cb).1)
  {
    var (t, reply) := Process(s, broker, cb);
    ReplyMeans(s, broker, cb);
    forall a, c ensures Holding(t.rows, a, c) == Holding(s.rows, a, c) + Brings(reply, broker, cb, a, c) {
      ProcessBrings(s, broker, cb, a, c);
    }
    forall c ensures Sum(t.rows, InCurrency(c)) == Sum(s.rows, InCurrency(c)) { ProcessConserves(s, broker, cb, c); }
    forall c | Solvent(s.rows, broker, c) ensures Solvent(t.rows, broker, c) { ProcessKeepsSolvent(s, broker, cb, c); }
    forall number | Tallied(s, number) ensures Tallied(t, number) { ProcessKeepsTally(s, broker, cb, number); }
  }

  // ---- the service ----

  class OnusService {
    var rows: seq<Row>
    var recorded: set<string>
    ghost var moves: seq<Move>

    ghost function View(): State
      reads this
    {
      State(rows, recorded, moves)
    }

    method CheckTransaction(tries: nat -> bool, attempt: nat) returns (ok: bool)
      ensures ok == Retry(tries, attempt).0
      decreases MAX_RETRY - attempt
    {
      if tries(attempt) { return true; }
      if attempt < MAX_RETRY {
        ok := CheckTransaction(tries, attempt + 1);
      } else {
        ok := false;
      }
    }

    method DoProcessTransaction(source: nat, target: nat, amount: real, tries: nat -> bool, attempt: nat)
      returns (ok: bool)
      requires source < |rows| && target < |rows|
      modifies this`rows
      ensures ok == Retry(tries, attempt).0
      ensures rows == if ok then Transfer(old(rows), source, target, amount) else old(rows)
      decreases MAX_RETRY - attempt
    {
      if tries(attempt) {
        rows := rows[source := rows[source].(amount := rows[source].amount - amount)];
        rows := rows[target := rows[target].(amount := rows[target].amount + amount)];
        return true;
      }
      if attempt < MAX_RETRY {
        ok := DoProcessTransaction(source, target, amount, tries, attempt + 1);
      } else {
        ok := false;
      }
    }

    method ProcessTransaction(cb: Callback, broker: Account) returns (reply: Reply)
      modifies this
      ensures (View(), reply) == Process(old(View()), broker, cb)
      ensures Outcome(old(View()), broker, cb, View(), reply)
    {
      ProcessHasOutcome(View(), broker, cb);
      var row := FindRow(rows, broker, cb.currency);
      if cb.currency != "VNDC" && cb.currency != "BBC" { return CoinInvalid; }
      if cb.amount < 1000.0 { return AmountInvalidMin; }
      if row.None? || rows[row.value].amount - cb.amount < 0.0 { return AmountInvalid; }
      if cb.user.None? { return AccountInvalid; }
      var found := CheckTransaction(cb.lookups, 1);
      if !found { return TransactionInvalid; }
      var tx := cb.remote;
      if tx.number != cb.number || tx.currency != cb.currency || tx.amount != cb.amount { return InvalidPayload; }
      if !tx.recent { return OutOfDate; }
      if !tx.senderMatches { return ReceiverInvalid; }
      if cb.number in recorded { return AlreadyExisted; }
      FindRowStable(rows, Upsert(rows, cb.user.value, cb.currency), broker, cb.currency);
      if FindRow(rows, cb.user.value, cb.currency).None? {
        rows := rows + [Row(cb.user.value, cb.currency, 0.0)];
      }
      var source, target := FindRow(rows, broker, cb.currency), FindRow(rows, cb.user.value, cb.currency);
      var moved := DoProcessTransaction(source.value, target.value, cb.amount, cb.transfers, 1);
      if !moved { return ProcessFailed; }
      moves := moves + [Move(cb.number, cb.records)];
      if !cb.records { return RecordFailed; }
      recorded := recorded + {cb.number};
      reply := Success;
    }
  }
}
