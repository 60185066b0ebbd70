/** Affiliate cashback: importing transactions from feeds and reconciling the ones still open. Each feed item is one
    step; what the wallet does with a payload is to credit the receiver and set the named row to SUCCESS. */
module AccessTrade {
  import opened Common

  type Account = int

  datatype Status = Processing | Approved | Success | Rejected

  /** A cashback row; (`transactionId`, `productId`) identifies the affiliate transaction. */
  datatype Row = Row(id: int, transactionId: string, productId: string, receiver: Account, amount: real, status: Status)

  datatype FeedStatus = Hold | FeedApproved | FeedRejected

  datatype Item = Item(id: int, transactionId: string, productId: string, status: FeedStatus, confirmed: bool)

  datatype Payment = Payment(transactionId: string, productId: string, receiver: Account, amount: real)

  datatype State = State(rows: seq<Row>, payments: seq<Payment>)

  /** `commission` is already converted and rounded; `bonus` is the daily reward's value, absent without a reward. */
  datatype Event =
    | ImportPending(item: Item, account: Option<Account>, commission: real, newId: int)
    | ImportSuccess(item: Item, account: Option<Account>, commission: real, bonus: Option<real>, newId: int)
    | Reconcile(item: Item, reward: real)

  predicate SamePair(r: Row, t: Item)
  {
    r.transactionId == t.transactionId && r.productId == t.productId
  }

  predicate Exists(rows: seq<Row>, t: Item)
  {
    exists i :: 0 <= i < |rows| && SamePair(rows[i], t)
  }

  predicate Open(r: Row)
  {
    r.status == Processing || r.status == Approved
  }

  /** The first open row of the item's pair. */
  function FindOpen(rows: seq<Row>, t: Item): (r: Option<nat>)
    ensures r.Some? ==> r.value < |rows| && Open(rows[r.value]) && SamePair(rows[r.value], t)
    ensures r.None? ==> forall i :: 0 <= i < |rows| ==> !(Open(rows[i]) && SamePair(rows[i], t))
  {
    if rows == [] then None
    else
      var n := |rows| - 1;
      var i := FindOpen(rows[..n], t);
      if i.Some? then i else if Open(rows[n]) && SamePair(rows[n], t) then Some(n) else None
  }

  function FindId(rows: seq<Row>, id: int): (r: Option<nat>)
    ensures r.Some? ==> r.value < |rows| && rows[r.value].id == id
    ensures r.None? ==> forall i :: 0 <= i < |rows| ==> rows[i].id != id
  {
    if rows == [] then None
    else
      var n := |rows| - 1;
      var i := FindId(rows[..n], id);
      if i.Some? then i else if rows[n].id == id then Some(n) else None
  }

  /** A pending import: an approved item that is not confirmed starts as APPROVED. */
  function InsertCbTransPending(s: State, t: Item, account: Option<Account>, commission: real, newId: int): State
  {
    if Exists(s.rows, t) || account.None? || commission == 0.0 then s
    else
      var status := if t.status == FeedApproved then Approved else Processing;
      s.(rows := s.rows + [Row(newId, t.transactionId, t.productId, account.value, commission, status)])
  }

  /** A confirmed import is paid at once. Without a daily reward the sum is not a number and the wallet refuses it. */
  function InsertCbTransSuccess(
    s: State, t: Item, account: Option<Account>, commission: real, bonus: Option<real>, newId: int): State
  {
    if Exists(s.rows, t) || account.None? || bonus.None? || commission + bonus.value == 0.0 then s
    else
      var amount := commission + bonus.value;
      State(s.rows + [Row(newId, t.transactionId, t.productId, account.value, amount, Success)],
            s.payments + [Payment(t.transactionId, t.productId, account.value, amount)])
  }

  /** The status a reconciled item asks for, or nothing to do. */
  function NewStatus(t: Item, current: Status): Option<Status>
  {
    if t.status == Hold then None
    else if t.status == FeedRejected then Some(Rejected)
    else if !t.confirmed then if current == Approved then None else Some(Approved)
    else Some(Success)
  }

  /** The wallet's part: the payload names the row by the feed's id, as written. */
  function Settle(s: State, r: Row, id: int, amount: real): State
  {
    var i := FindId(s.rows, id);
    State(if i.Some? then s.rows[i.value := s.rows[i.value].(status := Success, amount := amount)] else s.rows,
          s.payments + [Payment(r.transactionId, r.productId, r.receiver, amount)])
  }

  /** One item of the reconcile job; every status but SUCCESS zeroes the amount, as written. */
  function ReconcileItem(s: State, t: Item, reward: real): State
  {
    var i := FindOpen(s.rows, t);
    if i.None? then s
    else
      var r := s.rows[i.value];
      match NewStatus(t, r.status)
      case None => s
      case Some(Success) => Settle(s, r, t.id, r.amount + reward)
      case Some(status) => s.(rows := s.rows[i.value := r.(status := status, amount := 0.0)])
  }

  predicate FreshId(rows: seq<Row>, id: int)
  {
    FindId(rows, id).None?
  }

  function Step(s: State, e: Event): State
  {
    match e
    case ImportPending(t, account, commission, newId) =>
      if FreshId(s.rows, newId) then InsertCbTransPending(s, t, account, commission, newId) else s
    case ImportSuccess(t, account, commission, bonus, newId) =>
      if FreshId(s.rows, newId) then InsertCbTransSuccess(s, t, account, commission, bonus, newId) else s
    case Reconcile(t, reward) => ReconcileItem(s, t, reward)
  }

  function Run(events: seq<Event>): State
  {
    if events == [] then State([], []) else Step(Run(events[..|events| - 1]), events[|events| - 1])
  }

  // ---- one row per pair ----

  ghost predicate UniqueRows(rows: seq<Row>)
  {
    forall i, j :: 0 <= i < j < |rows| ==>
      && rows[i].id != rows[j].id
      && !(rows[i].transactionId == rows[j].transactionId && rows[i].productId == rows[j].productId)
  }

  /** Rows keep their identity, pair and receiver. */
  ghost predicate SameIdentity(a: Row, b: Row)
  {
    a.id == b.id && a.transactionId == b.transactionId && a.productId == b.productId && a.receiver == b.receiver
  }

  lemma StepKeepsRows(s: State, e: Event)
    ensures var t := Step(s, e);
            |s.rows| <= |t.rows| <= |s.rows| + 1 && forall i :: 0 <= i < |s.rows| ==> SameIdentity(s.rows[i], t.rows[i])
    ensures UniqueRows(s.rows) ==> UniqueRows(Step(s, e).rows)
  {
  }

  // ---- the status order ----

  /** PROCESSING before APPROVED before the two final states, which are never left. */
  predicate Moves(a: Status, b: Status)
  {
    a == b || a == Processing || (a == Approved && (b == Success || b == Rejected))
  }

  /** The step settles an open row. */
  predicate Settles(s: State, e: Event)
  {
    e.Reconcile? && FindOpen(s.rows, e.item).Some?
    && NewStatus(e.item, s.rows[FindOpen(s.rows, e.item).value].status) == Some(Success)
  }

  /** A settled item carries the id of the row it is about. */
  predicate IdMatches(s: State, e: Event)
  {
    Settles(s, e) ==> s.rows[FindOpen(s.rows, e.item).value].id == e.item.id
  }

  lemma FindIdUnique(rows: seq<Row>, i: nat)
    requires UniqueRows(rows) && i < |rows|
    ensures FindId(rows, rows[i].id) == Some(i)
  {
  }

  /** The settlement of an item whose id names a REJECTED row, which it turns to SUCCESS. */
  predicate RevivesRejected(s: State, e: Event)
  {
    Settles(s, e) && var named := FindId(s.rows, e.item.id); named.Some? && s.rows[named.value].status == Rejected
  }

  /** A step moves every status forward if and only if it does not revive a rejected row. */
  lemma StatusMovesForwardIff(s: State, e: Event)
    ensures |s.rows| <= |Step(s, e).rows|
    ensures (forall i :: 0 <= i < |s.rows| ==> Moves(s.rows[i].status, Step(s, e).rows[i].status)) <==>
            !RevivesRejected(s, e)
  {
    if RevivesRejected(s, e) {
      var k := FindId(s.rows, e.item.id).value;
      assert !Moves(s.rows[k].status, Step(s, e).rows[k].status);
    }
  }

  /** In particular when settled items carry the id of the row they are about. */
  lemma StatusOnlyMovesForward(s: State, e: Event, i: nat)
    requires UniqueRows(s.rows) && IdMatches(s, e) && i < |s.rows|
    ensures i < |Step(s, e).rows| && Moves(s.rows[i].status, Step(s, e).rows[i].status)
  {
    if e.Reconcile? {
      var k := FindOpen(s.rows, e.item);
      if k.Some? { FindIdUnique(s.rows, k.value); }
    }
    StatusMovesForwardIff(s, e);
  }

  // ---- paid once, on reaching SUCCESS ----

  function PaymentsOf(payments: seq<Payment>, r: Row): nat
  {
    if payments == [] then 0
    else
      var p := payments[|payments| - 1];
      PaymentsOf(payments[..|payments| - 1], r)
      + if p.transactionId == r.transactionId && p.productId == r.productId then 1 else 0
  }

  lemma {:induction false} PaymentsDependOnPair(payments: seq<Payment>, a: Row, b: Row)
    requires a.transactionId == b.transactionId && a.productId == b.productId
    ensures PaymentsOf(payments, a) == PaymentsOf(payments, b)
  {
    if payments != [] { PaymentsDependOnPair(payments[..|payments| - 1], a, b); }
  }

  lemma PaymentsAppend(payments: seq<Payment>, p: Payment, r: Row)
    ensures PaymentsOf(payments + [p], r)
         == PaymentsOf(payments, r) + if p.transactionId == r.transactionId && p.productId == r.productId then 1 else 0
  {
    assert (payments + [p])[..|payments|] == payments;
  }

  /** A SUCCESS row has been paid exactly once and any other not at all; every payment has its row. */
  ghost predicate PaidOnce(s: State)
  {
    && UniqueRows(s.rows)
    && (forall i :: 0 <= i < |s.rows| ==>
          PaymentsOf(s.payments, s.rows[i]) == if s.rows[i].status == Success then 1 else 0)
    && (forall p :: p in s.payments ==> Recorded(s.rows, p))
  }

  /** The payment's row: same pair, receiver and amount, and SUCCESS. */
  ghost predicate Recorded(rows: seq<Row>, p: Payment)
  {
    exists i :: 0 <= i < |rows| && rows[i].transactionId == p.transactionId && rows[i].productId == p.productId
                && rows[i].receiver == p.receiver && rows[i].amount == p.amount && rows[i].status == Success
  }

  lemma {:induction false} UnrecordedNotPaid(payments: seq<Payment>, rows: seq<Row>, r: Row)
    requires forall p :: p in payments ==> Recorded(rows, p)
    requires forall i :: 0 <= i < |rows| ==>
               !(rows[i].transactionId == r.transactionId && rows[i].productId == r.productId)
    ensures PaymentsOf(payments, r) == 0
  {
    if payments != [] {
      var n := |payments| - 1;
      assert payments[n] in payments;
      assert forall p :: p in payments[..n] ==> p in payments;
      UnrecordedNotPaid(payments[..n], rows, r);
    }
  }

  /** The payment a row gets when it becomes SUCCESS. */
  function PaymentFor(r: Row): seq<Payment>
  {
    if r.status == Success then [Payment(r.transactionId, r.productId, r.receiver, r.amount)] else []
  }

  lemma PaymentForCounts(payments: seq<Payment>, r: Row, other: Row)
    ensures PaymentsOf(payments + PaymentFor(r), other) == PaymentsOf(payments, other)
              + if r.status == Success && r.transactionId == other.transactionId && r.productId == other.productId
                then 1 else 0
  {
    if r.status == Success {
      PaymentsAppend(payments, PaymentFor(r)[0], other);
    } else {
      assert payments + PaymentFor(r) == payments;
    }
  }

  /** Payments keep their rows when SUCCESS rows stay, and a new payment has the row it is for. */
  lemma RecordsKept(rows: seq<Row>, payments: seq<Payment>, more: seq<Row>, k: nat)
    requires forall p :: p in payments ==> Recorded(rows, p)
    requires |rows| <= |more| && k < |more|
    requires forall i :: 0 <= i < |rows| && rows[i].status == Success ==> more[i] == rows[i]
    ensures forall p :: p in payments + PaymentFor(more[k]) ==> Recorded(more, p)
  {
    forall p | p in payments + PaymentFor(more[k]) ensures Recorded(more, p) {
      if p in payments {
        var i :| 0 <= i < |rows| && rows[i].transactionId == p.transactionId && rows[i].productId == p.productId
                 && rows[i].receiver == p.receiver && rows[i].amount == p.amount && rows[i].status == Success;
        assert more[i] == rows[i];
      }
    }
  }

  lemma ImportKeepsPaidOnce(s: State, r: Row)
    requires PaidOnce(s) && UniqueRows(s.rows + [r])
    ensures PaidOnce(State(s.rows + [r], s.payments + PaymentFor(r)))
  {
    var rows := s.rows + [r];
    assert forall i :: 0 <= i < |s.rows| ==> rows[i] == s.rows[i];
    assert rows[|s.rows|] == r;
    UnrecordedNotPaid(s.payments, s.rows, r);
    RecordsKept(s.rows, s.payments, rows, |s.rows|);
    forall i | 0 <= i < |rows|
      ensures PaymentsOf(s.payments + PaymentFor(r), rows[i]) == if rows[i].status == Success then 1 else 0
    { PaymentForCounts(s.payments, r, rows[i]); }
  }

  /** Changing an open row, and paying it when it becomes SUCCESS. */
  lemma ChangeKeepsPaidOnce(s: State, k: nat, r: Row)
    requires PaidOnce(s) && k < |s.rows| && Open(s.rows[k]) && SameIdentity(s.rows[k], r)
    ensures PaidOnce(State(s.rows[k := r], s.payments + PaymentFor(r)))
  {
    var rows := s.rows[k := r];
    RecordsKept(s.rows, s.payments, rows, k);
    forall i | 0 <= i < |rows|
      ensures PaymentsOf(s.payments + PaymentFor(r), rows[i]) == if rows[i].status == Success then 1 else 0
    {
      PaymentForCounts(s.payments, r, rows[i]);
      PaymentsDependOnPair(s.payments, rows[i], s.rows[i]);
    }
  }

  /** A step appends a row of a new pair, or changes one open row, and pays the row it makes SUCCESS. */
  lemma StepShape(s: State, e: Event) returns (k: nat, r: Row)
    requires UniqueRows(s.rows) && IdMatches(s, e)
    ensures var t := Step(s, e);
            || t == s
            || (k == |s.rows| && t == State(s.rows + [r], s.payments + PaymentFor(r)))
            || (k < |s.rows| && Open(s.rows[k]) && SameIdentity(s.rows[k], r)
                && t == State(s.rows[k := r], s.payments + PaymentFor(r)))
  {
    var t := Step(s, e);
    r := Row(0, "", "", 0, 0.0, Processing);
    if e.Reconcile? {
      var found := FindOpen(s.rows, e.item);
      k := if found.Some? then found.value else 0;
      if found.Some? {
        FindIdUnique(s.rows, k);
        r := t.rows[k];
      }
    } else {
      k := |s.rows|;
      if t != s { r := t.rows[k]; }
    }
  }

  lemma StepKeepsPaidOnce(s: State, e: Event)
    requires PaidOnce(s) && IdMatches(s, e)
    ensures PaidOnce(Step(s, e))
  {
    StepKeepsRows(s, e);
    var k, r := StepShape(s, e);
    if Step(s, e) != s {
      if k == |s.rows| { ImportKeepsPaidOnce(s, r); } else { ChangeKeepsPaidOnce(s, k, r); }
    }
  }

  lemma ForeignIdBreaksPaidOnce(s: State, k: nat, id: int, amount: real)
    requires PaidOnce(s) && k < |s.rows| && Open(s.rows[k]) && id != s.rows[k].id
    ensures !PaidOnce(Settle(s, s.rows[k], id, amount))
  {
    var r, after := s.rows[k], Settle(s, s.rows[k], id, amount);
    PaymentsAppend(s.payments, Payment(r.transactionId, r.productId, r.receiver, amount), r);
    assert PaymentsOf(s.payments, r) == 0;
    assert after.rows[k] == r && PaymentsOf(after.payments, after.rows[k]) == 1;
  }

  lemma OwnIdKeepsPaidOnce(s: State, k: nat, amount: real)
    requires PaidOnce(s) && k < |s.rows| && Open(s.rows[k])
    ensures PaidOnce(Settle(s, s.rows[k], s.rows[k].id, amount))
  {
    var r := s.rows[k].(status := Success, amount := amount);
    FindIdUnique(s.rows, k);
    ChangeKeepsPaidOnce(s, k, r);
    assert Settle(s, s.rows[k], s.rows[k].id, amount) == State(s.rows[k := r], s.payments + PaymentFor(r));
  }

  /** For an open row, paying once survives a settlement exactly when the payload carries the row's own id. */
  lemma PaidOnceIffIdMatches(s: State, k: nat, id: int, amount: real)
    requires PaidOnce(s) && k < |s.rows| && Open(s.rows[k])
    ensures PaidOnce(Settle(s, s.rows[k], id, amount)) <==> id == s.rows[k].id
  {
    if id == s.rows[k].id {
      OwnIdKeepsPaidOnce(s, k, amount);
    } else {
      ForeignIdBreaksPaidOnce(s, k, id, amount);
    }
  }

  ghost predicate IdsMatch(events: seq<Event>)
  {
    events != [] ==> IdsMatch(events[..|events| - 1]) && IdMatches(Run(events[..|events| - 1]), events[|events| - 1])
  }

  /** Over any imports and reconciliations there is at most one row per pair; and while settled items carry their row's
      id, a row has been paid exactly once when it is SUCCESS and not at all otherwise, each payment being the
      amount and receiver of its row. */
  lemma {:induction false} RowsPaidOnce(events: seq<Event>)
    ensures UniqueRows(Run(events).rows)
    ensures IdsMatch(events) ==> PaidOnce(Run(events))
  {
    if events != [] {
      var most, e := events[..|events| - 1], events[|events| - 1];
      RowsPaidOnce(most);
      StepKeepsRows(Run(most), e);
      if IdsMatch(events) { StepKeepsPaidOnce(Run(most), e); }
    }
  }

  ghost predicate NoneRevived(events: seq<Event>)
  {
    events != [] ==>
      var most := events[..|events| - 1];
      NoneRevived(most) && !RevivesRejected(Run(most), events[|events| - 1])
  }

  /** From any moment of a run to its end statuses only move forward, as long as no step revives a rejected row. */
  lemma {:induction false} StatusNeverMovesBack(events: seq<Event>, m: nat, i: nat)
    requires NoneRevived(events) && m <= |events| && i < |Run(events[..m]).rows|
    ensures i < |Run(events).rows| && Moves(Run(events[..m]).rows[i].status, Run(events).rows[i].status)
  {
    if m == |events| {
      assert events[..m] == events;
    } else {
      var most := events[..|events| - 1];
      assert most[..m] == events[..m];
      StatusNeverMovesBack(most, m, i);
      StatusMovesForwardIff(Run(most), events[|events| - 1]);
    }
  }

  /** Which holds in every run whose settled items carry their row's id. */
  lemma {:induction false} MatchingIdsReviveNone(events: seq<Event>)
    requires IdsMatch(events)
    ensures NoneRevived(events)
  {
    if events != [] {
      var most, e := events[..|events| - 1], events[|events| - 1];
      MatchingIdsReviveNone(most);
      RowsPaidOnce(most);
      if e.Reconcile? && FindOpen(Run(most).rows, e.item).Some? {
        FindIdUnique(Run(most).rows, FindOpen(Run(most).rows, e.item).value);
      }
    }
  }

  lemma SettlesIsSettle(s: State, e: Event) returns (k: nat)
    requires Settles(s, e)
    ensures k < |s.rows| && Open(s.rows[k]) && (s.rows[k].id == e.item.id <==> IdMatches(s, e))
    ensures Step(s, e) == Settle(s, s.rows[k], e.item.id, s.rows[k].amount + e.reward)
  {
    k := FindOpen(s.rows, e.item).value;
  }

  lemma StepKeepsPaidOnceIff(s: State, e: Event)
    requires PaidOnce(s)
    ensures PaidOnce(Step(s, e)) <==> IdMatches(s, e)
  {
    if Settles(s, e) {
      var k := SettlesIsSettle(s, e);
      PaidOnceIffIdMatches(s, k, e.item.id, s.rows[k].amount + e.reward);
    } else {
      StepKeepsPaidOnce(s, e);
    }
  }

  /** At every moment of the run. */
  ghost predicate AlwaysPaidOnce(events: seq<Event>)
  {
    PaidOnce(Run(events)) && (events != [] ==> AlwaysPaidOnce(events[..|events| - 1]))
  }

  /** In every run, rows are paid exactly once when SUCCESS and never otherwise, at every moment, if and only if no item
      settles a row under another id than its own. */
  lemma {:induction false} AlwaysPaidOnceIffIdsMatch(events: seq<Event>)
    ensures AlwaysPaidOnce(events) <==> IdsMatch(events)
  {
    if events != [] {
      var most := events[..|events| - 1];
      AlwaysPaidOnceIffIdsMatch(most);
      if AlwaysPaidOnce(most) { StepKeepsPaidOnceIff(Run(most), events[|events| - 1]); }
    }
  }

  // ---- what a row is paid ----

  /** The status a step gives row i by reconciling it. */
  function Reconciled(s: State, e: Event, i: nat): Option<Status>
    requires i < |s.rows|
  {
    if e.Reconcile? && FindOpen(s.rows, e.item) == Some(i) then NewStatus(e.item, s.rows[i].status) else None
  }

  /** The amount row i was imported with. */
  function Imported(events: seq<Event>, i: nat): real
  {
    if events == [] then 0.0
    else
      var most, e := events[..|events| - 1], events[|events| - 1];
      if i != |Run(most).rows| then Imported(most, i)
      else match e
        case ImportPending(_, _, commission, _) => commission
        case ImportSuccess(_, _, commission, bonus, _) => commission + if bonus.Some? then bonus.value else 0.0
        case Reconcile(_, _) => 0.0
  }

  /** The daily reward of the item that settled row i. */
  function Rewarded(events: seq<Event>, i: nat): real
  {
    if events == [] then 0.0
    else
      var most, e := events[..|events| - 1], events[|events| - 1];
      if i < |Run(most).rows| && Reconciled(Run(most), e, i) == Some(Success) then e.reward else Rewarded(most, i)
  }

  /** Whether row i was ever reconciled as approved but not confirmed. */
  predicate Approves(events: seq<Event>, i: nat)
  {
    events != [] &&
      var most, e := events[..|events| - 1], events[|events| - 1];
      Approves(most, i) || (i < |Run(most).rows| && Reconciled(Run(most), e, i) == Some(Approved))
  }

  /** The amount of a row by its history: rejection leaves nothing, approval before confirmation drops what was
      imported, and the settlement adds its reward. */
  predicate Explained(r: Row, imported: real, rewarded: real, approved: bool)
  {
    && r.amount == (if r.status == Rejected then 0.0 else (if approved then 0.0 else imported) + rewarded)
    && (Open(r) ==> rewarded == 0.0)
  }

  ghost predicate AllExplained(events: seq<Event>)
  {
    forall i :: 0 <= i < |Run(events).rows| ==>
      Explained(Run(events).rows[i], Imported(events, i), Rewarded(events, i), Approves(events, i))
  }

  /** A step keeps a row explained, once what it reconciles is taken into its history. */
  lemma StepKeepsExplained(s: State, e: Event, i: nat, imported: real, rewarded: real, approved: bool)
    requires UniqueRows(s.rows) && IdMatches(s, e) && i < |s.rows| <= |Step(s, e).rows|
    requires Explained(s.rows[i], imported, rewarded, approved)
    ensures var given := Reconciled(s, e, i);
            Explained(Step(s, e).rows[i], imported,
              if given == Some(Success) then e.reward else rewarded, approved || given == Some(Approved))
  {
    if e.Reconcile? && FindOpen(s.rows, e.item).Some? { FindIdUnique(s.rows, FindOpen(s.rows, e.item).value); }
  }

  lemma StepExplains(events: seq<Event>, i: nat)
    requires events != [] && UniqueRows(Run(events[..|events| - 1]).rows) && AllExplained(events[..|events| - 1])
    requires IdMatches(Run(events[..|events| - 1]), events[|events| - 1]) && i < |Run(events).rows|
    requires Fresh(events[..|events| - 1], i)
    ensures Explained(Run(events).rows[i], Imported(events, i), Rewarded(events, i), Approves(events, i))
  {
    var most, e := events[..|events| - 1], events[|events| - 1];
    var s := Run(most);
    StepKeepsRows(s, e);
    if i < |s.rows| { StepKeepsExplained(s, e, i, Imported(most, i), Rewarded(most, i), Approves(most, i)); }
  }

  /** A row that is not there yet has no history. */
  predicate Fresh(events: seq<Event>, i: nat)
  {
    i >= |Run(events).rows| ==> Rewarded(events, i) == 0.0 && !Approves(events, i)
  }

  lemma {:induction false} NoRowNoHistory(events: seq<Event>, i: nat)
    ensures Fresh(events, i)
  {
    if events != [] {
      NoRowNoHistory(events[..|events| - 1], i);
      StepKeepsRows(Run(events[..|events| - 1]), events[|events| - 1]);
    }
  }

  lemma {:induction false} HistoryExplains(events: seq<Event>)
    requires IdsMatch(events)
    ensures AllExplained(events)
  {
    if events != [] {
      var most := events[..|events| - 1];
      HistoryExplains(most);
      RowsPaidOnce(most);
      forall i | 0 <= i < |Run(events).rows|
        ensures Explained(Run(events).rows[i], Imported(events, i), Rewarded(events, i), Approves(events, i))
      {
        NoRowNoHistory(most, i);
        StepExplains(events, i);
      }
    }
  }

  /** In every run whose settled items carry their row's id: a SUCCESS row has one payment, of the reward alone if it
      was once reconciled as approved and of the imported amount plus the reward otherwise; so it is paid in full if
      and only if it was never reconciled as approved, or imported with nothing. */
  lemma {:induction false} PaidInFullIff(events: seq<Event>, i: nat)
    requires IdsMatch(events) && i < |Run(events).rows| && Run(events).rows[i].status == Success
    ensures var s, imported, rewarded := Run(events), Imported(events, i), Rewarded(events, i);
            && PaymentsOf(s.payments, s.rows[i]) == 1
            && (forall p :: p in s.payments && SamePayee(p, s.rows[i]) ==>
                  p.amount == (if Approves(events, i) then 0.0 else imported) + rewarded
                  && (p.amount == imported + rewarded <==> !Approves(events, i) || imported == 0.0))
  {
    HistoryExplains(events);
    RowsPaidOnce(events);
    var s := Run(events);
    forall p | p in s.payments && SamePayee(p, s.rows[i]) ensures p.amount == s.rows[i].amount {
      assert Recorded(s.rows, p);
    }
  }

  predicate SamePayee(p: Payment, r: Row)
  {
    p.transactionId == r.transactionId && p.productId == r.productId
  }

  /** A confirmed import without a daily reward is lost: its sum is not a number and nothing is written. The reward 0 in
      its place would make no difference if and only if there is nothing to import. */
  lemma NoRewardLosesImport(s: State, t: Item, account: Option<Account>, commission: real, newId: int)
    ensures var lost := Step(s, ImportSuccess(t, account, commission, None, newId));
            var meant := Step(s, ImportSuccess(t, account, commission, Some(0.0), newId));
            && lost == s
            && (lost == meant <==>
                  Exists(s.rows, t) || account.None? || commission == 0.0 || !FreshId(s.rows, newId))
  {
    var meant := Step(s, ImportSuccess(t, account, commission, Some(0.0), newId));
    assert meant != s ==> |meant.rows| == |s.rows| + 1;
  }

  // ---- what an item does ----

  /** The row the item is about: of its pair, and waiting. */
  predicate AboutRow(s: State, t: Item, k: nat)
  {
    && k < |s.rows| && s.rows[k].transactionId == t.transactionId && s.rows[k].productId == t.productId
    && (s.rows[k].status == Processing || s.rows[k].status == Approved)
  }

  /** A held item, or one about no waiting row, changes nothing; a rejected one leaves its row REJECTED with nothing and
      pays nothing; an approved one that is not confirmed leaves it APPROVED with nothing and pays nothing; an approved
      and confirmed one with the row's id leaves it SUCCESS with its amount and the reward, and pays that to its
      receiver. */
  lemma ItemOutcome(s: State, t: Item, reward: real, k: nat)
    requires UniqueRows(s.rows)
    ensures var r := Step(s, Reconcile(t, reward));
            && (t.status == Hold || (forall i :: !AboutRow(s, t, i)) ==> r == s)
            && (AboutRow(s, t, k) && t.status == FeedRejected ==>
                  r == State(s.rows[k := s.rows[k].(status := Rejected, amount := 0.0)], s.payments))
            && (AboutRow(s, t, k) && t.status == FeedApproved && !t.confirmed ==>
                  if s.rows[k].status == Approved then r == s
                  else r == State(s.rows[k := s.rows[k].(status := Approved, amount := 0.0)], s.payments))
            && (AboutRow(s, t, k) && t.status == FeedApproved && t.confirmed && t.id == s.rows[k].id ==>
                  var paid := s.rows[k].amount + reward;
                  r == State(s.rows[k := s.rows[k].(status := Success, amount := paid)],
                             s.payments + [Payment(t.transactionId, t.productId, s.rows[k].receiver, paid)]))
  {
    if AboutRow(s, t, k) {
      var i := FindOpen(s.rows, t);
      assert Open(s.rows[k]) && SamePair(s.rows[k], t);
      assert i == Some(k);
      FindIdUnique(s.rows, k);
    } else {
      var i := FindOpen(s.rows, t);
      assert i.Some? ==> AboutRow(s, t, i.value);
    }
  }

  /** A new pair of a known account is imported as it came: pending with its commission, APPROVED if the feed approved
      it; confirmed with its commission and bonus, and paid that at once. Anything else imports nothing. */
  lemma ImportOutcome(s: State, t: Item, account: Option<Account>, commission: real, bonus: Option<real>, newId: int)
    requires forall i :: 0 <= i < |s.rows| ==> s.rows[i].id != newId
    ensures var isNew := forall i :: 0 <= i < |s.rows| ==>
                           s.rows[i].transactionId != t.transactionId || s.rows[i].productId != t.productId;
            && Step(s, ImportPending(t, account, commission, newId)) ==
                 (if !isNew || account.None? || commission == 0.0 then s
                  else s.(rows := s.rows + [Row(newId, t.transactionId, t.productId, account.value, commission,
                                                if t.status == FeedApproved then Approved else Processing)]))
            && Step(s, ImportSuccess(t, account, commission, bonus, newId)) ==
                 if !isNew || account.None? || bonus.None? || commission + bonus.value == 0.0 then s
                 else
                   var sum := commission + bonus.value;
                   State(s.rows + [Row(newId, t.transactionId, t.productId, account.value, sum, Success)],
                         s.payments + [Payment(t.transactionId, t.productId, account.value, sum)])
  {
    assert FreshId(s.rows, newId);
  }

  /** What may have given a row its status. */
  predicate Causes(e: Event, r: Row)
  {
    match r.status
    case Processing => e.ImportPending? && e.item.status != FeedApproved
    case Approved =>
      (e.ImportPending? && e.item.status == FeedApproved)
      || (e.Reconcile? && e.item.status == FeedApproved && !e.item.confirmed)
    case Success => e.ImportSuccess? || (e.Reconcile? && e.item.status == FeedApproved && e.item.confirmed)
    case Rejected => e.Reconcile? && e.item.status == FeedRejected
  }

  predicate OfPair(e: Event, r: Row)
  {
    e.item.transactionId == r.transactionId && e.item.productId == r.productId
  }

  lemma StepCauses(s: State, e: Event, i: nat)
    requires UniqueRows(s.rows) && IdMatches(s, e) && i < |Step(s, e).rows|
    requires i >= |s.rows| || Step(s, e).rows[i].status != s.rows[i].status
    ensures Causes(e, Step(s, e).rows[i]) && OfPair(e, Step(s, e).rows[i])
  {
    if e.Reconcile? && FindOpen(s.rows, e.item).Some? { FindIdUnique(s.rows, FindOpen(s.rows, e.item).value); }
  }

  /** In every run whose settled items carry their row's id, each row's status was given by an event of its pair:
      SUCCESS only by a confirmed import or an item both approved and confirmed, REJECTED only by a rejected item. */
  lemma {:induction false} StatusHasCause(events: seq<Event>, i: nat) returns (n: nat)
    requires IdsMatch(events) && i < |Run(events).rows|
    ensures n < |events| && Causes(events[n], Run(events).rows[i]) && OfPair(events[n], Run(events).rows[i])
  {
    var last := |events| - 1;
    var most := events[..last];
    var s := Run(most);
    RowsPaidOnce(most);
    StepKeepsRows(s, events[last]);
    if i < |s.rows| && Run(events).rows[i].status == s.rows[i].status {
      n := StatusHasCause(most, i);
    } else {
      StepCauses(s, events[last], i);
      n := last;
    }
  }

  /** With the feed's own id, which names no row, a confirmed item is paid again each time it is reconciled. */
  lemma ForeignIdPaysAgain(s: State, t: Item, reward: real)
    requires FindOpen(s.rows, t).Some? && t.status == FeedApproved && t.confirmed && FindId(s.rows, t.id).None?
    ensures var once := ReconcileItem(s, t, reward);
            var twice := ReconcileItem(once, t, reward);
            once.rows == s.rows && twice.rows == s.rows && |twice.payments| == |s.payments| + 2
  {
  }

  /** A row first reconciled as approved and then as confirmed is paid the reward alone, its own amount having been
      zeroed; one confirmed directly is paid both. */
  lemma ApprovalLosesTheAmount(s: State, approved: Item, confirmed: Item, reward: real, k: nat)
    requires UniqueRows(s.rows) && k < |s.rows| && s.rows[k].status == Processing
    requires SamePair(s.rows[k], approved) && approved.status == FeedApproved && !approved.confirmed
    requires SamePair(s.rows[k], confirmed) && confirmed.status == FeedApproved && confirmed.confirmed
    requires confirmed.id == s.rows[k].id
    ensures var direct := ReconcileItem(s, confirmed, reward);
            var staged := ReconcileItem(ReconcileItem(s, approved, reward), confirmed, reward);
            && direct.rows[k].status == staged.rows[k].status == Success
            && direct.rows[k].amount == s.rows[k].amount + reward
            && staged.rows[k].amount == reward
            && (direct.rows[k].amount == staged.rows[k].amount <==> s.rows[k].amount == 0.0)
  {
    assert FindOpen(s.rows, approved) == Some(k) && FindOpen(s.rows, confirmed) == Some(k);
    FindIdUnique(s.rows, k);
    var middle := ReconcileItem(s, approved, reward);
    StepKeepsRows(s, Reconcile(approved, reward));
    assert FindOpen(middle.rows, confirmed) == Some(k);
    FindIdUnique(middle.rows, k);
  }

  // ---- the job ----

  class AccessTradeJob {
    var rows: seq<Row>
    var payments: seq<Payment>

    ghost function View(): State
      reads this
    {
      State(rows, payments)
    }

    method Pending(t: Item, account: Option<Account>, commission: real, newId: int)
      requires FreshId(rows, newId)
      modifies this`rows
      ensures View() == Step(old(View()), ImportPending(t, account, commission, newId))
      ensures old(PaidOnce(View())) ==> PaidOnce(View())
    {
      if PaidOnce(View()) { StepKeepsPaidOnce(View(), ImportPending(t, account, commission, newId)); }
      if Exists(rows, t) { return; }
      if account.None? { return; }
      if commission == 0.0 { return; }
      var status := if t.status == FeedApproved then Approved else Processing;
      rows := rows + [Row(newId, t.transactionId, t.productId, account.value, commission, status)];
    }

    method Confirmed(t: Item, account: Option<Account>, commission: real, bonus: Option<real>, newId: int)
      requires FreshId(rows, newId)
      modifies this
      ensures View() == Step(old(View()), ImportSuccess(t, account, commission, bonus, newId))
      ensures old(PaidOnce(View())) ==> PaidOnce(View())
    {
      if PaidOnce(View()) { StepKeepsPaidOnce(View(), ImportSuccess(t, account, commission, bonus, newId)); }
      if Exists(rows, t) { return; }
      if account.None? || bonus.None? { return; }
      var amount := commission + bonus.value;
      if amount == 0.0 { return; }
      rows := rows + [Row(newId, t.transactionId, t.productId, account.value, amount, Success)];
      payments := payments + [Payment(t.transactionId, t.productId, account.value, amount)];
    }

    method CheckStatus(t: Item, reward: real)
      modifies this
      ensures View() == Step(old(View()), Reconcile(t, reward))
      ensures t.status == Hold ==> View() == old(View())
      ensures t.status != FeedApproved || !t.confirmed ==> payments == old(payments)
      ensures |rows| == |old(rows)|
      ensures t.status == FeedRejected ==>
                forall i :: 0 <= i < |rows| ==>
                  rows[i] == old(rows)[i] || rows[i] == old(rows)[i].(status := Rejected, amount := 0.0)
      ensures old(PaidOnce(View()) && IdMatches(View(), Reconcile(t, reward))) ==> PaidOnce(View())
    {
      ghost var item := Reconcile(t, reward);
      if PaidOnce(View()) && IdMatches(View(), item) { StepKeepsPaidOnce(View(), item); }
      if t.status == Hold { return; }
      var found := FindOpen(rows, t);
      if found.None? { return; }
      var cbTran := rows[found.value];
      var newStatus := Success;
      if t.status == FeedRejected {
        newStatus := Rejected;
      } else if !t.confirmed {
        if cbTran.status == Approved { return; }
        newStatus := Approved;
      }
      if newStatus == Success {
        var amount := cbTran.amount + reward;
        payments := payments + [Payment(cbTran.transactionId, cbTran.productId, cbTran.receiver, amount)];
        var named := FindId(rows, t.id);
        if named.Some? { rows := rows[named.value := rows[named.value].(status := Success, amount := amount)]; }
      } else {
        rows := rows[found.value := cbTran.(status := newStatus, amount := 0.0)];
      }
    }
  }
}
