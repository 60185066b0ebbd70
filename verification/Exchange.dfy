/** Cashback withdrawals: inquiry, passcode check and submit behind single-use tokens, and the hold, settle
    and revert of the balance. Amounts are exact decimals; the off-chain reply is an input. */
module Exchange {
  import opened Sums

  type Token = int
  type Key = (int, string)  // account, currency code

  /** What the user asks for and every later stage must repeat. */
  datatype Deal = Deal(amount: real, currency: string, receiver: string)

  /** The withdrawal setting of a currency. */
  datatype Limits = Limits(min: real, max: real, minHold: real)

  datatype Status = Processing | Success | Failure
  datatype Action = Add | Subtract
  datatype Tx = Tx(key: Key, amount: real, fee: real, action: Action, status: Status)

  datatype CacheEntry = CacheEntry(deal: Deal, verified: bool)

  /** What happened, in order. */
  datatype Record = Inquired(deal: Deal) | Confirmed(token: Token, deal: Deal) | Held(token: Token, deal: Deal, tx: nat)

  datatype State = State(
    limits: map<string, Limits>,
    active: set<string>,         // codes of the active currencies
    available: map<Key, real>,
    txs: seq<Tx>,
    cache: map<Token, CacheEntry>,
    issued: set<Token>,
    log: seq<Record>)

  datatype Reason =
    | Crash | AmountInvalidMin | AmountInvalidMax | CurrencyNotSupported | AccountInvalid | MethodNotSupported
    | HasTransactionPending | TokenInvalid | PasscodeInvalid | AmountInvalid

  /** The facts a request meets outside this service. */
  datatype Inputs = Inputs(
    onus: bool, walletAllowed: bool, receiverFound: bool, passcodeRight: bool, accountActive: bool)

  datatype Reply = Refused(reason: Reason) | Granted

  datatype Request =
    | Inquiry(account: int, deal: Deal, facts: Inputs, token: Token)
    | VerifyPasscode(oldToken: Token, facts: Inputs, token: Token)
    | Submit(account: int, deal: Deal, facts: Inputs, spent: Token)
    | Expire(expired: Token)
    | Credit(key: Key, amount: real)
    | Settle(tx: nat, reply: Answer)

  /** What the off-chain transfer answers. */
  datatype Answer = Paid | Declined | NoAnswer

  const FEE := 0.0

  // ---- sums over transactions ----

  predicate IsHold(t: Tx, k: Key)
  {
    t.key == k && t.action == Subtract && t.status == Processing
  }

  function HoldOf(k: Key): Tx -> real
  {
    (t: Tx) => if IsHold(t, k) then t.amount else 0.0
  }

  /** The balance query: SUCCESS additions less SUCCESS subtractions with their fees. */
  function BalanceOf(k: Key): Tx -> real
  {
    (t: Tx) =>
      if t.key != k || t.status != Success then 0.0
      else if t.action == Add then t.amount else -(t.amount + t.fee)
  }

  function FeeOf(k: Key): Tx -> real
  {
    (t: Tx) => if t.key == k && t.status == Success && t.action == Subtract then t.fee else 0.0
  }

  // ---- the operations ----

  predicate HasPending(txs: seq<Tx>, k: Key)
  {
    exists i :: 0 <= i < |txs| && IsHold(txs[i], k)
  }

  function InquiryReply(s: State, account: int, d: Deal, f: Inputs): Reply
  {
    if d.currency !in s.limits then Refused(Crash)
    else if d.amount < s.limits[d.currency].min then Refused(AmountInvalidMin)
    else if d.amount > s.limits[d.currency].max then Refused(AmountInvalidMax)
    else if d.currency !in s.active then Refused(CurrencyNotSupported)
    else if d.receiver != "" && !f.walletAllowed then Refused(AccountInvalid)
    else if !f.onus then Refused(MethodNotSupported)
    else if !f.receiverFound then Refused(AccountInvalid)
    else if HasPending(s.txs, (account, d.currency)) then Refused(HasTransactionPending)
    else Granted
  }

  function VerifyReply(s: State, token: Token, f: Inputs): Reply
  {
    if token !in s.cache then Refused(TokenInvalid)
    else if !f.passcodeRight then Refused(PasscodeInvalid)
    else Granted
  }

  function MinHold(s: State, currency: string): real
  {
    if currency in s.limits then s.limits[currency].minHold else 0.0
  }

  /** `validateAmountAvailable`: the floored available amount against the floored recomputed balance, and
      against the amount, the fee and the minimum to keep. */
  predicate AmountAvailable(s: State, k: Key, amount: real, fee: real)
    requires k in s.available
  {
    var floored := s.available[k].Floor;
    && floored >= Sum(s.txs, BalanceOf(k)).Floor
    && floored as real - MinHold(s, k.1) >= amount + fee
  }

  /** The currencies a submit withdraws. */
  predicate Supported(currency: string)
  {
    currency == "VNDC" || currency == "BBC"
  }

  function SubmitReply(s: State, account: int, d: Deal, f: Inputs, token: Token): Reply
  {
    if !f.onus then Refused(MethodNotSupported)
    else if !f.receiverFound then Refused(AccountInvalid)
    else if token !in s.cache || s.cache[token] != CacheEntry(d, true) then Refused(TokenInvalid)
    else if !Supported(d.currency) then Refused(MethodNotSupported)
    else if (account, d.currency) !in s.available || !f.accountActive then Refused(AccountInvalid)
    else if !AmountAvailable(s, (account, d.currency), d.amount, FEE) then Refused(AmountInvalid)
    else Granted
  }

  /** HOLD_BALANCE: the amount leaves the available balance and a PROCESSING transaction records it. */
  function Hold(s: State, k: Key, amount: real, fee: real): State
    requires k in s.available
  {
    s.(available := s.available[k := s.available[k] - amount],
       txs := s.txs + [Tx(k, amount, fee, Subtract, Processing)])
  }

  function Step(s: State, r: Request): State
  {
    match r
    case Inquiry(account, d, f, token) =>
      if token in s.issued || InquiryReply(s, account, d, f) != Granted then s
      else s.(cache := s.cache[token := CacheEntry(d, false)], issued := s.issued + {token},
              log := s.log + [Inquired(d)])
    case VerifyPasscode(token, f, next) =>
      if next in s.issued || VerifyReply(s, token, f) != Granted then s
      else
        var d := s.cache[token].deal;
        s.(cache := (s.cache - {token})[next := CacheEntry(d, true)], issued := s.issued + {next},
           log := s.log + [Confirmed(next, d)])
    case Submit(account, d, f, token) =>
      if SubmitReply(s, account, d, f, token) != Granted then s
      else
        var held := Hold(s, (account, d.currency), d.amount, FEE);
        held.(cache := s.cache - {token}, log := s.log + [Held(token, d, |s.txs|)])
    case Expire(token) => s.(cache := s.cache - {token})
    case Credit(k, amount) =>
      if k !in s.available then s
      else s.(available := s.available[k := s.available[k] + amount],
              txs := s.txs + [Tx(k, amount, 0.0, Add, Success)])
    case Settle(i, answer) =>
      if i >= |s.txs| || s.txs[i].action != Subtract || s.txs[i].status != Processing || answer == NoAnswer
         || s.txs[i].key !in s.available then s
      else
        var t := s.txs[i];
        if answer == Paid then s.(txs := s.txs[i := t.(status := Success)])
        else s.(txs := s.txs[i := t.(status := Failure)],
                available := s.available[t.key := s.available[t.key] + t.amount])
  }

  function Run(s: State, requests: seq<Request>): (r: State)
    ensures |s.txs| <= |r.txs|
  {
    if requests == [] then s else Step(Run(s, requests[..|requests| - 1]), requests[|requests| - 1])
  }

  predicate Initial(s: State)
  {
    && (forall k :: k in s.available ==> s.available[k] == 0.0)
    && s.txs == [] && s.cache == map[] && s.issued == {} && s.log == []
  }

  // ---- the ledger ----

  ghost predicate Balanced(s: State, k: Key)
  {
    k in s.available ==>
      s.available[k] + Sum(s.txs, HoldOf(k)) == Sum(s.txs, BalanceOf(k)) + Sum(s.txs, FeeOf(k))
  }

  lemma AppendKeepsBalance(s: State, x: Tx, k: Key)
    requires Balanced(s, k) && x.key in s.available
    requires x.action == Add <==> x.status == Success
    requires x.status != Failure
    ensures var a := s.available[x.key] + if x.action == Add then x.amount else -x.amount;
            Balanced(s.(available := s.available[x.key := a], txs := s.txs + [x]), k)
  {
    SumAppend(s.txs, x, HoldOf(k));
    SumAppend(s.txs, x, BalanceOf(k));
    SumAppend(s.txs, x, FeeOf(k));
  }

  lemma SettleKeepsBalance(s: State, i: nat, answer: Answer, k: Key)
    requires Balanced(s, k)
    ensures Balanced(Step(s, Settle(i, answer)), k)
  {
    var t := Step(s, Settle(i, answer));
    if t != s {
      var x := s.txs[i].(status := if answer == Paid then Success else Failure);
      SumUpdate(s.txs, i, x, HoldOf(k));
      SumUpdate(s.txs, i, x, BalanceOf(k));
      SumUpdate(s.txs, i, x, FeeOf(k));
    }
  }

  lemma StepKeepsBalance(s: State, r: Request, k: Key)
    requires Balanced(s, k)
    ensures Balanced(Step(s, r), k)
  {
    match r
    case Submit(account, d, f, token) =>
      if (account, d.currency) in s.available {
        AppendKeepsBalance(s, Tx((account, d.currency), d.amount, FEE, Subtract, Processing), k);
      }
    case Credit(key, amount) =>
      if key in s.available { AppendKeepsBalance(s, Tx(key, amount, 0.0, Add, Success), k); }
    case Settle(i, answer) => SettleKeepsBalance(s, i, answer, k);
    case _ =>
  }

  predicate Feeless(s: State)
  {
    forall i :: 0 <= i < |s.txs| ==> s.txs[i].fee == FEE == 0.0
  }

  lemma StepKeepsFeeless(s: State, r: Request)
    requires Feeless(s)
    ensures Feeless(Step(s, r))
  {
  }

  lemma {:induction false} RunKeepsBalance(s: State, requests: seq<Request>, k: Key)
    requires Initial(s)
    ensures Balanced(Run(s, requests), k) && Feeless(Run(s, requests))
  {
    if requests != [] {
      var most := requests[..|requests| - 1];
      RunKeepsBalance(s, most, k);
      StepKeepsBalance(Run(s, most), requests[|requests| - 1], k);
      StepKeepsFeeless(Run(s, most), requests[|requests| - 1]);
    }
  }

  /** In every run the available amount plus the outstanding holds is the balance recomputed from SUCCESS
      transactions. */
  lemma {:induction false} LedgerInvariant(s: State, requests: seq<Request>, k: Key)
    requires Initial(s) && k in s.available
    ensures var t := Run(s, requests);
            k in t.available && t.available[k] + Sum(t.txs, HoldOf(k)) == Sum(t.txs, BalanceOf(k))
  {
    RunKeepsBalance(s, requests, k);
    SumZero(Run(s, requests).txs, FeeOf(k));
    SameRows(s, requests);
  }

  /** Limits and currencies never change, and no balance row comes or goes. */
  predicate SameSetup(s: State, t: State)
  {
    t.available.Keys == s.available.Keys && t.limits == s.limits && t.active == s.active
  }

  lemma StepKeepsSetup(s: State, r: Request)
    ensures SameSetup(s, Step(s, r))
  {
  }

  lemma {:induction false} SameRows(s: State, requests: seq<Request>)
    ensures SameSetup(s, Run(s, requests))
  {
    if requests != [] {
      SameRows(s, requests[..|requests| - 1]);
      StepKeepsSetup(Run(s, requests[..|requests| - 1]), requests[|requests| - 1]);
    }
  }

  /** The transaction keeps all but its status, and if it is settled keeps that too. */
  predicate KeepsTx(s: State, t: State, i: nat)
    requires i < |s.txs|
  {
    && i < |t.txs| && t.txs[i].(status := Processing) == s.txs[i].(status := Processing)
    && (s.txs[i].status != Processing ==> t.txs[i] == s.txs[i])
  }

  lemma StepKeepsTx(s: State, r: Request, i: nat)
    requires i < |s.txs|
    ensures KeepsTx(s, Step(s, r), i)
  {
  }

  /** Whatever happens, a settled transaction never changes again. */
  lemma {:induction false} SettledIsFinal(s: State, requests: seq<Request>, i: nat)
    requires i < |s.txs|
    ensures KeepsTx(s, Run(s, requests), i)
  {
    if requests != [] {
      SettledIsFinal(s, requests[..|requests| - 1], i);
      StepKeepsTx(Run(s, requests[..|requests| - 1]), requests[|requests| - 1], i);
    }
  }

  /** An answer to an outstanding hold; afterwards no further answer to it has any effect. */
  lemma AnswerOnce(held: State, i: nat, answer: Answer, later: seq<Request>, again: Answer)
    requires i < |held.txs| && IsHold(held.txs[i], held.txs[i].key) && held.txs[i].key in held.available
    ensures var k, after := held.txs[i].key, Step(held, Settle(i, answer));
            && after.available ==
                 (if answer == Declined then held.available[k := held.available[k] + held.txs[i].amount]
                  else held.available)
            && (answer == NoAnswer ==> after == held)
            && (answer != NoAnswer ==>
                  var end := Run(after, later);
                  end.txs[i] == after.txs[i] && Step(end, Settle(i, again)) == end)
  {
    SettledIsFinal(Step(held, Settle(i, answer)), later, i);
  }

  /** Whatever happens between a hold and its answer: a decline gives back exactly the amount that was held, a payment
      gives back nothing, no answer changes nothing; and whatever happens after a decline or payment, the transaction
      never changes and no further answer to it has any effect. */
  lemma SettleOnce(
    s: State, submit: Request, between: seq<Request>, answer: Answer, later: seq<Request>, again: Answer)
    requires submit.Submit? && Step(s, submit) != s
    requires Run(Step(s, submit), between).txs[|s.txs|].status == Processing
    ensures var i, k, amount := |s.txs|, (submit.account, submit.deal.currency), submit.deal.amount;
            var held := Run(Step(s, submit), between);
            var after := Step(held, Settle(i, answer));
            && k in held.available
            && after.available == (if answer == Declined then held.available[k := held.available[k] + amount]
                                   else held.available)
            && (answer == NoAnswer ==> after == held)
            && (answer != NoAnswer ==>
                  var end := Run(after, later);
                  end.txs[i] == after.txs[i] && Step(end, Settle(i, again)) == end)
  {
    var first := Step(s, submit);
    var held := Run(first, between);
    SettledIsFinal(first, between, |s.txs|);
    SameRows(first, between);
    AnswerOnce(held, |s.txs|, answer, later, again);
  }

  // ---- one hold at a time ----

  /** A request for this amount passes the inquiry and, if the balance allows, the submit. */
  predicate Admits(s: State, k: Key, amount: real)
  {
    && k in s.available && Supported(k.1) && k.1 in s.limits && k.1 in s.active
    && s.limits[k.1].min <= amount <= s.limits[k.1].max
  }

  /** The active limits of the currencies that can be withdrawn admit no amount below one. */
  ghost predicate WholeUnits(s: State)
  {
    forall k, amount :: Admits(s, k, amount) ==> amount >= 1.0
  }

  lemma SetupKeepsWholeUnits(s: State, t: State)
    requires WholeUnits(s) && SameSetup(s, t)
    ensures WholeUnits(t)
  {
    assert forall k, amount :: Admits(t, k, amount) ==> Admits(s, k, amount);
  }

  /** What was cached is what the limits admit, and what is held is at least one. */
  ghost predicate HoldsAreWhole(s: State)
  {
    && (forall i :: 0 <= i < |s.txs| && s.txs[i].action == Subtract ==> s.txs[i].amount >= 1.0)
    && (forall t :: t in s.cache ==>
          var d := s.cache[t].deal;
          d.currency in s.limits && d.currency in s.active
          && s.limits[d.currency].min <= d.amount <= s.limits[d.currency].max)
  }

  ghost predicate OneHold(s: State)
  {
    forall i, j :: 0 <= i < j < |s.txs| && IsHold(s.txs[j], s.txs[i].key) ==> !IsHold(s.txs[i], s.txs[i].key)
  }

  /** The check lets a withdrawal through only when the outstanding holds come to less than one, so that with holds of
      at least one there is none, and it always leaves the minimum. */
  lemma CheckMeansNoHold(s: State, k: Key, amount: real)
    requires Balanced(s, k) && Feeless(s) && k in s.available && AmountAvailable(s, k, amount, FEE)
    ensures Sum(s.txs, HoldOf(k)) < 1.0 && s.available[k] - amount >= MinHold(s, k.1)
    ensures HoldsAreWhole(s) ==> !HasPending(s.txs, k)
  {
    SumZero(s.txs, FeeOf(k));
    if HoldsAreWhole(s) {
      if i :| 0 <= i < |s.txs| && IsHold(s.txs[i], k) {
        SumAtLeast(s.txs, i, HoldOf(k));
        assert false;
      }
    }
  }

  lemma StepKeepsWhole(s: State, r: Request)
    requires WholeUnits(s) && HoldsAreWhole(s)
    ensures HoldsAreWhole(Step(s, r))
  {
    if r.Submit? && Step(s, r) != s { assert Admits(s, (r.account, r.deal.currency), r.deal.amount); }
  }

  lemma StepKeepsOneHold(s: State, r: Request)
    requires forall k :: Balanced(s, k)
    requires WholeUnits(s) && Feeless(s) && HoldsAreWhole(s) && OneHold(s)
    ensures HoldsAreWhole(Step(s, r)) && OneHold(Step(s, r)) && Feeless(Step(s, r))
  {
    StepKeepsWhole(s, r);
    if r.Submit? && Step(s, r) != s {
      CheckMeansNoHold(s, (r.account, r.deal.currency), r.deal.amount);
    }
  }

  /** In every run whose limits admit no amount below one, with check and hold as one step, each account and currency
      has at most one hold outstanding. */
  lemma {:induction false} AtMostOneHold(s: State, requests: seq<Request>)
    requires Initial(s) && WholeUnits(s)
    ensures var t := Run(s, requests); HoldsAreWhole(t) && OneHold(t) && Feeless(t) && WholeUnits(t)
  {
    if requests != [] {
      var most := requests[..|requests| - 1];
      AtMostOneHold(s, most);
      forall k ensures Balanced(Run(s, most), k) { RunKeepsBalance(s, most, k); }
      StepKeepsOneHold(Run(s, most), requests[|requests| - 1]);
      SameRows(s, requests);
      SetupKeepsWholeUnits(s, Run(s, requests));
    }
  }

  /** In every run an accepted submit met outstanding holds of less than one, none with limits of at least one, and
      leaves at least the minimum. */
  lemma {:induction false} SubmitLeavesMinimum(s: State, requests: seq<Request>, r: Request)
    requires Initial(s) && r.Submit?
    requires SubmitReply(Run(s, requests), r.account, r.deal, r.facts, r.spent) == Granted
    ensures var t, k := Run(s, requests), (r.account, r.deal.currency);
            && Sum(t.txs, HoldOf(k)) < 1.0 && (WholeUnits(s) ==> !HasPending(t.txs, k))
            && Step(t, r).available[k] >= MinHold(s, k.1)
  {
    var k := (r.account, r.deal.currency);
    RunKeepsBalance(s, requests, k);
    SameRows(s, requests);
    if WholeUnits(s) { AtMostOneHold(s, requests); }
    CheckMeansNoHold(Run(s, requests), k, r.deal.amount);
  }

  /** Every amount below one can hide inside the fraction that both floors drop: with a whole number of units beside
      it, a second hold of it passes the check while the first is outstanding. */
  lemma FractionalHoldHides(s: State, k: Key, amount: real, units: int)
    requires amount < 1.0 && units as real >= MinHold(s, k.1) + amount
    requires k in s.available && s.available[k] == units as real + Positive(amount)
    requires s.txs == [Tx(k, units as real + Positive(amount), 0.0, Add, Success)]
    ensures AmountAvailable(s, k, amount, FEE) && AmountAvailable(Hold(s, k, amount, FEE), k, amount, FEE)
    ensures !OneHold(Hold(Hold(s, k, amount, FEE), k, amount, FEE))
  {
    var credit, hold := s.txs[0], Tx(k, amount, FEE, Subtract, Processing);
    SumAppend([], credit, BalanceOf(k));
    SumAppend([credit], hold, BalanceOf(k));
    assert [] + [credit] == s.txs;
    assert Sum(s.txs, BalanceOf(k)) == Sum(s.txs + [hold], BalanceOf(k)) == units as real + Positive(amount);
    assert (units as real + Positive(amount)).Floor == units && s.available[k] - amount >= units as real;
    var t := Hold(Hold(s, k, amount, FEE), k, amount, FEE);
    assert IsHold(t.txs[1], k) && IsHold(t.txs[2], k);
  }

  function Positive(x: real): real
  {
    if x > 0.0 then x else 0.0
  }

  lemma RunMore(s: State, requests: seq<Request>, r: Request)
    ensures Run(s, requests + [r]) == Step(Run(s, requests), r)
  {
    assert (requests + [r])[..|requests|] == requests;
  }

  /** An inquiry of a deal and its passcode check. */
  function Handshake(account: int, d: Deal, f: Inputs, token: Token, next: Token): seq<Request>
  {
    [Inquiry(account, d, f, token)] + [VerifyPasscode(token, f, next)]
  }

  lemma HandshakeVerifies(s: State, start: seq<Request>, account: int, d: Deal, f: Inputs, token: Token, next: Token)
    requires f == Inputs(true, true, true, true, true)
    requires var t := Run(s, start); Admits(t, (account, d.currency), d.amount) && t.txs == []
    requires var t := Run(s, start); token !in t.issued && next !in t.issued && token != next && token !in t.cache
    ensures var u, t := Run(s, start), Run(s, start + Handshake(account, d, f, token, next));
            && t.limits == u.limits && t.active == u.active && t.available == u.available && t.txs == []
            && t.cache == u.cache[next := CacheEntry(d, true)] && t.issued == u.issued + {token, next}
  {
    var ask := Inquiry(account, d, f, token);
    RunMore(s, start, ask);
    RunMore(s, start + [ask], VerifyPasscode(token, f, next));
    assert start + Handshake(account, d, f, token, next) == start + [ask] + [VerifyPasscode(token, f, next)];
    var u := Run(s, start);
    assert u.cache[token := CacheEntry(d, false)] - {token} == u.cache;
  }

  /** With both tokens verified, the amount beside a whole number of units lets both submits hold. */
  lemma BothSubmitsHold(s: State, account: int, d: Deal, f: Inputs, units: int)
    requires f == Inputs(true, true, true, true, true) && Admits(s, (account, d.currency), d.amount) && d.amount < 1.0
    requires s.txs == [] && s.available[(account, d.currency)] == 0.0
    requires units as real >= MinHold(s, d.currency) + d.amount
    requires 3 in s.cache && 4 in s.cache && s.cache[3] == s.cache[4] == CacheEntry(d, true)
    ensures var funded := Step(s, Credit((account, d.currency), units as real + Positive(d.amount)));
            !OneHold(Step(Step(funded, Submit(account, d, f, 3)), Submit(account, d, f, 4)))
  {
    var k := (account, d.currency);
    var funded := Step(s, Credit(k, units as real + Positive(d.amount)));
    assert funded.txs == [Tx(k, units as real + Positive(d.amount), 0.0, Add, Success)];
    FractionalHoldHides(funded, k, d.amount, units);
    var first := Step(funded, Submit(account, d, f, 3));
    SameCheck(Hold(funded, k, d.amount, FEE), first, k, d.amount);
    SameHolds(Step(first, Submit(account, d, f, 4)), Hold(Hold(funded, k, d.amount, FEE), k, d.amount, FEE));
  }

  lemma SameHolds(s: State, t: State)
    requires s.txs == t.txs
    ensures OneHold(s) == OneHold(t)
  {
  }

  /** An amount below one that the limits admit can be held twice at once: after two handshakes and a credit that
      leaves it beside a whole number of units, both submits pass. */
  lemma SmallHoldsPileUp(s: State, account: int, d: Deal) returns (requests: seq<Request>)
    requires Initial(s) && Admits(s, (account, d.currency), d.amount) && d.amount < 1.0
    ensures !OneHold(Run(s, requests))
  {
    var f := Inputs(true, true, true, true, true);
    var units := -(-(MinHold(s, d.currency) + d.amount)).Floor;
    var start := [] + Handshake(account, d, f, 1, 3) + Handshake(account, d, f, 2, 4);
    var credit := Credit((account, d.currency), units as real + Positive(d.amount));
    HandshakeVerifies(s, [], account, d, f, 1, 3);
    HandshakeVerifies(s, [] + Handshake(account, d, f, 1, 3), account, d, f, 2, 4);
    BothSubmitsHold(Run(s, start), account, d, f, units);
    RunMore(s, start, credit);
    RunMore(s, start + [credit], Submit(account, d, f, 3));
    RunMore(s, start + [credit] + [Submit(account, d, f, 3)], Submit(account, d, f, 4));
    requests := start + [credit] + [Submit(account, d, f, 3)] + [Submit(account, d, f, 4)];
  }

  /** The amount check only looks at limits, amounts and transactions. */
  lemma SameCheck(s: State, t: State, k: Key, amount: real)
    requires k in s.available && t.available == s.available && t.txs == s.txs && t.limits == s.limits
    ensures AmountAvailable(s, k, amount, FEE) == AmountAvailable(t, k, amount, FEE)
  {
  }

  /** With check and hold as one step, no run ever has two holds of one account and currency outstanding if and only
      if the active limits of the currencies that can be withdrawn admit no amount below one. */
  lemma OneHoldIffWholeUnits(s: State)
    requires Initial(s)
    ensures (forall requests :: OneHold(Run(s, requests))) <==> WholeUnits(s)
  {
    if WholeUnits(s) {
      forall requests ensures OneHold(Run(s, requests)) { AtMostOneHold(s, requests); }
    } else {
      var k, amount :| Admits(s, k, amount) && amount < 1.0;
      var requests := SmallHoldsPileUp(s, k.0, Deal(amount, k.1, ""));
    }
  }

  // ---- the token handshake ----

  ghost predicate WasInquired(log: seq<Record>, n: int, d: Deal)
  {
    exists i :: 0 <= i < n <= |log| && log[i] == Inquired(d)
  }

  ghost predicate WasConfirmed(log: seq<Record>, n: int, token: Token, d: Deal)
  {
    exists c :: 0 <= c < n <= |log| && log[c] == Confirmed(token, d) && WasInquired(log, c, d)
  }

  /** Every cached token was issued for a deal that an inquiry validated, and a verified one for a deal that a
      later passcode check confirmed under that token. */
  ghost predicate CacheBacked(s: State)
  {
    forall t :: t in s.cache ==>
      var e := s.cache[t];
      && t in s.issued && WasInquired(s.log, |s.log|, e.deal)
      && (e.verified ==> WasConfirmed(s.log, |s.log|, t, e.deal))
  }

  ghost predicate InquiriesValid(s: State)
  {
    forall i :: 0 <= i < |s.log| && s.log[i].Inquired? ==>
      var d := s.log[i].deal;
      d.currency in s.limits && s.limits[d.currency].min <= d.amount <= s.limits[d.currency].max
  }

  /** Every recorded hold follows an inquiry and a passcode check of the deal it carries, and its token is spent. */
  ghost predicate HoldsBacked(s: State)
  {
    forall h :: 0 <= h < |s.log| && s.log[h].Held? ==>
      var r := s.log[h];
      && r.token in s.issued && r.token !in s.cache && WasConfirmed(s.log, h, r.token, r.deal)
      && r.tx < |s.txs| && s.txs[r.tx].action == Subtract
      && s.txs[r.tx].amount == r.deal.amount && s.txs[r.tx].key.1 == r.deal.currency
  }

  /** No token holds twice. */
  ghost predicate OneHoldPerToken(s: State)
  {
    forall g, h :: 0 <= g < h < |s.log| && s.log[g].Held? && s.log[h].Held? ==> s.log[g].token != s.log[h].token
  }

  ghost predicate WasHeld(log: seq<Record>, tx: nat)
  {
    exists h :: 0 <= h < |log| && log[h].Held? && log[h].tx == tx
  }

  /** There is no hold without a record. */
  ghost predicate HoldsRecorded(s: State)
  {
    forall x :: 0 <= x < |s.txs| && s.txs[x].action == Subtract ==> WasHeld(s.log, x)
  }

  lemma RecordsStay(log: seq<Record>, more: Record)
    ensures forall n, d :: WasInquired(log, n, d) ==> WasInquired(log + [more], n, d)
    ensures forall n, token, d :: WasConfirmed(log, n, token, d) ==> WasConfirmed(log + [more], n, token, d)
    ensures forall x :: WasHeld(log, x) ==> WasHeld(log + [more], x)
  {
    assert forall i :: 0 <= i < |log| ==> (log + [more])[i] == log[i];
  }

  lemma LaterToo(log: seq<Record>, n: nat, token: Token, d: Deal)
    requires n < |log|
    ensures WasInquired(log, n, d) ==> WasInquired(log, |log|, d)
    ensures WasConfirmed(log, n, token, d) ==> WasConfirmed(log, |log|, token, d)
  {
  }

  lemma StepKeepsCache(s: State, r: Request)
    requires CacheBacked(s)
    ensures CacheBacked(Step(s, r))
  {
    var t := Step(s, r);
    if |t.log| > |s.log| {
      var n := |s.log|;
      RecordsStay(s.log, t.log[n]);
      assert t.log == s.log + [t.log[n]];
      forall k | k in t.cache
        ensures k in t.issued && WasInquired(t.log, |t.log|, t.cache[k].deal)
        ensures t.cache[k].verified ==> WasConfirmed(t.log, |t.log|, k, t.cache[k].deal)
      {
        LaterToo(t.log, n, k, t.cache[k].deal);
        if k !in s.cache {
          assert t.log[n] == if r.Inquiry? then Inquired(t.cache[k].deal) else Confirmed(k, t.cache[k].deal);
        }
      }
    }
  }

  lemma StepKeepsInquiries(s: State, r: Request)
    requires InquiriesValid(s)
    ensures InquiriesValid(Step(s, r))
  {
  }

  /** A step that grows the log appends one record; only a submit appends a hold, of a verified entry. */
  lemma StepLog(s: State, r: Request)
    ensures var t := Step(s, r);
            && s.issued <= t.issued && |s.txs| <= |t.txs|
            && (forall x :: 0 <= x < |s.txs| ==> t.txs[x].(status := Processing) == s.txs[x].(status := Processing))
            && (t.log == s.log || t.log == s.log + [t.log[|s.log|]])
            && (forall k :: k in t.cache && k !in s.cache ==> k !in s.issued)
            && if r.Submit? && t != s then
                 && t.log == s.log + [Held(r.spent, r.deal, |s.txs|)]
                 && r.spent in s.cache && s.cache[r.spent] == CacheEntry(r.deal, true) && r.spent !in t.cache
                 && t.txs == s.txs + [Tx((r.account, r.deal.currency), r.deal.amount, FEE, Subtract, Processing)]
               else
                 && (t.log != s.log ==> !t.log[|s.log|].Held?)
                 && (forall x :: |s.txs| <= x < |t.txs| ==> t.txs[x].action == Add)
  {
  }

  lemma StepKeepsHolds(s: State, r: Request)
    requires CacheBacked(s) && HoldsBacked(s)
    ensures HoldsBacked(Step(s, r))
  {
    var t := Step(s, r);
    StepLog(s, r);
    if t.log != s.log { RecordsStay(s.log, t.log[|s.log|]); }
    forall h | 0 <= h < |t.log| && t.log[h].Held?
      ensures var q := t.log[h];
              && q.token in t.issued && q.token !in t.cache && WasConfirmed(t.log, h, q.token, q.deal)
              && q.tx < |t.txs| && t.txs[q.tx].action == Subtract
              && t.txs[q.tx].amount == q.deal.amount && t.txs[q.tx].key.1 == q.deal.currency
    {
      if h < |s.log| {
        assert t.log[h] == s.log[h];
        assert t.txs[t.log[h].tx].(status := Processing) == s.txs[t.log[h].tx].(status := Processing);
      }
    }
  }

  lemma StepKeepsTokens(s: State, r: Request)
    requires CacheBacked(s) && HoldsBacked(s) && OneHoldPerToken(s)
    ensures OneHoldPerToken(Step(s, r))
  {
    StepLog(s, r);
  }

  lemma StepKeepsRecords(s: State, r: Request)
    requires HoldsRecorded(s)
    ensures HoldsRecorded(Step(s, r))
  {
    var t := Step(s, r);
    StepLog(s, r);
    if t.log != s.log { RecordsStay(s.log, t.log[|s.log|]); }
    if r.Submit? && t != s { assert WasHeld(t.log, |s.txs|) by { assert t.log[|s.log|].Held?; } }
    forall x | 0 <= x < |t.txs| && t.txs[x].action == Subtract
      ensures WasHeld(t.log, x)
    {
      if x < |s.txs| { assert t.txs[x].(status := Processing) == s.txs[x].(status := Processing); }
    }
  }

  /** What every request keeps: the ledger balances, and every hold is backed by its handshake. */
  ghost predicate Trusted(s: State)
  {
    && (forall k :: Balanced(s, k))
    && CacheBacked(s) && InquiriesValid(s) && HoldsBacked(s) && OneHoldPerToken(s) && HoldsRecorded(s)
  }

  lemma StepKeepsTrusted(s: State, r: Request)
    ensures Trusted(s) ==> Trusted(Step(s, r))
  {
    if Trusted(s) {
      forall k ensures Balanced(Step(s, r), k) { StepKeepsBalance(s, r, k); }
      StepKeepsCache(s, r);
      StepKeepsInquiries(s, r);
      StepKeepsHolds(s, r);
      StepKeepsTokens(s, r);
      StepKeepsRecords(s, r);
    }
  }

  /** In every run, with fresh tokens and submits one at a time: every hold has one record, its deal was validated
      against the limits by an earlier inquiry and confirmed by a later passcode check under its own token, and no
      token holds twice. */
  lemma {:induction false} HandshakeInvariant(s: State, requests: seq<Request>)
    requires Initial(s)
    ensures var t := Run(s, requests);
            CacheBacked(t) && InquiriesValid(t) && HoldsBacked(t) && OneHoldPerToken(t) && HoldsRecorded(t)
  {
    if requests != [] {
      var most, r := requests[..|requests| - 1], requests[|requests| - 1];
      HandshakeInvariant(s, most);
      StepKeepsCache(Run(s, most), r);
      StepKeepsInquiries(Run(s, most), r);
      StepKeepsHolds(Run(s, most), r);
      StepKeepsTokens(Run(s, most), r);
      StepKeepsRecords(Run(s, most), r);
    }
  }

  // ---- what each record took ----

  /** The facts behind an inquiry record: limits, currency, receiver and sender were accepted, nothing was pending. */
  predicate InquiryEarned(s: State, r: Request, d: Deal)
  {
    && r.Inquiry? && r.deal == d && r.token !in s.issued
    && d.currency in s.limits && s.limits[d.currency].min <= d.amount <= s.limits[d.currency].max
    && d.currency in s.active && (d.receiver == "" || r.facts.walletAllowed) && r.facts.onus && r.facts.receiverFound
    && forall i :: 0 <= i < |s.txs| ==>
         !(s.txs[i].key == (r.account, d.currency) && s.txs[i].action == Subtract && s.txs[i].status == Processing)
  }

  /** Behind a confirmation: a right passcode for a token that was cached with the deal then. */
  predicate ConfirmationEarned(s: State, r: Request, token: Token, d: Deal)
  {
    && r.VerifyPasscode? && r.token == token && r.facts.passcodeRight
    && r.oldToken in s.cache && s.cache[r.oldToken].deal == d && token !in s.issued
  }

  /** Behind a hold: a submit of a verified deal by an active account that is known, for an amount that is there. */
  predicate HoldEarned(s: State, r: Request, token: Token, d: Deal)
  {
    && r.Submit? && r.spent == token && r.deal == d && r.facts.onus && r.facts.receiverFound && r.facts.accountActive
    && token in s.cache && s.cache[token].verified && s.cache[token].deal == d
    && (d.currency == "VNDC" || d.currency == "BBC") && (r.account, d.currency) in s.available
    && s.available[(r.account, d.currency)].Floor >= Sum(s.txs, BalanceOf((r.account, d.currency))).Floor
    && d.amount <= s.available[(r.account, d.currency)].Floor as real
                   - if d.currency in s.limits then s.limits[d.currency].minHold else 0.0
  }

  predicate Earned(s: State, r: Request, x: Record)
  {
    match x
    case Inquired(d) => InquiryEarned(s, r, d)
    case Confirmed(token, d) => ConfirmationEarned(s, r, token, d)
    case Held(token, d, tx) => HoldEarned(s, r, token, d) && tx == |s.txs|
  }

  lemma StepEarns(s: State, r: Request)
    ensures var t := Step(s, r);
            t.log == s.log || (t.log == s.log + [t.log[|s.log|]] && Earned(s, r, t.log[|s.log|]))
  {
  }

  /** In every run each record was earned by the request that wrote it, in the state it met: a confirmation by a
      passcode request whose passcode was right. */
  lemma {:induction false} RecordsAreEarned(s: State, requests: seq<Request>, i: nat) returns (n: nat)
    requires Initial(s) && i < |Run(s, requests).log|
    ensures n < |requests| && |Run(s, requests[..n]).log| == i
    ensures Earned(Run(s, requests[..n]), requests[n], Run(s, requests).log[i])
  {
    var last := |requests| - 1;
    var most := requests[..last];
    StepEarns(Run(s, most), requests[last]);
    if i < |Run(s, most).log| {
      n := RecordsAreEarned(s, most, i);
      assert most[..n] == requests[..n];
    } else {
      n := last;
    }
  }

  /** So every hold follows a passcode request with a right passcode that confirmed its deal under its token. */
  lemma {:induction false} HoldsNeedRightPasscode(s: State, requests: seq<Request>, i: nat) returns (n: nat)
    requires Initial(s) && i < |Run(s, requests).log| && Run(s, requests).log[i].Held?
    ensures var x := Run(s, requests).log[i];
            && n < |requests| && requests[n].VerifyPasscode? && requests[n].facts.passcodeRight
            && requests[n].token == x.token && requests[n].oldToken in Run(s, requests[..n]).cache
            && Run(s, requests[..n]).cache[requests[n].oldToken].deal == x.deal
  {
    HandshakeInvariant(s, requests);
    var t := Run(s, requests);
    var c :| 0 <= c < i && t.log[c] == Confirmed(t.log[i].token, t.log[i].deal);
    n := RecordsAreEarned(s, requests, c);
  }

  // ---- what the recomputed balance adds up ----

  function Additions(txs: seq<Tx>, k: Key): real
  {
    Sum(txs, (t: Tx) => if t.key == k && t.status == Success && t.action == Add then t.amount else 0.0)
  }

  function Subtractions(txs: seq<Tx>, k: Key): real
  {
    Sum(txs, (t: Tx) => if t.key == k && t.status == Success && t.action == Subtract then t.amount else 0.0)
  }

  function Fees(txs: seq<Tx>, k: Key): real
  {
    Sum(txs, (t: Tx) => if t.key == k && t.status == Success && t.action == Subtract then t.fee else 0.0)
  }

  function Outstanding(txs: seq<Tx>, k: Key): real
  {
    Sum(txs, (t: Tx) => if t.key == k && t.status == Processing && t.action == Subtract then t.amount else 0.0)
  }

  lemma {:induction false} BalanceIsThreeSums(txs: seq<Tx>, k: Key)
    ensures Sum(txs, BalanceOf(k)) == Additions(txs, k) - Subtractions(txs, k) - Fees(txs, k)
    ensures Sum(txs, HoldOf(k)) == Outstanding(txs, k)
  {
    if txs != [] { BalanceIsThreeSums(txs[..|txs| - 1], k); }
  }

  /** In every run the available amount is the SUCCESS additions less the SUCCESS subtractions, their fees and what is
      held in PROCESSING ones. */
  lemma AvailableRisesAndFalls(s: State, requests: seq<Request>, k: Key)
    requires Initial(s) && k in s.available
    ensures var t := Run(s, requests);
            && k in t.available
            && t.available[k] == Additions(t.txs, k) - Subtractions(t.txs, k) - Fees(t.txs, k) - Outstanding(t.txs, k)
  {
    LedgerInvariant(s, requests, k);
    BalanceIsThreeSums(Run(s, requests).txs, k);
  }

  // ---- the service ----

  class CashbackExchangeService {
    const limits: map<string, Limits>
    const active: set<string>
    var available: map<Key, real>
    var txs: seq<Tx>
    var cache: map<Token, CacheEntry>
    ghost var issued: set<Token>
    ghost var log: seq<Record>

    ghost function View(): State
      reads this
    {
      State(limits, active, available, txs, cache, issued, log)
    }

    method HandleInquiry(account: int, d: Deal, f: Inputs, token: Token) returns (reply: Reply)
      requires token !in issued
      modifies this
      ensures reply == InquiryReply(old(View()), account, d, f)
      ensures View() == Step(old(View()), Inquiry(account, d, f, token))
      ensures reply == Granted <==> InquiryEarned(old(View()), Inquiry(account, d, f, token), d)
      ensures reply ==
                if d.currency !in limits then Refused(Crash)
                else if d.amount < limits[d.currency].min then Refused(AmountInvalidMin)
                else if d.amount > limits[d.currency].max then Refused(AmountInvalidMax)
                else if d.currency !in active then Refused(CurrencyNotSupported)
                else if d.receiver != "" && !f.walletAllowed then Refused(AccountInvalid)
                else if !f.onus then Refused(MethodNotSupported)
                else if !f.receiverFound then Refused(AccountInvalid)
                else if reply == Granted then Granted else Refused(HasTransactionPending)
      ensures available == old(available) && txs == old(txs)
      ensures cache == if reply == Granted then old(cache)[token := CacheEntry(d, false)] else old(cache)
      ensures old(Trusted(View())) ==> Trusted(View())
    {
      StepKeepsTrusted(View(), Inquiry(account, d, f, token));
      if d.currency !in limits { return Refused(Crash); }
      var config := limits[d.currency];
      if d.amount < config.min { return Refused(AmountInvalidMin); }
      if d.amount > config.max { return Refused(AmountInvalidMax); }
      if d.currency !in active { return Refused(CurrencyNotSupported); }
      if d.receiver != "" && !f.walletAllowed { return Refused(AccountInvalid); }
      if !f.onus { return Refused(MethodNotSupported); }
      if !f.receiverFound { return Refused(AccountInvalid); }
      if HasPending(txs, (account, d.currency)) { return Refused(HasTransactionPending); }
      cache := cache[token := CacheEntry(d, false)];
      issued, log := issued + {token}, log + [Inquired(d)];
      reply := Granted;
    }

    method HandleVerifyPasscode(inquiryToken: Token, f: Inputs, token: Token) returns (reply: Reply)
      requires token !in issued
      modifies this
      ensures reply == VerifyReply(old(View()), inquiryToken, f)
      ensures View() == Step(old(View()), VerifyPasscode(inquiryToken, f, token))
      ensures reply == if inquiryToken !in old(cache) then Refused(TokenInvalid)
                       else if !f.passcodeRight then Refused(PasscodeInvalid) else Granted
      ensures reply != Granted ==> View() == old(View())
      ensures available == old(available) && txs == old(txs)
      ensures reply == Granted ==>
                cache == (old(cache) - {inquiryToken})[token := CacheEntry(old(cache[inquiryToken].deal), true)]
      ensures old(Trusted(View())) ==> Trusted(View())
    {
      StepKeepsTrusted(View(), VerifyPasscode(inquiryToken, f, token));
      if inquiryToken !in cache { return Refused(TokenInvalid); }
      if !f.passcodeRight { return Refused(PasscodeInvalid); }
      var cacheData := cache[inquiryToken].(verified := true);
      cache := cache - {inquiryToken};
      cache := cache[token := cacheData];
      issued, log := issued + {token}, log + [Confirmed(token, cacheData.deal)];
      reply := Granted;
    }

    method HandleSubmit(account: int, d: Deal, f: Inputs, token: Token) returns (reply: Reply)
      modifies this
      ensures reply == SubmitReply(old(View()), account, d, f, token)
      ensures View() == Step(old(View()), Submit(account, d, f, token))
      ensures reply == Granted <==> HoldEarned(old(View()), Submit(account, d, f, token), token, d)
      ensures reply ==
                if !f.onus then Refused(MethodNotSupported)
                else if !f.receiverFound then Refused(AccountInvalid)
                else if token !in old(cache) || !old(cache[token].verified) || old(cache[token].deal) != d then
                  Refused(TokenInvalid)
                else if d.currency != "VNDC" && d.currency != "BBC" then Refused(MethodNotSupported)
                else if (account, d.currency) !in old(available) || !f.accountActive then Refused(AccountInvalid)
                else if reply == Granted then Granted else Refused(AmountInvalid)
      ensures reply != Granted ==> View() == old(View())
      ensures reply == Granted ==>
                var k := (account, d.currency);
                && available == old(available)[k := old(available)[k] - d.amount]
                && txs == old(txs) + [Tx(k, d.amount, 0.0, Subtract, Processing)]
                && cache == old(cache) - {token}
      ensures old(Trusted(View())) ==> Trusted(View())
    {
      StepKeepsTrusted(View(), Submit(account, d, f, token));
      if !f.onus { return Refused(MethodNotSupported); }
      if !f.receiverFound { return Refused(AccountInvalid); }
      if token !in cache || !cache[token].verified || cache[token].deal != d { return Refused(TokenInvalid); }
      if d.currency != "VNDC" && d.currency != "BBC" { return Refused(MethodNotSupported); }
      reply := CallVNDCOffChain(account, d, f, token);
      if reply == Granted { cache := cache - {token}; }
    }

    /** Check the amount, then hold it. */
    method CallVNDCOffChain(account: int, d: Deal, f: Inputs, ghost token: Token) returns (reply: Reply)
      modifies this
      ensures var s, k := old(View()), (account, d.currency);
              && reply == (if k !in s.available || !f.accountActive then Refused(AccountInvalid)
                           else if !AmountAvailable(s, k, d.amount, FEE) then Refused(AmountInvalid) else Granted)
              && View() == if reply != Granted then s
                           else Hold(s, k, d.amount, FEE).(log := s.log + [Held(token, d, |s.txs|)])
    {
      var k := (account, d.currency);
      if k !in available || !f.accountActive { return Refused(AccountInvalid); }
      var amount, balance := available[k].Floor, Sum(txs, BalanceOf(k)).Floor;
      var minHold := if d.currency in limits then limits[d.currency].minHold else 0.0;
      if amount < balance || amount as real - minHold < d.amount + FEE { return Refused(AmountInvalid); }
      log := log + [Held(token, d, |txs|)];
      available := available[k := available[k] - d.amount];
      txs := txs + [Tx(k, d.amount, FEE, Subtract, Processing)];
      reply := Granted;
    }

    /** What happens when the transfer of a held transaction answers, or does not. */
    method HandleAnswer(i: nat, answer: Answer)
      requires i < |txs| && txs[i].action == Subtract && txs[i].status == Processing && txs[i].key in available
      modifies this`available, this`txs
      ensures View() == Step(old(View()), Settle(i, answer))
      ensures var x := old(txs[i]);
              match answer
              case Paid => txs == old(txs)[i := x.(status := Success)] && available == old(available)
              case Declined =>
                && txs == old(txs)[i := x.(status := Failure)]
                && available == old(available)[x.key := old(available)[x.key] + x.amount]
              case NoAnswer => txs == old(txs) && available == old(available)
      ensures old(Trusted(View())) ==> Trusted(View())
    {
      StepKeepsTrusted(View(), Settle(i, answer));
      var cbTx := txs[i];
      if answer == Paid {
        txs := txs[i := cbTx.(status := Success)];
      } else if answer == Declined {
        txs := txs[i := cbTx.(status := Failure)];
        available := available[cbTx.key := available[cbTx.key] + cbTx.amount];
      }
    }
  }
}
