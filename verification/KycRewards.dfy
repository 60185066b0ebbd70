/** Sign-up rewards that wait for identity checks: who creates them, and how an approval releases them. */
module KycRewards {
  import opened Common
  import opened Sums

  type Account = int

  datatype Kyc = Empty | Pending | Approved | Rejected

  /** The transaction types an approval considers; `Other` stands for the rest of its list. */
  datatype Kind = Referral | NonReferral | PartnerBonus | Other

  datatype Status = Processing | Success

  datatype Tx = Tx(kind: Kind, sender: Option<Account>, receiver: Account, amount: real, status: Status)

  datatype Stats = Stats(totalReferrals: nat, totalKyc: nat)

  datatype State = State(
    kyc: map<Account, Kyc>,
    balance: map<Account, real>,
    txs: seq<Tx>,
    referredBy: map<Account, Account>,
    stats: map<Account, Stats>)

  datatype Event =
    | SignUpReferred(newcomer: Account, referrer: Account, needKyc: bool, amountFrom: real, amountBy: real)
    | SignUpAlone(newcomer: Account, needKyc: bool, amount: real)
    | Record(kind: Kind, sender: Option<Account>, receiver: Account, amount: real)  // a reward written elsewhere
    | ChangeKyc(account: Account, status: Kyc)
    | Interrupted(account: Account, paid: nat)  // an approval that stops after part of its loop

  function Credit(s: State, a: Account, amount: real): State
    requires a in s.balance
  {
    s.(balance := s.balance[a := s.balance[a] + amount])
  }

  /** The test of the payment loop, on the statuses read before it. */
  predicate Releases(s: State, id: Account, t: Tx)
  {
    && t.status == Processing && (t.sender == Some(id) || t.receiver == id)
    && (|| (t.sender == Some(id) && t.receiver in s.kyc && s.kyc[t.receiver] == Approved)
        || (t.receiver == id && t.sender.Some? && t.sender.value in s.kyc && s.kyc[t.sender.value] == Approved)
        || (t.receiver == id && t.kind == NonReferral)
        || (t.receiver == id && t.kind == PartnerBonus))
  }

  /** APPROVE_KYC: the receiver is credited and the transaction succeeds. */
  function Pay(s: State, i: nat): State
    requires i < |s.txs| && s.txs[i].receiver in s.balance
  {
    var t := s.txs[i];
    Credit(s, t.receiver, t.amount).(txs := s.txs[i := t.(status := Success)])
  }

  function Release(s: State, id: Account, i: nat): State
    requires i < |s.txs|
  {
    if Releases(s, id, s.txs[i]) && s.txs[i].receiver in s.balance then Pay(s, i) else s
  }

  /** The payment loop over the first n transactions. */
  function ReleaseFirst(s: State, id: Account, n: nat): (r: State)
    requires n <= |s.txs|
    ensures |r.txs| == |s.txs| && r.kyc == s.kyc
  {
    if n == 0 then s else Release(ReleaseFirst(s, id, n - 1), id, n - 1)
  }

  predicate MayChange(s: State, id: Account, status: Kyc)
  {
    id in s.kyc && s.kyc[id] != status && s.kyc[id] != Approved
  }

  /** What an approval stores at its end: the referrer's count and the status. */
  function Approve(s: State, id: Account, referrer: Option<Account>): State
  {
    var stats :=
      if referrer.Some? && referrer.value in s.stats then
        var row := s.stats[referrer.value];
        s.stats[referrer.value := row.(totalKyc := row.totalKyc + 1)]
      else s.stats;
    s.(stats := stats, kyc := s.kyc[id := Approved])
  }

  function ChangeKycStatus(s: State, id: Account, status: Kyc): State
  {
    if !MayChange(s, id, status) then s
    else if status != Approved then s.(kyc := s.kyc[id := status])
    else
      Approve(ReleaseFirst(s, id, |s.txs|), id, if id in s.referredBy then Some(s.referredBy[id]) else None)
  }

  function CreateAccount(s: State, a: Account): State
  {
    s.(kyc := s.kyc[a := Empty], balance := s.balance[a := 0.0])
  }

  function ReferralTx(giver: Account, to: Account, amount: real): Tx
  {
    Tx(Referral, Some(giver), to, amount, Processing)
  }

  /** `insertAccountReferral` when rewards wait: a pair of PROCESSING rewards, the referral, and its statistics. */
  function InsertAccountReferral(s: State, a: Account, referrer: Account, amountFrom: real, amountBy: real): State
    requires a in s.balance && referrer in s.balance
  {
    var row := if referrer in s.stats then s.stats[referrer] else Stats(0, 0);
    s.(txs := s.txs + [ReferralTx(referrer, a, amountFrom), ReferralTx(a, referrer, amountBy)],
       referredBy := s.referredBy[a := referrer],
       stats := s.stats[referrer := row.(totalReferrals := row.totalReferrals + 1)])
  }

  /** `rewardNewAccount`, as written: a reward that waits for the identity check is inserted, and then sent to the
      wallet, which credits it at once and inserts it a second time. */
  function RewardNewAccount(s: State, a: Account, needKyc: bool, amount: real): State
    requires a in s.balance
  {
    var t := Tx(NonReferral, None, a, amount, if needKyc then Processing else Success);
    Credit(s, a, amount).(txs := s.txs + if needKyc then [t, t] else [t])
  }

  function Step(s: State, e: Event): State
  {
    match e
    case SignUpReferred(a, referrer, needKyc, amountFrom, amountBy) =>
      if a in s.kyc || a in s.balance || referrer !in s.kyc || referrer !in s.balance then s
      else if needKyc then InsertAccountReferral(CreateAccount(s, a), a, referrer, amountFrom, amountBy)
      // paying at once fails before anything is written: the newcomer's balance row is not there yet
      else s.(kyc := s.kyc[a := Empty])
    case SignUpAlone(a, needKyc, amount) =>
      if a in s.kyc || a in s.balance then s else RewardNewAccount(CreateAccount(s, a), a, needKyc, amount)
    case Record(kind, sender, receiver, amount) =>
      if kind == Referral || kind == NonReferral || receiver !in s.balance then s
      else s.(txs := s.txs + [Tx(kind, sender, receiver, amount, Processing)])
    case ChangeKyc(id, status) => ChangeKycStatus(s, id, status)
    case Interrupted(id, n) => if MayChange(s, id, Approved) && n <= |s.txs| then ReleaseFirst(s, id, n) else s
  }

  const START := State(map[], map[], [], map[], map[])

  function Run(events: seq<Event>): State
  {
    if events == [] then START
    else Step(Run(events[..|events| - 1]), events[|events| - 1])
  }

  // ---- a released reward is what both approvals make of it ----

  predicate IsApproved(s: State, a: Account)
  {
    a in s.kyc && s.kyc[a] == Approved
  }

  /** Sender and receiver are known, distinct accounts. */
  predicate Parties(s: State, t: Tx)
  {
    && t.receiver in s.kyc && t.receiver in s.balance
    && (t.kind == Referral ==> t.sender.Some? && t.sender.value in s.kyc && t.sender.value != t.receiver)
  }

  predicate Wellformed(s: State)
  {
    && s.balance.Keys <= s.kyc.Keys
    && forall i :: 0 <= i < |s.txs| ==> Parties(s, s.txs[i])
  }

  predicate BothApproved(s: State, t: Tx)
  {
    t.sender.Some? && IsApproved(s, t.sender.value) && IsApproved(s, t.receiver)
  }

  /** What the loop does to each transaction, all tests being on the same statuses. */
  lemma {:induction false} LoopEffect(s: State, id: Account, n: nat, i: nat)
    requires n <= |s.txs| && i < |s.txs| && Wellformed(s)
    ensures var r := ReleaseFirst(s, id, n);
            && r.txs[i] == (if i < n && Releases(s, id, s.txs[i]) then s.txs[i].(status := Success) else s.txs[i])
            && r.balance.Keys == s.balance.Keys && r.stats == s.stats && r.referredBy == s.referredBy
  {
    if n > 0 {
      LoopEffect(s, id, n - 1, i);
      LoopEffect(s, id, n - 1, n - 1);
    }
  }

  lemma LoopKeepsWellformed(s: State, id: Account, n: nat)
    requires n <= |s.txs| && Wellformed(s)
    ensures Wellformed(ReleaseFirst(s, id, n))
  {
    forall i | 0 <= i < |s.txs| ensures Parties(ReleaseFirst(s, id, n), ReleaseFirst(s, id, n).txs[i]) {
      LoopEffect(s, id, n, i);
    }
    if |s.txs| > 0 { LoopEffect(s, id, n, 0); }
  }

  lemma StepKeepsWellformed(s: State, e: Event)
    requires Wellformed(s)
    ensures Wellformed(Step(s, e))
  {
    match e
    case ChangeKyc(id, status) => LoopKeepsWellformed(s, id, |s.txs|);
    case Interrupted(id, n) => if n <= |s.txs| { LoopKeepsWellformed(s, id, n); }
    case _ =>
  }

  /** No reward waits once both its parties are approved. */
  ghost predicate NoneOverdue(s: State)
  {
    forall i :: 0 <= i < |s.txs| && s.txs[i].kind == Referral && BothApproved(s, s.txs[i]) ==>
      s.txs[i].status == Success
  }

  /** No reward is paid before. */
  ghost predicate NoneEarly(s: State)
  {
    forall i :: 0 <= i < |s.txs| && s.txs[i].kind == Referral && s.txs[i].status == Success ==>
      BothApproved(s, s.txs[i])
  }

  lemma ApprovalReleases(s: State, id: Account, i: nat)
    requires Wellformed(s) && i < |s.txs| && s.txs[i].kind == Referral && MayChange(s, id, Approved)
    ensures var r := ChangeKycStatus(s, id, Approved);
            && |r.txs| == |s.txs| && r.txs[i].(status := Success) == s.txs[i].(status := Success)
            && (r.txs[i].status == Success <==>
                s.txs[i].status == Success || (BothApproved(r, s.txs[i]) && !BothApproved(s, s.txs[i])))
  {
    LoopEffect(s, id, |s.txs|, i);
  }

  lemma ApprovalKeepsReleased(s: State, id: Account)
    requires Wellformed(s) && MayChange(s, id, Approved)
    ensures NoneOverdue(s) ==> NoneOverdue(ChangeKycStatus(s, id, Approved))
    ensures NoneEarly(s) ==> NoneEarly(ChangeKycStatus(s, id, Approved))
  {
    var r := ChangeKycStatus(s, id, Approved);
    forall i | 0 <= i < |r.txs| && r.txs[i].kind == Referral
      ensures BothApproved(r, r.txs[i]) && NoneOverdue(s) ==> r.txs[i].status == Success
      ensures r.txs[i].status == Success && NoneEarly(s) ==> BothApproved(r, r.txs[i])
    {
      LoopEffect(s, id, |s.txs|, i);
      ApprovalReleases(s, id, i);
    }
  }

  lemma InterruptKeepsReleased(s: State, id: Account, n: nat)
    requires Wellformed(s) && n <= |s.txs| && NoneOverdue(s)
    ensures NoneOverdue(ReleaseFirst(s, id, n))
  {
    var r := ReleaseFirst(s, id, n);
    forall i | 0 <= i < |r.txs| && r.txs[i].kind == Referral && BothApproved(r, r.txs[i])
      ensures r.txs[i].status == Success
    {
      LoopEffect(s, id, n, i);
    }
  }

  lemma SignUpKeepsReleased(s: State, e: Event)
    requires Wellformed(s) && (e.SignUpReferred? || e.SignUpAlone? || e.Record?)
    ensures NoneOverdue(s) ==> NoneOverdue(Step(s, e))
    ensures NoneEarly(s) ==> NoneEarly(Step(s, e))
  {
    var r := Step(s, e);
    assert |s.txs| <= |r.txs| && forall i :: 0 <= i < |s.txs| ==> r.txs[i] == s.txs[i];
    assert forall i :: |s.txs| <= i < |r.txs| && r.txs[i].kind == Referral ==>
      r.txs[i].status == Processing && !BothApproved(r, r.txs[i]);
    assert forall i :: 0 <= i < |s.txs| && s.txs[i].kind == Referral ==>
      (BothApproved(r, s.txs[i]) <==> BothApproved(s, s.txs[i]));
  }

  lemma StepKeepsReleased(s: State, e: Event)
    requires Wellformed(s)
    ensures NoneOverdue(s) ==> NoneOverdue(Step(s, e))
    ensures NoneEarly(s) && !e.Interrupted? ==> NoneEarly(Step(s, e))
  {
    if e.ChangeKyc? {
      if MayChange(s, e.account, e.status) && e.status == Approved { ApprovalKeepsReleased(s, e.account); }
    } else if e.Interrupted? {
      if e.paid <= |s.txs| && NoneOverdue(s) { InterruptKeepsReleased(s, e.account, e.paid); }
    } else {
      SignUpKeepsReleased(s, e);
    }
  }

  /** What every event keeps. */
  ghost predicate Released(s: State)
  {
    Wellformed(s) && NoneOverdue(s)
  }

  lemma StepKeepsAllReleased(s: State, e: Event)
    ensures Released(s) ==> Released(Step(s, e))
  {
    if Released(s) {
      StepKeepsWellformed(s, e);
      StepKeepsReleased(s, e);
    }
  }

  /** With approvals one at a time, a referral reward is never left waiting once both parties are approved; and in a run
      where no approval stops halfway it is PROCESSING exactly while they are not both approved. */
  lemma {:induction false} ReleasedWhenBothApproved(events: seq<Event>)
    ensures var s := Run(events); Wellformed(s) && NoneOverdue(s)
    ensures (forall i :: 0 <= i < |events| ==> !events[i].Interrupted?) ==>
              var s := Run(events);
              forall i :: 0 <= i < |s.txs| && s.txs[i].kind == Referral ==>
                (s.txs[i].status == Processing <==> !BothApproved(s, s.txs[i]))
  {
    ReleasedInvariant(events);
  }

  lemma {:induction false} ReleasedInvariant(events: seq<Event>)
    ensures Wellformed(Run(events)) && NoneOverdue(Run(events))
    ensures (forall i :: 0 <= i < |events| ==> !events[i].Interrupted?) ==> NoneEarly(Run(events))
  {
    if events != [] {
      var most, e := events[..|events| - 1], events[|events| - 1];
      ReleasedInvariant(most);
      StepKeepsWellformed(Run(most), e);
      StepKeepsReleased(Run(most), e);
    }
  }

  // ---- the balances ----

  /** What a transaction has paid its receiver. */
  function PaidTo(a: Account): Tx -> real
  {
    (t: Tx) => if t.receiver == a && t.status == Success then t.amount else 0.0
  }

  /** What sign-up credits an account without a SUCCESS transaction to show for it. */
  function Unrecorded(e: Event, s: State, a: Account): real
  {
    if e.SignUpAlone? && e.needKyc && e.newcomer == a && Step(s, e) != s then e.amount else 0.0
  }

  function AllUnrecorded(events: seq<Event>, a: Account): real
  {
    if events == [] then 0.0
    else
      var most := events[..|events| - 1];
      AllUnrecorded(most, a) + Unrecorded(events[|events| - 1], Run(most), a)
  }

  function BalanceIn(s: State, a: Account): real
  {
    if a in s.balance then s.balance[a] else 0.0
  }

  function Excess(s: State, a: Account): real
  {
    BalanceIn(s, a) - Sum(s.txs, PaidTo(a))
  }

  lemma ReleaseKeepsExcess(s: State, id: Account, i: nat, a: Account)
    requires i < |s.txs| && s.txs[i].receiver in s.balance
    ensures Excess(Release(s, id, i), a) == Excess(s, a)
  {
    SumUpdate(s.txs, i, s.txs[i].(status := Success), PaidTo(a));
  }

  lemma {:induction false} LoopKeepsExcess(s: State, id: Account, n: nat, a: Account)
    requires n <= |s.txs| && Wellformed(s)
    ensures Excess(ReleaseFirst(s, id, n), a) == Excess(s, a)
  {
    if n > 0 {
      LoopKeepsExcess(s, id, n - 1, a);
      LoopKeepsWellformed(s, id, n - 1);
      ReleaseKeepsExcess(ReleaseFirst(s, id, n - 1), id, n - 1, a);
    }
  }

  lemma PairKeepsExcess(s: State, b: map<Account, real>, t: Tx, u: Tx, a: Account)
    requires a in b || BalanceIn(s, a) == 0.0
    ensures Excess(s.(balance := b, txs := s.txs + [t, u]), a) ==
              (if a in b then b[a] else 0.0) - Sum(s.txs, PaidTo(a)) - PaidTo(a)(t) - PaidTo(a)(u)
  {
    SumAppend(s.txs, t, PaidTo(a));
    SumAppend(s.txs + [t], u, PaidTo(a));
    assert s.txs + [t, u] == s.txs + [t] + [u];
  }

  lemma SignUpKeepsExcess(s: State, e: Event, a: Account)
    requires Wellformed(s) && (e.SignUpReferred? || e.SignUpAlone?)
    ensures Excess(Step(s, e), a) == Excess(s, a) + Unrecorded(e, s, a)
  {
    var r := Step(s, e);
    if r != s {
      if |r.txs| == |s.txs| + 2 {
        var t, u := r.txs[|s.txs|], r.txs[|s.txs| + 1];
        assert r.txs == s.txs + [t, u];
        PairKeepsExcess(s, r.balance, t, u, a);
      } else if |r.txs| == |s.txs| + 1 {
        SumAppend(s.txs, r.txs[|s.txs|], PaidTo(a));
        assert r.txs == s.txs + [r.txs[|s.txs|]];
      }
    }
  }

  lemma ChangeKycKeepsExcess(s: State, id: Account, status: Kyc, a: Account)
    requires Wellformed(s)
    ensures Excess(ChangeKycStatus(s, id, status), a) == Excess(s, a)
  {
    var r, paid := ChangeKycStatus(s, id, status), ReleaseFirst(s, id, |s.txs|);
    LoopKeepsExcess(s, id, |s.txs|, a);
    assert (r.balance == s.balance && r.txs == s.txs) || (r.balance == paid.balance && r.txs == paid.txs);
  }

  lemma InterruptedKeepsExcess(s: State, id: Account, n: nat, a: Account)
    requires Wellformed(s)
    ensures Excess(Step(s, Interrupted(id, n)), a) == Excess(s, a)
  {
    if n <= |s.txs| { LoopKeepsExcess(s, id, n, a); }
  }

  lemma RecordKeepsExcess(s: State, e: Event, a: Account)
    requires e.Record?
    ensures Excess(Step(s, e), a) == Excess(s, a)
  {
    SumAppend(s.txs, Tx(e.kind, e.sender, e.receiver, e.amount, Processing), PaidTo(a));
  }

  lemma StepKeepsExcess(s: State, e: Event, a: Account)
    requires Wellformed(s)
    ensures Excess(Step(s, e), a) == Excess(s, a) + Unrecorded(e, s, a)
  {
    match e
    case SignUpReferred(_, _, _, _, _) => SignUpKeepsExcess(s, e, a);
    case SignUpAlone(_, _, _) => SignUpKeepsExcess(s, e, a);
    case ChangeKyc(id, status) => ChangeKycKeepsExcess(s, id, status, a);
    case Interrupted(id, n) => InterruptedKeepsExcess(s, id, n, a);
    case Record(_, _, _, _) => RecordKeepsExcess(s, e, a);
  }

  /** In every run an account's balance is the sum of the SUCCESS rewards it received, plus what lone sign-ups that
      should have waited credited at once. */
  lemma {:induction false} BalanceIsPaidRewards(events: seq<Event>, a: Account)
    ensures BalanceIn(Run(events), a) == Sum(Run(events).txs, PaidTo(a)) + AllUnrecorded(events, a)
  {
    if events != [] {
      var most := events[..|events| - 1];
      BalanceIsPaidRewards(most, a);
      ReleasedInvariant(most);
      StepKeepsExcess(Run(most), events[|events| - 1], a);
    }
  }

  /** A reward is paid at most once: a SUCCESS transaction never changes, and what a step adds to a balance is what it
      turns to SUCCESS for that account, plus what a lone sign-up credits at once. */
  lemma SuccessIsFinal(s: State, e: Event, i: nat, a: Account)
    requires Wellformed(s) && i < |s.txs|
    ensures var r := Step(s, e);
            && i < |r.txs| && r.txs[i].(status := Success) == s.txs[i].(status := Success)
            && (s.txs[i].status == Success ==> r.txs[i] == s.txs[i])
            && BalanceIn(r, a) - BalanceIn(s, a) ==
                 Sum(r.txs, PaidTo(a)) - Sum(s.txs, PaidTo(a)) + Unrecorded(e, s, a)
  {
    StepKeepsExcess(s, e, a);
    match e
    case ChangeKyc(id, status) => LoopEffect(s, id, |s.txs|, i);
    case Interrupted(id, n) => if n <= |s.txs| { LoopEffect(s, id, n, i); }
    case _ =>
  }

  /** A referred sign-up creates the account, but its referral, rewards and statistics are written if and only if they
      are to wait: then one PROCESSING reward of `amountFrom` to the newcomer from the referrer, one of `amountBy` to
      the referrer from the newcomer, the referral, and one more referral for the referrer. */
  lemma ReferralWrittenIffWaiting(s: State, e: Event)
    requires e.SignUpReferred? && e.newcomer !in s.kyc && e.newcomer !in s.balance
    requires e.referrer in s.kyc && e.referrer in s.balance
    ensures var r, a, b := Step(s, e), e.newcomer, e.referrer;
            && r.kyc == s.kyc[a := Empty]
            && (!e.needKyc ==> r == s.(kyc := r.kyc))
            && (e.needKyc ==>
                  && r.txs == s.txs + [Tx(Referral, Some(b), a, e.amountFrom, Processing),
                                       Tx(Referral, Some(a), b, e.amountBy, Processing)]
                  && r.balance == s.balance[a := 0.0] && r.referredBy == s.referredBy[a := b]
                  && r.stats == s.stats[b := if b in s.stats then
                                               Stats(s.stats[b].totalReferrals + 1, s.stats[b].totalKyc)
                                             else Stats(1, 0)])
  {
  }

  /** A lone sign-up creates the account with its reward credited; the reward is recorded once as SUCCESS, or, when it
      should wait, twice as PROCESSING. */
  lemma LoneSignUpWrites(s: State, e: Event)
    requires e.SignUpAlone? && e.newcomer !in s.kyc && e.newcomer !in s.balance
    ensures var r, a := Step(s, e), e.newcomer;
            && r.kyc == s.kyc[a := Empty] && r.balance == s.balance[a := e.amount]
            && r.referredBy == s.referredBy && r.stats == s.stats
            && r.txs == s.txs + if e.needKyc then [Tx(NonReferral, None, a, e.amount, Processing),
                                                   Tx(NonReferral, None, a, e.amount, Processing)]
                                else [Tx(NonReferral, None, a, e.amount, Success)]
  {
  }

  /** No other step changes what a transaction is about. */
  lemma {:induction false} TxStays(before: seq<Event>, after: seq<Event>, i: nat)
    requires i < |Run(before).txs|
    ensures var s, t := Run(before), Run(before + after);
            i < |t.txs| && t.txs[i].(status := Success) == s.txs[i].(status := Success)
  {
    if after == [] {
      assert before + after == before;
    } else {
      var most := after[..|after| - 1];
      TxStays(before, most, i);
      ReleasedInvariant(before + most);
      SuccessIsFinal(Run(before + most), after[|after| - 1], i, 0);
      Reassociate(before, after);
      RunMore(before + most, after[|after| - 1]);
    }
  }

  lemma RunMore(events: seq<Event>, e: Event)
    ensures Run(events + [e]) == Step(Run(events), e)
  {
    assert (events + [e])[..|events|] == events;
  }

  lemma Reassociate(start: seq<Event>, after: seq<Event>)
    requires after != []
    ensures start + after == start + after[..|after| - 1] + [after[|after| - 1]]
  {
  }

  /** The sum is what one SUCCESS transaction pays its receiver and what the others pay. */
  lemma PaidApart(txs: seq<Tx>, i: nat)
    requires i < |txs| && txs[i].status == Success
    ensures Sum(txs, PaidTo(txs[i].receiver))
         == txs[i].amount + Sum(txs[i := txs[i].(amount := 0.0)], PaidTo(txs[i].receiver))
  {
    SumUpdate(txs, i, txs[i].(amount := 0.0), PaidTo(txs[i].receiver));
  }

  /** What an account has received apart from one transaction. */
  function ReceivedBeside(events: seq<Event>, a: Account, i: nat): real
    requires i < |Run(events).txs|
  {
    var txs := Run(events).txs;
    Sum(txs[i := txs[i].(amount := 0.0)], PaidTo(a)) + AllUnrecorded(events, a)
  }

  /** In every run, with approvals one at a time: once a referrer and the newcomer it referred are both approved, the
      newcomer has received `amountFrom` for that sign-up and the referrer `amountBy`, beside everything else. */
  lemma {:induction false} ReferralPaysBoth(before: seq<Event>, e: Event, after: seq<Event>)
    requires e.SignUpReferred? && e.needKyc && e.newcomer !in Run(before).kyc && e.newcomer !in Run(before).balance
    requires e.referrer in Run(before).kyc && e.referrer in Run(before).balance
    requires var s := Run(before + [e] + after); IsApproved(s, e.newcomer) && IsApproved(s, e.referrer)
    ensures var events, n := before + [e] + after, |Run(before).txs|;
            var s := Run(events);
            && n + 1 < |s.txs|
            && s.txs[n] == Tx(Referral, Some(e.referrer), e.newcomer, e.amountFrom, Success)
            && s.txs[n + 1] == Tx(Referral, Some(e.newcomer), e.referrer, e.amountBy, Success)
            && BalanceIn(s, e.newcomer) == e.amountFrom + ReceivedBeside(events, e.newcomer, n)
            && BalanceIn(s, e.referrer) == e.amountBy + ReceivedBeside(events, e.referrer, n + 1)
  {
    var events, n := before + [e] + after, |Run(before).txs|;
    RunMore(before, e);
    ReferralWrittenIffWaiting(Run(before), e);
    TxStays(before + [e], after, n);
    TxStays(before + [e], after, n + 1);
    var s := Run(events);
    ReleasedInvariant(events);
    assert BothApproved(s, s.txs[n]) && BothApproved(s, s.txs[n + 1]);
    PaidApart(s.txs, n);
    PaidApart(s.txs, n + 1);
    BalanceIsPaidRewards(events, e.newcomer);
    BalanceIsPaidRewards(events, e.referrer);
  }

  // ---- what an approval changes ----

  /** The rewards an approval releases: waiting ones between the account and an approved counterparty, and the sign-up
      and partner rewards it receives itself. */
  predicate Due(kyc: map<Account, Kyc>, id: Account, t: Tx)
  {
    && t.status == Processing
    && (|| (t.sender == Some(id) && t.receiver in kyc && kyc[t.receiver] == Approved)
        || (t.receiver == id && t.sender.Some? && t.sender.value in kyc && kyc[t.sender.value] == Approved)
        || (t.receiver == id && (t.kind == NonReferral || t.kind == PartnerBonus)))
  }

  /** The referrer's statistics after an approval count one more. */
  function CountedStats(s: State, id: Account): map<Account, Stats>
  {
    if id in s.referredBy && s.referredBy[id] in s.stats then
      var b := s.referredBy[id];
      s.stats[b := Stats(s.stats[b].totalReferrals, s.stats[b].totalKyc + 1)]
    else s.stats
  }

  /** A change of status stores exactly that status; short of an approval it changes nothing else, and an approval turns
      exactly the due rewards to SUCCESS, credits each receiver with what it was paid, and counts once. */
  lemma StatusChangeDoes(s: State, id: Account, status: Kyc, i: nat, a: Account)
    requires Wellformed(s) && id in s.kyc && s.kyc[id] != status && s.kyc[id] != Approved
    ensures var r := ChangeKycStatus(s, id, status);
            && r.kyc == s.kyc[id := status] && r.referredBy == s.referredBy
            && (status != Approved ==> r == s.(kyc := r.kyc))
            && (status == Approved ==>
                  && |r.txs| == |s.txs| && r.stats == CountedStats(s, id)
                  && (i < |s.txs| ==>
                        r.txs[i] == if Due(s.kyc, id, s.txs[i]) then s.txs[i].(status := Success) else s.txs[i])
                  && BalanceIn(r, a) - BalanceIn(s, a) == Sum(r.txs, PaidTo(a)) - Sum(s.txs, PaidTo(a)))
  {
    ChangeKycKeepsExcess(s, id, status, a);
    LoopFrame(s, id, |s.txs|);
    if i < |s.txs| { LoopEffect(s, id, |s.txs|, i); }
  }

  lemma {:induction false} LoopFrame(s: State, id: Account, n: nat)
    requires n <= |s.txs|
    ensures ReleaseFirst(s, id, n).stats == s.stats && ReleaseFirst(s, id, n).referredBy == s.referredBy
  {
    if n > 0 { LoopFrame(s, id, n - 1); }
  }

  // ---- what a lone sign-up is paid ----

  /** A lone sign-up's reward to an account. */
  predicate IsLone(t: Tx, a: Account)
  {
    t.kind == NonReferral && t.receiver == a
  }

  function LoneOf(a: Account): Tx -> real
  {
    (t: Tx) => if IsLone(t, a) then t.amount else 0.0
  }

  /** The part of it that was paid through a SUCCESS transaction. */
  function LonePaid(a: Account): Tx -> real
  {
    (t: Tx) => if IsLone(t, a) && t.status == Success then t.amount else 0.0
  }

  /** What an account was credited for its own sign-up, at once or through its transactions. */
  function LoneCredited(events: seq<Event>, a: Account): real
  {
    AllUnrecorded(events, a) + Sum(Run(events).txs, LonePaid(a))
  }

  /** No approval of the account stops halfway. */
  ghost predicate Uninterrupted(events: seq<Event>, a: Account)
  {
    forall i :: 0 <= i < |events| ==> !(events[i].Interrupted? && events[i].account == a)
  }

  /** The lone rewards of an account add up to `total`, and are SUCCESS when they did not wait or the account is
      approved. */
  ghost predicate LoneState(s: State, a: Account, waits: bool, total: real)
  {
    && a in s.kyc && a in s.balance && Sum(s.txs, LoneOf(a)) == total
    && forall i :: 0 <= i < |s.txs| && IsLone(s.txs[i], a) ==>
         (s.txs[i].status == Success <==> !waits || IsApproved(s, a))
  }

  lemma {:induction false} SameSum(s: seq<Tx>, t: seq<Tx>, weight: Tx -> real, other: Tx -> real)
    requires |s| == |t| && forall i :: 0 <= i < |s| ==> weight(s[i]) == other(t[i])
    ensures Sum(s, weight) == Sum(t, other)
  {
    if s != [] { SameSum(s[..|s| - 1], t[..|t| - 1], weight, other); }
  }

  lemma LoopKeepsLone(s: State, id: Account, n: nat, a: Account, waits: bool, total: real)
    requires Wellformed(s) && n <= |s.txs| && LoneState(s, a, waits, total)
    ensures var r := ReleaseFirst(s, id, n);
            && a in r.balance && Sum(r.txs, LoneOf(a)) == total
            && forall i :: 0 <= i < |r.txs| && IsLone(r.txs[i], a) ==>
                 (r.txs[i].status == Success <==> !waits || IsApproved(s, a) || (id == a && i < n))
  {
    var r := ReleaseFirst(s, id, n);
    forall i | 0 <= i < |r.txs|
      ensures r.txs[i] == if i < n && Releases(s, id, s.txs[i]) then s.txs[i].(status := Success) else s.txs[i]
    {
      LoopEffect(s, id, n, i);
    }
    SameSum(s.txs, r.txs, LoneOf(a), LoneOf(a));
    if |s.txs| > 0 { LoopEffect(s, id, n, 0); }
  }

  lemma {:induction false} OthersAddNothing(txs: seq<Tx>, more: seq<Tx>, a: Account)
    requires forall i :: 0 <= i < |more| ==> !IsLone(more[i], a)
    ensures Sum(txs + more, LoneOf(a)) == Sum(txs, LoneOf(a))
  {
    if more == [] {
      assert txs + more == txs;
    } else {
      var most, last := more[..|more| - 1], more[|more| - 1];
      OthersAddNothing(txs, most, a);
      SumAppend(txs + most, last, LoneOf(a));
      assert txs + more == txs + most + [last];
    }
  }

  /** What a sign-up or a reward written elsewhere adds; an account it is new to has no rewards of its own yet. */
  lemma SignUpGrows(s: State, e: Event, a: Account) returns (more: seq<Tx>)
    requires Wellformed(s) && a in s.kyc && a in s.balance && (e.SignUpReferred? || e.SignUpAlone? || e.Record?)
    ensures var r := Step(s, e);
            && r.txs == s.txs + more && (forall i :: 0 <= i < |more| ==> !IsLone(more[i], a))
            && a in r.kyc && r.kyc[a] == s.kyc[a] && a in r.balance
  {
    var r := Step(s, e);
    assert |s.txs| <= |r.txs| && r.txs[..|s.txs|] == s.txs;
    more := r.txs[|s.txs|..];
  }

  lemma GrowthKeepsLone(s: State, r: State, more: seq<Tx>, a: Account, waits: bool, total: real)
    requires LoneState(s, a, waits, total) && r.txs == s.txs + more
    requires forall i :: 0 <= i < |more| ==> !IsLone(more[i], a)
    requires a in r.kyc && r.kyc[a] == s.kyc[a] && a in r.balance
    ensures LoneState(r, a, waits, total)
  {
    OthersAddNothing(s.txs, more, a);
  }

  lemma StepKeepsLone(s: State, e: Event, a: Account, waits: bool, total: real)
    requires Wellformed(s) && LoneState(s, a, waits, total) && !(e.Interrupted? && e.account == a)
    ensures LoneState(Step(s, e), a, waits, total) && Unrecorded(e, s, a) == 0.0
  {
    match e
    case ChangeKyc(id, status) => LoopKeepsLone(s, id, |s.txs|, a, waits, total);
    case Interrupted(id, n) => if n <= |s.txs| { LoopKeepsLone(s, id, n, a, waits, total); }
    case _ =>
      var more := SignUpGrows(s, e, a);
      GrowthKeepsLone(s, Step(s, e), more, a, waits, total);
  }

  /** Before an account signs up there is no reward to it. */
  lemma {:induction false} NothingBefore(events: seq<Event>, a: Account)
    ensures a !in Run(events).kyc ==> a !in Run(events).balance && AllUnrecorded(events, a) == 0.0
    ensures a !in Run(events).kyc ==> forall i :: 0 <= i < |Run(events).txs| ==> Run(events).txs[i].receiver != a
  {
    ReleasedInvariant(events);
    if events != [] {
      NothingBefore(events[..|events| - 1], a);
      assert a in Run(events[..|events| - 1]).kyc ==> a in Run(events).kyc;
    }
  }

  lemma SignUpStarts(s: State, e: Event)
    requires e.SignUpAlone? && Step(s, e) != s
    requires forall i :: 0 <= i < |s.txs| ==> s.txs[i].receiver != e.newcomer
    ensures LoneState(Step(s, e), e.newcomer, e.needKyc, if e.needKyc then 2.0 * e.amount else e.amount)
  {
    var a, t := e.newcomer, Tx(NonReferral, None, e.newcomer, e.amount, if e.needKyc then Processing else Success);
    SumZero(s.txs, LoneOf(a));
    SumAppend(s.txs, t, LoneOf(a));
    SumAppend(s.txs + [t], t, LoneOf(a));
    assert s.txs + [t, t] == s.txs + [t] + [t];
  }

  function Total(e: Event): real
    requires e.SignUpAlone?
  {
    if e.needKyc then 2.0 * e.amount else e.amount
  }

  /** What an accepted lone sign-up leaves, and every later step keeps. */
  ghost predicate LoneHistory(events: seq<Event>, e: Event)
    requires e.SignUpAlone?
  {
    && LoneState(Run(events), e.newcomer, e.needKyc, Total(e))
    && AllUnrecorded(events, e.newcomer) == if e.needKyc then e.amount else 0.0
  }

  lemma LoneHistoryStarts(before: seq<Event>, e: Event)
    requires e.SignUpAlone? && Step(Run(before), e) != Run(before)
    ensures LoneHistory(before + [e], e)
  {
    assert (before + [e])[..|before|] == before;
    NothingBefore(before, e.newcomer);
    SignUpStarts(Run(before), e);
  }

  lemma LoneHistoryStays(events: seq<Event>, last: Event, e: Event)
    requires e.SignUpAlone? && LoneHistory(events, e) && !(last.Interrupted? && last.account == e.newcomer)
    ensures LoneHistory(events + [last], e)
  {
    assert (events + [last])[..|events|] == events;
    ReleasedInvariant(events);
    StepKeepsLone(Run(events), last, e.newcomer, e.needKyc, Total(e));
  }

  /** It stays so in every run, while no approval of the account stops halfway. */
  lemma {:induction false} LoneInvariant(start: seq<Event>, e: Event, after: seq<Event>)
    requires e.SignUpAlone? && LoneHistory(start, e) && Uninterrupted(after, e.newcomer)
    ensures LoneHistory(start + after, e)
  {
    if after == [] {
      assert start + after == start;
    } else {
      var most, last := after[..|after| - 1], after[|after| - 1];
      Reassociate(start, after);
      LoneInvariant(start, e, most);
      LoneHistoryStays(start + most, last, e);
    }
  }

  /** In every run a lone sign-up is credited three times its reward when the reward should have waited and the account
      is approved by now, and its reward otherwise: so it is paid once if and only if the reward did not wait, the
      account is not approved yet, or the reward is nothing. */
  lemma LoneRewardCredited(before: seq<Event>, e: Event, after: seq<Event>)
    requires e.SignUpAlone? && Step(Run(before), e) != Run(before) && Uninterrupted(after, e.newcomer)
    ensures var events, a := before + [e] + after, e.newcomer;
            var thrice := e.needKyc && IsApproved(Run(events), a);
            && LoneCredited(events, a) == (if thrice then 3.0 * e.amount else e.amount)
            && (LoneCredited(events, a) == e.amount <==> !thrice || e.amount == 0.0)
  {
    var events, a := before + [e] + after, e.newcomer;
    LoneHistoryStarts(before, e);
    LoneInvariant(before + [e], e, after);
    var s := Run(events);
    if e.needKyc && !IsApproved(s, a) {
      SumZero(s.txs, LonePaid(a));
    } else {
      SameSum(s.txs, s.txs, LonePaid(a), LoneOf(a));
    }
  }

  lemma ApprovalPaysBoth(s: State, a: Account, amount: real)
    requires a in s.kyc && s.kyc[a] == Empty && a in s.balance && s.balance[a] == amount
    requires var t := Tx(NonReferral, None, a, amount, Processing); s.txs == [t, t]
    ensures BalanceIn(ChangeKycStatus(s, a, Approved), a) == 3.0 * amount
  {
    var s1 := Release(s, a, 0);
    assert ReleaseFirst(s, a, 0) == s;
    assert ReleaseFirst(s, a, 1) == s1 && s1.balance[a] == 2.0 * amount && s1.txs[1] == s.txs[1];
    assert ReleaseFirst(s, a, 2) == Release(s1, a, 1);
  }

  /** A lone sign-up that waits for the identity check is paid three times by the time it is approved. */
  lemma LoneRewardPaidThrice(a: Account, amount: real)
    ensures BalanceIn(Run([SignUpAlone(a, true, amount), ChangeKyc(a, Approved)]), a) == 3.0 * amount
  {
    var e1, e2 := SignUpAlone(a, true, amount), ChangeKyc(a, Approved);
    assert [e1, e2][..1] == [e1] && [e1][..0] == [];
    var s := RewardNewAccount(CreateAccount(START, a), a, true, amount);
    assert Run([]) == START && Run([e1]) == Step(Run([]), e1) == s;
    ApprovalPaysBoth(s, a, amount);
  }

  // ---- the service ----

  class AccountService {
    var kyc: map<Account, Kyc>
    var balance: map<Account, real>
    var txs: seq<Tx>
    var referredBy: map<Account, Account>
    var stats: map<Account, Stats>

    ghost function View(): State
      reads this
    {
      State(kyc, balance, txs, referredBy, stats)
    }

    /** Refuses an unknown or approved account and an unchanged status; an approval pays before it is stored. */
    method HandleKycStatus(id: Account, status: Kyc) returns (ok: bool)
      requires Wellformed(View())
      modifies this
      ensures ok == MayChange(old(View()), id, status)
      ensures View() == ChangeKycStatus(old(View()), id, status)
      ensures old(Released(View())) ==> Released(View())
    {
      StepKeepsAllReleased(View(), ChangeKyc(id, status));
      if id !in kyc || kyc[id] == status || kyc[id] == Approved { return false; }
      if status == Approved {
        LoopKeepsWellformed(View(), id, |txs|);
        ProcessCashbackForAccount(id);
        if id in referredBy && referredBy[id] in stats {
          var referrer := referredBy[id];
          stats := stats[referrer := stats[referrer].(totalKyc := stats[referrer].totalKyc + 1)];
        }
      }
      kyc := kyc[id := status];
      ok := true;
    }

    method HandleReferredSignUp(a: Account, referrer: Account, needKyc: bool, amountFrom: real, amountBy: real)
      requires a !in kyc && a !in balance && referrer in kyc && referrer in balance
      modifies this
      ensures View() == Step(old(View()), SignUpReferred(a, referrer, needKyc, amountFrom, amountBy))
      ensures kyc == old(kyc)[a := Empty]
      ensures needKyc ==>
                && txs == old(txs) + [Tx(Referral, Some(referrer), a, amountFrom, Processing),
                                      Tx(Referral, Some(a), referrer, amountBy, Processing)]
                && balance == old(balance)[a := 0.0] && referredBy == old(referredBy)[a := referrer]
                && referrer in stats && stats[referrer].totalReferrals ==
                     (if referrer in old(stats) then old(stats[referrer].totalReferrals) else 0) + 1
      ensures !needKyc ==>
                txs == old(txs) && balance == old(balance) && referredBy == old(referredBy) && stats == old(stats)
      ensures old(Released(View())) ==> Released(View())
    {
      StepKeepsAllReleased(View(), SignUpReferred(a, referrer, needKyc, amountFrom, amountBy));
      kyc := kyc[a := Empty];
      if !needKyc { return; }
      balance := balance[a := 0.0];
      var transactionFrom := Tx(Referral, Some(referrer), a, amountFrom, Processing);
      var transactionBy := Tx(Referral, Some(a), referrer, amountBy, Processing);
      txs := txs + [transactionFrom, transactionBy];
      referredBy := referredBy[a := referrer];
      if referrer in stats {
        stats := stats[referrer := stats[referrer].(totalReferrals := stats[referrer].totalReferrals + 1)];
      } else {
        stats := stats[referrer := Stats(1, 0)];
      }
    }

    method HandleLoneSignUp(a: Account, needKyc: bool, amount: real)
      requires a !in kyc && a !in balance
      modifies this
      ensures View() == Step(old(View()), SignUpAlone(a, needKyc, amount))
      ensures old(Released(View())) ==> Released(View())
    {
      StepKeepsAllReleased(View(), SignUpAlone(a, needKyc, amount));
      kyc := kyc[a := Empty];
      balance := balance[a := 0.0];
      var reward := Tx(NonReferral, None, a, amount, if needKyc then Processing else Success);
      if needKyc { txs := txs + [reward]; }
      balance := balance[a := balance[a] + amount];
      txs := txs + [reward];
      assert needKyc ==> txs == old(txs) + [reward, reward];
    }

    method ProcessCashbackForAccount(id: Account)
      requires Wellformed(View())
      modifies this`balance, this`txs
      ensures View() == ReleaseFirst(old(View()), id, old(|txs|))
    {
      ghost var start := View();
      for i := 0 to |txs|
        invariant |txs| == |start.txs| && View() == ReleaseFirst(start, id, i)
      {
        LoopEffect(start, id, i, i);
        LoopKeepsWellformed(start, id, i);
        var tran := txs[i];
        if tran.status == Processing && (tran.sender == Some(id) || tran.receiver == id) {
          if (tran.sender == Some(id) && kyc[tran.receiver] == Approved)
            || (tran.receiver == id && tran.sender.Some? && tran.sender.value in kyc
                && kyc[tran.sender.value] == Approved)
            || (tran.receiver == id && tran.kind == NonReferral)
            || (tran.receiver == id && tran.kind == PartnerBonus)
          {
            balance := balance[tran.receiver := balance[tran.receiver] + tran.amount];
            txs := txs[i := tran.(status := Success)];
          }
        }
      }
    }
  }
}
