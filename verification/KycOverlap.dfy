/** Identity-check changes of several accounts interleaved step by step: each checks the stored status, an approval
    fetches the waiting rewards once and pays them one by one, and the new status is stored at the end. */
module OverlappingApprovals {
  import opened Common
  import opened Sums
  import opened KycRewards

  /** How far a change has come. `knew` is the accounts that were approved when the rewards were fetched. */
  datatype Progress = Checked | Fetched(todo: seq<nat>, knew: set<Account>)

  datatype Change = Change(account: Account, status: Kyc, referrer: Option<Account>, progress: Progress)

  datatype Service = Service(now: State, changes: map<int, Change>)

  datatype Move =
    | Other(event: Event)  // a sign-up, or a reward written elsewhere
    | Open(id: int, account: Account, status: Kyc)
    | Fetch(id: int)
    | PayNext(id: int)
    | Store(id: int)
    | Stop(id: int)  // the change fails and is given up

  predicate IsGrowth(e: Event)
  {
    e.SignUpReferred? || e.SignUpAlone? || e.Record?
  }

  /** The rewards among the first n that a fetch finds payable. */
  function Payable(s: State, a: Account, n: nat): seq<nat>
    requires n <= |s.txs|
  {
    if n == 0 then [] else Payable(s, a, n - 1) + if Releases(s, a, s.txs[n - 1]) then [n - 1] else []
  }

  /** It lists each of them once. */
  lemma {:induction false} PayableFinds(s: State, a: Account, n: nat)
    requires n <= |s.txs|
    ensures var r := Payable(s, a, n);
            && (forall j :: 0 <= j < |r| ==> r[j] < n)
            && (forall k :: 0 <= k < n ==> (k in r <==> Releases(s, a, s.txs[k])))
            && forall j, k :: 0 <= j < k < |r| ==> r[j] != r[k]
  {
    if n > 0 { PayableFinds(s, a, n - 1); }
  }

  function ApprovedAccounts(s: State): set<Account>
  {
    set a | a in s.kyc && s.kyc[a] == Approved
  }

  function PayAt(s: State, i: nat): State
  {
    if i < |s.txs| && s.txs[i].receiver in s.balance then Pay(s, i) else s
  }

  function Next(v: Service, m: Move): Service
  {
    match m
    case Other(e) => if IsGrowth(e) then v.(now := Step(v.now, e)) else v
    case Open(id, a, status) =>
      if id in v.changes || !MayChange(v.now, a, status) then v
      else
        var referrer := if a in v.now.referredBy then Some(v.now.referredBy[a]) else None;
        v.(changes := v.changes[id := Change(a, status, referrer, Checked)])
    case Fetch(id) =>
      if id !in v.changes || v.changes[id].status != Approved || v.changes[id].progress != Checked then v
      else
        var c := v.changes[id];
        var todo := Payable(v.now, c.account, |v.now.txs|);
        v.(changes := v.changes[id := c.(progress := Fetched(todo, ApprovedAccounts(v.now)))])
    case PayNext(id) =>
      if id !in v.changes || v.changes[id].progress.Checked? || v.changes[id].progress.todo == [] then v
      else
        var c := v.changes[id];
        var todo := c.progress.todo;
        Service(PayAt(v.now, todo[0]), v.changes[id := c.(progress := c.progress.(todo := todo[1..]))])
    case Store(id) =>
      if id !in v.changes then v
      else
        var c := v.changes[id];
        if c.status != Approved then Service(v.now.(kyc := v.now.kyc[c.account := c.status]), v.changes - {id})
        else if c.progress.Checked? || c.progress.todo != [] then v
        else Service(Approve(v.now, c.account, c.referrer), v.changes - {id})
    case Stop(id) => v.(changes := v.changes - {id})
  }

  function Moves(moves: seq<Move>): Service
  {
    if moves == [] then Service(START, map[]) else Next(Moves(moves[..|moves| - 1]), moves[|moves| - 1])
  }

  // ---- when a reward is left waiting ----

  predicate Party(t: Tx, a: Account)
  {
    t.sender == Some(a) || t.receiver == a
  }

  /** The other party of a referral reward. */
  function Counterparty(t: Tx, a: Account): Account
  {
    if t.receiver == a && t.sender.Some? then t.sender.value else t.receiver
  }

  predicate Waiting(t: Tx, a: Account)
  {
    t.kind == Referral && t.status == Processing && Party(t, a)
  }

  /** Every reward that waits for an account the approval knew to be approved is on its list. */
  ghost predicate Covers(s: State, c: Change)
  {
    && c.account in s.kyc
    && (c.progress.Fetched? ==>
          && c.progress.knew <= s.kyc.Keys
          && forall i :: 0 <= i < |s.txs| ==> Waiting(s.txs[i], c.account) ==>
               Counterparty(s.txs[i], c.account) in c.progress.knew ==> i in c.progress.todo)
  }

  ghost predicate Intact(v: Service)
  {
    Wellformed(v.now) && forall id :: id in v.changes ==> Covers(v.now, v.changes[id])
  }

  /** An account that shares a waiting reward with this one has been approved since the rewards were fetched. */
  ghost predicate Overtaken(s: State, c: Change)
    requires c.progress.Fetched?
  {
    exists i :: 0 <= i < |s.txs| && Waiting(s.txs[i], c.account)
                && IsApproved(s, Counterparty(s.txs[i], c.account))
                && Counterparty(s.txs[i], c.account) !in c.progress.knew
  }

  /** The store of an approval that was overtaken. */
  ghost predicate StoresOvertaken(v: Service, m: Move)
  {
    && m.Store? && m.id in v.changes && v.changes[m.id].status == Approved
    && v.changes[m.id].progress.Fetched? && v.changes[m.id].progress.todo == []
    && Overtaken(v.now, v.changes[m.id])
  }

  /** What a sign-up, or a reward written elsewhere, leaves as it was. */
  lemma GrowthAdds(s: State, e: Event)
    requires Wellformed(s) && IsGrowth(e)
    ensures var r := Step(s, e);
            && Wellformed(r) && s.kyc.Keys <= r.kyc.Keys && s.balance.Keys <= r.balance.Keys
            && (forall a :: a in s.kyc ==> r.kyc[a] == s.kyc[a])
            && |s.txs| <= |r.txs| && (forall i :: 0 <= i < |s.txs| ==> r.txs[i] == s.txs[i])
            && forall i :: |s.txs| <= i < |r.txs| && r.txs[i].kind == Referral ==>
                 r.txs[i].sender.Some? && (r.txs[i].receiver !in s.kyc || r.txs[i].sender.value !in s.kyc)
  {
    StepKeepsWellformed(s, e);
  }

  lemma GrowthKeepsCover(s: State, e: Event, c: Change)
    requires Wellformed(s) && IsGrowth(e) && Covers(s, c)
    ensures Covers(Step(s, e), c)
  {
    GrowthAdds(s, e);
  }

  lemma PayKeeps(s: State, i: nat)
    requires Wellformed(s)
    ensures var r := PayAt(s, i);
            && Wellformed(r) && r.kyc == s.kyc && |r.txs| == |s.txs|
            && (forall k :: 0 <= k < |s.txs| ==> r.txs[k] == if k == i then s.txs[k].(status := Success) else s.txs[k])
  {
    var r := PayAt(s, i);
    if i < |s.txs| { assert Parties(s, s.txs[i]); }
    forall k | 0 <= k < |r.txs| ensures Parties(r, r.txs[k]) { assert Parties(s, s.txs[k]); }
  }

  lemma StatusKeepsIntact(s: State, a: Account, status: Kyc, referrer: Option<Account>, c: Change)
    requires Wellformed(s) && Covers(s, c) && a in s.kyc
    ensures Wellformed(s.(kyc := s.kyc[a := status])) && Covers(s.(kyc := s.kyc[a := status]), c)
    ensures Wellformed(Approve(s, a, referrer)) && Covers(Approve(s, a, referrer), c)
  {
    var r, t := s.(kyc := s.kyc[a := status]), Approve(s, a, referrer);
    forall k | 0 <= k < |s.txs| ensures Parties(r, r.txs[k]) && Parties(t, t.txs[k]) { assert Parties(s, s.txs[k]); }
  }

  lemma FetchCovers(s: State, c: Change)
    requires Wellformed(s) && c.account in s.kyc
    ensures Covers(s, c.(progress := Fetched(Payable(s, c.account, |s.txs|), ApprovedAccounts(s))))
  {
    PayableFinds(s, c.account, |s.txs|);
    forall i | 0 <= i < |s.txs| && Waiting(s.txs[i], c.account)
               && Counterparty(s.txs[i], c.account) in ApprovedAccounts(s)
      ensures i in Payable(s, c.account, |s.txs|)
    {
      assert Parties(s, s.txs[i]);
      assert Releases(s, c.account, s.txs[i]);
    }
  }

  lemma PayKeepsCovers(v: Service, id: int)
    requires Intact(v)
    ensures Intact(Next(v, PayNext(id)))
  {
    var w := Next(v, PayNext(id));
    if w != v {
      var todo := v.changes[id].progress.todo;
      PayKeeps(v.now, todo[0]);
      forall k | k in w.changes ensures Covers(w.now, w.changes[k]) {
        assert Covers(v.now, v.changes[k]);
        assert k == id ==> forall i :: i in todo ==> i == todo[0] || i in todo[1..];
      }
    }
  }

  lemma NextKeepsIntact(v: Service, m: Move)
    requires Intact(v)
    ensures Intact(Next(v, m))
  {
    var w := Next(v, m);
    match m
    case Other(e) =>
      if IsGrowth(e) {
        GrowthAdds(v.now, e);
        forall k | k in w.changes ensures Covers(w.now, w.changes[k]) { GrowthKeepsCover(v.now, e, v.changes[k]); }
      }
    case Open(id, a, status) =>
    case Fetch(id) => if w != v { FetchCovers(v.now, v.changes[id]); }
    case PayNext(id) => PayKeepsCovers(v, id);
    case Store(id) =>
      if w != v {
        var c := v.changes[id];
        forall k | k in v.changes ensures Wellformed(w.now) && Covers(w.now, v.changes[k]) {
          StatusKeepsIntact(v.now, c.account, c.status, c.referrer, v.changes[k]);
        }
      }
    case Stop(id) =>
  }

  /** Storing an approval leaves a reward waiting exactly when it was overtaken. */
  lemma StoreReleasesIff(s: State, c: Change)
    requires Wellformed(s) && Covers(s, c) && c.progress.Fetched? && c.progress.todo == [] && NoneOverdue(s)
    ensures NoneOverdue(Approve(s, c.account, c.referrer)) <==> !Overtaken(s, c)
  {
    var r := Approve(s, c.account, c.referrer);
    if i :| 0 <= i < |s.txs| && Waiting(s.txs[i], c.account)
            && IsApproved(s, Counterparty(s.txs[i], c.account))
            && Counterparty(s.txs[i], c.account) !in c.progress.knew {
      assert Parties(s, s.txs[i]);
      assert BothApproved(r, r.txs[i]);
    } else {
      forall i | 0 <= i < |r.txs| && r.txs[i].kind == Referral && BothApproved(r, r.txs[i])
        ensures r.txs[i].status == Success
      {
        assert Parties(s, s.txs[i]);
        assert BothApproved(s, s.txs[i]) || Party(s.txs[i], c.account);
      }
    }
  }

  lemma NextReleasesIff(v: Service, m: Move)
    requires Intact(v) && NoneOverdue(v.now)
    ensures NoneOverdue(Next(v, m).now) <==> !StoresOvertaken(v, m)
  {
    var w := Next(v, m);
    match m
    case Other(e) => if IsGrowth(e) { SignUpKeepsReleased(v.now, e); }
    case PayNext(id) =>
      if w != v {
        PayKeeps(v.now, v.changes[id].progress.todo[0]);
        assert forall i :: 0 <= i < |w.now.txs| ==>
          BothApproved(w.now, w.now.txs[i]) == BothApproved(v.now, v.now.txs[i]);
      }
    case Store(id) =>
      if w != v {
        var c := v.changes[id];
        if c.status == Approved {
          StoreReleasesIff(v.now, c);
        } else {
          assert forall t :: BothApproved(w.now, t) ==> BothApproved(v.now, t);
        }
      }
    case _ =>
  }

  /** At every moment of the run no referral reward is left waiting once both its parties are approved. */
  ghost predicate AlwaysReleased(moves: seq<Move>)
  {
    NoneOverdue(Moves(moves).now) && (moves != [] ==> AlwaysReleased(moves[..|moves| - 1]))
  }

  ghost predicate NoneOvertaken(moves: seq<Move>)
  {
    moves != [] ==>
      var most := moves[..|moves| - 1];
      NoneOvertaken(most) && !StoresOvertaken(Moves(most), moves[|moves| - 1])
  }

  lemma {:induction false} MovesIntact(moves: seq<Move>)
    ensures Intact(Moves(moves))
  {
    if moves != [] {
      MovesIntact(moves[..|moves| - 1]);
      NextKeepsIntact(Moves(moves[..|moves| - 1]), moves[|moves| - 1]);
    }
  }

  /** However approvals interleave, no reward is ever left waiting if and only if no approval is stored after an account
      it shares a waiting reward with was approved since it fetched its list. */
  lemma {:induction false} ReleasedIffNoneOvertaken(moves: seq<Move>)
    ensures AlwaysReleased(moves) <==> NoneOvertaken(moves)
  {
    if moves != [] {
      var most := moves[..|moves| - 1];
      ReleasedIffNoneOvertaken(most);
      if AlwaysReleased(most) {
        MovesIntact(most);
        NextReleasesIff(Moves(most), moves[|moves| - 1]);
      }
    }
  }

  /** An approval is opened and fetches. */
  function Begin(v: Service, id: int, a: Account): Service
  {
    Next(Next(v, Open(id, a, Approved)), Fetch(id))
  }

  /** The approval as it stands then. */
  function Begun(s: State, a: Account): Change
  {
    Change(a, Approved, if a in s.referredBy then Some(s.referredBy[a]) else None,
           Fetched(Payable(s, a, |s.txs|), ApprovedAccounts(s)))
  }

  lemma BeginOpens(v: Service, id: int, a: Account)
    requires id !in v.changes && MayChange(v.now, a, Approved)
    ensures Begin(v, id, a) == v.(changes := v.changes[id := Begun(v.now, a)])
  {
  }

  /** Both parties' approvals fetch before either is stored: their reward is never paid. */
  lemma CrossedApprovalsLeaveWaiting(v: Service, p: int, q: int, a: Account, b: Account, i: nat)
    requires Intact(v) && p != q && p !in v.changes && q !in v.changes && a != b
    requires MayChange(v.now, a, Approved) && MayChange(v.now, b, Approved)
    requires i < |v.now.txs| && Waiting(v.now.txs[i], a) && Waiting(v.now.txs[i], b)
    requires Payable(v.now, a, |v.now.txs|) == [] && Payable(v.now, b, |v.now.txs|) == []
    ensures var after := Next(Next(Begin(Begin(v, p, a), q, b), Store(p)), Store(q)).now;
            after.txs == v.now.txs && BothApproved(after, after.txs[i]) && !NoneOverdue(after)
  {
    assert Parties(v.now, v.now.txs[i]);
    BeginOpens(v, p, a);
    BeginOpens(Begin(v, p, a), q, b);
    var c, d := Begun(v.now, a), Begun(v.now, b);
    var after := Approve(Approve(v.now, a, c.referrer), b, d.referrer);
    assert Next(Next(Begin(Begin(v, p, a), q, b), Store(p)), Store(q)).now == after;
    assert after.txs[i] == v.now.txs[i] && BothApproved(after, after.txs[i]);
  }

  lemma MovesMore(moves: seq<Move>, m: Move)
    ensures Moves(moves + [m]) == Next(Moves(moves), m)
  {
    assert (moves + [m])[..|moves|] == moves;
  }

  lemma SignUpsLeaveWaiting(v: Service, a: Account, b: Account, reward: real, amountA: real, amountB: real)
    requires v == Service(START, map[]) && a != b
    ensures var s := Next(Next(v, Move.Other(SignUpAlone(a, false, reward))),
                       Move.Other(SignUpReferred(b, a, true, amountB, amountA))).now;
            && s.kyc == map[a := Empty, b := Empty] && |s.txs| == 3
            && s.txs[0].status == Success && Waiting(s.txs[1], a) && Waiting(s.txs[1], b)
            && Waiting(s.txs[2], a) && Waiting(s.txs[2], b)
  {
  }

  lemma NothingPayable(s: State, a: Account, n: nat)
    requires n <= |s.txs| && forall i :: 0 <= i < n ==> !Releases(s, a, s.txs[i])
    ensures Payable(s, a, n) == []
  {
  }

  lemma CrossedMoves(start: seq<Move>, a: Account, b: Account)
    ensures Moves(start + [Open(1, a, Approved)] + [Fetch(1)] + [Open(2, b, Approved)] + [Fetch(2)]
                  + [Store(1)] + [Store(2)])
         == Next(Next(Begin(Begin(Moves(start), 1, a), 2, b), Store(1)), Store(2))
  {
    MovesMore(start, Open(1, a, Approved));
    MovesMore(start + [Open(1, a, Approved)], Fetch(1));
    MovesMore(start + [Open(1, a, Approved)] + [Fetch(1)], Open(2, b, Approved));
    MovesMore(start + [Open(1, a, Approved)] + [Fetch(1)] + [Open(2, b, Approved)], Fetch(2));
    var begun := start + [Open(1, a, Approved)] + [Fetch(1)] + [Open(2, b, Approved)] + [Fetch(2)];
    MovesMore(begun, Store(1));
    MovesMore(begun + [Store(1)], Store(2));
  }

  /** With only the two rewards between them waiting. */
  lemma CrossedRewardsStayWaiting(v: Service, a: Account, b: Account)
    requires Intact(v) && v.changes == map[] && a != b && v.now.kyc == map[a := Empty, b := Empty]
    requires var t := v.now.txs;
             && |t| == 3 && t[0].status == Success && Waiting(t[1], a) && Waiting(t[1], b)
             && Waiting(t[2], a) && Waiting(t[2], b)
    ensures var s := Next(Next(Begin(Begin(v, 1, a), 2, b), Store(1)), Store(2)).now;
            && s.txs == v.now.txs
            && BothApproved(s, s.txs[1]) && BothApproved(s, s.txs[2])
  {
    NothingPayable(v.now, a, 3);
    NothingPayable(v.now, b, 3);
    CrossedApprovalsLeaveWaiting(v, 1, 2, a, b, 1);
    CrossedApprovalsLeaveWaiting(v, 1, 2, a, b, 2);
  }

  /** From the empty state: a sign-up alone, one it referred, and both approvals crossed leave both rewards waiting. */
  lemma CrossedApprovalsFromStart(a: Account, b: Account, reward: real, amountA: real, amountB: real)
    requires a != b
    ensures var moves := [Move.Other(SignUpAlone(a, false, reward))]
                           + [Move.Other(SignUpReferred(b, a, true, amountB, amountA))]
                           + [Open(1, a, Approved)] + [Fetch(1)] + [Open(2, b, Approved)] + [Fetch(2)]
                           + [Store(1)] + [Store(2)];
            var s := Moves(moves).now;
            |s.txs| == 3 && forall i :: 1 <= i < 3 ==> s.txs[i].status == Processing && BothApproved(s, s.txs[i])
  {
    var alone, referred := Move.Other(SignUpAlone(a, false, reward)),
                           Move.Other(SignUpReferred(b, a, true, amountB, amountA));
    SignUpsLeaveWaiting(Moves([]), a, b, reward, amountA, amountB);
    MovesMore([], alone);
    assert [] + [alone] == [alone];
    MovesMore([alone], referred);
    MovesIntact([alone] + [referred]);
    CrossedRewardsStayWaiting(Moves([alone] + [referred]), a, b);
    CrossedMoves([alone] + [referred], a, b);
  }

  // ---- when a reward is paid early ----

  /** The reward a step pays, if it pays one. */
  function PaidBy(v: Service, m: Move): (i: Option<nat>)
    ensures i.Some? ==> i.value < |v.now.txs| && v.now.txs[i.value].receiver in v.now.balance
  {
    if !m.PayNext? || m.id !in v.changes || v.changes[m.id].progress.Checked? || v.changes[m.id].progress.todo == []
    then None
    else
      var i := v.changes[m.id].progress.todo[0];
      if i < |v.now.txs| && v.now.txs[i].receiver in v.now.balance then Some(i) else None
  }

  /** The rewards a change paid since it was opened. */
  function PaidIn(moves: seq<Move>, id: int): set<nat>
  {
    if moves == [] then {}
    else
      var most := moves[..|moves| - 1];
      NowPaidIn(Moves(most), moves[|moves| - 1], id, PaidIn(most, id))
  }

  function NowPaidIn(v: Service, m: Move, id: int, paid: set<nat>): set<nat>
  {
    if m.Open? && m.id == id && Next(v, m) != v then {}
    else if m.PayNext? && m.id == id && PaidBy(v, m).Some? then paid + {PaidBy(v, m).value}
    else paid
  }

  /** The rewards paid by changes that were then given up. */
  function Abandoned(moves: seq<Move>): set<nat>
  {
    if moves == [] then {}
    else
      var most, m := moves[..|moves| - 1], moves[|moves| - 1];
      Abandoned(most) + if m.Stop? && m.id in Moves(most).changes then PaidIn(most, m.id) else {}
  }

  /** The approved accounts whose status was overwritten by a change opened before they were approved. */
  function Overwritten(moves: seq<Move>): set<Account>
  {
    if moves == [] then {}
    else
      var most := moves[..|moves| - 1];
      NowOverwritten(Moves(most), moves[|moves| - 1], Overwritten(most))
  }

  function NowOverwritten(v: Service, m: Move, before: set<Account>): set<Account>
  {
    if m.Store? && m.id in v.changes && v.changes[m.id].status != Approved && IsApproved(v.now, v.changes[m.id].account)
    then before + {v.changes[m.id].account}
    else before
  }

  /** What a change has paid or is about to pay concerns its account, and a counterparty that is approved or was
      overwritten. */
  ghost predicate Grounded(s: State, c: Change, paid: set<nat>, lost: set<Account>)
  {
    && (c.progress.Fetched? ==> c.status == Approved)
    && (c.progress.Checked? ==> paid == {})
    && forall i :: (i in paid || (c.progress.Fetched? && i in c.progress.todo)) ==>
         && i < |s.txs| && Party(s.txs[i], c.account)
         && (s.txs[i].kind == Referral ==>
               IsApproved(s, Counterparty(s.txs[i], c.account)) || Counterparty(s.txs[i], c.account) in lost)
  }

  lemma PayKeepsGrounded(v: Service, paying: int, id: int, paid: set<nat>, lost: set<Account>)
    requires Intact(v) && id in v.changes && Grounded(v.now, v.changes[id], paid, lost)
    requires PaidBy(v, PayNext(paying)).Some?
    ensures Grounded(Next(v, PayNext(paying)).now, Next(v, PayNext(paying)).changes[id],
              NowPaidIn(v, PayNext(paying), id, paid), lost)
  {
    var i, todo := PaidBy(v, PayNext(paying)).value, v.changes[paying].progress.todo;
    PayKeeps(v.now, i);
    assert i in todo && forall k :: k in todo[1..] ==> k in todo;
  }

  lemma FetchGrounded(s: State, c: Change, lost: set<Account>)
    requires Wellformed(s) && c.status == Approved
    ensures Grounded(s, c.(progress := Fetched(Payable(s, c.account, |s.txs|), ApprovedAccounts(s))), {}, lost)
  {
    PayableFinds(s, c.account, |s.txs|);
    forall i | i in Payable(s, c.account, |s.txs|) ensures i < |s.txs| && Parties(s, s.txs[i]) {}
  }

  lemma StoreKeepsGrounded(v: Service, m: Move, c: Change, paid: set<nat>, lost: set<Account>)
    requires m.Store? && Grounded(v.now, c, paid, lost)
    ensures Grounded(Next(v, m).now, c, paid, NowOverwritten(v, m, lost))
  {
  }

  lemma NextKeepsGrounded(v: Service, m: Move, id: int, paid: set<nat>, lost: set<Account>)
    requires Intact(v) && id in Next(v, m).changes
    requires id in v.changes ==> Grounded(v.now, v.changes[id], paid, lost)
    ensures Grounded(Next(v, m).now, Next(v, m).changes[id], NowPaidIn(v, m, id, paid), NowOverwritten(v, m, lost))
  {
    var w := Next(v, m);
    match m
    case Other(e) => if w != v { GrowthAdds(v.now, e); }
    case Fetch(k) => if w != v && k == id { FetchGrounded(v.now, v.changes[id], lost); }
    case PayNext(k) => if PaidBy(v, m).Some? { PayKeepsGrounded(v, k, id, paid, lost); }
    case Store(k) => StoreKeepsGrounded(v, m, v.changes[id], paid, lost);
    case _ =>
  }

  ghost predicate AllGrounded(v: Service, paid: map<int, set<nat>>, lost: set<Account>)
  {
    v.changes.Keys <= paid.Keys && forall id :: id in v.changes ==> Grounded(v.now, v.changes[id], paid[id], lost)
  }

  /** Why a referral reward is SUCCESS although its parties are not both approved. */
  ghost predicate Excused(v: Service, i: nat, paid: map<int, set<nat>>, stopped: set<nat>, lost: set<Account>)
    requires i < |v.now.txs|
  {
    || i in stopped || v.now.txs[i].receiver in lost
    || (v.now.txs[i].sender.Some? && v.now.txs[i].sender.value in lost)
    || exists id :: id in v.changes && id in paid && i in paid[id]
  }

  ghost predicate Explained(v: Service, i: nat, paid: map<int, set<nat>>, stopped: set<nat>, lost: set<Account>)
    requires i < |v.now.txs|
  {
    v.now.txs[i].kind == Referral && v.now.txs[i].status == Success ==>
      BothApproved(v.now, v.now.txs[i]) || Excused(v, i, paid, stopped, lost)
  }

  /** What the changes in flight have paid after a step. */
  function PaidAfter(v: Service, m: Move, paid: map<int, set<nat>>): map<int, set<nat>>
  {
    map id | id in Next(v, m).changes :: NowPaidIn(v, m, id, if id in paid then paid[id] else {})
  }

  function StoppedAfter(v: Service, m: Move, paid: map<int, set<nat>>, stopped: set<nat>): set<nat>
  {
    stopped + if m.Stop? && m.id in v.changes && m.id in paid then paid[m.id] else {}
  }

  lemma PayKeepsExplainedEarly(v: Service, k: int, i: nat, paid: map<int, set<nat>>, stopped: set<nat>,
                               lost: set<Account>)
    requires Intact(v) && AllGrounded(v, paid, lost) && i < |v.now.txs| && Explained(v, i, paid, stopped, lost)
    ensures var m := PayNext(k);
            i < |Next(v, m).now.txs| && Explained(Next(v, m), i, PaidAfter(v, m, paid), stopped, lost)
  {
    var m := PayNext(k);
    var w := Next(v, m);
    if w != v {
      PayKeeps(v.now, v.changes[k].progress.todo[0]);
      if PaidBy(v, m) == Some(i) { assert i in PaidAfter(v, m, paid)[k]; }
      forall id | id in v.changes && i in paid[id] ensures i in PaidAfter(v, m, paid)[id] {}
    }
  }

  lemma StoreKeepsExplainedEarly(v: Service, k: int, i: nat, paid: map<int, set<nat>>, stopped: set<nat>,
                                 lost: set<Account>)
    requires Intact(v) && AllGrounded(v, paid, lost) && i < |v.now.txs| && Explained(v, i, paid, stopped, lost)
    ensures var m := Store(k);
            i < |Next(v, m).now.txs|
            && Explained(Next(v, m), i, PaidAfter(v, m, paid), stopped, NowOverwritten(v, m, lost))
  {
    var m := Store(k);
    var w, after := Next(v, m), NowOverwritten(v, m, lost);
    if w != v {
      assert Parties(v.now, v.now.txs[i]);
      assert Grounded(v.now, v.changes[k], paid[k], lost);
      forall id | id in w.changes && i in paid[id] ensures i in PaidAfter(v, m, paid)[id] {}
    }
  }

  lemma StopKeepsExplainedEarly(v: Service, m: Move, i: nat, paid: map<int, set<nat>>, stopped: set<nat>,
                                lost: set<Account>)
    requires Intact(v) && AllGrounded(v, paid, lost) && i < |v.now.txs| && Explained(v, i, paid, stopped, lost)
    requires m.Stop? || m.Open? || m.Fetch?
    ensures i < |Next(v, m).now.txs|
            && Explained(Next(v, m), i, PaidAfter(v, m, paid), StoppedAfter(v, m, paid, stopped), lost)
  {
    forall id | id in Next(v, m).changes && id in v.changes && i in paid[id]
      ensures i in PaidAfter(v, m, paid)[id]
    {}
  }

  lemma GrowthKeepsExplainedEarly(v: Service, e: Event, i: nat, paid: map<int, set<nat>>, stopped: set<nat>,
                                  lost: set<Account>)
    requires Intact(v) && AllGrounded(v, paid, lost) && i < |Next(v, Move.Other(e)).now.txs|
    requires i < |v.now.txs| ==> Explained(v, i, paid, stopped, lost)
    ensures Explained(Next(v, Move.Other(e)), i, PaidAfter(v, Move.Other(e), paid), stopped, lost)
  {
    if IsGrowth(e) {
      GrowthAdds(v.now, e);
      var t := Step(v.now, e).txs[i];
      assert i >= |v.now.txs| && t.kind == Referral ==> t.status == Processing;
      forall id | id in v.changes && i in paid[id] ensures i in PaidAfter(v, Move.Other(e), paid)[id] {}
    }
  }

  lemma NextKeepsExplainedEarly(v: Service, m: Move, i: nat, paid: map<int, set<nat>>, stopped: set<nat>,
                                lost: set<Account>)
    requires Intact(v) && AllGrounded(v, paid, lost) && i < |Next(v, m).now.txs|
    requires i < |v.now.txs| ==> Explained(v, i, paid, stopped, lost)
    ensures Explained(Next(v, m), i, PaidAfter(v, m, paid), StoppedAfter(v, m, paid, stopped),
              NowOverwritten(v, m, lost))
  {
    match m
    case Other(e) => GrowthKeepsExplainedEarly(v, e, i, paid, stopped, lost);
    case PayNext(k) =>
      if Next(v, m) != v { PayKeeps(v.now, v.changes[k].progress.todo[0]); }
      PayKeepsExplainedEarly(v, k, i, paid, stopped, lost);
    case Store(k) => StoreKeepsExplainedEarly(v, k, i, paid, stopped, lost);
    case _ => StopKeepsExplainedEarly(v, m, i, paid, stopped, lost);
  }

  /** What each change in flight has paid. */
  ghost function PaidInFlight(moves: seq<Move>): map<int, set<nat>>
  {
    map id | id in Moves(moves).changes :: PaidIn(moves, id)
  }

  lemma {:induction false} EarlyInvariant(moves: seq<Move>)
    ensures AllGrounded(Moves(moves), PaidInFlight(moves), Overwritten(moves))
    ensures forall i :: 0 <= i < |Moves(moves).now.txs| ==>
              Explained(Moves(moves), i, PaidInFlight(moves), Abandoned(moves), Overwritten(moves))
  {
    if moves != [] {
      var most, m := moves[..|moves| - 1], moves[|moves| - 1];
      EarlyInvariant(most);
      MovesIntact(most);
      var v, paid, lost := Moves(most), PaidInFlight(most), Overwritten(most);
      assert PaidInFlight(moves) == PaidAfter(v, m, paid) by {
        forall id | id in Next(v, m).changes ensures PaidIn(moves, id) == PaidAfter(v, m, paid)[id] {
          assert id !in v.changes ==> m.Open? && m.id == id;
        }
      }
      forall id | id in Next(v, m).changes
        ensures Grounded(Next(v, m).now, Next(v, m).changes[id], PaidIn(moves, id), Overwritten(moves))
      {
        NextKeepsGrounded(v, m, id, PaidIn(most, id), lost);
      }
      forall i: nat | i < |Next(v, m).now.txs|
        ensures Explained(Next(v, m), i, PaidInFlight(moves), Abandoned(moves), Overwritten(moves))
      {
        NextKeepsExplainedEarly(v, m, i, paid, Abandoned(most), lost);
      }
    }
  }

  /** However approvals interleave, a referral reward is SUCCESS before both its parties are approved only if an
      approval that paid it has been given up or is not stored yet, or the stored approval of a party was
      overwritten. */
  lemma {:induction false} EarlyOnlyIfUnfinished(moves: seq<Move>, i: nat)
    requires i < |Moves(moves).now.txs| && Moves(moves).now.txs[i].kind == Referral
    requires Moves(moves).now.txs[i].status == Success && !BothApproved(Moves(moves).now, Moves(moves).now.txs[i])
    ensures var v, t := Moves(moves), Moves(moves).now.txs[i];
            || (exists id :: id in v.changes && i in PaidIn(moves, id)) || i in Abandoned(moves)
            || exists a :: a in Overwritten(moves) && Party(t, a)
  {
    EarlyInvariant(moves);
    var v, t := Moves(moves), Moves(moves).now.txs[i];
    assert Explained(v, i, PaidInFlight(moves), Abandoned(moves), Overwritten(moves));
    if t.receiver in Overwritten(moves) {
      assert Party(t, t.receiver);
    } else if t.sender.Some? && t.sender.value in Overwritten(moves) {
      assert Party(t, t.sender.value);
    } else if i !in Abandoned(moves) {
      var id :| id in v.changes && id in PaidInFlight(moves) && i in PaidInFlight(moves)[id];
      assert i in PaidIn(moves, id);
    }
  }

  /** The step pays a referral reward whose parties are not both approved yet. */
  predicate PaysEarly(v: Service, m: Move)
  {
    var i := PaidBy(v, m);
    i.Some? && v.now.txs[i.value].kind == Referral && !BothApproved(v.now, v.now.txs[i.value])
  }

  /** The step takes back the approval of a party to a paid referral reward. */
  ghost predicate UnapprovesPaid(v: Service, m: Move)
  {
    && m.Store? && m.id in v.changes && v.changes[m.id].status != Approved
    && exists i :: 0 <= i < |v.now.txs| && v.now.txs[i].kind == Referral && v.now.txs[i].status == Success
                   && Party(v.now.txs[i], v.changes[m.id].account)
  }

  lemma PayEarlyIff(v: Service, m: Move)
    requires Intact(v) && NoneEarly(v.now) && m.PayNext?
    ensures NoneEarly(Next(v, m).now) <==> !PaysEarly(v, m)
  {
    var w := Next(v, m);
    if w != v {
      PayKeeps(v.now, v.changes[m.id].progress.todo[0]);
      assert forall i :: 0 <= i < |v.now.txs| ==>
        BothApproved(w.now, w.now.txs[i]) == BothApproved(v.now, v.now.txs[i]);
      if PaysEarly(v, m) {
        var i := PaidBy(v, m).value;
        assert w.now.txs[i].status == Success && !BothApproved(w.now, w.now.txs[i]);
      }
    }
  }

  lemma StoreEarlyIff(v: Service, m: Move)
    requires Intact(v) && NoneEarly(v.now) && m.Store?
    ensures NoneEarly(Next(v, m).now) <==> !UnapprovesPaid(v, m)
  {
    var w := Next(v, m);
    if UnapprovesPaid(v, m) {
      var a := v.changes[m.id].account;
      var i :| 0 <= i < |v.now.txs| && v.now.txs[i].kind == Referral && v.now.txs[i].status == Success
               && Party(v.now.txs[i], a);
      assert w.now.txs[i] == v.now.txs[i] && !IsApproved(w.now, a) && !BothApproved(w.now, w.now.txs[i]);
    } else if w != v {
      forall i | 0 <= i < |w.now.txs| && w.now.txs[i].kind == Referral && w.now.txs[i].status == Success
        ensures BothApproved(w.now, w.now.txs[i])
      {
        assert BothApproved(v.now, v.now.txs[i]);
        assert v.changes[m.id].status != Approved ==> !Party(v.now.txs[i], v.changes[m.id].account);
      }
    }
  }

  lemma NextEarlyIff(v: Service, m: Move)
    requires Intact(v) && NoneEarly(v.now)
    ensures NoneEarly(Next(v, m).now) <==> !PaysEarly(v, m) && !UnapprovesPaid(v, m)
  {
    match m
    case Other(e) => if IsGrowth(e) { SignUpKeepsReleased(v.now, e); }
    case PayNext(_) => PayEarlyIff(v, m);
    case Store(_) => StoreEarlyIff(v, m);
    case _ =>
  }

  ghost predicate NeverEarly(moves: seq<Move>)
  {
    NoneEarly(Moves(moves).now) && (moves != [] ==> NeverEarly(moves[..|moves| - 1]))
  }

  ghost predicate PaysOnlyApproved(moves: seq<Move>)
  {
    moves != [] ==>
      var most, m := moves[..|moves| - 1], moves[|moves| - 1];
      PaysOnlyApproved(most) && !PaysEarly(Moves(most), m) && !UnapprovesPaid(Moves(most), m)
  }

  /** However approvals interleave, no referral reward is ever SUCCESS before both its parties are approved if and only
      if none is paid while they are not, which the order of an approval's steps does not ensure, and no approval of a
      party to a paid one is overwritten. */
  lemma {:induction false} NeverEarlyIffPaysOnlyApproved(moves: seq<Move>)
    ensures NeverEarly(moves) <==> PaysOnlyApproved(moves)
  {
    if moves != [] {
      var most := moves[..|moves| - 1];
      NeverEarlyIffPaysOnlyApproved(most);
      if NeverEarly(most) {
        MovesIntact(most);
        NextEarlyIff(Moves(most), moves[|moves| - 1]);
      }
    }
  }

  /** So when no change is in flight, none was given up after a payment, no stored approval was overwritten and none was
      overtaken, a referral reward is PROCESSING exactly while its parties are not both approved. */
  lemma {:induction false} SettledExactly(moves: seq<Move>, i: nat)
    requires NoneOvertaken(moves) && Moves(moves).changes == map[]
    requires Abandoned(moves) == {} && Overwritten(moves) == {}
    requires i < |Moves(moves).now.txs| && Moves(moves).now.txs[i].kind == Referral
    ensures var s := Moves(moves).now; s.txs[i].status == Processing <==> !BothApproved(s, s.txs[i])
  {
    ReleasedIffNoneOvertaken(moves);
    var s := Moves(moves).now;
    if s.txs[i].status == Success && !BothApproved(s, s.txs[i]) { EarlyOnlyIfUnfinished(moves, i); }
  }

  // ---- an approval that nothing overlaps ----

  function PayEach(s: State, todo: seq<nat>): State
  {
    if todo == [] then s else PayAt(PayEach(s, todo[..|todo| - 1]), todo[|todo| - 1])
  }

  /** The payment loop: n more rewards are paid. */
  function Drain(v: Service, id: int, n: nat): Service
  {
    if n == 0 then v else Next(Drain(v, id, n - 1), PayNext(id))
  }

  /** The change with the rest of its list. */
  function WithTodo(c: Change, todo: seq<nat>): Change
    requires c.progress.Fetched?
  {
    c.(progress := c.progress.(todo := todo))
  }

  lemma PayNextPays(s: State, changes: map<int, Change>, id: int, c: Change, todo: seq<nat>)
    requires c.progress.Fetched? && todo != []
    ensures Next(Service(s, changes[id := WithTodo(c, todo)]), PayNext(id)) ==
            Service(PayAt(s, todo[0]), changes[id := WithTodo(c, todo[1..])])
  {
  }

  lemma PayOneMore(s: State, todo: seq<nat>, i: nat)
    ensures PayEach(s, todo + [i]) == PayAt(PayEach(s, todo), i)
  {
    assert (todo + [i])[..|todo|] == todo;
  }

  lemma OneMore(todo: seq<nat>, n: nat)
    requires 0 < n <= |todo|
    ensures todo[..n] == todo[..n - 1] + [todo[n - 1]]
    ensures todo[n - 1..] != [] && todo[n - 1..][0] == todo[n - 1] && todo[n - 1..][1..] == todo[n..]
  {
  }

  lemma {:induction false} DrainPaysEach(s: State, changes: map<int, Change>, id: int, c: Change, n: nat)
    requires c.progress.Fetched? && n <= |c.progress.todo|
    ensures Drain(Service(s, changes[id := c]), id, n) ==
            Service(PayEach(s, c.progress.todo[..n]), changes[id := WithTodo(c, c.progress.todo[n..])])
  {
    var todo := c.progress.todo;
    if n == 0 {
      assert todo[..0] == [] && todo[0..] == todo;
    } else {
      DrainPaysEach(s, changes, id, c, n - 1);
      OneMore(todo, n);
      PayNextPays(PayEach(s, todo[..n - 1]), changes, id, c, todo[n - 1..]);
      PayOneMore(s, todo[..n - 1], todo[n - 1]);
    }
  }

  lemma ReleaseOneMore(s: State, a: Account, n: nat)
    requires Wellformed(s) && 0 < n <= |s.txs|
    ensures var r := ReleaseFirst(s, a, n - 1);
            ReleaseFirst(s, a, n) == if Releases(s, a, s.txs[n - 1]) then PayAt(r, n - 1) else r
  {
    LoopEffect(s, a, n - 1, n - 1);
    assert Parties(s, s.txs[n - 1]);
  }

  lemma PayableOneMore(s: State, a: Account, n: nat)
    requires 0 < n <= |s.txs|
    ensures var rest := Payable(s, a, n - 1);
            Payable(s, a, n) == if Releases(s, a, s.txs[n - 1]) then rest + [n - 1] else rest
  {
  }

  lemma {:induction false} PayEachIsRelease(s: State, a: Account, n: nat)
    requires Wellformed(s) && n <= |s.txs|
    ensures PayEach(s, Payable(s, a, n)) == ReleaseFirst(s, a, n)
  {
    if n > 0 {
      PayEachIsRelease(s, a, n - 1);
      ReleaseOneMore(s, a, n);
      PayableOneMore(s, a, n);
      PayOneMore(s, Payable(s, a, n - 1), n - 1);
    }
  }

  /** An approval whose steps follow one another is the approval in one step. */
  lemma UninterruptedIsOneStep(v: Service, id: int, a: Account)
    requires Wellformed(v.now) && id !in v.changes && MayChange(v.now, a, Approved)
    ensures var begun := Begin(v, id, a);
            var paid := Drain(begun, id, |Payable(v.now, a, |v.now.txs|)|);
            Next(paid, Store(id)) == v.(now := ChangeKycStatus(v.now, a, Approved))
  {
    var begun, todo := Begin(v, id, a), Payable(v.now, a, |v.now.txs|);
    BeginOpens(v, id, a);
    DrainPaysEach(v.now, v.changes, id, Begun(v.now, a), |todo|);
    assert todo[..|todo|] == todo && todo[|todo|..] == [];
    PayEachIsRelease(v.now, a, |v.now.txs|);
    var paid := Drain(begun, id, |todo|);
    assert paid.changes - {id} == v.changes;
  }

  /** So is any other change of status: opened and stored with nothing in between, it stores its status. */
  lemma UninterruptedStatusIsOneStep(v: Service, id: int, a: Account, status: Kyc)
    requires id !in v.changes && status != Approved
    ensures Next(Next(v, Open(id, a, status)), Store(id)) == v.(now := ChangeKycStatus(v.now, a, status))
  {
    var w := Next(v, Open(id, a, status));
    assert w.changes - {id} == v.changes;
  }

  /** A change is opened exactly when the account is there, its status differs and is not final. */
  lemma OpensIff(v: Service, id: int, a: Account, status: Kyc)
    requires id !in v.changes
    ensures id in Next(v, Open(id, a, status)).changes <==>
            a in v.now.kyc && v.now.kyc[a] != status && v.now.kyc[a] != Approved
  {
  }

  /** Storing sets the account's status to the one asked for and touches no other; only an approval still to be paid, or
      not fetched yet, is not stored. */
  lemma StoreSetsStatus(v: Service, id: int)
    requires id in v.changes
    ensures var c, w := v.changes[id], Next(v, Store(id));
            && w.now.txs == v.now.txs && w.now.balance == v.now.balance && w.now.referredBy == v.now.referredBy
            && (w == v || (w.changes == v.changes - {id} && w.now.kyc == v.now.kyc[c.account := c.status]))
            && (w == v <==> c.status == Approved && (c.progress == Checked || c.progress.todo != []))
            && (c.status != Approved ==> w.now.stats == v.now.stats)
  {
    assert id !in v.changes - {id};
  }

  // ---- when a reward is paid twice ----

  /** The step pays a reward that was SUCCESS already. */
  predicate Repeats(v: Service, m: Move)
  {
    PaidBy(v, m).Some? && v.now.txs[PaidBy(v, m).value].status == Success
  }

  /** What it pays an account for it. */
  function Repeated(v: Service, m: Move, a: Account): real
  {
    if Repeats(v, m) && v.now.txs[PaidBy(v, m).value].receiver == a then v.now.txs[PaidBy(v, m).value].amount else 0.0
  }

  function AllRepeated(moves: seq<Move>, a: Account): real
  {
    if moves == [] then 0.0
    else
      var most := moves[..|moves| - 1];
      AllRepeated(most, a) + Repeated(Moves(most), moves[|moves| - 1], a)
  }

  function AtOnce(moves: seq<Move>, a: Account): real
  {
    if moves == [] then 0.0
    else
      var most, m := moves[..|moves| - 1], moves[|moves| - 1];
      AtOnce(most, a) + if m.Other? && IsGrowth(m.event) then Unrecorded(m.event, Moves(most).now, a) else 0.0
  }

  lemma PayExcess(s: State, i: nat, a: Account)
    requires i < |s.txs| && s.txs[i].receiver in s.balance
    ensures Excess(Pay(s, i), a) ==
              Excess(s, a) + if s.txs[i].receiver == a && s.txs[i].status == Success then s.txs[i].amount else 0.0
  {
    SumUpdate(s.txs, i, s.txs[i].(status := Success), PaidTo(a));
  }

  lemma NextExcess(v: Service, m: Move, a: Account)
    requires Intact(v)
    ensures Excess(Next(v, m).now, a) == Excess(v.now, a) + Repeated(v, m, a)
              + if m.Other? && IsGrowth(m.event) then Unrecorded(m.event, v.now, a) else 0.0
  {
    var w := Next(v, m);
    match m
    case Other(e) => if IsGrowth(e) { StepKeepsExcess(v.now, e, a); }
    case PayNext(id) =>
      if w != v {
        var i := v.changes[id].progress.todo[0];
        if i < |v.now.txs| && v.now.txs[i].receiver in v.now.balance { PayExcess(v.now, i, a); }
      }
    case Store(id) => assert w.now.balance == v.now.balance && w.now.txs == v.now.txs;
    case _ =>
  }

  /** However approvals interleave, a balance is the SUCCESS rewards received, plus what lone sign-ups credited at once,
      plus what was paid for rewards that were SUCCESS already. */
  lemma {:induction false} BalanceWithRepeats(moves: seq<Move>, a: Account)
    ensures var s := Moves(moves).now;
            BalanceIn(s, a) == Sum(s.txs, PaidTo(a)) + AtOnce(moves, a) + AllRepeated(moves, a)
  {
    if moves != [] {
      var most := moves[..|moves| - 1];
      BalanceWithRepeats(most, a);
      MovesIntact(most);
      NextExcess(Moves(most), moves[|moves| - 1], a);
    }
  }

  /** The rewards that other changes paid since this one fetched its list. */
  function PaidSince(moves: seq<Move>, id: int): set<nat>
  {
    if moves == [] then {}
    else
      var most, m := moves[..|moves| - 1], moves[|moves| - 1];
      NowPaidSince(Moves(most), m, id, PaidSince(most, id))
  }

  function NowPaidSince(v: Service, m: Move, id: int, since: set<nat>): set<nat>
  {
    if m == Fetch(id) && Next(v, m) != v then {}
    else if m.PayNext? && m.id != id && PaidBy(v, m).Some? then since + {PaidBy(v, m).value}
    else since
  }

  ghost predicate NoneRepeated(moves: seq<Move>)
  {
    moves != [] ==> NoneRepeated(moves[..|moves| - 1]) && !Repeats(Moves(moves[..|moves| - 1]), moves[|moves| - 1])
  }

  ghost predicate NonePaidSince(moves: seq<Move>)
  {
    moves != [] ==>
      var most, m := moves[..|moves| - 1], moves[|moves| - 1];
      && NonePaidSince(most)
      && (PaidBy(Moves(most), m).Some? ==> PaidBy(Moves(most), m).value !in PaidSince(most, m.id))
  }

  ghost predicate NoDuplicates(todo: seq<nat>)
  {
    forall j, k :: 0 <= j < k < |todo| ==> todo[j] != todo[k]
  }

  lemma RestExcludesFirst(todo: seq<nat>)
    requires todo != [] && NoDuplicates(todo)
    ensures NoDuplicates(todo[1..]) && forall i :: i in todo[1..] ==> i in todo && i != todo[0]
  {
    forall x | x in todo[1..] ensures x in todo && x != todo[0] {
      var j :| 0 <= j < |todo| - 1 && todo[1..][j] == x;
      assert todo[j + 1] == x;
    }
  }

  /** A reward still on the list is SUCCESS exactly when another change paid it since. */
  ghost predicate ListExplained(s: State, c: Change, since: set<nat>)
  {
    c.progress.Fetched? ==>
      && NoDuplicates(c.progress.todo)
      && forall i :: i in c.progress.todo ==> i < |s.txs| && (s.txs[i].status == Success <==> i in since)
  }

  lemma PayKeepsExplained(v: Service, paying: int, id: int, since: set<nat>, own: set<nat>)
    requires Intact(v) && id in v.changes && ListExplained(v.now, v.changes[id], since)
    requires PaidBy(v, PayNext(paying)).Some? && ListExplained(v.now, v.changes[paying], own)
    ensures ListExplained(Next(v, PayNext(paying)).now, Next(v, PayNext(paying)).changes[id],
              NowPaidSince(v, PayNext(paying), id, since))
  {
    var i := PaidBy(v, PayNext(paying)).value;
    PayKeeps(v.now, i);
    RestExcludesFirst(v.changes[paying].progress.todo);
  }

  lemma HeadIsPaid(v: Service, id: int, since: set<nat>)
    requires Intact(v) && Next(v, PayNext(id)) != v && ListExplained(v.now, v.changes[id], since)
    ensures PaidBy(v, PayNext(id)).Some?
  {
    assert v.changes[id].progress.todo[0] in v.changes[id].progress.todo;
    assert Parties(v.now, v.now.txs[v.changes[id].progress.todo[0]]);
  }

  lemma NextKeepsExplained(v: Service, m: Move, id: int, since: map<int, set<nat>>)
    requires Intact(v) && id in Next(v, m).changes && v.changes.Keys <= since.Keys
    requires forall k :: k in v.changes ==> ListExplained(v.now, v.changes[k], since[k])
    ensures ListExplained(Next(v, m).now, Next(v, m).changes[id],
              NowPaidSince(v, m, id, if id in since then since[id] else {}))
  {
    var w := Next(v, m);
    match m
    case Other(e) => if w != v { GrowthAdds(v.now, e); }
    case Fetch(k) => if w != v && k == id { PayableFinds(v.now, v.changes[id].account, |v.now.txs|); }
    case PayNext(k) =>
      if w != v {
        HeadIsPaid(v, k, since[k]);
        PayKeepsExplained(v, k, id, since[id], since[k]);
      }
    case _ =>
  }

  lemma {:induction false} ListsExplained(moves: seq<Move>)
    ensures var v := Moves(moves);
            forall id :: id in v.changes ==> ListExplained(v.now, v.changes[id], PaidSince(moves, id))
  {
    if moves != [] {
      var most, m := moves[..|moves| - 1], moves[|moves| - 1];
      var v := Moves(most);
      ListsExplained(most);
      MovesIntact(most);
      var since := map k | k in v.changes :: PaidSince(most, k);
      forall id | id in Next(v, m).changes
        ensures ListExplained(Next(v, m).now, Next(v, m).changes[id], PaidSince(moves, id))
      {
        NextKeepsExplained(v, m, id, since);
      }
    }
  }

  /** However approvals interleave, no reward is paid that is SUCCESS already if and only if none is paid that another
      change has paid since the list was fetched. */
  lemma {:induction false} NoneRepeatedIffNonePaidSince(moves: seq<Move>)
    ensures NoneRepeated(moves) <==> NonePaidSince(moves)
  {
    if moves != [] {
      var most, m := moves[..|moves| - 1], moves[|moves| - 1];
      NoneRepeatedIffNonePaidSince(most);
      ListsExplained(most);
      if PaidBy(Moves(most), m).Some? {
        var v := Moves(most);
        assert ListExplained(v.now, v.changes[m.id], PaidSince(most, m.id));
        assert PaidBy(v, m).value in v.changes[m.id].progress.todo;
      }
    }
  }

  /** The change is opened while no other of the same account is in flight. */
  ghost predicate Alone(v: Service, m: Move)
  {
    m.Open? ==> forall id :: id in v.changes ==> v.changes[id].account != m.account
  }

  ghost predicate AllAlone(moves: seq<Move>)
  {
    moves != [] ==> AllAlone(moves[..|moves| - 1]) && Alone(Moves(moves[..|moves| - 1]), moves[|moves| - 1])
  }

  /** What is still to be paid could be fetched again. */
  ghost predicate Payables(s: State, c: Change)
  {
    && c.account in s.kyc && s.kyc[c.account] != Approved
    && (c.progress.Fetched? ==>
          && (forall i :: i in c.progress.todo ==> i < |s.txs| && Releases(s, c.account, s.txs[i]))
          && NoDuplicates(c.progress.todo))
  }

  ghost predicate DistinctAccounts(changes: map<int, Change>)
  {
    forall p, q :: p in changes && q in changes && p != q ==> changes[p].account != changes[q].account
  }

  ghost predicate Orderly(v: Service)
  {
    DistinctAccounts(v.changes) && forall id :: id in v.changes ==> Payables(v.now, v.changes[id])
  }

  /** Two accounts that are both not approved have no reward that a fetch for each would find. */
  lemma NoneForBoth(s: State, a: Account, b: Account, t: Tx)
    requires a != b && !IsApproved(s, a) && !IsApproved(s, b)
    ensures !(Releases(s, a, t) && Releases(s, b, t))
  {
  }

  /** A payment leaves what other changes have still to pay, and what the same one has. */
  lemma PayKeepsPayables(v: Service, id: int, k: int)
    requires Intact(v) && Orderly(v) && id in v.changes && k in v.changes
    requires v.changes[id].progress.Fetched? && v.changes[id].progress.todo != []
    ensures var w := Next(v, PayNext(id)); Payables(w.now, w.changes[k])
  {
    var c, d := v.changes[id], v.changes[k];
    var i := c.progress.todo[0];
    assert Payables(v.now, c) && Payables(v.now, d) && i in c.progress.todo;
    PayKeeps(v.now, i);
    if k != id {
      NoneForBoth(v.now, c.account, d.account, v.now.txs[i]);
    } else {
      RestExcludesFirst(c.progress.todo);
    }
  }

  lemma GrowthKeepsPayables(s: State, e: Event, c: Change)
    requires Wellformed(s) && IsGrowth(e) && Payables(s, c)
    ensures Payables(Step(s, e), c)
  {
    GrowthAdds(s, e);
  }

  /** Storing one change leaves what the others have to pay: approvals are only added. */
  lemma StoreKeepsPayables(s: State, a: Account, status: Kyc, referrer: Option<Account>, c: Change)
    requires Payables(s, c) && a != c.account && !IsApproved(s, a)
    ensures Payables(Approve(s, a, referrer), c)
    ensures status != Approved ==> Payables(s.(kyc := s.kyc[a := status]), c)
  {
  }

  lemma NextKeepsDistinct(v: Service, m: Move)
    requires DistinctAccounts(v.changes) && Alone(v, m)
    ensures DistinctAccounts(Next(v, m).changes)
  {
  }

  lemma NextKeepsPayables(v: Service, m: Move, k: int)
    requires Intact(v) && Orderly(v) && k in Next(v, m).changes
    ensures Payables(Next(v, m).now, Next(v, m).changes[k])
  {
    var w := Next(v, m);
    match m
    case Other(e) => if w != v { GrowthKeepsPayables(v.now, e, v.changes[k]); }
    case Fetch(id) => if w != v { PayableFinds(v.now, v.changes[id].account, |v.now.txs|); }
    case PayNext(id) => if w != v { PayKeepsPayables(v, id, k); }
    case Store(id) =>
      if w != v {
        var c := v.changes[id];
        assert Payables(v.now, c);
        StoreKeepsPayables(v.now, c.account, c.status, c.referrer, v.changes[k]);
      }
    case _ =>
  }

  lemma NextKeepsOrderly(v: Service, m: Move)
    requires Intact(v) && Orderly(v) && Alone(v, m)
    ensures Orderly(Next(v, m))
  {
    NextKeepsDistinct(v, m);
    forall k | k in Next(v, m).changes ensures Payables(Next(v, m).now, Next(v, m).changes[k]) {
      NextKeepsPayables(v, m, k);
    }
  }

  lemma {:induction false} MovesOrderly(moves: seq<Move>)
    requires AllAlone(moves)
    ensures Orderly(Moves(moves))
  {
    if moves != [] {
      MovesOrderly(moves[..|moves| - 1]);
      MovesIntact(moves[..|moves| - 1]);
      NextKeepsOrderly(Moves(moves[..|moves| - 1]), moves[|moves| - 1]);
    }
  }

  /** In particular while the changes of one account do not overlap, however those of different accounts do: a balance
      then is the SUCCESS rewards and what was credited at once. */
  lemma {:induction false} AlonePaysOnce(moves: seq<Move>, a: Account)
    requires AllAlone(moves)
    ensures NoneRepeated(moves) && NonePaidSince(moves) && AllRepeated(moves, a) == 0.0
  {
    if moves != [] {
      var most, m := moves[..|moves| - 1], moves[|moves| - 1];
      AlonePaysOnce(most, a);
      MovesOrderly(most);
      if PaidBy(Moves(most), m).Some? { assert Payables(Moves(most).now, Moves(most).changes[m.id]); }
      NoneRepeatedIffNonePaidSince(moves);
    }
  }

  /** Two approvals of one account that both fetch before either is stored pay the first reward of their list twice. */
  lemma TwinApprovalsPayTwice(v: Service, p: int, q: int, a: Account)
    requires Intact(v) && p != q && p !in v.changes && q !in v.changes
    requires MayChange(v.now, a, Approved) && Payable(v.now, a, |v.now.txs|) != []
    ensures var i := Payable(v.now, a, |v.now.txs|)[0];
            var after := Next(Next(Begin(Begin(v, p, a), q, a), PayNext(p)), PayNext(q)).now;
            && i < |v.now.txs|
            && var t := v.now.txs[i];
               BalanceIn(after, t.receiver) == BalanceIn(v.now, t.receiver) + 2.0 * t.amount
  {
    PayableFinds(v.now, a, |v.now.txs|);
    var i := Payable(v.now, a, |v.now.txs|)[0];
    assert i in Payable(v.now, a, |v.now.txs|);
    assert Parties(v.now, v.now.txs[i]);
    BeginOpens(v, p, a);
    BeginOpens(Begin(v, p, a), q, a);
    assert Next(Next(Begin(Begin(v, p, a), q, a), PayNext(p)), PayNext(q)).now == Pay(Pay(v.now, i), i);
  }
}
