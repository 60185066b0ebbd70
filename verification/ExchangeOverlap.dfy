/** Submits interleaved: each checks its amount in one step and holds it in a later one, with other requests and other
    submits in between. */
module OverlappingSubmits {
  import opened Exchange
  import opened Sums

  /** A submit between its amount check and its hold; `at` is the number of transactions when it checked. */
  datatype Ticket = Ticket(account: int, deal: Deal, token: Token, at: nat)

  function KeyOf(t: Ticket): Key
  {
    (t.account, t.deal.currency)
  }

  /** The service with the submits in flight. */
  datatype Busy = Busy(now: State, inFlight: map<int, Ticket>)

  datatype Move =
    | Whole(request: Request)  // any request in one step
    | Check(id: int, account: int, deal: Deal, facts: Inputs, token: Token)
    | HoldNow(held: int)

  /** The hold itself checks nothing again. */
  function HoldTicket(s: State, t: Ticket): State
  {
    if KeyOf(t) !in s.available then s
    else
      Hold(s, KeyOf(t), t.deal.amount, FEE).(
        cache := s.cache - {t.token}, log := s.log + [Held(t.token, t.deal, |s.txs|)])
  }

  function Next(b: Busy, m: Move): Busy
  {
    match m
    case Whole(r) => b.(now := Step(b.now, r))
    case Check(id, account, d, f, token) =>
      if id in b.inFlight || SubmitReply(b.now, account, d, f, token) != Granted then b
      else b.(inFlight := b.inFlight[id := Ticket(account, d, token, |b.now.txs|)])
    case HoldNow(id) =>
      if id !in b.inFlight then b
      else Busy(HoldTicket(b.now, b.inFlight[id]), b.inFlight - {id})
  }

  function Moves(s: State, moves: seq<Move>): Busy
  {
    if moves == [] then Busy(s, map[]) else Next(Moves(s, moves[..|moves| - 1]), moves[|moves| - 1])
  }

  /** A check with its hold right behind it is a submit. */
  lemma CheckAndHoldIsSubmit(b: Busy, id: int, account: int, d: Deal, f: Inputs, token: Token)
    requires id !in b.inFlight
    ensures Next(Next(b, Check(id, account, d, f, token)), HoldNow(id)) == Next(b, Whole(Submit(account, d, f, token)))
  {
    assert SubmitReply(b.now, account, d, f, token) == Granted ==>
      b.inFlight[id := Ticket(account, d, token, |b.now.txs|)] - {id} == b.inFlight;
  }

  // ---- the ledger ----

  /** However submits interleave, the available amount plus the outstanding holds is the balance recomputed from SUCCESS
      transactions. */
  lemma {:induction false} LedgerUnderInterleaving(s: State, moves: seq<Move>, k: Key)
    requires Initial(s)
    ensures var t := Moves(s, moves).now;
            && Feeless(t)
            && (k in t.available ==> t.available[k] + Sum(t.txs, HoldOf(k)) == Sum(t.txs, BalanceOf(k)))
  {
    MovesBalanced(s, moves, k);
    SumZero(Moves(s, moves).now.txs, FeeOf(k));
  }

  lemma {:induction false} MovesBalanced(s: State, moves: seq<Move>, k: Key)
    requires Initial(s)
    ensures Balanced(Moves(s, moves).now, k) && Feeless(Moves(s, moves).now)
  {
    if moves != [] {
      var most, m := moves[..|moves| - 1], moves[|moves| - 1];
      MovesBalanced(s, most, k);
      NextKeepsBalanced(Moves(s, most), m, k);
    }
  }

  lemma NextKeepsBalanced(b: Busy, m: Move, k: Key)
    requires Balanced(b.now, k) && Feeless(b.now)
    ensures Balanced(Next(b, m).now, k) && Feeless(Next(b, m).now)
  {
    match m
    case Whole(r) =>
      StepKeepsBalance(b.now, r, k);
      StepKeepsFeeless(b.now, r);
    case HoldNow(id) =>
      if id in b.inFlight && KeyOf(b.inFlight[id]) in b.now.available {
        var t := b.inFlight[id];
        AppendKeepsBalance(b.now, Tx(KeyOf(t), t.deal.amount, FEE, Subtract, Processing), k);
      }
    case _ =>
  }

  // ---- one hold at a time ----

  /** Another hold of the same account and currency came between the check and this moment and is outstanding. */
  ghost predicate Overtaken(b: Busy, t: Ticket)
  {
    exists j :: t.at <= j < |b.now.txs| && IsHold(b.now.txs[j], KeyOf(t))
  }

  /** The hold of a submit that was overtaken since its check. */
  ghost predicate Overtakes(b: Busy, m: Move)
  {
    m.HoldNow? && m.held in b.inFlight && Overtaken(b, b.inFlight[m.held])
  }

  /** A submit in flight checked while no hold of its key was outstanding, for an amount of at least one. */
  ghost predicate CheckedClear(s: State, t: Ticket)
  {
    && t.at <= |s.txs| && t.deal.amount >= 1.0 && KeyOf(t) in s.available
    && forall j :: 0 <= j < t.at ==> !IsHold(s.txs[j], KeyOf(t))
  }

  ghost predicate Sound(b: Busy)
  {
    && WholeUnits(b.now) && Feeless(b.now) && HoldsAreWhole(b.now) && (forall k :: Balanced(b.now, k))
    && forall id :: id in b.inFlight ==> CheckedClear(b.now, b.inFlight[id])
  }

  lemma HoldKeepsSound(s: State, t: Ticket)
    requires Sound(Busy(s, map[])) && CheckedClear(s, t)
    ensures Sound(Busy(HoldTicket(s, t), map[]))
    ensures OneHold(s) ==> (OneHold(HoldTicket(s, t)) <==> !Overtaken(Busy(s, map[]), t))
  {
    var k, r := KeyOf(t), HoldTicket(s, t);
    forall k' ensures Balanced(r, k') {
      AppendKeepsBalance(s, Tx(k, t.deal.amount, FEE, Subtract, Processing), k');
    }
    SetupKeepsWholeUnits(s, r);
    if OneHold(s) {
      if j :| t.at <= j < |s.txs| && IsHold(s.txs[j], k) {
        assert IsHold(r.txs[j], k) && IsHold(r.txs[|s.txs|], r.txs[j].key);
      }
    }
  }

  lemma WholeKeepsSound(s: State, r: Request)
    requires Sound(Busy(s, map[]))
    ensures Sound(Busy(Step(s, r), map[])) && (OneHold(s) ==> OneHold(Step(s, r)))
  {
    forall k ensures Balanced(Step(s, r), k) { StepKeepsBalance(s, r, k); }
    StepKeepsFeeless(s, r);
    StepKeepsWhole(s, r);
    if OneHold(s) { StepKeepsOneHold(s, r); }
    StepKeepsSetup(s, r);
    SetupKeepsWholeUnits(s, Step(s, r));
  }

  lemma WholeKeepsTicket(s: State, r: Request, t: Ticket)
    requires CheckedClear(s, t)
    ensures CheckedClear(Step(s, r), t)
  {
    StepKeepsSetup(s, r);
    forall j | 0 <= j < t.at ensures !IsHold(Step(s, r).txs[j], KeyOf(t)) { StepKeepsTx(s, r, j); }
    if t.at > 0 { StepKeepsTx(s, r, t.at - 1); }
  }

  lemma NextKeepsSound(b: Busy, m: Move)
    requires Sound(b)
    ensures Sound(Next(b, m))
    ensures OneHold(b.now) ==> (OneHold(Next(b, m).now) <==> !Overtakes(b, m))
  {
    match m
    case Whole(r) =>
      WholeKeepsSound(b.now, r);
      forall id | id in b.inFlight ensures CheckedClear(Step(b.now, r), b.inFlight[id]) {
        WholeKeepsTicket(b.now, r, b.inFlight[id]);
      }
    case Check(id, account, d, f, token) =>
      if id !in b.inFlight && SubmitReply(b.now, account, d, f, token) == Granted {
        assert Admits(b.now, (account, d.currency), d.amount);
        CheckMeansNoHold(b.now, (account, d.currency), d.amount);
      }
    case HoldNow(id) =>
      if id in b.inFlight { HoldKeepsSound(b.now, b.inFlight[id]); }
  }

  ghost predicate NoneOvertaken(s: State, moves: seq<Move>)
  {
    moves != [] ==>
      var most := moves[..|moves| - 1];
      NoneOvertaken(s, most) && !Overtakes(Moves(s, most), moves[|moves| - 1])
  }

  /** At every moment of the run. */
  ghost predicate AlwaysOneHold(s: State, moves: seq<Move>)
  {
    OneHold(Moves(s, moves).now) && (moves != [] ==> AlwaysOneHold(s, moves[..|moves| - 1]))
  }

  lemma {:induction false} MovesSound(s: State, moves: seq<Move>)
    requires Initial(s) && WholeUnits(s)
    ensures Sound(Moves(s, moves))
  {
    if moves != [] {
      MovesSound(s, moves[..|moves| - 1]);
      NextKeepsSound(Moves(s, moves[..|moves| - 1]), moves[|moves| - 1]);
    }
  }

  /** However checks and holds interleave, there is never more than one hold of an account and currency outstanding if
      and only if no outstanding hold of the same key falls between the check of a submit and its hold. */
  lemma {:induction false} OneHoldIffNoneOvertaken(s: State, moves: seq<Move>)
    requires Initial(s) && WholeUnits(s)
    ensures AlwaysOneHold(s, moves) <==> NoneOvertaken(s, moves)
  {
    if moves != [] {
      var most := moves[..|moves| - 1];
      OneHoldIffNoneOvertaken(s, most);
      MovesSound(s, most);
      NextKeepsSound(Moves(s, most), moves[|moves| - 1]);
    }
  }

  // ---- what a hold leaves ----

  /** What a move takes from an account's currency: submits and holds, less credits and declines. */
  function Takes(b: Busy, m: Move, k: Key): real
  {
    match m
    case Whole(Submit(account, d, f, token)) =>
      if (account, d.currency) == k && SubmitReply(b.now, account, d, f, token) == Granted then d.amount else 0.0
    case Whole(Credit(key, amount)) => if key == k then -amount else 0.0
    case Whole(Settle(i, answer)) =>
      if i < |b.now.txs| && IsHold(b.now.txs[i], k) && answer == Declined then -b.now.txs[i].amount else 0.0
    case HoldNow(id) => if id in b.inFlight && KeyOf(b.inFlight[id]) == k then b.inFlight[id].deal.amount else 0.0
    case _ => 0.0
  }

  lemma TakesIsTaken(b: Busy, m: Move, k: Key)
    requires k in b.now.available
    ensures k in Next(b, m).now.available && Next(b, m).now.available[k] == b.now.available[k] - Takes(b, m, k)
  {
  }

  /** What the amount check of a submit in flight found, and what was taken from its account and currency since. */
  datatype Seen = Seen(found: real, taken: real)

  function SeenBy(s: State, moves: seq<Move>, id: int): Seen
  {
    if moves == [] then Seen(0.0, 0.0)
    else
      var most := moves[..|moves| - 1];
      NowSeen(Moves(s, most), moves[|moves| - 1], id, SeenBy(s, most, id))
  }

  function NowSeen(b: Busy, m: Move, id: int, seen: Seen): Seen
  {
    if id in b.inFlight then seen.(taken := seen.taken + Takes(b, m, KeyOf(b.inFlight[id])))
    else if m.Check? && m.id == id && (m.account, m.deal.currency) in b.now.available then
      Seen(b.now.available[(m.account, m.deal.currency)], 0.0)
    else seen
  }

  /** The balance is what the check found less what was taken since. */
  ghost predicate Tracked(b: Busy, id: int, seen: Seen)
  {
    id in b.inFlight ==>
      var k := KeyOf(b.inFlight[id]);
      k in b.now.available && b.now.available[k] == seen.found - seen.taken
  }

  lemma NextTracks(b: Busy, m: Move, id: int, seen: Seen)
    requires Tracked(b, id, seen)
    ensures Tracked(Next(b, m), id, NowSeen(b, m, id, seen))
  {
    if id in b.inFlight { TakesIsTaken(b, m, KeyOf(b.inFlight[id])); }
  }

  lemma {:induction false} MovesTrack(s: State, moves: seq<Move>, id: int)
    ensures Tracked(Moves(s, moves), id, SeenBy(s, moves, id))
  {
    if moves != [] {
      var most := moves[..|moves| - 1];
      MovesTrack(s, most, id);
      NextTracks(Moves(s, most), moves[|moves| - 1], id, SeenBy(s, most, id));
    }
  }

  /** What was taken since the check leaves room for the amount and the minimum. */
  predicate LeavesRoom(s: State, moves: seq<Move>, id: int)
    requires id in Moves(s, moves).inFlight
  {
    var b := Moves(s, moves);
    var d := b.inFlight[id].deal;
    SeenBy(s, moves, id).taken <= SeenBy(s, moves, id).found - MinHold(b.now, d.currency) - d.amount
  }

  /** However submits interleave, a hold leaves the minimum if and only if what was taken since its check leaves room
      for it. */
  lemma HoldLeavesMinimumIff(s: State, moves: seq<Move>, id: int)
    requires id in Moves(s, moves).inFlight
    ensures var b := Moves(s, moves);
            var k := KeyOf(b.inFlight[id]);
            var after := Next(b, HoldNow(id)).now;
            k in after.available && (after.available[k] >= MinHold(after, k.1) <==> LeavesRoom(s, moves, id))
  {
    MovesTrack(s, moves, id);
  }

  /** If the move is a submit or a hold, it leaves the minimum. */
  ghost predicate LeavesMinimum(b: Busy, m: Move)
  {
    match m
    case Whole(Submit(account, d, f, token)) =>
      SubmitReply(b.now, account, d, f, token) == Granted ==>
        Step(b.now, m.request).available[(account, d.currency)] >= MinHold(b.now, d.currency)
    case HoldNow(id) =>
      id in b.inFlight && KeyOf(b.inFlight[id]) in b.now.available ==>
        var k := KeyOf(b.inFlight[id]);
        Next(b, m).now.available[k] >= MinHold(b.now, k.1)
    case _ => true
  }

  ghost predicate AlwaysLeavesMinimum(s: State, moves: seq<Move>)
  {
    moves != [] ==>
      var most := moves[..|moves| - 1];
      AlwaysLeavesMinimum(s, most) && LeavesMinimum(Moves(s, most), moves[|moves| - 1])
  }

  ghost predicate AlwaysLeavesRoom(s: State, moves: seq<Move>)
  {
    moves != [] ==>
      var most, m := moves[..|moves| - 1], moves[|moves| - 1];
      AlwaysLeavesRoom(s, most) && (m.HoldNow? && m.held in Moves(s, most).inFlight ==> LeavesRoom(s, most, m.held))
  }

  lemma WholeLeavesMinimum(b: Busy, r: Request)
    ensures LeavesMinimum(b, Whole(r))
  {
  }

  /** However submits interleave, every withdrawal leaves the minimum if and only if at every hold what was taken since
      its check leaves room for it. */
  lemma {:induction false} MinimumIffRoom(s: State, moves: seq<Move>)
    ensures AlwaysLeavesMinimum(s, moves) <==> AlwaysLeavesRoom(s, moves)
  {
    if moves != [] {
      var most, m := moves[..|moves| - 1], moves[|moves| - 1];
      MinimumIffRoom(s, most);
      match m
      case Whole(r) => WholeLeavesMinimum(Moves(s, most), r);
      case HoldNow(id) => if id in Moves(s, most).inFlight { HoldLeavesMinimumIff(s, most, id); }
      case _ =>
    }
  }

  /** Two submits that both check before either holds always have two holds outstanding, and leave less than the minimum
      exactly when their amounts together exceed what one may take. */
  lemma CheckThenHoldOverdraws(b: Busy, first: Move, second: Move)
    requires first.Check? && second.Check? && first.id != second.id
    requires first.id !in b.inFlight && second.id !in b.inFlight
    requires first.account == second.account && first.deal.currency == second.deal.currency
    requires SubmitReply(b.now, first.account, first.deal, first.facts, first.token) == Granted
    requires SubmitReply(b.now, second.account, second.deal, second.facts, second.token) == Granted
    ensures var k := (first.account, first.deal.currency);
            var after := Next(Next(Next(Next(b, first), second), HoldNow(first.id)), HoldNow(second.id)).now;
            && !OneHold(after)
            && (after.available[k] < MinHold(b.now, k.1) <==>
                  first.deal.amount + second.deal.amount > b.now.available[k] - MinHold(b.now, k.1))
  {
    var checked := Next(Next(b, first), second);
    var n := |b.now.txs|;
    var t := HoldTicket(HoldTicket(b.now, checked.inFlight[first.id]), checked.inFlight[second.id]);
    assert IsHold(t.txs[n], KeyOf(checked.inFlight[first.id])) && IsHold(t.txs[n + 1], t.txs[n].key);
  }

  /** The same when the first hold is paid before the second is made: nothing is overtaken and only one hold is
      outstanding, and yet both amounts are gone. */
  lemma PaidHoldOverdraws(b: Busy, first: Move, second: Move)
    requires first.Check? && second.Check? && first.id != second.id
    requires first.id !in b.inFlight && second.id !in b.inFlight
    requires first.account == second.account && first.deal.currency == second.deal.currency
    requires SubmitReply(b.now, first.account, first.deal, first.facts, first.token) == Granted
    requires SubmitReply(b.now, second.account, second.deal, second.facts, second.token) == Granted
    ensures var k := (first.account, first.deal.currency);
            var held := Next(Next(Next(b, first), second), HoldNow(first.id));
            var paid := Next(held, Whole(Settle(|b.now.txs|, Paid)));
            && !Overtakes(paid, HoldNow(second.id))
            && (Next(paid, HoldNow(second.id)).now.available[k] < MinHold(b.now, k.1) <==>
                  first.deal.amount + second.deal.amount > b.now.available[k] - MinHold(b.now, k.1))
  {
    var held := Next(Next(Next(b, first), second), HoldNow(first.id));
    var paid := Next(held, Whole(Settle(|b.now.txs|, Paid)));
    assert |paid.now.txs| == |b.now.txs| + 1 && paid.now.txs[|b.now.txs|].status == Success;
  }

  // ---- one hold for each token ----

  /** A submit in flight carries a token that a passcode check confirmed for its deal, and whatever was held under that
      token was held since its own check. */
  ghost predicate TicketBacked(s: State, t: Ticket)
  {
    && t.at <= |s.txs| && KeyOf(t) in s.available
    && t.token in s.issued && WasConfirmed(s.log, |s.log|, t.token, t.deal)
    && forall h :: 0 <= h < |s.log| && s.log[h].Held? && s.log[h].token == t.token ==> s.log[h].tx >= t.at
  }

  ghost predicate HandshakeBacked(s: State)
  {
    CacheBacked(s) && InquiriesValid(s) && HoldsBacked(s) && HoldsRecorded(s)
  }

  ghost predicate AllBacked(b: Busy)
  {
    HandshakeBacked(b.now) && forall id :: id in b.inFlight ==> TicketBacked(b.now, b.inFlight[id])
  }

  /** The token of the submit was held under by another one since its check. */
  ghost predicate Respent(s: State, t: Ticket)
  {
    exists h :: 0 <= h < |s.log| && s.log[h].Held? && s.log[h].token == t.token && s.log[h].tx >= t.at
  }

  ghost predicate Respends(b: Busy, m: Move)
  {
    m.HoldNow? && m.held in b.inFlight && Respent(b.now, b.inFlight[m.held])
  }

  lemma LogGrows(s: State, r: Request)
    ensures OneHoldPerToken(Step(s, r)) ==> OneHoldPerToken(s)
  {
    StepLog(s, r);
    assert forall h :: 0 <= h < |s.log| ==> Step(s, r).log[h] == s.log[h];
  }

  lemma WholeKeepsBacked(s: State, r: Request)
    requires HandshakeBacked(s)
    ensures HandshakeBacked(Step(s, r)) && (OneHoldPerToken(Step(s, r)) <==> OneHoldPerToken(s))
  {
    StepKeepsCache(s, r);
    StepKeepsInquiries(s, r);
    StepKeepsHolds(s, r);
    StepKeepsRecords(s, r);
    LogGrows(s, r);
    if OneHoldPerToken(s) { StepKeepsTokens(s, r); }
  }

  lemma WholeKeepsTicketBacked(s: State, r: Request, t: Ticket)
    requires HandshakeBacked(s) && TicketBacked(s, t)
    ensures TicketBacked(Step(s, r), t)
  {
    var u := Step(s, r);
    StepLog(s, r);
    StepKeepsSetup(s, r);
    if u.log != s.log {
      RecordsStay(s.log, u.log[|s.log|]);
      assert u.log == s.log + [u.log[|s.log|]];
      LaterToo(u.log, |s.log|, t.token, t.deal);
    }
  }

  lemma HoldKeepsBacked(s: State, t: Ticket)
    requires HandshakeBacked(s) && TicketBacked(s, t)
    ensures HandshakeBacked(HoldTicket(s, t))
    ensures OneHoldPerToken(HoldTicket(s, t)) <==> OneHoldPerToken(s) && !Respent(s, t)
  {
    var u, n := HoldTicket(s, t), |s.log|;
    var more := Held(t.token, t.deal, |s.txs|);
    RecordsStay(s.log, more);
    assert u.log == s.log + [more] && u.log[n] == more && forall h :: 0 <= h < n ==> u.log[h] == s.log[h];
    forall k | k in u.cache
      ensures WasInquired(u.log, |u.log|, u.cache[k].deal)
      ensures u.cache[k].verified ==> WasConfirmed(u.log, |u.log|, k, u.cache[k].deal)
    {
      LaterToo(u.log, n, k, u.cache[k].deal);
    }
    assert WasHeld(u.log, |s.txs|) by { assert u.log[n].Held?; }
  }

  lemma HoldKeepsTicketBacked(s: State, t: Ticket, other: Ticket)
    requires TicketBacked(s, t) && TicketBacked(s, other)
    ensures TicketBacked(HoldTicket(s, t), other)
  {
    var u, more := HoldTicket(s, t), Held(t.token, t.deal, |s.txs|);
    RecordsStay(s.log, more);
    assert u.log == s.log + [more];
    LaterToo(u.log, |s.log|, other.token, other.deal);
  }

  lemma CheckIsBacked(s: State, t: Ticket)
    requires HandshakeBacked(s) && t.token in s.cache && s.cache[t.token] == CacheEntry(t.deal, true)
    requires t.at == |s.txs| && KeyOf(t) in s.available
    ensures TicketBacked(s, t)
  {
  }

  lemma NextKeepsBacked(b: Busy, m: Move)
    requires AllBacked(b)
    ensures AllBacked(Next(b, m))
    ensures OneHoldPerToken(Next(b, m).now) <==> OneHoldPerToken(b.now) && !Respends(b, m)
  {
    match m
    case Whole(r) =>
      WholeKeepsBacked(b.now, r);
      forall id | id in b.inFlight ensures TicketBacked(Step(b.now, r), b.inFlight[id]) {
        WholeKeepsTicketBacked(b.now, r, b.inFlight[id]);
      }
    case Check(id, account, d, f, token) =>
      if Next(b, m) != b { CheckIsBacked(b.now, Ticket(account, d, token, |b.now.txs|)); }
    case HoldNow(id) =>
      if id in b.inFlight {
        HoldKeepsBacked(b.now, b.inFlight[id]);
        forall k | k in b.inFlight ensures TicketBacked(HoldTicket(b.now, b.inFlight[id]), b.inFlight[k]) {
          HoldKeepsTicketBacked(b.now, b.inFlight[id], b.inFlight[k]);
        }
      }
  }

  /** However submits interleave, every inquiry and confirmation record was earned by the request that wrote it. */
  lemma {:induction false} RecordsAreEarned(s: State, moves: seq<Move>, i: nat) returns (n: nat)
    requires Initial(s) && i < |Moves(s, moves).now.log| && !Moves(s, moves).now.log[i].Held?
    ensures n < |moves| && moves[n].Whole?
    ensures Earned(Moves(s, moves[..n]).now, moves[n].request, Moves(s, moves).now.log[i])
  {
    var last := |moves| - 1;
    var most := moves[..last];
    var b := Moves(s, most);
    if moves[last].Whole? { StepEarns(b.now, moves[last].request); }
    if i < |b.now.log| {
      n := RecordsAreEarned(s, most, i);
      assert most[..n] == moves[..n];
    } else {
      n := last;
    }
  }

  /** So every hold follows a passcode request with a right passcode that confirmed its deal under its token. */
  lemma {:induction false} HoldsNeedRightPasscode(s: State, moves: seq<Move>, i: nat) returns (n: nat)
    requires Initial(s) && i < |Moves(s, moves).now.log| && Moves(s, moves).now.log[i].Held?
    ensures n < |moves| && moves[n].Whole? && moves[n].request.VerifyPasscode?
    ensures var x, q, before := Moves(s, moves).now.log[i], moves[n].request, Moves(s, moves[..n]).now;
            && q.facts.passcodeRight && q.token == x.token
            && q.oldToken in before.cache && before.cache[q.oldToken].deal == x.deal
  {
    OneHoldPerTokenIffNoneRespent(s, moves);
    var t := Moves(s, moves).now;
    var c :| 0 <= c < i && t.log[c] == Confirmed(t.log[i].token, t.log[i].deal);
    n := RecordsAreEarned(s, moves, c);
  }

  ghost predicate NoneRespent(s: State, moves: seq<Move>)
  {
    moves != [] ==>
      var most := moves[..|moves| - 1];
      NoneRespent(s, most) && !Respends(Moves(s, most), moves[|moves| - 1])
  }

  /** However submits interleave, every hold is backed by an inquiry and a passcode check under its token; and no token
      holds twice if and only if no submit holds after another one held under its token since its check. */
  lemma {:induction false} OneHoldPerTokenIffNoneRespent(s: State, moves: seq<Move>)
    requires Initial(s)
    ensures AllBacked(Moves(s, moves))
    ensures OneHoldPerToken(Moves(s, moves).now) <==> NoneRespent(s, moves)
  {
    if moves != [] {
      var most := moves[..|moves| - 1];
      OneHoldPerTokenIffNoneRespent(s, most);
      NextKeepsBacked(Moves(s, most), moves[|moves| - 1]);
    }
  }

  /** Two submits of one token that both check before either holds hold twice under it. */
  lemma TwoChecksOfOneTokenHoldTwice(b: Busy, first: Move, second: Move)
    requires first.Check? && second.Check? && first.id != second.id && first.token == second.token
    requires first.id !in b.inFlight && second.id !in b.inFlight
    requires SubmitReply(b.now, first.account, first.deal, first.facts, first.token) == Granted
    requires SubmitReply(b.now, second.account, second.deal, second.facts, second.token) == Granted
    ensures !OneHoldPerToken(Next(Next(Next(Next(b, first), second), HoldNow(first.id)), HoldNow(second.id)).now)
  {
    var checked := Next(Next(b, first), second);
    var n := |b.now.log|;
    var t := HoldTicket(HoldTicket(b.now, checked.inFlight[first.id]), checked.inFlight[second.id]);
    assert t.log[n].Held? && t.log[n + 1].Held? && t.log[n].token == t.log[n + 1].token;
  }
}
