/** The wallet's balance rows, their history rows, the three-step balance update, and the balance-by-period
    query that reads only the newest history row. Amounts are exact decimals. */
module WalletLedger {
  import opened Common

  datatype ActionType = Increment | Decrement

  function Signed(amount: real, kind: ActionType): real
  {
    if kind.Increment? then amount else -amount
  }

  // ---- one balance row under interleaved updates ----

  datatype Call = Call(amount: real, kind: ActionType)

  /** How far a call has come: read the row, insert the history row, increment the row. A call whose
      database operation fails stops for good; `Failed(true)` left a history row behind. */
  datatype Phase =
    | Waiting | Read(oldBalance: real) | Recorded(oldBalance: real) | Done(oldBalance: real) | Failed(recorded: bool)

  datatype HistoryLine = HistoryLine(oldBalance: real, amount: real, kind: ActionType)

  datatype RowState = RowState(amount: real, history: seq<HistoryLine>, phases: seq<Phase>)

  /** One scheduling choice: call `i` takes its next step, which succeeds or fails. */
  datatype Turn = Turn(i: nat, ok: bool)

  function TakeTurn(s: RowState, calls: seq<Call>, t: Turn): (r: RowState)
    requires |s.phases| == |calls|
    ensures |r.phases| == |calls|
  {
    if t.i >= |calls| then s
    else
      var c := calls[t.i];
      match s.phases[t.i]
      case Waiting =>
        s.(phases := s.phases[t.i := if t.ok then Read(s.amount) else Failed(false)])
      case Read(seen) =>
        if t.ok then
          s.(history := s.history + [HistoryLine(seen, c.amount, c.kind)], phases := s.phases[t.i := Recorded(seen)])
        else s.(phases := s.phases[t.i := Failed(false)])
      case Recorded(seen) =>
        if t.ok then
          s.(amount := s.amount + Signed(c.amount, c.kind), phases := s.phases[t.i := Done(seen)])
        else s.(phases := s.phases[t.i := Failed(true)])
      case _ => s
  }

  function Start(opening: real, calls: seq<Call>): RowState
  {
    RowState(opening, [], seq(|calls|, _ => Waiting))
  }

  /** The state after any schedule of any number of calls. */
  function Interleave(opening: real, calls: seq<Call>, schedule: seq<Turn>): (r: RowState)
    ensures |r.phases| == |calls|
  {
    if schedule == [] then Start(opening, calls)
    else TakeTurn(Interleave(opening, calls, schedule[..|schedule| - 1]), calls, schedule[|schedule| - 1])
  }

  /** The signed sum of the calls whose phase is one of the chosen ones. */
  function SumWhere(calls: seq<Call>, phases: seq<Phase>, chosen: Phase -> bool): real
    requires |phases| == |calls|
  {
    if calls == [] then 0.0
    else
      SumWhere(calls[1..], phases[1..], chosen)
      + if chosen(phases[0]) then Signed(calls[0].amount, calls[0].kind) else 0.0
  }

  function HistorySum(h: seq<HistoryLine>): real
  {
    if h == [] then 0.0 else HistorySum(h[..|h| - 1]) + Signed(h[|h| - 1].amount, h[|h| - 1].kind)
  }

  predicate IsDone(p: Phase)
  {
    p.Done?
  }

  /** The history row is there but the increment is not, for now or for good. */
  predicate IsOwed(p: Phase)
  {
    p.Recorded? || p == Failed(true)
  }

  lemma {:induction false} SumAfterUpdate(calls: seq<Call>, phases: seq<Phase>, i: nat, p: Phase, chosen: Phase -> bool)
    requires i < |phases| == |calls|
    ensures SumWhere(calls, phases[i := p], chosen) == SumWhere(calls, phases, chosen)
              + (if chosen(p) then Signed(calls[i].amount, calls[i].kind) else 0.0)
              - (if chosen(phases[i]) then Signed(calls[i].amount, calls[i].kind) else 0.0)
  {
    if i == 0 {
      assert phases[i := p][1..] == phases[1..];
    } else {
      assert phases[i := p][1..] == phases[1..][i - 1 := p];
      SumAfterUpdate(calls[1..], phases[1..], i - 1, p, chosen);
    }
  }

  lemma {:induction false} SumAtStart(calls: seq<Call>, phases: seq<Phase>, chosen: Phase -> bool)
    requires |phases| == |calls| && forall i :: 0 <= i < |phases| ==> !chosen(phases[i])
    ensures SumWhere(calls, phases, chosen) == 0.0
  {
    if calls != [] { SumAtStart(calls[1..], phases[1..], chosen); }
  }

  predicate Accounted(opening: real, calls: seq<Call>, s: RowState)
    requires |s.phases| == |calls|
  {
    && s.amount == opening + SumWhere(calls, s.phases, IsDone)
    && opening + HistorySum(s.history) == s.amount + SumWhere(calls, s.phases, IsOwed)
  }

  lemma TurnKeepsAccounts(opening: real, calls: seq<Call>, s: RowState, t: Turn)
    requires |s.phases| == |calls| && Accounted(opening, calls, s)
    ensures Accounted(opening, calls, TakeTurn(s, calls, t))
  {
    if t.i < |calls| {
      var s', c := TakeTurn(s, calls, t), calls[t.i];
      var was, now := s.phases[t.i], s'.phases[t.i];
      var w := Signed(c.amount, c.kind);
      assert s'.phases == s.phases[t.i := now];
      SumAfterUpdate(calls, s.phases, t.i, now, IsDone);
      SumAfterUpdate(calls, s.phases, t.i, now, IsOwed);
      assert s'.amount == s.amount + if !IsDone(was) && IsDone(now) then w else 0.0;
      assert IsDone(was) ==> now == was;
      assert HistorySum(s'.history) - HistorySum(s.history)
          == (if IsOwed(now) || IsDone(now) then w else 0.0) - (if IsOwed(was) || IsDone(was) then w else 0.0) by {
        if s'.history != s.history { assert s'.history[..|s.history|] == s.history; }
      }
    }
  }

  /** Under every interleaving, with any failures: the row holds the opening amount plus the calls past their
      increment, and the history exceeds it by exactly the calls recorded but not incremented. */
  lemma {:induction false} InterleavingInvariant(opening: real, calls: seq<Call>, schedule: seq<Turn>)
    ensures Accounted(opening, calls, Interleave(opening, calls, schedule))
  {
    if schedule == [] {
      SumAtStart(calls, Start(opening, calls).phases, IsDone);
      SumAtStart(calls, Start(opening, calls).phases, IsOwed);
    } else {
      var before := schedule[..|schedule| - 1];
      InterleavingInvariant(opening, calls, before);
      TurnKeepsAccounts(opening, calls, Interleave(opening, calls, before), schedule[|schedule| - 1]);
    }
  }

  /** With no call between its history row and its increment and none failed there, the row is the opening
      amount plus the whole history. */
  lemma QuiescentRowIsHistory(opening: real, calls: seq<Call>, schedule: seq<Turn>)
    requires forall i :: 0 <= i < |calls| ==> !IsOwed(Interleave(opening, calls, schedule).phases[i])
    ensures Interleave(opening, calls, schedule).amount
         == opening + HistorySum(Interleave(opening, calls, schedule).history)
  {
    InterleavingInvariant(opening, calls, schedule);
    SumAtStart(calls, Interleave(opening, calls, schedule).phases, IsOwed);
  }

  /** The plain sum of the amounts of one kind over the calls past their increment. */
  function DoneAmount(calls: seq<Call>, phases: seq<Phase>, kind: ActionType): real
    requires |phases| == |calls|
  {
    if calls == [] then 0.0
    else
      DoneAmount(calls[1..], phases[1..], kind)
      + if calls[0].kind == kind && phases[0].Done? then calls[0].amount else 0.0
  }

  lemma {:induction false} DoneIsTwoSums(calls: seq<Call>, phases: seq<Phase>)
    requires |phases| == |calls|
    ensures SumWhere(calls, phases, IsDone)
         == DoneAmount(calls, phases, Increment) - DoneAmount(calls, phases, Decrement)
  {
    if calls != [] { DoneIsTwoSums(calls[1..], phases[1..]); }
  }

  /** The plain sum of the amounts of one kind over history lines. */
  function LineAmount(h: seq<HistoryLine>, kind: ActionType): real
  {
    if h == [] then 0.0 else LineAmount(h[..|h| - 1], kind) + if h[|h| - 1].kind == kind then h[|h| - 1].amount else 0.0
  }

  lemma {:induction false} HistoryIsTwoSums(h: seq<HistoryLine>)
    ensures HistorySum(h) == LineAmount(h, Increment) - LineAmount(h, Decrement)
  {
    if h != [] { HistoryIsTwoSums(h[..|h| - 1]); }
  }

  /** Under every interleaving the row is the opening amount plus the increments done less the decrements done; and with
      nothing owed, plus the increments less the decrements its history records. */
  lemma InterleavedRowRisesAndFalls(opening: real, calls: seq<Call>, schedule: seq<Turn>)
    ensures var s := Interleave(opening, calls, schedule);
            && s.amount == opening + DoneAmount(calls, s.phases, Increment) - DoneAmount(calls, s.phases, Decrement)
            && ((forall i :: 0 <= i < |calls| ==> !IsOwed(s.phases[i])) ==>
                  s.amount == opening + LineAmount(s.history, Increment) - LineAmount(s.history, Decrement))
  {
    var s := Interleave(opening, calls, schedule);
    InterleavingInvariant(opening, calls, schedule);
    DoneIsTwoSums(calls, s.phases);
    HistoryIsTwoSums(s.history);
    if forall i :: 0 <= i < |calls| ==> !IsOwed(s.phases[i]) { SumAtStart(calls, s.phases, IsOwed); }
  }

  /** A call that takes its three steps with no other in between is one whole update: it records the amount it
      really changes. */
  lemma SerialTurns(s: RowState, calls: seq<Call>, i: nat)
    requires i < |s.phases| == |calls| && s.phases[i] == Waiting
    ensures var c, t := calls[i], Turn(i, true);
            TakeTurn(TakeTurn(TakeTurn(s, calls, t), calls, t), calls, t) ==
            RowState(s.amount + Signed(c.amount, c.kind), s.history + [HistoryLine(s.amount, c.amount, c.kind)],
              s.phases[i := Done(s.amount)])
  {
    var t := Turn(i, true);
    var s2 := TakeTurn(TakeTurn(s, calls, t), calls, t);
    assert s2.phases == s.phases[i := Recorded(s.amount)];
    assert TakeTurn(s2, calls, t).phases == s.phases[i := Done(s.amount)];
  }

  // ---- which interleavings keep the history chained ----

  /** Every old balance is the opening amount plus the rows before it. */
  ghost predicate Chained(opening: real, h: seq<HistoryLine>)
  {
    forall i :: 0 <= i < |h| ==> h[i].oldBalance == opening + HistorySum(h[..i])
  }

  predicate Reads(s: RowState, calls: seq<Call>, t: Turn)
    requires |s.phases| == |calls|
  {
    t.i < |calls| && t.ok && s.phases[t.i].Waiting?
  }

  predicate Inserts(s: RowState, calls: seq<Call>, t: Turn)
    requires |s.phases| == |calls|
  {
    t.i < |calls| && t.ok && s.phases[t.i].Read?
  }

  /** What the read of call i does not know of: amounts recorded and not yet incremented when it read, and amounts
      that other calls recorded since. */
  function Missed(opening: real, calls: seq<Call>, schedule: seq<Turn>, i: nat): real
  {
    if schedule == [] then 0.0
    else
      var before, t := schedule[..|schedule| - 1], schedule[|schedule| - 1];
      var s := Interleave(opening, calls, before);
      if Reads(s, calls, t) && t.i == i then SumWhere(calls, s.phases, IsOwed)
      else
        Missed(opening, calls, before, i)
        + if Inserts(s, calls, t) && t.i != i then Signed(calls[t.i].amount, calls[t.i].kind) else 0.0
  }

  /** Every history row is inserted by a call that missed nothing, on balance. */
  ghost predicate NothingMissed(opening: real, calls: seq<Call>, schedule: seq<Turn>)
  {
    schedule != [] ==>
      var before, t := schedule[..|schedule| - 1], schedule[|schedule| - 1];
      && NothingMissed(opening, calls, before)
      && (Inserts(Interleave(opening, calls, before), calls, t) ==> Missed(opening, calls, before, t.i) == 0.0)
  }

  lemma TurnKeepsGap(opening: real, calls: seq<Call>, s: RowState, t: Turn, i: nat, missed: real)
    requires |s.phases| == |calls| && Accounted(opening, calls, s)
    requires i < |calls| && TakeTurn(s, calls, t).phases[i].Read?
    requires s.phases[i].Read? ==> s.phases[i].oldBalance + missed == opening + HistorySum(s.history)
    ensures var r := TakeTurn(s, calls, t);
            r.phases[i].oldBalance
            + (if Reads(s, calls, t) && t.i == i then SumWhere(calls, s.phases, IsOwed)
               else missed + if Inserts(s, calls, t) && t.i != i
                             then Signed(calls[t.i].amount, calls[t.i].kind) else 0.0)
            == opening + HistorySum(r.history)
  {
    var r := TakeTurn(s, calls, t);
    if r.history != s.history { assert r.history[..|s.history|] == s.history; }
  }

  /** What a call has read, plus what it missed, is the opening amount plus the history. */
  lemma {:induction false} MissedIsTheGap(opening: real, calls: seq<Call>, schedule: seq<Turn>, i: nat)
    requires i < |calls| && Interleave(opening, calls, schedule).phases[i].Read?
    ensures var s := Interleave(opening, calls, schedule);
            s.phases[i].oldBalance + Missed(opening, calls, schedule, i) == opening + HistorySum(s.history)
  {
    var before, t := schedule[..|schedule| - 1], schedule[|schedule| - 1];
    var s := Interleave(opening, calls, before);
    InterleavingInvariant(opening, calls, before);
    if s.phases[i].Read? { MissedIsTheGap(opening, calls, before, i); }
    TurnKeepsGap(opening, calls, s, t, i, Missed(opening, calls, before, i));
  }

  /** The history of an interleaved row chains if and only if every call, when it inserts its row, has missed
      nothing: no amount was owed when it read and none was recorded since, or these cancel out. */
  lemma {:induction false} ChainedIffNothingMissed(opening: real, calls: seq<Call>, schedule: seq<Turn>)
    ensures Chained(opening, Interleave(opening, calls, schedule).history) <==> NothingMissed(opening, calls, schedule)
  {
    if schedule != [] {
      var before, t := schedule[..|schedule| - 1], schedule[|schedule| - 1];
      var was, s := Interleave(opening, calls, before), Interleave(opening, calls, schedule);
      ChainedIffNothingMissed(opening, calls, before);
      if Inserts(was, calls, t) {
        var n := |was.history|;
        MissedIsTheGap(opening, calls, before, t.i);
        assert forall i :: 0 <= i <= n ==> s.history[..i] == was.history[..i];
        assert was.history[..n] == was.history && s.history[n].oldBalance == was.phases[t.i].oldBalance;
        assert forall i :: 0 <= i < n ==> s.history[i] == was.history[i];
      } else {
        assert s.history == was.history;
      }
    }
  }

  /** Whether, since call i read, another call was between its own history row and its increment, or inserted one. */
  ghost predicate Disturbed(opening: real, calls: seq<Call>, schedule: seq<Turn>, i: nat)
  {
    schedule != [] &&
      var before, t := schedule[..|schedule| - 1], schedule[|schedule| - 1];
      var s := Interleave(opening, calls, before);
      if Reads(s, calls, t) && t.i == i then exists j :: 0 <= j < |calls| && IsOwed(s.phases[j])
      else Disturbed(opening, calls, before, i) || (Inserts(s, calls, t) && t.i != i)
  }

  lemma {:induction false} OwedIsPositive(calls: seq<Call>, phases: seq<Phase>)
    requires |phases| == |calls|
    requires forall j :: 0 <= j < |calls| ==> Signed(calls[j].amount, calls[j].kind) > 0.0
    ensures SumWhere(calls, phases, IsOwed) >= 0.0
    ensures SumWhere(calls, phases, IsOwed) == 0.0 <==> !exists j :: 0 <= j < |calls| && IsOwed(phases[j])
  {
    if calls != [] {
      OwedIsPositive(calls[1..], phases[1..]);
      if exists j :: 0 <= j < |calls[1..]| && IsOwed(phases[1..][j]) {
        var j :| 0 <= j < |calls[1..]| && IsOwed(phases[1..][j]);
        assert IsOwed(phases[j + 1]);
      } else {
        assert forall j :: 1 <= j < |calls| ==> phases[j] == phases[1..][j - 1];
      }
    }
  }

  /** Among deposits nothing cancels out: a call misses something exactly when it is disturbed. */
  lemma {:induction false} DepositsMissWhenDisturbed(opening: real, calls: seq<Call>, schedule: seq<Turn>, i: nat)
    requires forall j :: 0 <= j < |calls| ==> Signed(calls[j].amount, calls[j].kind) > 0.0
    ensures Missed(opening, calls, schedule, i) >= 0.0
    ensures Missed(opening, calls, schedule, i) == 0.0 <==> !Disturbed(opening, calls, schedule, i)
  {
    if schedule != [] {
      var before := schedule[..|schedule| - 1];
      DepositsMissWhenDisturbed(opening, calls, before, i);
      OwedIsPositive(calls, Interleave(opening, calls, before).phases);
    }
  }

  /** Every history row is inserted by a call that nobody disturbed. */
  ghost predicate Undisturbed(opening: real, calls: seq<Call>, schedule: seq<Turn>)
  {
    schedule != [] ==>
      var before, t := schedule[..|schedule| - 1], schedule[|schedule| - 1];
      && Undisturbed(opening, calls, before)
      && (Inserts(Interleave(opening, calls, before), calls, t) ==> !Disturbed(opening, calls, before, t.i))
  }

  /** So the history of interleaved deposits chains if and only if between the read and the history row of a call no
      other call inserts one, and none owed its increment at the read. */
  lemma {:induction false} DepositsChainIffUndisturbed(opening: real, calls: seq<Call>, schedule: seq<Turn>)
    requires forall j :: 0 <= j < |calls| ==> Signed(calls[j].amount, calls[j].kind) > 0.0
    ensures Chained(opening, Interleave(opening, calls, schedule).history) <==> Undisturbed(opening, calls, schedule)
  {
    ChainedIffNothingMissed(opening, calls, schedule);
    MissedIffDisturbed(opening, calls, schedule);
  }

  lemma {:induction false} MissedIffDisturbed(opening: real, calls: seq<Call>, schedule: seq<Turn>)
    requires forall j :: 0 <= j < |calls| ==> Signed(calls[j].amount, calls[j].kind) > 0.0
    ensures NothingMissed(opening, calls, schedule) <==> Undisturbed(opening, calls, schedule)
  {
    if schedule != [] {
      var before, t := schedule[..|schedule| - 1], schedule[|schedule| - 1];
      MissedIffDisturbed(opening, calls, before);
      DepositsMissWhenDisturbed(opening, calls, before, t.i);
    }
  }

  /** Two overlapping calls: the row gets both amounts, and the history chains only if the first one is zero. */
  lemma OverlapBreaksTheChain(opening: real, first: Call, second: Call)
    ensures var turns := [Turn(0, true), Turn(1, true), Turn(0, true), Turn(1, true), Turn(0, true), Turn(1, true)];
            var s := Interleave(opening, [first, second], turns);
            && s.amount == opening + Signed(first.amount, first.kind) + Signed(second.amount, second.kind)
            && (Chained(opening, s.history) <==> first.amount == 0.0)
  {
    var calls, o := [first, second], opening;
    var t0, t1 := Turn(0, true), Turn(1, true);
    var turns := [t0, t1, t0, t1, t0, t1];
    assert turns[..5] == [t0, t1, t0, t1, t0] && turns[..5][..4] == [t0, t1, t0, t1];
    assert [t0, t1, t0, t1][..3] == [t0, t1, t0] && [t0, t1, t0][..2] == [t0, t1] && [t0, t1][..1] == [t0];
    assert Interleave(o, calls, [t0]) == RowState(o, [], [Read(o), Waiting]);
    assert Interleave(o, calls, [t0, t1]) == RowState(o, [], [Read(o), Read(o)]);
    var h, k := HistoryLine(o, first.amount, first.kind), HistoryLine(o, second.amount, second.kind);
    assert Interleave(o, calls, [t0, t1, t0]) == RowState(o, [h], [Recorded(o), Read(o)]);
    assert Interleave(o, calls, [t0, t1, t0, t1]) == RowState(o, [h, k], [Recorded(o), Recorded(o)]);
    var most := RowState(o + Signed(first.amount, first.kind), [h, k], [Done(o), Recorded(o)]);
    assert Interleave(o, calls, [t0, t1, t0, t1, t0]) == most;
    assert Interleave(o, calls, turns).history == [h, k];
    assert [h, k][..0] == [] && [h, k][..1] == [h] && [h][..0] == [];
    assert HistorySum([h]) == Signed(first.amount, first.kind);
  }

  // ---- the tables under serial updates ----

  /** A balance row with what its joins reach; its id is its position. */
  datatype Row = Row(accountType: int, currency: string, amount: real)

  datatype History = History(id: int, caId: nat, oldBalance: real, amount: real, kind: ActionType, createdAt: int)

  datatype Tables = Tables(rows: seq<Row>, histories: seq<History>)

  /** A request to `updateBalance`, with the id and time its history row will get. */
  datatype Post = Post(caId: nat, amount: real, kind: ActionType, id: int, createdAt: int)

  /** One complete update; an unknown row fails before anything is written. */
  function Update(t: Tables, p: Post): Tables
  {
    if p.caId >= |t.rows| then t
    else
      var row := t.rows[p.caId];
      Tables(
        t.rows[p.caId := row.(amount := row.amount + Signed(p.amount, p.kind))],
        t.histories + [History(p.id, p.caId, row.amount, p.amount, p.kind, p.createdAt)])
  }

  function Updates(t: Tables, posts: seq<Post>): (r: Tables)
    ensures |r.rows| == |t.rows|
  {
    if posts == [] then t else Update(Updates(t, posts[..|posts| - 1]), posts[|posts| - 1])
  }

  predicate Increasing(posts: seq<Post>)
  {
    forall i, j :: 0 <= i < j < |posts| ==> posts[i].createdAt < posts[j].createdAt
  }

  /** What the history rows of one balance row add up to before a cut-off. */
  function Replay(h: seq<History>, caId: nat, before: int): real
  {
    if h == [] then 0.0
    else
      var x := h[|h| - 1];
      Replay(h[..|h| - 1], caId, before)
      + if x.caId == caId && x.createdAt < before then Signed(x.amount, x.kind) else 0.0
  }

  /** `row_number() over (partition by ca.id order by created_at desc, id desc) = 1` among rows before the cut-off. */
  function Newest(h: seq<History>, caId: nat, before: int): Option<History>
  {
    if h == [] then None
    else
      var x, best := h[|h| - 1], Newest(h[..|h| - 1], caId, before);
      if x.caId != caId || x.createdAt >= before then best
      else if best.None? || x.createdAt > best.value.createdAt
              || (x.createdAt == best.value.createdAt && x.id > best.value.id) then Some(x)
      else best
  }

  /** The newest row is one of the account's before the cut-off, and none of these is newer: a later time, or the same
      time and a larger id. */
  lemma {:induction false} NewestIsNewest(h: seq<History>, caId: nat, before: int)
    ensures match Newest(h, caId, before)
            case None => forall y :: y in h && y.caId == caId ==> y.createdAt >= before
            case Some(x) =>
              && x in h && x.caId == caId && x.createdAt < before
              && forall y :: y in h && y.caId == caId && y.createdAt < before ==>
                   y.createdAt < x.createdAt || (y.createdAt == x.createdAt && y.id <= x.id)
  {
    if h != [] {
      var rest := h[..|h| - 1];
      NewestIsNewest(rest, caId, before);
      assert h == rest + [h[|h| - 1]];
    }
  }

  predicate HasHistory(h: seq<History>, caId: nat)
  {
    exists i :: 0 <= i < |h| && h[i].caId == caId
  }

  /** What the query takes from one balance row, or nothing when the `where` clause drops it. */
  function Contribution(t: Tables, caId: nat, before: int): Option<real>
    requires caId < |t.rows|
  {
    if !HasHistory(t.histories, caId) then Some(t.rows[caId].amount)
    else
      match Newest(t.histories, caId, before)
      case None => None
      case Some(x) => Some(x.oldBalance + Signed(x.amount, x.kind))
  }

  predicate Selected(r: Row, accountType: int, currency: string)
  {
    r.accountType == accountType && r.currency == currency
  }

  /** The sum the query floors, over the first n balance rows; `None` is SQL's null for no rows. */
  function PeriodSum(t: Tables, n: nat, accountType: int, currency: string, before: int): Option<real>
    requires n <= |t.rows|
  {
    if n == 0 then None
    else
      var rest := PeriodSum(t, n - 1, accountType, currency, before);
      if !Selected(t.rows[n - 1], accountType, currency) then rest
      else
        match Contribution(t, n - 1, before)
        case None => rest
        case Some(c) => Some(c + if rest.Some? then rest.value else 0.0)
  }

  function AvailableByPeriod(t: Tables, accountType: int, currency: string, before: int): Option<int>
  {
    match PeriodSum(t, |t.rows|, accountType, currency, before)
    case None => None
    case Some(total) => Some(total.Floor)
  }

  /** The full replay, summed over the selected accounts. */
  function ReplayTotal(t: Tables, n: nat, accountType: int, currency: string, before: int): real
    requires n <= |t.rows|
  {
    if n == 0 then 0.0
    else
      ReplayTotal(t, n - 1, accountType, currency, before)
      + if Selected(t.rows[n - 1], accountType, currency) then Replay(t.histories, n - 1, before) else 0.0
  }

  /** A cut-off after every row cuts nothing off. */
  lemma {:induction false} ReplayOfAll(h: seq<History>, caId: nat, before: int, later: int)
    requires before <= later && forall i :: 0 <= i < |h| ==> h[i].createdAt < before
    ensures Replay(h, caId, later) == Replay(h, caId, before)
    ensures Newest(h, caId, before).None? <==> !HasHistory(h, caId)
  {
    if h != [] {
      var rest := h[..|h| - 1];
      ReplayOfAll(rest, caId, before, later);
      assert h == rest + [h[|h| - 1]];
      assert HasHistory(h, caId) <==> HasHistory(rest, caId) || h[|h| - 1].caId == caId by {
        if HasHistory(rest, caId) { var i :| 0 <= i < |rest| && rest[i].caId == caId; assert h[i].caId == caId; }
      }
    }
  }

  lemma {:induction false} NewestIsEarlier(h: seq<History>, caId: nat, b: int, before: int)
    requires forall i :: 0 <= i < |h| ==> h[i].createdAt < before
    ensures var x := Newest(h, caId, b); x.Some? ==> x.value.createdAt < before
  {
    if h != [] { NewestIsEarlier(h[..|h| - 1], caId, b, before); }
  }

  /** After serial updates at increasing times a row holds its opening amount plus the replay of its history. */
  lemma {:induction false} RowIsReplay(t0: Tables, posts: seq<Post>, caId: nat, before: int)
    requires t0.histories == [] && caId < |t0.rows| && Increasing(posts)
    requires forall i :: 0 <= i < |posts| ==> posts[i].createdAt < before
    ensures var t := Updates(t0, posts);
            && (forall i :: 0 <= i < |t.histories| ==> t.histories[i].createdAt < before)
            && t.rows[caId].amount == t0.rows[caId].amount + Replay(t.histories, caId, before)
  {
    if posts != [] {
      var most, p := posts[..|posts| - 1], posts[|posts| - 1];
      RowIsReplay(t0, most, caId, p.createdAt);
      ReplayOfAll(Updates(t0, most).histories, caId, p.createdAt, before);
    }
  }

  /** Every history row's old balance is the opening amount plus the rows before it: old balance plus signed
      amount of one row is the old balance of the same account's next row. */
  lemma {:induction false} HistoryChains(t0: Tables, posts: seq<Post>, i: nat, before: int)
    requires t0.histories == [] && Increasing(posts)
    requires forall k :: 0 <= k < |posts| ==> posts[k].createdAt < before
    requires i < |Updates(t0, posts).histories|
    ensures var h := Updates(t0, posts).histories;
            h[i].caId < |t0.rows| && h[i].oldBalance == t0.rows[h[i].caId].amount + Replay(h[..i], h[i].caId, before)
  {
    if posts != [] {
      var most, p := posts[..|posts| - 1], posts[|posts| - 1];
      var h, h' := Updates(t0, most).histories, Updates(t0, posts).histories;
      if i < |h| {
        assert h'[..i] == h[..i];
        HistoryChains(t0, most, i, before);
      } else {
        assert h'[..i] == h;
        RowIsReplay(t0, most, p.caId, before);
      }
    }
  }

  /** The newest row before any cut-off stands for the whole replay up to it. */
  lemma {:induction false} NewestIsReplay(t0: Tables, posts: seq<Post>, caId: nat, b: int)
    requires t0.histories == [] && caId < |t0.rows| && Increasing(posts)
    ensures var h := Updates(t0, posts).histories;
            match Newest(h, caId, b)
            case None => Replay(h, caId, b) == 0.0
            case Some(x) => x.oldBalance + Signed(x.amount, x.kind) == t0.rows[caId].amount + Replay(h, caId, b)
  {
    if posts != [] {
      var most, p := posts[..|posts| - 1], posts[|posts| - 1];
      NewestIsReplay(t0, most, caId, b);
      if p.caId == caId && p.createdAt < b {
        var h := Updates(t0, most).histories;
        RowIsReplay(t0, most, caId, p.createdAt);
        ReplayOfAll(h, caId, p.createdAt, b);
        NewestIsEarlier(h, caId, b, p.createdAt);
        assert Updates(t0, posts).histories[..|h|] == h;
      } else if p.caId < |t0.rows| {
        assert Updates(t0, posts).histories[..|Updates(t0, most).histories|] == Updates(t0, most).histories;
      }
    }
  }

  // ---- the newest row under interleaved updates ----

  /** The history of an interleaved row as the query meets it, with the times its lines were inserted. */
  function Stamped(h: seq<HistoryLine>, caId: nat, times: seq<int>): seq<History>
    requires |times| == |h|
  {
    seq(|h|, i requires 0 <= i < |h| => History(i, caId, h[i].oldBalance, h[i].amount, h[i].kind, times[i]))
  }

  predicate StrictlyIncreasing(times: seq<int>)
  {
    forall i, j :: 0 <= i < j < |times| ==> times[i] < times[j]
  }

  /** How many of the increasing times are before the cut-off. */
  function CountBefore(times: seq<int>, before: int): (n: nat)
    ensures n <= |times|
  {
    if times == [] then 0
    else if times[|times| - 1] < before then |times|
    else CountBefore(times[..|times| - 1], before)
  }

  /** The newest row before the cut-off stands for the replay up to it. */
  predicate StandsForReplay(opening: real, h: seq<History>, caId: nat, before: int)
  {
    match Newest(h, caId, before)
    case None => Replay(h, caId, before) == 0.0
    case Some(x) => x.oldBalance + Signed(x.amount, x.kind) == opening + Replay(h, caId, before)
  }

  lemma StampedOneMore(h: seq<HistoryLine>, caId: nat, times: seq<int>)
    requires |times| == |h| && h != []
    ensures var m, rows := |h| - 1, Stamped(h, caId, times);
            rows == Stamped(h[..m], caId, times[..m]) + [rows[m]]
  {
  }

  /** A newer row of the account is the newest, unless the cut-off comes before it. */
  lemma NewestOneMore(rows: seq<History>, x: History, caId: nat, before: int)
    requires x.caId == caId
    requires Newest(rows, caId, before).Some? ==> Newest(rows, caId, before).value.createdAt < x.createdAt
    ensures Newest(rows + [x], caId, before) == if x.createdAt < before then Some(x) else Newest(rows, caId, before)
    ensures Replay(rows + [x], caId, before)
         == Replay(rows, caId, before) + if x.createdAt < before then Signed(x.amount, x.kind) else 0.0
  {
    assert (rows + [x])[..|rows|] == rows;
  }

  lemma CountBeforeAll(times: seq<int>, before: int)
    requires times != [] && StrictlyIncreasing(times) && times[|times| - 1] < before
    ensures CountBefore(times[..|times| - 1], before) == |times| - 1
  {
    if |times| > 1 { assert times[|times| - 2] < times[|times| - 1]; }
  }

  lemma {:induction false} CutOffTakesPrefix(h: seq<HistoryLine>, caId: nat, times: seq<int>, before: int)
    requires |times| == |h| && StrictlyIncreasing(times)
    ensures var n, rows := CountBefore(times, before), Stamped(h, caId, times);
            && Newest(rows, caId, before) == (if n == 0 then None else Some(rows[n - 1]))
            && Replay(rows, caId, before) == HistorySum(h[..n])
  {
    if h != [] {
      var m, rows := |h| - 1, Stamped(h, caId, times);
      CutOffTakesPrefix(h[..m], caId, times[..m], before);
      StampedOneMore(h, caId, times);
      NewestOneMore(Stamped(h[..m], caId, times[..m]), rows[m], caId, before);
      if times[m] < before { CountBeforeAll(times, before); }
      var n := CountBefore(times[..m], before);
      assert h[..m][..n] == h[..n] && h[..|h|] == h;
    }
  }

  lemma {:induction false} CountBeforeNext(times: seq<int>, i: nat)
    requires i < |times| && StrictlyIncreasing(times)
    ensures CountBefore(times, times[i] + 1) == i + 1
  {
    if i < |times| - 1 { CountBeforeNext(times[..|times| - 1], i); }
  }

  lemma {:induction false} StandsIffChained(opening: real, h: seq<HistoryLine>, caId: nat, times: seq<int>)
    requires |times| == |h| && StrictlyIncreasing(times)
    ensures (forall before :: StandsForReplay(opening, Stamped(h, caId, times), caId, before)) <==> Chained(opening, h)
  {
    var rows := Stamped(h, caId, times);
    forall before | Chained(opening, h) ensures StandsForReplay(opening, rows, caId, before) {
      CutOffTakesPrefix(h, caId, times, before);
      var n := CountBefore(times, before);
      if n > 0 { assert h[..n][..n - 1] == h[..n - 1]; }
    }
    forall i | 0 <= i < |h| && forall before :: StandsForReplay(opening, rows, caId, before)
      ensures h[i].oldBalance == opening + HistorySum(h[..i])
    {
      assert StandsForReplay(opening, rows, caId, times[i] + 1);
      CutOffTakesPrefix(h, caId, times, times[i] + 1);
      CountBeforeNext(times, i);
      assert h[..i + 1][..i] == h[..i];
    }
  }

  /** Under interleaved updates, with history rows inserted at increasing times, the newest row before every cut-off
      stands for the whole replay up to it if and only if every call has missed nothing when it inserts its row. */
  lemma NewestIsReplayIffNothingMissed(opening: real, calls: seq<Call>, schedule: seq<Turn>, caId: nat, times: seq<int>)
    requires |times| == |Interleave(opening, calls, schedule).history| && StrictlyIncreasing(times)
    ensures var rows := Stamped(Interleave(opening, calls, schedule).history, caId, times);
            (forall before :: StandsForReplay(opening, rows, caId, before)) <==> NothingMissed(opening, calls, schedule)
  {
    StandsIffChained(opening, Interleave(opening, calls, schedule).history, caId, times);
    ChainedIffNothingMissed(opening, calls, schedule);
  }

  /** What the query takes from a row after serial updates: the opening amount plus the replay before the
      cut-off, except that a row whose history only starts later is dropped. */
  lemma RowContribution(t0: Tables, posts: seq<Post>, caId: nat, before: int)
    requires t0.histories == [] && caId < |t0.rows| && Increasing(posts)
    ensures var t := Updates(t0, posts);
            var exact := t0.rows[caId].amount + Replay(t.histories, caId, before);
            match Contribution(t, caId, before)
            case Some(c) => c == exact
            case None => HasHistory(t.histories, caId) && exact == t0.rows[caId].amount
  {
    var t := Updates(t0, posts);
    var late := if posts == [] then before else posts[|posts| - 1].createdAt + 1;
    RowIsReplay(t0, posts, caId, late);
    NewestIsReplay(t0, posts, caId, before);
    if !HasHistory(t.histories, caId) {
      NoHistoryNoReplay(t.histories, caId, late);
      NoHistoryNoReplay(t.histories, caId, before);
    }
  }

  lemma {:induction false} NoHistoryNoReplay(h: seq<History>, caId: nat, before: int)
    requires !HasHistory(h, caId)
    ensures Replay(h, caId, before) == 0.0
  {
    if h != [] {
      assert forall i :: 0 <= i < |h| - 1 ==> h[..|h| - 1][i] == h[i];
      NoHistoryNoReplay(h[..|h| - 1], caId, before);
    }
  }

  predicate Represents(t: Tables, caId: nat, before: int)
    requires caId < |t.rows|
  {
    Replay(t.histories, caId, before) == match Contribution(t, caId, before) case Some(c) => c case None => 0.0
  }

  lemma {:induction false} PeriodSumIsReplay(t: Tables, n: nat, accountType: int, currency: string, before: int)
    requires n <= |t.rows| && forall k :: 0 <= k < n ==> Represents(t, k, before)
    ensures var sum := PeriodSum(t, n, accountType, currency, before);
            ReplayTotal(t, n, accountType, currency, before) == if sum.Some? then sum.value else 0.0
  {
    if n > 0 {
      PeriodSumIsReplay(t, n - 1, accountType, currency, before);
      assert Represents(t, n - 1, before);
    }
  }

  /** From zero balances, the last-row query returns the floor of the full replay for every cut-off; it
      returns null only when that replay is zero. */
  lemma PeriodQueryIsReplay(t0: Tables, posts: seq<Post>, accountType: int, currency: string, before: int)
    requires t0.histories == [] && Increasing(posts)
    requires forall k :: 0 <= k < |t0.rows| ==> t0.rows[k].amount == 0.0
    ensures var t := Updates(t0, posts);
            var total := ReplayTotal(t, |t.rows|, accountType, currency, before);
            match AvailableByPeriod(t, accountType, currency, before)
            case Some(v) => v == total.Floor
            case None => total == 0.0
  {
    var t := Updates(t0, posts);
    forall k | 0 <= k < |t.rows| ensures Represents(t, k, before) { RowContribution(t0, posts, k, before); }
    PeriodSumIsReplay(t, |t.rows|, accountType, currency, before);
  }

  // ---- what goes up and what goes down ----

  /** The plain sum of the amounts of one kind posted to a row. */
  function Posted(posts: seq<Post>, caId: nat, kind: ActionType): real
  {
    if posts == [] then 0.0
    else
      var p := posts[|posts| - 1];
      Posted(posts[..|posts| - 1], caId, kind) + if p.caId == caId && p.kind == kind then p.amount else 0.0
  }

  /** In every serial run a row is its opening amount plus the increments posted to it less the decrements. */
  lemma {:induction false} RowRisesAndFalls(t0: Tables, posts: seq<Post>, caId: nat)
    requires caId < |t0.rows|
    ensures Updates(t0, posts).rows[caId].amount
         == t0.rows[caId].amount + Posted(posts, caId, Increment) - Posted(posts, caId, Decrement)
  {
    if posts != [] { RowRisesAndFalls(t0, posts[..|posts| - 1], caId); }
  }

  /** The plain sum of the amounts of one kind over the history before a cut-off, of the rows of an account type and
      currency. */
  function Moved(t: Tables, h: seq<History>, accountType: int, currency: string, before: int, kind: ActionType): real
  {
    if h == [] then 0.0
    else
      var x := h[|h| - 1];
      Moved(t, h[..|h| - 1], accountType, currency, before, kind)
      + if x.kind == kind && x.createdAt < before && x.caId < |t.rows|
           && t.rows[x.caId].accountType == accountType && t.rows[x.caId].currency == currency
        then x.amount else 0.0
  }

  lemma {:induction false} ReplayTotalOneMore(
    t: Tables, h: seq<History>, x: History, n: nat, accountType: int, currency: string, before: int)
    requires n <= |t.rows|
    ensures ReplayTotal(t.(histories := h + [x]), n, accountType, currency, before)
         == ReplayTotal(t.(histories := h), n, accountType, currency, before)
              + if x.createdAt < before && x.caId < n && t.rows[x.caId].accountType == accountType
                   && t.rows[x.caId].currency == currency
                then if x.kind == Increment then x.amount else -x.amount
                else 0.0
  {
    if n > 0 {
      ReplayTotalOneMore(t, h, x, n - 1, accountType, currency, before);
      assert (h + [x])[..|h|] == h;
    }
  }

  lemma {:induction false} ReplayTotalIsMoved(
    t: Tables, h: seq<History>, accountType: int, currency: string, before: int)
    ensures ReplayTotal(t.(histories := h), |t.rows|, accountType, currency, before)
         == Moved(t, h, accountType, currency, before, Increment)
              - Moved(t, h, accountType, currency, before, Decrement)
  {
    if h == [] {
      NothingReplayed(t, |t.rows|, accountType, currency, before);
    } else {
      ReplayTotalIsMoved(t, h[..|h| - 1], accountType, currency, before);
      ReplayTotalOneMore(t, h[..|h| - 1], h[|h| - 1], |t.rows|, accountType, currency, before);
      assert h == h[..|h| - 1] + [h[|h| - 1]];
    }
  }

  lemma {:induction false} NothingReplayed(t: Tables, n: nat, accountType: int, currency: string, before: int)
    requires n <= |t.rows|
    ensures ReplayTotal(t.(histories := []), n, accountType, currency, before) == 0.0
  {
    if n > 0 { NothingReplayed(t, n - 1, accountType, currency, before); }
  }

  /** From zero balances, after serial updates, the query returns the floor of the increments less the decrements that
      the rows of the account type and currency had before the cut-off. */
  lemma PeriodQueryRisesAndFalls(t0: Tables, posts: seq<Post>, accountType: int, currency: string, before: int)
    requires t0.histories == [] && Increasing(posts)
    requires forall k :: 0 <= k < |t0.rows| ==> t0.rows[k].amount == 0.0
    ensures var t := Updates(t0, posts);
            var total := Moved(t, t.histories, accountType, currency, before, Increment)
                         - Moved(t, t.histories, accountType, currency, before, Decrement);
            match AvailableByPeriod(t, accountType, currency, before)
            case Some(v) => v == total.Floor
            case None => total == 0.0
  {
    var t := Updates(t0, posts);
    PeriodQueryIsReplay(t0, posts, accountType, currency, before);
    ReplayTotalIsMoved(t, t.histories, accountType, currency, before);
    assert t.(histories := t.histories) == t;
  }

  /** And each history row records its post: the serial updates append, for every post to a row there is, one line with
      that post's id, row, amount, kind and time, and nothing else. */
  lemma {:induction false} HistoryRecordsPosts(t0: Tables, posts: seq<Post>)
    requires t0.histories == [] && forall k :: 0 <= k < |posts| ==> posts[k].caId < |t0.rows|
    ensures var h := Updates(t0, posts).histories;
            |h| == |posts| && forall k :: 0 <= k < |posts| ==>
              && h[k].id == posts[k].id && h[k].caId == posts[k].caId && h[k].amount == posts[k].amount
              && h[k].kind == posts[k].kind && h[k].createdAt == posts[k].createdAt
  {
    if posts != [] { HistoryRecordsPosts(t0, posts[..|posts| - 1]); }
  }

  // ---- the service ----

  datatype Transaction = Transaction(amount: real, account: nat, kind: ActionType, oldBalance: real, broker: bool)

  class WalletService {
    var rows: seq<Row>
    var histories: seq<History>
    var transactions: seq<Transaction>
    var referrals: seq<(nat, nat)>

    ghost function Ledger(): Tables
      reads this
    {
      Tables(rows, histories)
    }

    /** `None` is the exception for a missing row; nothing is written then. */
    method UpdateBalance(p: Post) returns (oldBalance: Option<real>)
      modifies this`rows, this`histories
      ensures Ledger() == Update(old(Ledger()), p)
      ensures p.caId >= |old(rows)| ==> rows == old(rows) && histories == old(histories)
      ensures p.caId < |old(rows)| ==>
                var was := old(rows[p.caId]);
                var amount := if p.kind == Increment then was.amount + p.amount else was.amount - p.amount;
                && rows == old(rows)[p.caId := Row(was.accountType, was.currency, amount)]
                && histories == old(histories) + [History(p.id, p.caId, was.amount, p.amount, p.kind, p.createdAt)]
      ensures oldBalance == if p.caId < |old(rows)| then Some(old(rows[p.caId].amount)) else None
    {
      if p.caId >= |rows| { return None; }
      var row := rows[p.caId];
      histories := histories + [History(p.id, p.caId, row.amount, p.amount, p.kind, p.createdAt)];
      if p.kind == Increment {
        rows := rows[p.caId := row.(amount := rows[p.caId].amount + p.amount)];
      } else {
        rows := rows[p.caId := row.(amount := rows[p.caId].amount - p.amount)];
      }
      oldBalance := Some(row.amount);
    }

    /** `increaseBalance` and `decreaseBalance`: update, then insert the transaction with the balance it found. */
    method ChangeBalance(p: Post, broker: bool) returns (ok: bool)
      modifies this`rows, this`histories, this`transactions
      ensures Ledger() == Update(old(Ledger()), p) && ok == (p.caId < |old(rows)|)
      ensures ok ==>
                rows[p.caId].amount == old(rows[p.caId].amount) + if p.kind == Increment then p.amount else -p.amount
      ensures transactions == old(transactions)
                + if ok then [Transaction(p.amount, p.caId, p.kind, old(rows[p.caId].amount), broker)] else []
    {
      var oldBalance := UpdateBalance(p);
      if oldBalance.None? { return false; }
      transactions := transactions + [Transaction(p.amount, p.caId, p.kind, oldBalance.value, broker)];
      ok := true;
    }

    /** Both rewards are paid before the referral row is written, and a failed one does not undo the other. */
    method AccountReferral(postBy: Post, postFrom: Post) returns (ok: bool)
      requires postBy.kind == postFrom.kind == Increment
      modifies this
      ensures Ledger() == Update(Update(old(Ledger()), postBy), postFrom)
      ensures ok == (postBy.caId < |rows| && postFrom.caId < |rows|)
      ensures |rows| == |old(rows)| && forall i :: 0 <= i < |rows| ==>
                rows[i].amount == old(rows[i].amount) + (if postBy.caId == i then postBy.amount else 0.0)
                                    + (if postFrom.caId == i then postFrom.amount else 0.0)
      ensures referrals == old(referrals) + if ok then [(postFrom.caId, postBy.caId)] else []
    {
      var paidBy := ChangeBalance(postBy, false);
      var paidFrom := ChangeBalance(postFrom, false);
      ok := paidBy && paidFrom;
      if ok { referrals := referrals + [(postFrom.caId, postBy.caId)]; }
    }
  }
}
