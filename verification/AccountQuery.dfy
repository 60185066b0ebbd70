/** The account search of the back office: the numbered-placeholder WHERE clause with its value list. */
module AccountQuery {
  import opened Common

  datatype Value = Number(n: int) | Flag(b: bool) | Text(s: string)

  datatype KeywordKind = Uuid | Phone(intl: string) | Plain

  datatype Operator = Eq | Gt | Lt | Ge | Le

  /** `value` of the query: an operator and, when the comma and digits its pattern allows to be missing are there,
      an amount. */
  datatype TokenValue = TokenValue(operator: Operator, amount: Option<nat>)

  datatype Query = Query(
    kycStatus: Option<int>, status: Option<int>, isPartner: Option<bool>,
    keyword: string, kind: KeywordKind,
    createdFrom: Option<int>, createdTo: Option<int>,
    isReferral: Option<string>,
    token: Option<string>, value: Option<TokenValue>)

  /** An account with what the query joins to it; `matches` are the patterns one of its text columns is like. */
  datatype Account = Account(
    user: bool, columns: map<Column, Value>, matches: set<string>, createdAt: int, referred: bool,
    amounts: map<string, int>)

  datatype Column = KycStatus | Status | IsPartner | Id | PhoneNumber

  /** One conjunct of the clause; k is the number after the dollar sign. */
  datatype Cond =
    | IsUser
    | Equals(column: Column, k: nat)
    | Like(k: nat)  // five columns, the same placeholder in each
    | CreatedFrom(date: int)
    | CreatedTo(date: int)
    | ReferredIs(referred: bool)
    | AmountIs(code: string, operator: Operator, amount: nat)
    | Malformed(code: string)

  datatype Filter = Filter(clause: seq<Cond>, values: seq<Value>)

  predicate Compares(op: Operator, a: int, b: int)
  {
    match op
    case Eq => a == b
    case Gt => a > b
    case Lt => a < b
    case Ge => a >= b
    case Le => a <= b
  }

  /** How the database reads one conjunct against the bound values. */
  predicate Holds(c: Cond, values: seq<Value>, a: Account)
  {
    match c
    case IsUser => a.user
    case Equals(column, k) => 1 <= k <= |values| && column in a.columns && a.columns[column] == values[k - 1]
    case Like(k) => 1 <= k <= |values| && values[k - 1].Text? && values[k - 1].s in a.matches
    case CreatedFrom(date) => a.createdAt >= date
    case CreatedTo(date) => a.createdAt <= date
    case ReferredIs(referred) => a.referred == referred
    case AmountIs(code, op, amount) => code in a.amounts && Compares(op, a.amounts[code], amount)
    case Malformed(_) => false
  }

  predicate Selects(f: Filter, extra: seq<Value>, a: Account)
  {
    forall i :: 0 <= i < |f.clause| ==> Holds(f.clause[i], f.values + extra, a)
  }

  /** The statement is accepted by the database. */
  predicate Accepted(f: Filter)
  {
    forall i :: 0 <= i < |f.clause| ==> !f.clause[i].Malformed?
  }

  /** Every placeholder names a value. */
  predicate InRange(f: Filter)
  {
    forall i :: 0 <= i < |f.clause| ==>
      && (f.clause[i].Equals? ==> 1 <= f.clause[i].k <= |f.values|)
      && (f.clause[i].Like? ==> 1 <= f.clause[i].k <= |f.values|)
  }

  // ---- the clause as it grows ----

  function And(f: Filter, c: Cond): Filter
  {
    f.(clause := f.clause + [c])
  }

  function AndEquals(f: Filter, column: Column, v: Value): Filter
  {
    Filter(f.clause + [Equals(column, |f.values| + 1)], f.values + [v])
  }

  function AndLike(f: Filter, pattern: string): Filter
  {
    Filter(f.clause + [Like(|f.values| + 1)], f.values + [Text(pattern)])
  }

  function AndKeyword(f: Filter, q: Query): Filter
  {
    if q.keyword == "" then f
    else
      match q.kind
      case Uuid => AndEquals(f, Id, Text(q.keyword))
      case Phone(intl) => AndEquals(f, PhoneNumber, Text(intl))
      case Plain => AndLike(f, "%" + q.keyword + "%")
  }

  function TokenCond(q: Query): Cond
    requires q.token.Some? && q.value.Some?
  {
    if q.value.value.amount.Some? then AmountIs(q.token.value, q.value.value.operator, q.value.value.amount.value)
    else Malformed(q.token.value)
  }

  function AndTokens(f: Filter, q: Query, tokens: seq<string>): Filter
  {
    if tokens == [] then f
    else
      var g := AndTokens(f, q, tokens[..|tokens| - 1]);
      if q.token == Some(tokens[|tokens| - 1]) && q.value.Some? then And(g, TokenCond(q)) else g
  }

  function AndOptional(f: Filter, column: Column, v: Option<Value>): Filter
  {
    if v.Some? then AndEquals(f, column, v.value) else f
  }

  function AsNumber(n: Option<int>): Option<Value>
  {
    if n.Some? then Some(Number(n.value)) else None
  }

  function AsFlag(b: Option<bool>): Option<Value>
  {
    if b.Some? then Some(Flag(b.value)) else None
  }

  const EVERY_USER := Filter([IsUser], [])

  function Columns(q: Query): Filter
  {
    AndOptional(
      AndOptional(AndOptional(EVERY_USER, KycStatus, AsNumber(q.kycStatus)), Status, AsNumber(q.status)),
      IsPartner, AsFlag(q.isPartner))
  }

  function Dates(f: Filter, q: Query): Filter
  {
    var f1 := if q.createdFrom.Some? then And(f, CreatedFrom(q.createdFrom.value)) else f;
    var f2 := if q.createdTo.Some? then And(f1, CreatedTo(q.createdTo.value)) else f1;
    if q.isReferral.Some? then And(f2, ReferredIs(q.isReferral.value == "true")) else f2
  }

  function AccountFilter(q: Query, tokens: seq<string>): Filter
  {
    AndTokens(Dates(AndKeyword(Columns(q), q), q), q, tokens)
  }

  // ---- what was asked for ----

  predicate ColumnIs(a: Account, c: Column, v: Value)
  {
    c in a.columns && a.columns[c] == v
  }

  predicate WantedColumns(q: Query, a: Account)
  {
    && a.user
    && (q.kycStatus.Some? ==> ColumnIs(a, KycStatus, Number(q.kycStatus.value)))
    && (q.status.Some? ==> ColumnIs(a, Status, Number(q.status.value)))
    && (q.isPartner.Some? ==> ColumnIs(a, IsPartner, Flag(q.isPartner.value)))
  }

  predicate WantedKeyword(q: Query, a: Account)
  {
    q.keyword != "" ==>
      match q.kind
      case Uuid => ColumnIs(a, Id, Text(q.keyword))
      case Phone(intl) => ColumnIs(a, PhoneNumber, Text(intl))
      case Plain => ("%" + q.keyword + "%") in a.matches
  }

  predicate WantedDates(q: Query, a: Account)
  {
    && (q.createdFrom.Some? ==> a.createdAt >= q.createdFrom.value)
    && (q.createdTo.Some? ==> a.createdAt <= q.createdTo.value)
    && (q.isReferral.Some? ==> a.referred == (q.isReferral.value == "true"))
  }

  /** The amount filter applies to an active token only. */
  predicate FiltersToken(q: Query, tokens: seq<string>)
  {
    q.token.Some? && q.value.Some? && q.token.value in tokens
  }

  predicate Wanted(q: Query, tokens: seq<string>, a: Account)
  {
    && WantedColumns(q, a) && WantedKeyword(q, a) && WantedDates(q, a)
    && (FiltersToken(q, tokens) && q.value.value.amount.Some? ==>
          && q.token.value in a.amounts
          && var held, asked := a.amounts[q.token.value], q.value.value.amount.value;
             match q.value.value.operator
             case Eq => held == asked
             case Gt => asked < held
             case Lt => held < asked
             case Ge => !(held < asked)
             case Le => !(asked < held))
  }

  // ---- the clause means what was asked for ----

  lemma AndMeans(f: Filter, c: Cond, extra: seq<Value>, a: Account)
    requires InRange(f) && !c.Equals? && !c.Like?
    ensures InRange(And(f, c))
    ensures Accepted(And(f, c)) <==> Accepted(f) && !c.Malformed?
    ensures Selects(And(f, c), extra, a) <==> Selects(f, extra, a) && Holds(c, f.values + extra, a)
  {
    var g := And(f, c);
    assert forall i :: 0 <= i < |f.clause| ==> g.clause[i] == f.clause[i];
    assert g.clause[|f.clause|] == c;
  }

  /** A pushed value is named by its own placeholder, and the placeholders before it still name theirs. */
  lemma PushMeans(f: Filter, c: Cond, v: Value, extra: seq<Value>, a: Account)
    requires InRange(f) && (c == Like(|f.values| + 1) || (c.Equals? && c.k == |f.values| + 1))
    ensures var g := Filter(f.clause + [c], f.values + [v]);
            && InRange(g) && (Accepted(g) <==> Accepted(f))
            && (Selects(g, extra, a) <==>
                  && Selects(f, extra, a)
                  && if c.Equals? then ColumnIs(a, c.column, v) else v.Text? && v.s in a.matches)
  {
    var g := Filter(f.clause + [c], f.values + [v]);
    assert forall i :: 0 <= i < |f.clause| ==> g.clause[i] == f.clause[i];
    assert g.clause[|f.clause|] == c;
    assert forall j :: 0 <= j < |f.values| ==> (g.values + extra)[j] == f.values[j] == (f.values + extra)[j];
    assert (g.values + extra)[|f.values|] == v;
    assert forall i :: 0 <= i < |f.clause| ==>
      (Holds(f.clause[i], g.values + extra, a) <==> Holds(f.clause[i], f.values + extra, a));
  }

  lemma OptionalMeans(f: Filter, column: Column, v: Option<Value>, extra: seq<Value>, a: Account)
    requires InRange(f) && Accepted(f)
    ensures InRange(AndOptional(f, column, v)) && Accepted(AndOptional(f, column, v))
    ensures Selects(AndOptional(f, column, v), extra, a) <==>
            Selects(f, extra, a) && (v.Some? ==> ColumnIs(a, column, v.value))
  {
    if v.Some? { PushMeans(f, Equals(column, |f.values| + 1), v.value, extra, a); }
  }

  lemma ColumnsMean(q: Query, extra: seq<Value>, a: Account)
    ensures InRange(Columns(q)) && Accepted(Columns(q))
    ensures Selects(Columns(q), extra, a) <==> WantedColumns(q, a)
  {
    assert EVERY_USER.clause[0] == IsUser;
    var f1 := AndOptional(EVERY_USER, KycStatus, AsNumber(q.kycStatus));
    var f2 := AndOptional(f1, Status, AsNumber(q.status));
    OptionalMeans(EVERY_USER, KycStatus, AsNumber(q.kycStatus), extra, a);
    OptionalMeans(f1, Status, AsNumber(q.status), extra, a);
    OptionalMeans(f2, IsPartner, AsFlag(q.isPartner), extra, a);
  }

  lemma KeywordMeans(f: Filter, q: Query, extra: seq<Value>, a: Account)
    requires InRange(f) && Accepted(f)
    ensures InRange(AndKeyword(f, q)) && Accepted(AndKeyword(f, q))
    ensures Selects(AndKeyword(f, q), extra, a) <==> Selects(f, extra, a) && WantedKeyword(q, a)
  {
    if q.keyword != "" {
      match q.kind
      case Uuid => PushMeans(f, Equals(Id, |f.values| + 1), Text(q.keyword), extra, a);
      case Phone(intl) => PushMeans(f, Equals(PhoneNumber, |f.values| + 1), Text(intl), extra, a);
      case Plain => PushMeans(f, Like(|f.values| + 1), Text("%" + q.keyword + "%"), extra, a);
    }
  }

  lemma DatesMean(f: Filter, q: Query, extra: seq<Value>, a: Account)
    requires InRange(f) && Accepted(f)
    ensures InRange(Dates(f, q)) && Accepted(Dates(f, q)) && Dates(f, q).values == f.values
    ensures Selects(Dates(f, q), extra, a) <==> Selects(f, extra, a) && WantedDates(q, a)
  {
    var f1 := f;
    if q.createdFrom.Some? {
      AndMeans(f, CreatedFrom(q.createdFrom.value), extra, a);
      f1 := And(f, CreatedFrom(q.createdFrom.value));
    }
    var f2 := f1;
    if q.createdTo.Some? {
      AndMeans(f1, CreatedTo(q.createdTo.value), extra, a);
      f2 := And(f1, CreatedTo(q.createdTo.value));
    }
    if q.isReferral.Some? { AndMeans(f2, ReferredIs(q.isReferral.value == "true"), extra, a); }
  }

  lemma {:induction false} TokensMean(f: Filter, q: Query, tokens: seq<string>, extra: seq<Value>, a: Account)
    requires InRange(f) && Accepted(f)
    ensures var g := AndTokens(f, q, tokens);
            && InRange(g) && g.values == f.values
            && (Accepted(g) <==> (FiltersToken(q, tokens) ==> q.value.value.amount.Some?))
            && (Selects(g, extra, a) <==>
                  && Selects(f, extra, a)
                  && (FiltersToken(q, tokens) ==> Holds(TokenCond(q), [], a)))
  {
    if tokens != [] {
      var n := |tokens| - 1;
      TokensMean(f, q, tokens[..n], extra, a);
      assert tokens == tokens[..n] + [tokens[n]];
      if q.token == Some(tokens[n]) && q.value.Some? {
        AndMeans(AndTokens(f, q, tokens[..n]), TokenCond(q), extra, a);
      }
    }
  }

  /** For every query, whatever values the caller appends, the built clause selects exactly the accounts the
      requested filters describe, every placeholder naming its own value. The statement is well formed exactly when
      an amount filter that applies comes with an amount. */
  lemma FilterMeansQuery(q: Query, tokens: seq<string>, extra: seq<Value>, a: Account)
    ensures var f := AccountFilter(q, tokens);
            && InRange(f)
            && (Accepted(f) <==> (FiltersToken(q, tokens) ==> q.value.value.amount.Some?))
            && (Accepted(f) ==> (Selects(f, extra, a) <==> Wanted(q, tokens, a)))
  {
    var columns := Columns(q);
    ColumnsMean(q, extra, a);
    KeywordMeans(columns, q, extra, a);
    DatesMean(AndKeyword(columns, q), q, extra, a);
    TokensMean(Dates(AndKeyword(columns, q), q), q, tokens, extra, a);
  }

  /** The page statement binds the filter's values and then `take` and `skip`; its two paging placeholders name
      these, and it selects what the count statement, bound to the values alone, counts. */
  lemma PagingNamesItsValues(q: Query, tokens: seq<string>, take: int, skip: int, a: Account)
    ensures var f := AccountFilter(q, tokens);
            var bound := f.values + [Number(take), Number(skip)];
            var limit, offset := |f.values| + 1, |f.values| + 2;
            && bound[limit - 1] == Number(take) && bound[offset - 1] == Number(skip) && |bound| == offset
            && (Accepted(f) ==> (Selects(f, [Number(take), Number(skip)], a) <==> Selects(f, [], a)))
  {
    FilterMeansQuery(q, tokens, [Number(take), Number(skip)], a);
    FilterMeansQuery(q, tokens, [], a);
  }

  method BuildAccountFilter(q: Query, tokens: seq<string>) returns (whereClause: seq<Cond>, values: seq<Value>)
    ensures Filter(whereClause, values) == AccountFilter(q, tokens)
  {
    whereClause, values := ColumnConditions(q);
    whereClause, values := KeywordConditions(q, whereClause, values);
    if q.createdFrom.Some? { whereClause := whereClause + [CreatedFrom(q.createdFrom.value)]; }
    if q.createdTo.Some? { whereClause := whereClause + [CreatedTo(q.createdTo.value)]; }
    if q.isReferral.Some? { whereClause := whereClause + [ReferredIs(q.isReferral.value == "true")]; }
    ghost var before := Filter(whereClause, values);
    assert before == Dates(AndKeyword(Columns(q), q), q);
    for i := 0 to |tokens|
      invariant Filter(whereClause, values) == AndTokens(before, q, tokens[..i])
    {
      if q.token == Some(tokens[i]) && q.value.Some? {
        whereClause := whereClause + [TokenCond(q)];
      }
      assert tokens[..i + 1][..i] == tokens[..i];
    }
    assert tokens[..|tokens|] == tokens;
  }

  method ColumnConditions(q: Query) returns (whereClause: seq<Cond>, values: seq<Value>)
    ensures Filter(whereClause, values) == Columns(q)
  {
    whereClause, values := [IsUser], [];
    if q.kycStatus.Some? {
      values := values + [Number(q.kycStatus.value)];
      whereClause := whereClause + [Equals(KycStatus, |values|)];
    }
    assert Filter(whereClause, values) == AndOptional(EVERY_USER, KycStatus, AsNumber(q.kycStatus));
    if q.status.Some? {
      values := values + [Number(q.status.value)];
      whereClause := whereClause + [Equals(Status, |values|)];
    }
    if q.isPartner.Some? {
      values := values + [Flag(q.isPartner.value)];
      whereClause := whereClause + [Equals(IsPartner, |values|)];
    }
  }

  method KeywordConditions(q: Query, clause: seq<Cond>, bound: seq<Value>)
    returns (whereClause: seq<Cond>, values: seq<Value>)
    ensures Filter(whereClause, values) == AndKeyword(Filter(clause, bound), q)
  {
    whereClause, values := clause, bound;
    if q.keyword != "" {
      if q.kind.Uuid? {
        values := values + [Text(q.keyword)];
        whereClause := whereClause + [Equals(Id, |values|)];
      } else if q.kind.Phone? {
        values := values + [Text(q.kind.intl)];
        whereClause := whereClause + [Equals(PhoneNumber, |values|)];
      } else {
        values := values + [Text("%" + q.keyword + "%")];
        whereClause := whereClause + [Like(|values|)];
      }
    }
  }
}
