/**
 * The read-only dashboard queries of the core: the WHERE conditions of the
 * KPI query, the four row counts it reports, and the mapping from a status
 * in the URL to the table a user's expenses are listed from.
 */
module Dashboard {
  import opened Wrappers
  import opened Expense
  import opened Tokens
  import opened Store
  import opened Numerals
  import Users

  /** The columns a KPI condition can test, in the order dashboard_kpis tests the filters. */
  datatype Column = CreatedBy | OfficeName | Head | Subhead | ExpenseDate

  /** A bound SQL parameter. */
  datatype Param = IntParam(n: int) | TextParam(s: string)

  /** One "column = %s" condition with its bound value. */
  datatype Condition = Condition(column: Column, param: Param)

  /** The optional query parameters user, office, head, subhead and date. */
  datatype Filters = Filters(
    user: Option<string>,
    office: Option<string>,
    head: Option<string>,
    subhead: Option<string>,
    date: Option<string>)

  /** int(user) raised on a user filter that is not a decimal integer. */
  datatype KpiError = UserFilterNotAnInteger

  /** The four counts of the KPI response; total_expense, a float sum, is not modelled. */
  datatype Kpis = Kpis(totalUploaded: nat, totalApproved: nat, totalRejected: nat, totalPending: nat)

  /** The filter value is neither None nor "". */
  predicate Supplied(f: Option<string>)
  {
    f.Some? && f.value != ""
  }

  /** The query parameter that filters on each column. */
  function FilterOf(filters: Filters, c: Column): Option<string>
  {
    match c
    case CreatedBy => filters.user
    case OfficeName => filters.office
    case Head => filters.head
    case Subhead => filters.subhead
    case ExpenseDate => filters.date
  }

  /** The position of each column's test in dashboard_kpis. */
  function Rank(c: Column): nat
  {
    match c
    case CreatedBy => 0
    case OfficeName => 1
    case Head => 2
    case Subhead => 3
    case ExpenseDate => 4
  }

  function Columns(conds: seq<Condition>): (cs: seq<Column>)
    ensures |cs| == |conds| && forall i :: 0 <= i < |conds| ==> cs[i] == conds[i].column
  {
    seq(|conds|, i requires 0 <= i < |conds| => conds[i].column)
  }

  /** An admin's text filter binds its own value, and the user filter the integer it parses to. */
  predicate BindsFilter(filters: Filters, cond: Condition)
  {
    match cond.column
    case CreatedBy =>
      Supplied(filters.user) && ParseInt(filters.user.value).Some? &&
      cond.param == IntParam(ParseInt(filters.user.value).value)
    case _ => Supplied(FilterOf(filters, cond.column)) && cond.param == TextParam(FilterOf(filters, cond.column).value)
  }

  /**
   * The conditions and values of dashboard_kpis, built by successive
   * appends. A non-admin always gets the one condition created_by = own id,
   * whatever filters are supplied; an admin gets those of AdminConditions.
   */
  method BuildConditions(caller: Users.Caller, filters: Filters) returns (r: Result<seq<Condition>, KpiError>)
    ensures caller.role != Users.ADMIN_ROLE ==> r == Success([Condition(CreatedBy, IntParam(caller.id))])
    ensures caller.role == Users.ADMIN_ROLE ==>
      (r.Failure? <==> Supplied(filters.user) && ParseInt(filters.user.value).None?)
    ensures caller.role == Users.ADMIN_ROLE && r.Success? ==>
      && (forall c :: c in Columns(r.value) <==> Supplied(FilterOf(filters, c)))
      && (forall i :: 0 <= i < |r.value| ==> BindsFilter(filters, r.value[i]))
      && (forall i, j :: 0 <= i < j < |r.value| ==> Rank(r.value[i].column) < Rank(r.value[j].column))
  {
    if caller.role == Users.ADMIN_ROLE {
      r := AdminConditions(filters);
    } else {
      var conditions: seq<Condition> := [];
      conditions := conditions + [Condition(CreatedBy, IntParam(caller.id))];
      assert conditions == [Condition(CreatedBy, IntParam(caller.id))];
      r := Success(conditions);
    }
  }

  /**
   * The admin branch: one condition per supplied filter, in the order
   * dashboard_kpis tests them, each bound to that filter's value; a user filter int() cannot
   * parse is an error.
   */
  method AdminConditions(filters: Filters) returns (r: Result<seq<Condition>, KpiError>)
    ensures r.Failure? <==> Supplied(filters.user) && ParseInt(filters.user.value).None?
    ensures r.Success? ==>
      && (forall c :: c in Columns(r.value) <==> Supplied(FilterOf(filters, c)))
      && (forall i :: 0 <= i < |r.value| ==> BindsFilter(filters, r.value[i]))
      && (forall i, j :: 0 <= i < j < |r.value| ==> Rank(r.value[i].column) < Rank(r.value[j].column))
  {
    var first := AddUserFilter(filters);
    if first.Failure? {
      return Failure(first.error);
    }
    var conditions := first.value;
    conditions := AddTextFilter(filters, conditions, OfficeName);
    conditions := AddTextFilter(filters, conditions, Head);
    conditions := AddTextFilter(filters, conditions, Subhead);
    conditions := AddTextFilter(filters, conditions, ExpenseDate);
    BuiltAll(filters, conditions);
    return Success(conditions);
  }

  /**
   * The first test of dashboard_kpis: a user filter that is neither None nor
   * "" adds the condition created_by = int(user).
   */
  method AddUserFilter(filters: Filters) returns (r: Result<seq<Condition>, KpiError>)
    ensures r.Failure? <==> Supplied(filters.user) && ParseInt(filters.user.value).None?
    ensures r.Success? ==> BuiltUpTo(filters, r.value, Rank(CreatedBy) + 1)
  {
    var conditions: seq<Condition> := [];
    assert BuiltUpTo(filters, conditions, 0);
    if Supplied(filters.user) {
      var n := ParseInt(filters.user.value);
      if n.None? {
        return Failure(UserFilterNotAnInteger);
      }
      AppendKeepsBuilt(filters, conditions, Condition(CreatedBy, IntParam(n.value)));
      conditions := conditions + [Condition(CreatedBy, IntParam(n.value))];
    } else {
      SkipKeepsBuilt(filters, conditions, CreatedBy);
    }
    return Success(conditions);
  }

  /**
   * One of the office, head, subhead and date tests of dashboard_kpis: a
   * filter that is neither None nor "" adds the condition column = value.
   */
  method AddTextFilter(filters: Filters, conds: seq<Condition>, c: Column) returns (next: seq<Condition>)
    requires c != CreatedBy && BuiltUpTo(filters, conds, Rank(c))
    ensures Supplied(FilterOf(filters, c)) ==> next == conds + [Condition(c, TextParam(FilterOf(filters, c).value))]
    ensures !Supplied(FilterOf(filters, c)) ==> next == conds
    ensures BuiltUpTo(filters, next, Rank(c) + 1)
  {
    if Supplied(FilterOf(filters, c)) {
      var cond := Condition(c, TextParam(FilterOf(filters, c).value));
      AppendKeepsBuilt(filters, conds, cond);
      next := conds + [cond];
    } else {
      SkipKeepsBuilt(filters, conds, c);
      next := conds;
    }
  }

  /**
   * After dashboard_kpis has tested the filters of rank below k: the conditions
   * are exactly those of the supplied filters among them, each bound to its
   * filter, in rank order.
   */
  ghost predicate BuiltUpTo(filters: Filters, conds: seq<Condition>, k: nat)
  {
    && (forall c :: c in Columns(conds) <==> Rank(c) < k && Supplied(FilterOf(filters, c)))
    && (forall i :: 0 <= i < |conds| ==> BindsFilter(filters, conds[i]))
    && (forall i, j :: 0 <= i < j < |conds| ==> Rank(conds[i].column) < Rank(conds[j].column))
  }

  lemma AppendKeepsBuilt(filters: Filters, conds: seq<Condition>, cond: Condition)
    requires BuiltUpTo(filters, conds, Rank(cond.column)) && BindsFilter(filters, cond)
    ensures BuiltUpTo(filters, conds + [cond], Rank(cond.column) + 1)
  {
    var next := conds + [cond];
    assert Columns(next) == Columns(conds) + [cond.column];
    forall i | 0 <= i < |conds| ensures Rank(conds[i].column) < Rank(cond.column) {
      assert conds[i].column in Columns(conds);
    }
  }

  lemma BuiltAll(filters: Filters, conds: seq<Condition>)
    requires BuiltUpTo(filters, conds, 5)
    ensures forall c :: c in Columns(conds) <==> Supplied(FilterOf(filters, c))
  {
    forall c ensures Rank(c) < 5 {
    }
  }

  lemma SkipKeepsBuilt(filters: Filters, conds: seq<Condition>, c: Column)
    requires BuiltUpTo(filters, conds, Rank(c)) && !Supplied(FilterOf(filters, c))
    ensures BuiltUpTo(filters, conds, Rank(c) + 1)
  {
  }

  /** The SQL test of one condition on a row; NULL never equals anything. */
  predicate Holds(rec: ExpenseRecord, cond: Condition)
  {
    match (cond.column, cond.param)
    case (CreatedBy, IntParam(n)) => rec.createdBy == n
    case (OfficeName, TextParam(s)) => rec.fields.officeName == s
    case (Head, TextParam(s)) => rec.fields.head == s
    case (Subhead, TextParam(s)) => rec.fields.subhead == s
    case (ExpenseDate, TextParam(s)) => rec.fields.expenseDate == Some(s)
    case _ => false
  }

  /** "WHERE c1 AND c2 ...", or no WHERE at all for no conditions. */
  predicate MatchesAll(rec: ExpenseRecord, conds: seq<Condition>)
  {
    forall i :: 0 <= i < |conds| ==> Holds(rec, conds[i])
  }

  function Matching(table: map<int, ExpenseRecord>, conds: seq<Condition>): map<int, ExpenseRecord>
  {
    map id | id in table && MatchesAll(table[id], conds) :: table[id]
  }

  /** SELECT COUNT(*) FROM table WHERE conds. */
  function Count(table: map<int, ExpenseRecord>, conds: seq<Condition>): nat
  {
    |Matching(table, conds)|
  }

  /** The counts of dashboard_kpis under the given conditions. */
  function KpiCounts(db: Db, conds: seq<Condition>): (k: Kpis)
    ensures k.totalUploaded == k.totalPending + k.totalApproved + k.totalRejected
    ensures k.totalPending <= |db.pending| && k.totalApproved <= |db.approved| && k.totalRejected <= |db.rejected|
  {
    var p, a, r := Count(db.pending, conds), Count(db.approved, conds), Count(db.rejected, conds);
    assert Matching(db.pending, conds).Keys <= db.pending.Keys;
    assert Matching(db.approved, conds).Keys <= db.approved.Keys;
    assert Matching(db.rejected, conds).Keys <= db.rejected.Keys;
    SubsetCard(Matching(db.pending, conds).Keys, db.pending.Keys);
    SubsetCard(Matching(db.approved, conds).Keys, db.approved.Keys);
    SubsetCard(Matching(db.rejected, conds).Keys, db.rejected.Keys);
    Kpis(p + a + r, a, r, p)
  }

  lemma SubsetCard(a: set<int>, b: set<int>)
    requires a <= b
    ensures |a| <= |b|
  {
    assert b == a + (b - a);
    assert a * (b - a) == {};
  }

  /** The row passes the admin's filter on column c, or that filter is not supplied. */
  predicate PassesFilter(rec: ExpenseRecord, filters: Filters, c: Column)
  {
    Supplied(FilterOf(filters, c)) ==>
      match c
      case CreatedBy => ParseInt(filters.user.value).Some? && rec.createdBy == ParseInt(filters.user.value).value
      case OfficeName => rec.fields.officeName == filters.office.value
      case Head => rec.fields.head == filters.head.value
      case Subhead => rec.fields.subhead == filters.subhead.value
      case ExpenseDate => rec.fields.expenseDate == Some(filters.date.value)
  }

  /** The rows an admin's filters select, stated filter by filter. */
  predicate PassesFilters(rec: ExpenseRecord, filters: Filters)
  {
    forall c :: PassesFilter(rec, filters, c)
  }

  /** The ids of the rows of table that an admin's filters select. */
  function Selected(table: map<int, ExpenseRecord>, filters: Filters): set<int>
  {
    set id | id in table && PassesFilters(table[id], filters)
  }

  /** The admin conditions of AdminConditions, as a property of a list of conditions. */
  ghost predicate EncodesFilters(filters: Filters, conds: seq<Condition>)
  {
    && (forall c :: c in Columns(conds) <==> Supplied(FilterOf(filters, c)))
    && (forall i :: 0 <= i < |conds| ==> BindsFilter(filters, conds[i]))
  }

  /**
   * A list of conditions that has one condition per supplied filter, each
   * bound to its filter, holds of a row exactly when the row passes every
   * supplied filter.
   */
  lemma EncodedFiltersMean(filters: Filters, conds: seq<Condition>, rec: ExpenseRecord)
    requires EncodesFilters(filters, conds)
    ensures MatchesAll(rec, conds) <==> PassesFilters(rec, filters)
  {
    if MatchesAll(rec, conds) {
      forall c ensures PassesFilter(rec, filters, c) {
        if Supplied(FilterOf(filters, c)) {
          assert c in Columns(conds);
          var i :| 0 <= i < |conds| && Columns(conds)[i] == c;
          assert BindsFilter(filters, conds[i]) && Holds(rec, conds[i]);
        }
      }
    }
    if PassesFilters(rec, filters) {
      forall i | 0 <= i < |conds| ensures Holds(rec, conds[i]) {
        assert BindsFilter(filters, conds[i]) && PassesFilter(rec, filters, conds[i].column);
      }
    }
  }

  /** Under encoded filters, COUNT(*) counts exactly the selected rows. */
  lemma EncodedCount(table: map<int, ExpenseRecord>, filters: Filters, conds: seq<Condition>)
    requires EncodesFilters(filters, conds)
    ensures Count(table, conds) == |Selected(table, filters)|
  {
    forall id | id in table ensures MatchesAll(table[id], conds) <==> PassesFilters(table[id], filters) {
      EncodedFiltersMean(filters, conds, table[id]);
    }
    assert Matching(table, conds).Keys == Selected(table, filters);
  }

  /** GET /api/dashboard/kpis for the session user. */
  method DashboardKpis(db: Db, caller: Users.Caller, filters: Filters) returns (r: Result<Kpis, KpiError>)
    ensures caller.role != Users.ADMIN_ROLE ==>
      r == Success(KpiCounts(db, [Condition(CreatedBy, IntParam(caller.id))]))
    ensures caller.role == Users.ADMIN_ROLE ==>
      (r.Failure? <==> Supplied(filters.user) && ParseInt(filters.user.value).None?)
    ensures caller.role == Users.ADMIN_ROLE && r.Success? ==>
      && r.value.totalPending == |Selected(db.pending, filters)|
      && r.value.totalApproved == |Selected(db.approved, filters)|
      && r.value.totalRejected == |Selected(db.rejected, filters)|
      && r.value.totalUploaded == r.value.totalPending + r.value.totalApproved + r.value.totalRejected
    ensures caller.role == Users.ADMIN_ROLE && !Supplied(filters.user) && !Supplied(filters.office) &&
            !Supplied(filters.head) && !Supplied(filters.subhead) && !Supplied(filters.date) ==>
      r == Success(Kpis(Total(db), |db.approved|, |db.rejected|, |db.pending|))
  {
    var conds := BuildConditions(caller, filters);
    if conds.Failure? {
      return Failure(conds.error);
    }
    if caller.role == Users.ADMIN_ROLE {
      assert EncodesFilters(filters, conds.value);
      EncodedCount(db.pending, filters, conds.value);
      EncodedCount(db.approved, filters, conds.value);
      EncodedCount(db.rejected, filters, conds.value);
    }
    if caller.role == Users.ADMIN_ROLE && !Supplied(filters.user) && !Supplied(filters.office) &&
       !Supplied(filters.head) && !Supplied(filters.subhead) && !Supplied(filters.date) {
      assert forall c :: c !in Columns(conds.value);
      FirstColumn(conds.value);
      UnfilteredCounts(db);
    }
    return Success(KpiCounts(db, conds.value));
  }

  lemma FirstColumn(conds: seq<Condition>)
    ensures conds != [] ==> conds[0].column in Columns(conds)
  {
  }

  lemma MatchingNothing(table: map<int, ExpenseRecord>)
    ensures Matching(table, []) == table
  {
    assert forall id :: id in table ==> MatchesAll(table[id], []);
  }

  /** Without conditions every row counts: total_uploaded is the number of rows in the three tables. */
  lemma UnfilteredCounts(db: Db)
    ensures KpiCounts(db, []) == Kpis(Total(db), |db.approved|, |db.rejected|, |db.pending|)
  {
    MatchingNothing(db.pending);
    MatchingNothing(db.approved);
    MatchingNothing(db.rejected);
  }

  lemma CountRemove(table: map<int, ExpenseRecord>, k: int, conds: seq<Condition>)
    requires k in table
    ensures Count(table - {k}, conds) == Count(table, conds) - (if MatchesAll(table[k], conds) then 1 else 0)
  {
    var before := Matching(table, conds);
    var after := Matching(table - {k}, conds);
    assert after.Keys == before.Keys - {k};
  }

  lemma CountInsert(table: map<int, ExpenseRecord>, k: int, v: ExpenseRecord, conds: seq<Condition>)
    requires k !in table
    ensures Count(table[k := v], conds) == Count(table, conds) + (if MatchesAll(v, conds) then 1 else 0)
  {
    var before := Matching(table, conds);
    var after := Matching(table[k := v], conds);
    if MatchesAll(v, conds) {
      assert after == before[k := v];
    } else {
      assert after == before;
    }
  }

  /**
   * A redemption moves a row with its fields unchanged, so under any
   * filter total_uploaded stays the same; a committed one moves one matching
   * row from the pending count to the approved or rejected count.
   */
  lemma RedeemKeepsUploaded(db: Db, conds: seq<Condition>, token: string, action: Action,
                            now: int, storeOk: bool)
    requires SequencesAhead(db)
    ensures var k := KpiCounts(db, conds);
            var k' := KpiCounts(Redeem(db, token, action, now, storeOk).0, conds);
            && k'.totalUploaded == k.totalUploaded
            && (action == Approve ==> k'.totalRejected == k.totalRejected)
            && (action == Reject ==> k'.totalApproved == k.totalApproved)
  {
    var r := Redeem(db, token, action, now, storeOk);
    if r.1.Success? {
      var pid := db.tokens[token].pendingId;
      CountRemove(db.pending, pid, conds);
      if action == Approve {
        CountInsert(db.approved, db.nextApprovedId, db.pending[pid], conds);
      } else {
        CountInsert(db.rejected, db.nextRejectedId, db.pending[pid], conds);
      }
    }
  }

  /**
   * A committed submission adds one pending row, counted under exactly the
   * filters its fields match; a refused one changes no count.
   */
  lemma SubmitUploaded(db: Db, conds: seq<Condition>, userId: int, data: ExpenseIn,
                       approveToken: string, rejectToken: string, now: int, storeOk: bool, mailOk: bool)
    requires approveToken != rejectToken && approveToken !in db.tokens && rejectToken !in db.tokens
    requires SequencesAhead(db)
    ensures var r := Submit(db, userId, data, approveToken, rejectToken, now, storeOk, mailOk);
            var k := KpiCounts(db, conds);
            var k' := KpiCounts(r.0, conds);
            && k'.totalPending == k.totalPending +
                 (if r.1.Success? && MatchesAll(ExpenseRecord(data, userId), conds) then 1 else 0)
            && k'.totalApproved == k.totalApproved && k'.totalRejected == k.totalRejected
  {
    var r := Submit(db, userId, data, approveToken, rejectToken, now, storeOk, mailOk);
    if r.1.Success? {
      CountInsert(db.pending, r.1.value, ExpenseRecord(data, userId), conds);
    }
  }

  // ---------------------------------------------------------------------
  // GET /api/dashboard/expenses/{status}
  // ---------------------------------------------------------------------

  datatype Table = Expenses | PendingExpenses | RejectedExpenses

  /** The status word for the rows of each table. */
  function StatusName(t: Table): string
  {
    match t
    case Expenses => "approved"
    case PendingExpenses => "pending"
    case RejectedExpenses => "rejected"
  }

  /** The table user_expenses reads for a status, or "Invalid status". */
  function TableFor(status: string): (r: Result<Table, string>)
    ensures r.Failure? <==> status != "approved" && status != "pending" && status != "rejected"
    ensures r.Failure? ==> r.error == "Invalid status"
  {
    if status == "approved" then Success(Expenses)
    else if status == "pending" then Success(PendingExpenses)
    else if status == "rejected" then Success(RejectedExpenses)
    else Failure("Invalid status")
  }

  /** The mapping is a bijection between the three status words and the three tables; any other word fails. */
  lemma TableForIsInverse(status: string, t: Table)
    ensures TableFor(status) == Success(t) <==> status == StatusName(t)
    ensures TableFor(status).Failure? <==> status != "approved" && status != "pending" && status != "rejected"
  {
  }

  function Rows(db: Db, t: Table): map<int, ExpenseRecord>
  {
    match t
    case Expenses => db.approved
    case PendingExpenses => db.pending
    case RejectedExpenses => db.rejected
  }

  /** The caller's own rows of the table a status names (ordering and column projection aside). */
  function UserExpenses(db: Db, caller: Users.Caller, status: string): (r: Result<map<int, ExpenseRecord>, string>)
    ensures r.Failure? <==> TableFor(status).Failure?
    ensures r.Success? ==>
      forall id :: id in r.value <==> id in Rows(db, TableFor(status).value) &&
                                      Rows(db, TableFor(status).value)[id].createdBy == caller.id
    ensures r.Success? ==> forall id :: id in r.value ==> r.value[id] == Rows(db, TableFor(status).value)[id]
  {
    match TableFor(status)
    case Failure(e) => Failure(e)
    case Success(t) =>
      var rows := Rows(db, t);
      Success(map id | id in rows && rows[id].createdBy == caller.id :: rows[id])
  }
}
