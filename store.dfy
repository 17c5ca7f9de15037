/**
 * The database as a value: the three expense tables, the token ledger and
 * the SERIAL sequences, with the two committed transitions of the workflow,
 * submission and redemption, as functions of the state before them.
 */
module Store {
  import opened Wrappers
  import opened Expense
  import opened Tokens

  /**
   * pending_expenses, expenses (approved), rejected_expenses and
   * approval_tokens, each table keyed as in main.py, and the next value of
   * each table's id sequence.
   */
  datatype Db = Db(
    pending: map<int, ExpenseRecord>,
    approved: map<int, ExpenseRecord>,
    rejected: map<int, ExpenseRecord>,
    tokens: map<string, TokenRow>,
    nextPendingId: int,
    nextApprovedId: int,
    nextRejectedId: int,
    nextTokenId: int)

  /** The empty database; SERIAL sequences start at 1. */
  const EMPTY: Db := Db(map[], map[], map[], map[], 1, 1, 1, 1)

  /**
   * Why a submission is not committed: the head check refused it, the
   * database raised on one of its INSERTs, or send_approval_email raised.
   */
  datatype SubmitError = MissingMandatoryFields | InsertFailed | MailFailed

  datatype RedeemError = BadToken(reason: TokenError) | RecordNotFound | StoreFailure

  /** Rows in the three expense tables: the total_uploaded of an unfiltered dashboard. */
  function Total(db: Db): nat
  {
    |db.pending| + |db.approved| + |db.rejected|
  }

  /**
   * Every row and token id lies below the next value of its table's
   * sequence, and no two ledger rows share an id, so the UPDATE by token id
   * of a redemption touches the row its token string names.
   */
  ghost predicate SequencesAhead(db: Db)
  {
    && (forall id :: id in db.pending ==> id < db.nextPendingId)
    && (forall id :: id in db.approved ==> id < db.nextApprovedId)
    && (forall id :: id in db.rejected ==> id < db.nextRejectedId)
    && (forall t :: t in db.tokens ==> db.tokens[t].id < db.nextTokenId)
    && (forall t, u :: t in db.tokens && u in db.tokens && db.tokens[t].id == db.tokens[u].id ==> t == u)
  }

  /**
   * A submission by user userId, as submit_expense runs it. The head check
   * runs before any write. The pending row takes the next pending id and two
   * tokens are issued for it. When the database raises on those INSERTs
   * (storeOk false) or send_approval_email raises (mailOk false), the
   * exception escapes before conn.commit(), so no row and no token survive;
   * the sequences, which PostgreSQL does not roll back, have advanced.
   * approveToken and rejectToken stand for the two uuid4 strings, distinct
   * and not yet in the ledger.
   */
  function Submit(db: Db, userId: int, data: ExpenseIn, approveToken: string, rejectToken: string,
                  now: int, storeOk: bool, mailOk: bool): (r: (Db, Result<int, SubmitError>))
    requires approveToken != rejectToken && approveToken !in db.tokens && rejectToken !in db.tokens
    ensures r.1 == Failure(MissingMandatoryFields) <==> !PassesHeadCheck(data)
    ensures !PassesHeadCheck(data) ==> r.0 == db
    ensures r.1.Failure? ==>
      r.0.pending == db.pending && r.0.approved == db.approved && r.0.rejected == db.rejected &&
      r.0.tokens == db.tokens
    ensures r.1 == Failure(InsertFailed) <==> PassesHeadCheck(data) && !storeOk
    ensures r.1 == Failure(MailFailed) <==> PassesHeadCheck(data) && storeOk && !mailOk
    ensures r.1.Failure? && PassesHeadCheck(data) ==>
      r.0.nextPendingId == db.nextPendingId + 1 && r.0.nextTokenId == db.nextTokenId + 2 &&
      r.0.nextApprovedId == db.nextApprovedId && r.0.nextRejectedId == db.nextRejectedId
    ensures r.1.Success? <==> PassesHeadCheck(data) && storeOk && mailOk
    ensures r.1.Success? ==>
      var pid := r.1.value;
      && (SequencesAhead(db) ==> pid !in db.pending)
      && r.0.pending == db.pending[pid := ExpenseRecord(data, userId)]
      && r.0.approved == db.approved && r.0.rejected == db.rejected
      && r.0.tokens.Keys == db.tokens.Keys + {approveToken, rejectToken}
      && (forall t :: t in db.tokens ==> r.0.tokens[t] == db.tokens[t])
      && r.0.tokens[approveToken].pendingId == pid && r.0.tokens[approveToken].action == Approve
      && r.0.tokens[rejectToken].pendingId == pid && r.0.tokens[rejectToken].action == Reject
      && !r.0.tokens[approveToken].isUsed && !r.0.tokens[rejectToken].isUsed
      && r.0.tokens[approveToken].usedAt.None? && r.0.tokens[rejectToken].usedAt.None?
      && r.0.tokens[approveToken].expiresAt == now + 86400
      && r.0.tokens[rejectToken].expiresAt == now + 86400
  {
    if !PassesHeadCheck(data) then (db, Failure(MissingMandatoryFields))
    else
      var pid := db.nextPendingId;
      var advanced := db.(nextPendingId := pid + 1, nextTokenId := db.nextTokenId + 2);
      if !storeOk then (advanced, Failure(InsertFailed))
      else if !mailOk then (advanced, Failure(MailFailed))
      else (Admit(db, userId, data, approveToken, rejectToken, now), Success(pid))
  }

  /** The committed writes of a submission: the pending row and its two tokens. */
  function Admit(db: Db, userId: int, data: ExpenseIn, approveToken: string, rejectToken: string, now: int): Db
  {
    var pid := db.nextPendingId;
    var ledger := db.tokens[approveToken := Issue(db.nextTokenId, pid, Approve, now)]
                           [rejectToken := Issue(db.nextTokenId + 1, pid, Reject, now)];
    db.(pending := db.pending[pid := ExpenseRecord(data, userId)], tokens := ledger,
        nextPendingId := pid + 1, nextTokenId := db.nextTokenId + 2)
  }

  /** The UPDATE of a redemption: is_used = true, used_at = now. */
  function MarkUsed(row: TokenRow, now: int): TokenRow
  {
    row.(isUsed := true, usedAt := Some(now))
  }

  /**
   * The UPDATE of main.py, which selects the row by its id rather than by
   * its token string: once token ids are distinct it touches exactly the
   * row the token names, as the keyed update of Redeem does.
   */
  lemma UpdateByIdIsKeyed(db: Db, token: string, now: int)
    requires SequencesAhead(db) && token in db.tokens
    ensures (map t | t in db.tokens :: if db.tokens[t].id == db.tokens[token].id then MarkUsed(db.tokens[t], now) else db.tokens[t])
            == db.tokens[token := MarkUsed(db.tokens[token], now)]
  {
  }

  /**
   * A redemption of token at the endpoint of action, as one transaction:
   * validate, read the pending row, insert it into the target table, delete
   * it from pending, mark the token used, commit. A token refusal or a
   * missing pending row (the row None that dict(zip(cols, row)) then fails on) raises
   * before any write; storeOk false is a database failure that rolls the
   * three writes back, leaving only the target table's sequence advanced.
   */
  function Redeem(db: Db, token: string, action: Action, now: int, storeOk: bool)
    : (r: (Db, Result<Action, RedeemError>))
    ensures Validate(Lookup(db.tokens, token, action), now).Failure? ==>
      r == (db, Failure(BadToken(Validate(Lookup(db.tokens, token, action), now).error)))
    ensures Validate(Lookup(db.tokens, token, action), now).Success? ==>
      token in db.tokens && db.tokens[token].action == action &&
      (db.tokens[token].pendingId !in db.pending ==> r == (db, Failure(RecordNotFound)))
    ensures r.1.Failure? ==>
      r.0.pending == db.pending && r.0.approved == db.approved && r.0.rejected == db.rejected &&
      r.0.tokens == db.tokens
    ensures r.1.Failure? && r.1 != Failure(StoreFailure) ==> r.0 == db
    ensures r.1.Success? <==>
      Validate(Lookup(db.tokens, token, action), now).Success? &&
      db.tokens[token].pendingId in db.pending && storeOk
    ensures r.1.Success? ==>
      var pid := db.tokens[token].pendingId;
      && r.1.value == action
      && r.0.pending == db.pending - {pid}
      && (action == Approve ==>
            r.0.approved == db.approved[db.nextApprovedId := db.pending[pid]] && r.0.rejected == db.rejected)
      && (action == Reject ==>
            r.0.rejected == db.rejected[db.nextRejectedId := db.pending[pid]] && r.0.approved == db.approved)
      && r.0.tokens == db.tokens[token := MarkUsed(db.tokens[token], now)]
  {
    match Validate(Lookup(db.tokens, token, action), now)
    case Failure(e) => (db, Failure(BadToken(e)))
    case Success(ids) =>
      if ids.1 !in db.pending then (db, Failure(RecordNotFound))
      else if !storeOk then (AdvanceSequence(db, action), Failure(StoreFailure))
      else (Commit(db, token, action, now), Success(action))
  }

  /** The id sequence of the target table after its INSERT ran and was rolled back. */
  function AdvanceSequence(db: Db, action: Action): Db
  {
    match action
    case Approve => db.(nextApprovedId := db.nextApprovedId + 1)
    case Reject => db.(nextRejectedId := db.nextRejectedId + 1)
  }

  /** The three writes of a redemption of token, committed together. */
  function Commit(db: Db, token: string, action: Action, now: int): Db
    requires token in db.tokens && db.tokens[token].pendingId in db.pending
  {
    var pid := db.tokens[token].pendingId;
    var row := db.pending[pid];
    var cleared := db.(pending := db.pending - {pid}, tokens := db.tokens[token := MarkUsed(db.tokens[token], now)]);
    match action
    case Approve => cleared.(approved := db.approved[db.nextApprovedId := row], nextApprovedId := db.nextApprovedId + 1)
    case Reject => cleared.(rejected := db.rejected[db.nextRejectedId := row], nextRejectedId := db.nextRejectedId + 1)
  }

  // ---------------------------------------------------------------------
  // Provenance: where each submitted expense lives now.
  // ---------------------------------------------------------------------

  /** The table an expense occupies, with its id there once it has moved. */
  datatype Location = InPending | InApproved(approvedId: int) | InRejected(rejectedId: int)

  /**
   * Bookkeeping main.py does not store: for each pending id ever
   * committed (the origin of an expense), where the expense is now and the
   * row it was submitted as, and for each approved or rejected row the
   * origin it came from.
   */
  datatype Provenance = Provenance(
    place: map<int, Location>,
    submitted: map<int, ExpenseRecord>,
    approvedFrom: map<int, int>,
    rejectedFrom: map<int, int>)

  const NO_PROVENANCE: Provenance := Provenance(map[], map[], map[], map[])

  /** Origin o sits where place says, with the fields it was submitted with. */
  ghost predicate Located(db: Db, p: Provenance, o: int)
    requires o in p.place && o in p.submitted
  {
    match p.place[o]
    case InPending => o in db.pending && db.pending[o] == p.submitted[o]
    case InApproved(i) =>
      i in db.approved && db.approved[i] == p.submitted[o] && i in p.approvedFrom && p.approvedFrom[i] == o
    case InRejected(i) =>
      i in db.rejected && db.rejected[i] == p.submitted[o] && i in p.rejectedFrom && p.rejectedFrom[i] == o
  }

  /**
   * Every committed expense occupies one row of one table, every row of the
   * three tables belongs to one committed expense, and so the rows number the
   * committed submissions.
   */
  ghost predicate Partitioned(db: Db, p: Provenance)
  {
    && p.place.Keys == p.submitted.Keys
    && (forall o :: o in p.place ==> o < db.nextPendingId && Located(db, p, o))
    && (forall id :: id in db.pending ==> id in p.place && p.place[id] == InPending)
    && p.approvedFrom.Keys == db.approved.Keys
    && (forall id :: id in p.approvedFrom ==>
          p.approvedFrom[id] in p.place && p.place[p.approvedFrom[id]] == InApproved(id))
    && p.rejectedFrom.Keys == db.rejected.Keys
    && (forall id :: id in p.rejectedFrom ==>
          p.rejectedFrom[id] in p.place && p.place[p.rejectedFrom[id]] == InRejected(id))
    && Total(db) == |p.place|
  }

  /** The table a redeemed token of this action moves its expense to. */
  ghost predicate Decided(loc: Location, action: Action)
  {
    match action
    case Approve => loc.InApproved?
    case Reject => loc.InRejected?
  }

  /**
   * Every token belongs to a committed expense, a used token's expense has
   * moved to the table of its action, and an expense has at most one token
   * per action.
   */
  ghost predicate LedgerSound(db: Db, p: Provenance)
  {
    && (forall t :: t in db.tokens ==> db.tokens[t].pendingId in p.place)
    && (forall t :: t in db.tokens && db.tokens[t].isUsed ==>
          Decided(p.place[db.tokens[t].pendingId], db.tokens[t].action))
    && (forall t, u ::
          (t in db.tokens && u in db.tokens && db.tokens[t].pendingId == db.tokens[u].pendingId &&
           db.tokens[t].action == db.tokens[u].action) ==> t == u)
  }

  /** t is a ledger token of origin o for action a. */
  predicate TokenFor(ledger: map<string, TokenRow>, t: string, o: int, a: Action)
  {
    t in ledger && ledger[t].pendingId == o && ledger[t].action == a
  }

  /** Some token of origin o for action a is in the ledger. */
  ghost predicate HasToken(ledger: map<string, TokenRow>, o: int, a: Action)
  {
    exists t :: TokenFor(ledger, t, o, a)
  }

  /** Every committed expense was issued both its approve and its reject token. */
  ghost predicate Issued(db: Db, p: Provenance)
  {
    forall o :: o in p.place ==> HasToken(db.tokens, o, Approve) && HasToken(db.tokens, o, Reject)
  }

  /** The invariant of the committed database. */
  ghost predicate Consistent(db: Db, p: Provenance)
  {
    SequencesAhead(db) && Partitioned(db, p) && LedgerSound(db, p) && Issued(db, p)
  }

  /** Provenance after a submission: a committed one adds its origin in pending. */
  ghost function SubmitProvenance(db: Db, p: Provenance, userId: int, data: ExpenseIn,
                                  approveToken: string, rejectToken: string, now: int, storeOk: bool, mailOk: bool): Provenance
    requires approveToken != rejectToken && approveToken !in db.tokens && rejectToken !in db.tokens
  {
    var r := Submit(db, userId, data, approveToken, rejectToken, now, storeOk, mailOk);
    if r.1.Success?
    then AdmitProvenance(db, p, userId, data)
    else p
  }

  /** Provenance after the commit of a redemption of origin pid at the endpoint of action. */
  ghost function MoveProvenance(db: Db, p: Provenance, pid: int, action: Action): Provenance
  {
    match action
    case Approve =>
      p.(place := p.place[pid := InApproved(db.nextApprovedId)], approvedFrom := p.approvedFrom[db.nextApprovedId := pid])
    case Reject =>
      p.(place := p.place[pid := InRejected(db.nextRejectedId)], rejectedFrom := p.rejectedFrom[db.nextRejectedId := pid])
  }

  /** Provenance after a redemption: a committed one moves the origin to its new row. */
  ghost function RedeemProvenance(db: Db, p: Provenance, token: string, action: Action, now: int, storeOk: bool)
    : Provenance
  {
    if Redeem(db, token, action, now, storeOk).1.Success?
    then MoveProvenance(db, p, db.tokens[token].pendingId, action)
    else p
  }

  lemma EmptyIsConsistent()
    ensures Consistent(EMPTY, NO_PROVENANCE)
  {
  }

  /** A submission adds one row in all when it commits, and none otherwise. */
  lemma SubmitTotal(db: Db, userId: int, data: ExpenseIn, approveToken: string,
                    rejectToken: string, now: int, storeOk: bool, mailOk: bool)
    requires approveToken != rejectToken && approveToken !in db.tokens && rejectToken !in db.tokens
    requires SequencesAhead(db)
    ensures var r := Submit(db, userId, data, approveToken, rejectToken, now, storeOk, mailOk);
      Total(r.0) == Total(db) + (if r.1.Success? then 1 else 0)
  {
  }

  /** A redemption moves a row between tables: the number of rows does not change. */
  lemma RedeemTotal(db: Db, token: string, action: Action, now: int, storeOk: bool)
    requires SequencesAhead(db)
    ensures Total(Redeem(db, token, action, now, storeOk).0) == Total(db)
  {
    var r := Redeem(db, token, action, now, storeOk);
    if r.1.Success? {
      var pid := db.tokens[token].pendingId;
      assert r.0.pending.Keys == db.pending.Keys - {pid};
      assert |r.0.pending| == |db.pending| - 1;
    }
  }

  /** Provenance after the commit of a submission. */
  ghost function AdmitProvenance(db: Db, p: Provenance, userId: int, data: ExpenseIn): Provenance
  {
    p.(place := p.place[db.nextPendingId := InPending],
       submitted := p.submitted[db.nextPendingId := ExpenseRecord(data, userId)])
  }

  /** The commit of a submission adds one expense, in one new pending row. */
  lemma AdmitKeepsPartition(db: Db, p: Provenance, userId: int, data: ExpenseIn,
                            approveToken: string, rejectToken: string, now: int)
    requires SequencesAhead(db) && Partitioned(db, p)
    ensures Partitioned(Admit(db, userId, data, approveToken, rejectToken, now), AdmitProvenance(db, p, userId, data))
  {
    var pid := db.nextPendingId;
    var db' := Admit(db, userId, data, approveToken, rejectToken, now);
    var q := AdmitProvenance(db, p, userId, data);
    assert pid !in p.place && pid !in db.pending;
    assert |q.place| == |p.place| + 1;
    assert |db'.pending| == |db.pending| + 1;
    forall o | o in q.place ensures o < db'.nextPendingId && Located(db', q, o) {
      if o != pid {
        assert Located(db, p, o);
      }
    }
  }

  /** The commit of a submission adds two unused tokens, one per action, for the new expense. */
  lemma AdmitKeepsLedger(db: Db, p: Provenance, userId: int, data: ExpenseIn,
                         approveToken: string, rejectToken: string, now: int)
    requires approveToken != rejectToken && approveToken !in db.tokens && rejectToken !in db.tokens
    requires Partitioned(db, p) && LedgerSound(db, p)
    ensures LedgerSound(Admit(db, userId, data, approveToken, rejectToken, now), AdmitProvenance(db, p, userId, data))
  {
    var pid := db.nextPendingId;
    var db' := Admit(db, userId, data, approveToken, rejectToken, now);
    var q := AdmitProvenance(db, p, userId, data);
    assert pid !in p.place;
    assert forall t :: t in db.tokens ==> db.tokens[t].pendingId != pid;
    forall t | t in db'.tokens
      ensures db'.tokens[t].pendingId in q.place
    {
      if t != approveToken && t != rejectToken {
        assert db'.tokens[t] == db.tokens[t];
      }
    }
    forall t | t in db'.tokens && db'.tokens[t].isUsed
      ensures Decided(q.place[db'.tokens[t].pendingId], db'.tokens[t].action)
    {
      assert t in db.tokens && db'.tokens[t] == db.tokens[t];
    }
    forall t, u | (t in db'.tokens && u in db'.tokens && db'.tokens[t].pendingId == db'.tokens[u].pendingId &&
                   db'.tokens[t].action == db'.tokens[u].action)
      ensures t == u
    {
      if t in db.tokens && u in db.tokens {
        assert db'.tokens[t] == db.tokens[t] && db'.tokens[u] == db.tokens[u];
      }
    }
  }

  lemma AdmitKeepsConsistent(db: Db, p: Provenance, userId: int, data: ExpenseIn,
                             approveToken: string, rejectToken: string, now: int)
    requires approveToken != rejectToken && approveToken !in db.tokens && rejectToken !in db.tokens
    requires Consistent(db, p)
    ensures Consistent(Admit(db, userId, data, approveToken, rejectToken, now), AdmitProvenance(db, p, userId, data))
  {
    var db' := Admit(db, userId, data, approveToken, rejectToken, now);
    var q := AdmitProvenance(db, p, userId, data);
    AdmitKeepsSequences(db, userId, data, approveToken, rejectToken, now);
    AdmitKeepsPartition(db, p, userId, data, approveToken, rejectToken, now);
    AdmitKeepsLedger(db, p, userId, data, approveToken, rejectToken, now);
    AdmitKeepsIssued(db, p, userId, data, approveToken, rejectToken, now);
    assert SequencesAhead(db') && Partitioned(db', q) && LedgerSound(db', q) && Issued(db', q);
  }

  /** The commit of a submission issues both tokens of the new expense and keeps every older token. */
  lemma AdmitKeepsIssued(db: Db, p: Provenance, userId: int, data: ExpenseIn,
                         approveToken: string, rejectToken: string, now: int)
    requires approveToken != rejectToken && approveToken !in db.tokens && rejectToken !in db.tokens
    requires Issued(db, p)
    ensures Issued(Admit(db, userId, data, approveToken, rejectToken, now), AdmitProvenance(db, p, userId, data))
  {
    var db' := Admit(db, userId, data, approveToken, rejectToken, now);
    var q := AdmitProvenance(db, p, userId, data);
    forall o | o in q.place ensures HasToken(db'.tokens, o, Approve) && HasToken(db'.tokens, o, Reject) {
      if o == db.nextPendingId {
        assert TokenFor(db'.tokens, approveToken, o, Approve);
        assert TokenFor(db'.tokens, rejectToken, o, Reject);
      } else {
        var ta :| TokenFor(db.tokens, ta, o, Approve);
        var tr :| TokenFor(db.tokens, tr, o, Reject);
        assert TokenFor(db'.tokens, ta, o, Approve);
        assert TokenFor(db'.tokens, tr, o, Reject);
      }
    }
  }

  lemma AdmitKeepsSequences(db: Db, userId: int, data: ExpenseIn,
                            approveToken: string, rejectToken: string, now: int)
    requires SequencesAhead(db)
    ensures SequencesAhead(Admit(db, userId, data, approveToken, rejectToken, now))
  {
  }

  lemma SubmitKeepsConsistent(db: Db, p: Provenance, userId: int, data: ExpenseIn,
                              approveToken: string, rejectToken: string, now: int, storeOk: bool, mailOk: bool)
    requires approveToken != rejectToken && approveToken !in db.tokens && rejectToken !in db.tokens
    requires Consistent(db, p)
    ensures Consistent(Submit(db, userId, data, approveToken, rejectToken, now, storeOk, mailOk).0,
                       SubmitProvenance(db, p, userId, data, approveToken, rejectToken, now, storeOk, mailOk))
  {
    var r := Submit(db, userId, data, approveToken, rejectToken, now, storeOk, mailOk);
    var q := SubmitProvenance(db, p, userId, data, approveToken, rejectToken, now, storeOk, mailOk);
    if r.1.Success? {
      assert r.0 == Admit(db, userId, data, approveToken, rejectToken, now);
      assert q == AdmitProvenance(db, p, userId, data);
      AdmitKeepsConsistent(db, p, userId, data, approveToken, rejectToken, now);
    } else {
      assert q == p;
      assert r.0 == db || r.0 == db.(nextPendingId := db.nextPendingId + 1, nextTokenId := db.nextTokenId + 2);
      SequencesOnlyKeepConsistent(db, p, r.0);
    }
  }

  /** Advancing sequences, as a rolled-back transaction does, keeps the invariant. */
  lemma SequencesOnlyKeepConsistent(db: Db, p: Provenance, db': Db)
    requires Consistent(db, p)
    requires db'.pending == db.pending && db'.approved == db.approved && db'.rejected == db.rejected
    requires db'.tokens == db.tokens
    requires db'.nextPendingId >= db.nextPendingId && db'.nextApprovedId >= db.nextApprovedId
    requires db'.nextRejectedId >= db.nextRejectedId && db'.nextTokenId >= db.nextTokenId
    ensures Consistent(db', p)
  {
    forall o | o in p.place ensures o < db'.nextPendingId && Located(db', p, o) {
      assert Located(db, p, o);
    }
  }

  /** The commit of a redemption keeps every expense in exactly one row. */
  lemma CommitKeepsPartition(db: Db, p: Provenance, token: string, action: Action, now: int)
    requires SequencesAhead(db) && Partitioned(db, p)
    requires token in db.tokens && db.tokens[token].pendingId in db.pending
    ensures Partitioned(Commit(db, token, action, now), MoveProvenance(db, p, db.tokens[token].pendingId, action))
  {
    var pid := db.tokens[token].pendingId;
    var db' := Commit(db, token, action, now);
    var q := MoveProvenance(db, p, pid, action);
    assert p.place[pid] == InPending && Located(db, p, pid);
    assert db'.pending.Keys == db.pending.Keys - {pid};
    assert |db'.pending| == |db.pending| - 1;
    forall o | o in q.place ensures o < db'.nextPendingId && Located(db', q, o) {
      assert Located(db, p, o);
    }
    if action == Approve {
      CommitMovesToApproved(db, p, pid, db', q);
    } else {
      CommitMovesToRejected(db, p, pid, db', q);
    }
  }

  /** The approved side of CommitKeepsPartition: the new approved row's origin is pid. */
  lemma CommitMovesToApproved(db: Db, p: Provenance, pid: int, db': Db, q: Provenance)
    requires SequencesAhead(db) && Partitioned(db, p) && pid in db.pending
    requires db'.approved == db.approved[db.nextApprovedId := db.pending[pid]] && db'.rejected == db.rejected
    requires q == MoveProvenance(db, p, pid, Approve)
    ensures q.approvedFrom.Keys == db'.approved.Keys && q.rejectedFrom.Keys == db'.rejected.Keys
    ensures forall id :: id in q.approvedFrom ==>
      q.approvedFrom[id] in q.place && q.place[q.approvedFrom[id]] == InApproved(id)
    ensures forall id :: id in q.rejectedFrom ==>
      q.rejectedFrom[id] in q.place && q.place[q.rejectedFrom[id]] == InRejected(id)
    ensures |db'.approved| == |db.approved| + 1
  {
    assert p.place[pid] == InPending;
    assert db.nextApprovedId !in db.approved;
    forall id | id in q.approvedFrom
      ensures q.approvedFrom[id] in q.place && q.place[q.approvedFrom[id]] == InApproved(id)
    {
      if id != db.nextApprovedId {
        assert p.approvedFrom[id] != pid;
      }
    }
    forall id | id in q.rejectedFrom
      ensures q.rejectedFrom[id] in q.place && q.place[q.rejectedFrom[id]] == InRejected(id)
    {
      assert p.rejectedFrom[id] != pid;
    }
  }

  /** The rejected side of CommitKeepsPartition: the new rejected row's origin is pid. */
  lemma CommitMovesToRejected(db: Db, p: Provenance, pid: int, db': Db, q: Provenance)
    requires SequencesAhead(db) && Partitioned(db, p) && pid in db.pending
    requires db'.rejected == db.rejected[db.nextRejectedId := db.pending[pid]] && db'.approved == db.approved
    requires q == MoveProvenance(db, p, pid, Reject)
    ensures q.approvedFrom.Keys == db'.approved.Keys && q.rejectedFrom.Keys == db'.rejected.Keys
    ensures forall id :: id in q.approvedFrom ==>
      q.approvedFrom[id] in q.place && q.place[q.approvedFrom[id]] == InApproved(id)
    ensures forall id :: id in q.rejectedFrom ==>
      q.rejectedFrom[id] in q.place && q.place[q.rejectedFrom[id]] == InRejected(id)
    ensures |db'.rejected| == |db.rejected| + 1
  {
    assert p.place[pid] == InPending;
    assert db.nextRejectedId !in db.rejected;
    forall id | id in q.approvedFrom
      ensures q.approvedFrom[id] in q.place && q.place[q.approvedFrom[id]] == InApproved(id)
    {
      assert p.approvedFrom[id] != pid;
    }
    forall id | id in q.rejectedFrom
      ensures q.rejectedFrom[id] in q.place && q.place[q.rejectedFrom[id]] == InRejected(id)
    {
      if id != db.nextRejectedId {
        assert p.rejectedFrom[id] != pid;
      }
    }
  }

  /** Marking a token used deletes no token and changes no token's expense or action. */
  lemma CommitKeepsIssued(db: Db, p: Provenance, token: string, action: Action, now: int)
    requires Partitioned(db, p) && Issued(db, p)
    requires token in db.tokens && db.tokens[token].pendingId in db.pending
    ensures Issued(Commit(db, token, action, now), MoveProvenance(db, p, db.tokens[token].pendingId, action))
  {
    var db' := Commit(db, token, action, now);
    var q := MoveProvenance(db, p, db.tokens[token].pendingId, action);
    forall o | o in q.place ensures HasToken(db'.tokens, o, Approve) && HasToken(db'.tokens, o, Reject) {
      var ta :| TokenFor(db.tokens, ta, o, Approve);
      var tr :| TokenFor(db.tokens, tr, o, Reject);
      assert TokenFor(db'.tokens, ta, o, Approve);
      assert TokenFor(db'.tokens, tr, o, Reject);
    }
  }

  /** The commit of a redemption keeps every id below its sequence and token ids distinct. */
  lemma CommitKeepsSequences(db: Db, token: string, action: Action, now: int)
    requires SequencesAhead(db)
    requires token in db.tokens && db.tokens[token].pendingId in db.pending
    ensures SequencesAhead(Commit(db, token, action, now))
  {
    var db' := Commit(db, token, action, now);
    assert forall t :: t in db'.tokens ==> t in db.tokens && db'.tokens[t].id == db.tokens[t].id;
  }

  /** The commit of a redemption keeps the ledger sound: only the redeemed token becomes used. */
  lemma CommitKeepsLedger(db: Db, p: Provenance, token: string, now: int, action: Action)
    requires Partitioned(db, p) && LedgerSound(db, p)
    requires token in db.tokens && db.tokens[token].pendingId in db.pending && db.tokens[token].action == action
    ensures LedgerSound(Commit(db, token, action, now), MoveProvenance(db, p, db.tokens[token].pendingId, action))
  {
    var pid := db.tokens[token].pendingId;
    var db' := Commit(db, token, action, now);
    var q := MoveProvenance(db, p, pid, action);
    assert p.place[pid] == InPending;
    forall t | t in db'.tokens && db'.tokens[t].isUsed
      ensures Decided(q.place[db'.tokens[t].pendingId], db'.tokens[t].action)
    {
      if t != token {
        assert db.tokens[t].pendingId != pid;
      }
    }
  }

  lemma RedeemKeepsConsistent(db: Db, p: Provenance, token: string, action: Action, now: int,
                              storeOk: bool)
    requires Consistent(db, p)
    ensures Consistent(Redeem(db, token, action, now, storeOk).0, RedeemProvenance(db, p, token, action, now, storeOk))
  {
    var r := Redeem(db, token, action, now, storeOk);
    var q := RedeemProvenance(db, p, token, action, now, storeOk);
    if r.1.Success? {
      assert r.0 == Commit(db, token, action, now);
      assert q == MoveProvenance(db, p, db.tokens[token].pendingId, action);
      CommitKeepsSequences(db, token, action, now);
      CommitKeepsPartition(db, p, token, action, now);
      CommitKeepsLedger(db, p, token, now, action);
      CommitKeepsIssued(db, p, token, action, now);
    } else {
      assert q == p;
      assert r.0 == db || r.0 == AdvanceSequence(db, action);
      SequencesOnlyKeepConsistent(db, p, r.0);
    }
  }

  /**
   * In a consistent database an expense is in exactly one table, and in that
   * table in exactly one row, holding the fields it was submitted with.
   */
  lemma ExactlyOneTable(db: Db, p: Provenance, o: int)
    requires Consistent(db, p) && o in p.place
    ensures var inPending := o in db.pending;
            var inApproved := ComesFrom(p.approvedFrom, o);
            var inRejected := ComesFrom(p.rejectedFrom, o);
            && (inPending || inApproved || inRejected)
            && !(inPending && inApproved) && !(inPending && inRejected) && !(inApproved && inRejected)
    ensures forall i, j ::
      (i in p.approvedFrom && j in p.approvedFrom && p.approvedFrom[i] == o && p.approvedFrom[j] == o) ==> i == j
    ensures forall i, j ::
      (i in p.rejectedFrom && j in p.rejectedFrom && p.rejectedFrom[i] == o && p.rejectedFrom[j] == o) ==> i == j
    ensures o in db.pending ==> db.pending[o] == p.submitted[o]
    ensures forall i :: i in p.approvedFrom && p.approvedFrom[i] == o ==> db.approved[i] == p.submitted[o]
    ensures forall i :: i in p.rejectedFrom && p.rejectedFrom[i] == o ==> db.rejected[i] == p.submitted[o]
  {
    assert Located(db, p, o);
    assert forall i :: i in p.approvedFrom && p.approvedFrom[i] == o ==> p.place[o] == InApproved(i);
    assert forall i :: i in p.rejectedFrom && p.rejectedFrom[i] == o ==> p.place[o] == InRejected(i);
    match p.place[o]
    case InPending =>
    case InApproved(i) =>
      assert p.approvedFrom[i] == o;
    case InRejected(i) =>
      assert p.rejectedFrom[i] == o;
  }

  /** Some row of a table came from origin o. */
  ghost predicate ComesFrom(from: map<int, int>, o: int)
  {
    exists i :: i in from && from[i] == o
  }

  /** At most one token of an expense is ever redeemed: exactly-once approval or rejection. */
  lemma AtMostOneRedemption(db: Db, p: Provenance, t: string, u: string)
    requires Consistent(db, p)
    requires t in db.tokens && u in db.tokens && db.tokens[t].isUsed && db.tokens[u].isUsed
    requires db.tokens[t].pendingId == db.tokens[u].pendingId
    ensures t == u
  {
    var loc := p.place[db.tokens[t].pendingId];
    assert Decided(loc, db.tokens[t].action) && Decided(loc, db.tokens[u].action);
    assert db.tokens[t].action == db.tokens[u].action;
  }

  /** Redeeming a token a second time fails with "Token already used" and changes nothing. */
  lemma SecondRedemptionFails(db: Db, token: string, action: Action, now: int, storeOk: bool,
                              later: int, storeOk': bool)
    requires Redeem(db, token, action, now, storeOk).1.Success?
    ensures var db' := Redeem(db, token, action, now, storeOk).0;
      Redeem(db', token, action, later, storeOk') == (db', Failure(BadToken(TokenAlreadyUsed)))
  {
  }

  /**
   * Once one token of an expense is redeemed, the sibling token stays unused
   * but can no longer move anything: its redemption fails, changes no table
   * or token, and fails with RecordNotFound whenever the token itself is
   * still valid.
   */
  lemma SiblingRedemptionFails(db: Db, token: string, action: Action, now: int, storeOk: bool,
                               sibling: string, action': Action, later: int, storeOk': bool)
    requires Redeem(db, token, action, now, storeOk).1.Success?
    requires sibling in db.tokens && sibling != token
    requires db.tokens[sibling].pendingId == db.tokens[token].pendingId
    ensures var db' := Redeem(db, token, action, now, storeOk).0;
      && db'.tokens[sibling] == db.tokens[sibling]
      && Redeem(db', sibling, action', later, storeOk').0 == db'
      && Redeem(db', sibling, action', later, storeOk').1.Failure?
      && (Validate(Lookup(db'.tokens, sibling, action'), later).Success? ==>
            Redeem(db', sibling, action', later, storeOk').1 == Failure(RecordNotFound))
  {
    var db' := Redeem(db, token, action, now, storeOk).0;
    assert db.tokens[token].pendingId !in db'.pending;
  }

  /**
   * In a consistent database a pending expense can still go either way: it
   * holds an unused approve token and an unused reject token.
   */
  lemma PendingIsRedeemable(db: Db, p: Provenance, o: int)
    requires Consistent(db, p) && o in db.pending
    ensures exists t :: TokenFor(db.tokens, t, o, Approve) && !db.tokens[t].isUsed
    ensures exists t :: TokenFor(db.tokens, t, o, Reject) && !db.tokens[t].isUsed
  {
    assert p.place[o] == InPending;
    var ta :| TokenFor(db.tokens, ta, o, Approve);
    var tr :| TokenFor(db.tokens, tr, o, Reject);
    assert !db.tokens[ta].isUsed && !db.tokens[tr].isUsed;
  }
}
