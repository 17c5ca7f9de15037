/**
 * The approval workflow as main.py runs it: a database object whose
 * tables the submission and review endpoints change statement by statement
 * inside one transaction, committed at the end or rolled back on failure.
 * Each endpoint is proved to leave exactly the state the matching transition
 * of Store describes, and to keep Store.Consistent.
 */
module Workflow {
  import opened Wrappers
  import opened Expense
  import opened Tokens
  import opened Store
  import Users

  /** The {"status": ...} body of a successful review. */
  function StatusOf(action: Action): string
  {
    match action
    case Approve => "approved"
    case Reject => "rejected"
  }

  class ExpenseDb {
    var pending: map<int, ExpenseRecord>
    var approved: map<int, ExpenseRecord>
    var rejected: map<int, ExpenseRecord>
    var tokens: map<string, TokenRow>
    var pendingSeq: int
    var approvedSeq: int
    var rejectedSeq: int
    var tokenSeq: int
    ghost var provenance: Provenance

    /** The committed tables as a value. */
    function Model(): Db
      reads this
    {
      Db(pending, approved, rejected, tokens, pendingSeq, approvedSeq, rejectedSeq, tokenSeq)
    }

    ghost predicate Valid()
      reads this
    {
      Consistent(Model(), provenance)
    }

    constructor ()
      ensures Valid() && Model() == EMPTY && provenance == NO_PROVENANCE
    {
      pending, approved, rejected, tokens := map[], map[], map[], map[];
      pendingSeq, approvedSeq, rejectedSeq, tokenSeq := 1, 1, 1, 1;
      provenance := NO_PROVENANCE;
      EmptyIsConsistent();
    }

    /**
     * create_approval_token: insert an unused row for pendingId and action
     * that expires a day from now, and hand back the token. token stands for
     * the fresh uuid4 string. It is a step of RunSubmission, inside the
     * submission's transaction, and keeps no invariant of its own.
     */
    method CreateApprovalToken(pendingId: int, action: Action, token: string, now: int) returns (issued: string)
      requires token !in tokens
      modifies this
      ensures issued == token
      ensures tokens == old(tokens)[token := Issue(old(tokenSeq), pendingId, action, now)]
      ensures tokenSeq == old(tokenSeq) + 1
      ensures pending == old(pending) && approved == old(approved) && rejected == old(rejected)
      ensures pendingSeq == old(pendingSeq) && approvedSeq == old(approvedSeq) && rejectedSeq == old(rejectedSeq)
      ensures provenance == old(provenance)
    {
      var expires := now + TOKEN_LIFETIME;
      tokens := tokens[token := TokenRow(tokenSeq, pendingId, action, expires, false, None)];
      tokenSeq := tokenSeq + 1;
      issued := token;
    }

    /**
     * The statements of submit_expense: the head check, then in one
     * transaction the pending row, the two tokens and the mail call, and the
     * commit only once mail has gone out. storeOk false is a database error
     * raised by the INSERTs, mailOk false an exception from
     * send_approval_email; approveToken and rejectToken are the two fresh
     * uuid4 strings. This is the internal step of SubmitExpense: called on
     * its own it does not record the new expense's provenance, so it does
     * not keep Valid().
     */
    method RunSubmission(user: Users.Caller, data: ExpenseIn, approveToken: string, rejectToken: string,
                         now: int, storeOk: bool, mailOk: bool) returns (r: Result<int, SubmitError>)
      requires approveToken != rejectToken && approveToken !in tokens && rejectToken !in tokens
      modifies this
      ensures (Model(), r) == Submit(old(Model()), user.id, data, approveToken, rejectToken, now, storeOk, mailOk)
      ensures provenance == old(provenance)
    {
      ghost var before := Model();
      if !PassesHeadCheck(data) {
        return Failure(MissingMandatoryFields);
      }
      var savedPending, savedTokens := pending, tokens;
      // INSERT INTO pending_expenses ... RETURNING id
      var pid := pendingSeq;
      pendingSeq := pendingSeq + 1;
      pending := pending[pid := ExpenseRecord(data, user.id)];
      var approveLink := CreateApprovalToken(pid, Approve, approveToken, now);
      var rejectLink := CreateApprovalToken(pid, Reject, rejectToken, now);
      if !storeOk || !mailOk {
        // an INSERT raised, or send_approval_email did: the exception escapes
        // before conn.commit() and the transaction is discarded
        pending, tokens := savedPending, savedTokens;
        r := if !storeOk then Failure(InsertFailed) else Failure(MailFailed);
        assert Submit(before, user.id, data, approveToken, rejectToken, now, storeOk, mailOk) == (Model(), r);
        return;
      }
      r := Success(pid);
      assert Model() == Admit(before, user.id, data, approveToken, rejectToken, now);
      assert Submit(before, user.id, data, approveToken, rejectToken, now, storeOk, mailOk) == (Model(), r);
    }

    /**
     * POST /api/expenses/submit for the session user: the submission,
     * keeping the invariant and recording the new expense's origin.
     */
    method SubmitExpense(user: Users.Caller, data: ExpenseIn, approveToken: string, rejectToken: string,
                         now: int, storeOk: bool, mailOk: bool) returns (r: Result<int, SubmitError>)
      requires Valid()
      requires approveToken != rejectToken && approveToken !in tokens && rejectToken !in tokens
      modifies this
      ensures Valid()
      ensures (Model(), r) == Submit(old(Model()), user.id, data, approveToken, rejectToken, now, storeOk, mailOk)
      ensures provenance == SubmitProvenance(old(Model()), old(provenance), user.id, data, approveToken, rejectToken,
                                             now, storeOk, mailOk)
    {
      SubmitKeepsConsistent(Model(), provenance, user.id, data, approveToken, rejectToken, now, storeOk, mailOk);
      ghost var after := Submit(Model(), user.id, data, approveToken, rejectToken, now, storeOk, mailOk).0;
      ghost var next := SubmitProvenance(Model(), provenance, user.id, data, approveToken, rejectToken, now, storeOk, mailOk);
      assert Consistent(after, next);
      r := RunSubmission(user, data, approveToken, rejectToken, now, storeOk, mailOk);
      provenance := next;
      assert Model() == after;
    }

    /**
     * validate_token: look the token up by token and action and refuse it
     * when absent, used or expired, in that order; changes nothing.
     */
    method ValidateToken(token: string, action: Action, now: int) returns (r: Result<(int, int), TokenError>)
      ensures r == Validate(Lookup(tokens, token, action), now)
      ensures r.Success? <==> token in tokens && tokens[token].action == action && !tokens[token].isUsed &&
                              now <= tokens[token].expiresAt
    {
      if !(token in tokens && tokens[token].action == action) {
        return Failure(InvalidToken);
      }
      var row := tokens[token];
      if row.isUsed {
        return Failure(TokenAlreadyUsed);
      }
      if now > row.expiresAt {
        return Failure(TokenExpired);
      }
      return Success((row.id, row.pendingId));
    }

    /**
     * The body shared by approve_expense and reject_expense: validate, read
     * the pending row, insert it into the table of action, delete it from
     * pending, mark the token used, commit; any failure rolls back. storeOk
     * false is a database error raised by the writes. main.py's UPDATE
     * selects the token row by its id; here the row is updated under its
     * token string, which names the same row (Store.UpdateByIdIsKeyed), so
     * the token id ValidateToken returns is not needed. This is the internal
     * step of RedeemToken: called on its own it does not move the expense's
     * provenance, so it does not keep Valid().
     */
    method RunRedemption(token: string, action: Action, now: int, storeOk: bool) returns (r: Result<Action, RedeemError>)
      modifies this
      ensures (Model(), r) == Redeem(old(Model()), token, action, now, storeOk)
      ensures provenance == old(provenance)
    {
      ghost var before := Model();
      var v := ValidateToken(token, action, now);
      if v.Failure? {
        return Failure(BadToken(v.error));
      }
      var pid := v.value.1;
      // SELECT * FROM pending_expenses WHERE id = pid; a missing row fails the copy
      if pid !in pending {
        return Failure(RecordNotFound);
      }
      var row := pending[pid];
      var savedPending, savedApproved, savedRejected, savedTokens := pending, approved, rejected, tokens;
      if action == Approve {
        approved := approved[approvedSeq := row];
        approvedSeq := approvedSeq + 1;
      } else {
        rejected := rejected[rejectedSeq := row];
        rejectedSeq := rejectedSeq + 1;
      }
      pending := pending - {pid};
      tokens := tokens[token := MarkUsed(tokens[token], now)];
      if !storeOk {
        pending, approved, rejected, tokens := savedPending, savedApproved, savedRejected, savedTokens;
        r := Failure(StoreFailure);
        assert Model() == AdvanceSequence(before, action);
        assert Redeem(before, token, action, now, storeOk) == (Model(), r);
        return;
      }
      r := Success(action);
      assert Model() == Commit(before, token, action, now);
      assert Redeem(before, token, action, now, storeOk) == (Model(), r);
    }

    /** A redemption at the endpoint of action, keeping the invariant and moving the expense's origin. */
    method RedeemToken(token: string, action: Action, now: int, storeOk: bool) returns (r: Result<Action, RedeemError>)
      requires Valid()
      modifies this
      ensures Valid()
      ensures (Model(), r) == Redeem(old(Model()), token, action, now, storeOk)
      ensures provenance == RedeemProvenance(old(Model()), old(provenance), token, action, now, storeOk)
    {
      RedeemKeepsConsistent(Model(), provenance, token, action, now, storeOk);
      ghost var after := Redeem(Model(), token, action, now, storeOk).0;
      ghost var next := RedeemProvenance(Model(), provenance, token, action, now, storeOk);
      assert Consistent(after, next);
      r := RunRedemption(token, action, now, storeOk);
      provenance := next;
      assert Model() == after;
    }

    /** GET /review/approve/{token}. */
    method ApproveExpense(token: string, now: int, storeOk: bool) returns (r: Result<string, RedeemError>)
      requires Valid()
      modifies this
      ensures Valid()
      ensures Model() == Redeem(old(Model()), token, Approve, now, storeOk).0
      ensures var res := Redeem(old(Model()), token, Approve, now, storeOk).1;
        r == if res.Success? then Success("approved") else Failure(res.error)
    {
      var res := RedeemToken(token, Approve, now, storeOk);
      r := if res.Success? then Success(StatusOf(res.value)) else Failure(res.error);
    }

    /** GET /review/reject/{token}. */
    method RejectExpense(token: string, now: int, storeOk: bool) returns (r: Result<string, RedeemError>)
      requires Valid()
      modifies this
      ensures Valid()
      ensures Model() == Redeem(old(Model()), token, Reject, now, storeOk).0
      ensures var res := Redeem(old(Model()), token, Reject, now, storeOk).1;
        r == if res.Success? then Success("rejected") else Failure(res.error)
    {
      var res := RedeemToken(token, Reject, now, storeOk);
      r := if res.Success? then Success(StatusOf(res.value)) else Failure(res.error);
    }
  }
}
