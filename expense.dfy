/**
 * Expense payloads and rows, and the intake check that a submission of one
 * of the delivery heads carries every mandatory field.
 */
module Expense {
  import opened Wrappers

  /** The body of a submission: the twelve columns of an expense a user fills in. */
  datatype ExpenseIn = ExpenseIn(
    expenseDate: Option<string>,
    client: string,
    officeName: string,
    head: string,
    subhead: string,
    fromLocation: Option<string>,
    toLocation: Option<string>,
    weight: Option<real>,
    amount: Option<real>,
    awb: Option<string>,
    remark: Option<string>,
    vehicleType: Option<string>)

  /**
   * One row of pending_expenses, expenses or rejected_expenses, without its
   * SERIAL id (the id is the key of the table that holds the row): the twelve
   * submitted columns and created_by, the id of the submitting user.
   */
  datatype ExpenseRecord = ExpenseRecord(fields: ExpenseIn, createdBy: int)

  /** The heads for which from, to, weight, amount and AWB are mandatory. */
  const RESTRICTED_HEADS: seq<string> := ["Porter", "Urgent Delivery", "Pickup & Delivery"]

  /** Python truthiness of an optional string: None and "" are false. */
  predicate TruthyText(s: Option<string>)
  {
    s.Some? && s.value != ""
  }

  /** Python truthiness of an optional float: None and 0.0 are false. */
  predicate TruthyNumber(x: Option<real>)
  {
    x.Some? && x.value != 0.0
  }

  /** Python's all(): true when no element is false. */
  function All(bs: seq<bool>): (r: bool)
    ensures r <==> forall i :: 0 <= i < |bs| ==> bs[i]
  {
    if bs == [] then true else bs[0] && All(bs[1..])
  }

  /** The list submit_expense hands to all(), in its order. */
  function MandatoryValues(data: ExpenseIn): seq<bool>
  {
    [TruthyText(data.fromLocation), TruthyText(data.toLocation), TruthyNumber(data.weight),
     TruthyNumber(data.amount), TruthyText(data.awb)]
  }

  /** The head check of submission: false exactly when the submission is refused with a 400. */
  predicate PassesHeadCheck(data: ExpenseIn)
  {
    data.head !in RESTRICTED_HEADS || All(MandatoryValues(data))
  }

  /**
   * The head check fails exactly when the head is one of the three restricted
   * heads and one of the five mandatory fields is missing or falsy.
   */
  lemma HeadCheckFailsIff(data: ExpenseIn)
    ensures !PassesHeadCheck(data) <==>
      (data.head == "Porter" || data.head == "Urgent Delivery" || data.head == "Pickup & Delivery") &&
      (!TruthyText(data.fromLocation) || !TruthyText(data.toLocation) || !TruthyNumber(data.weight) ||
       !TruthyNumber(data.amount) || !TruthyText(data.awb))
  {
    var m := MandatoryValues(data);
    assert All(m) <==> m[0] && m[1] && m[2] && m[3] && m[4];
  }

  /** Any head outside the restricted three passes, whatever fields are missing. */
  lemma UnrestrictedHeadPasses(data: ExpenseIn)
    requires data.head != "Porter" && data.head != "Urgent Delivery" && data.head != "Pickup & Delivery"
    ensures PassesHeadCheck(data)
  {
  }
}
