/** The rows one expense claim owns in the database: the expense itself,
    its approval records in creation order, and the notifications the
    workflow has added about it. The routes change these rows in place. */
module ClaimStore {

  import opened Wrappers
  import opened Models

  /** A snapshot of a claim's rows; `expense` is `None` once the claim has
      been deleted. */
  datatype Rows = Rows(expense: Option<Expense>, approvals: seq<ApprovalRecord>, outbox: seq<Notification>)

  predicate IsPending(r: ApprovalRecord)
  {
    r.status == Pending
  }

  /** How many records are still waiting for a decision. */
  function PendingCount(approvals: seq<ApprovalRecord>): nat
  {
    if |approvals| == 0 then 0
    else PendingCount(approvals[..|approvals| - 1]) + (if IsPending(approvals[|approvals| - 1]) then 1 else 0)
  }

  /** Replacing one record changes the count by what the two records add. */
  lemma {:induction false} PendingCountUpdate(approvals: seq<ApprovalRecord>, i: nat, r: ApprovalRecord)
    requires i < |approvals|
    ensures PendingCount(approvals[i := r]) + (if IsPending(approvals[i]) then 1 else 0)
         == PendingCount(approvals) + (if IsPending(r) then 1 else 0)
    decreases |approvals|
  {
    var n := |approvals|;
    var updated := approvals[i := r];
    if i < n - 1 {
      assert updated[..n - 1] == approvals[..n - 1][i := r];
      PendingCountUpdate(approvals[..n - 1], i, r);
    } else {
      assert updated[..n - 1] == approvals[..n - 1];
    }
  }

  /** A sequence without pending records counts none. */
  lemma {:induction false} NoPendingCountsZero(approvals: seq<ApprovalRecord>)
    requires forall k :: 0 <= k < |approvals| ==> !IsPending(approvals[k])
    ensures PendingCount(approvals) == 0
  {
    if |approvals| > 0 {
      NoPendingCountsZero(approvals[..|approvals| - 1]);
    }
  }

  /** The workflow's invariant over a claim's rows:
      - a deleted claim has no approval records left;
      - every record belongs to the claim;
      - at most one record is pending;
      - a pending record exists only while the claim is submitted, and the
        claim's current level is the level of that record. */
  predicate Consistent(rows: Rows)
  {
    (rows.expense.None? ==> rows.approvals == []) &&
    (forall k :: 0 <= k < |rows.approvals| ==> rows.approvals[k].expenseId == rows.expense.value.id) &&
    (forall k, m :: (0 <= k < |rows.approvals| && 0 <= m < |rows.approvals| &&
                     IsPending(rows.approvals[k]) && IsPending(rows.approvals[m])) ==> k == m) &&
    (forall k :: 0 <= k < |rows.approvals| && IsPending(rows.approvals[k]) ==>
       rows.expense.value.status == Submitted &&
       rows.expense.value.currentApproverLevel == Some(LevelName(rows.approvals[k].level)))
  }

  /** In consistent rows at most one record is pending, counted. */
  lemma AtMostOnePending(rows: Rows)
    requires Consistent(rows)
    ensures PendingCount(rows.approvals) <= 1
  {
    var a := rows.approvals;
    if k :| 0 <= k < |a| && IsPending(a[k]) {
      var decided := a[k := a[k].(status := Accepted)];
      NoPendingCountsZero(decided);
      PendingCountUpdate(a, k, a[k].(status := Accepted));
    } else {
      NoPendingCountsZero(a);
    }
  }

  /** A claim that is no longer submitted has nothing left to decide. */
  lemma ClosedClaimHasNoPending(rows: Rows)
    requires Consistent(rows) && rows.expense.Some? && rows.expense.value.status != Submitted
    ensures forall k :: 0 <= k < |rows.approvals| ==> !IsPending(rows.approvals[k])
    ensures PendingCount(rows.approvals) == 0
  {
    NoPendingCountsZero(rows.approvals);
  }

  /** The claim's rows as the routes see them through the session. */
  class Store {
    var expense: Option<Expense>
    var approvals: seq<ApprovalRecord>
    var outbox: seq<Notification>

    function State(): Rows
      reads this
    {
      Rows(expense, approvals, outbox)
    }

    predicate Valid()
      reads this
    {
      Consistent(State())
    }

    /** A store holding the given rows. */
    constructor (rows: Rows)
      ensures State() == rows
    {
      expense := rows.expense;
      approvals := rows.approvals;
      outbox := rows.outbox;
    }
  }
}
