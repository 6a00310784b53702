/** Duplicate-bill detection over an employee's earlier claims. An exact file
    match (same content hash) blocks the new claim; a match on bill number and
    vendor (and on the bill date when one was read) only flags it. Only the
    same employee's claims in status submitted or approved are compared. The
    content hash itself (SHA-256) is computed outside the model and arrives as
    an optional string, `None` when the file could not be hashed. */
module DuplicateDetector {

  import opened Wrappers
  import opened Models

  datatype DuplicateKind = FileHash | BillDetails

  /** The result dict of `perform_full_check`, without its message text. */
  datatype DuplicateVerdict = DuplicateVerdict(
    isDuplicate: bool,
    duplicateType: Option<DuplicateKind>,
    original: Option<Expense>,
    fileHash: Option<string>,
    shouldBlock: bool)

  /** `if current_expense_id:`: an id of 0 counts as no id. */
  predicate Excluded(e: Expense, currentExpenseId: Option<nat>)
  {
    currentExpenseId.Some? && currentExpenseId.value != 0 && e.id == currentExpenseId.value
  }

  /** The claims both checks look at: the employee's own, submitted or
      approved, other than the claim being edited. */
  predicate Comparable(e: Expense, employeeId: nat, currentExpenseId: Option<nat>)
  {
    e.employeeId == employeeId && (e.status == Submitted || e.status == Approved) && !Excluded(e, currentExpenseId)
  }

  predicate HashMatches(e: Expense, fileHash: string, employeeId: nat, currentExpenseId: Option<nat>)
  {
    e.fileHash == Some(fileHash) && Comparable(e, employeeId, currentExpenseId)
  }

  predicate DetailsMatch(e: Expense, billNumber: string, vendorName: string, billDate: Option<int>, employeeId: nat, currentExpenseId: Option<nat>)
  {
    e.billNumber == Some(billNumber) && e.vendorName == Some(vendorName) &&
    (billDate.Some? ==> e.expenseDate == billDate.value) &&
    Comparable(e, employeeId, currentExpenseId)
  }

  /** `check_duplicate_by_hash`: the first earlier claim with the same hash. */
  function CheckDuplicateByHash(prior: seq<Expense>, fileHash: string, employeeId: nat, currentExpenseId: Option<nat>): (found: Option<Expense>)
    ensures found.Some? ==>
              exists i :: 0 <= i < |prior| && prior[i] == found.value &&
                (forall j :: 0 <= j < i ==> !HashMatches(prior[j], fileHash, employeeId, currentExpenseId))
    ensures found.Some? ==> HashMatches(found.value, fileHash, employeeId, currentExpenseId)
    ensures found.None? <==> forall e :: e in prior ==> !HashMatches(e, fileHash, employeeId, currentExpenseId)
  {
    if |prior| == 0 then None
    else if HashMatches(prior[0], fileHash, employeeId, currentExpenseId) then Some(prior[0])
    else
      var rest := CheckDuplicateByHash(prior[1..], fileHash, employeeId, currentExpenseId);
      assert forall e :: e in prior ==> e == prior[0] || e in prior[1..];
      if rest.Some? then
        ghost var i :| 0 <= i < |prior[1..]| && prior[1..][i] == rest.value &&
          (forall j :: 0 <= j < i ==> !HashMatches(prior[1..][j], fileHash, employeeId, currentExpenseId));
        assert prior[i + 1] == rest.value;
        rest
      else
        rest
  }

  /** `check_duplicate_by_bill_details`: no check at all without a bill number
      and a vendor; otherwise the first earlier claim with the same bill
      number and vendor, and the same date when a date was read. */
  function CheckDuplicateByBillDetails(prior: seq<Expense>, billNumber: Option<string>, vendorName: Option<string>,
                                       billDate: Option<int>, employeeId: nat, currentExpenseId: Option<nat>): (found: Option<Expense>)
    ensures billNumber.None? || billNumber == Some("") || vendorName.None? || vendorName == Some("") ==> found.None?
    ensures found.Some? ==> (billNumber.Some? && vendorName.Some? &&
      DetailsMatch(found.value, billNumber.value, vendorName.value, billDate, employeeId, currentExpenseId) &&
      exists i :: 0 <= i < |prior| && prior[i] == found.value &&
        (forall j :: 0 <= j < i ==> !DetailsMatch(prior[j], billNumber.value, vendorName.value, billDate, employeeId, currentExpenseId)))
    ensures found.None? && billNumber.Some? && billNumber.value != "" && vendorName.Some? && vendorName.value != "" ==>
      forall e :: e in prior ==> !DetailsMatch(e, billNumber.value, vendorName.value, billDate, employeeId, currentExpenseId)
  {
    if billNumber.None? || billNumber.value == "" || vendorName.None? || vendorName.value == "" then None
    else FirstDetailsMatch(prior, billNumber.value, vendorName.value, billDate, employeeId, currentExpenseId)
  }

  function FirstDetailsMatch(prior: seq<Expense>, billNumber: string, vendorName: string, billDate: Option<int>,
                             employeeId: nat, currentExpenseId: Option<nat>): (found: Option<Expense>)
    ensures found.Some? ==> DetailsMatch(found.value, billNumber, vendorName, billDate, employeeId, currentExpenseId)
    ensures found.Some? ==>
              exists i :: 0 <= i < |prior| && prior[i] == found.value &&
                (forall j :: 0 <= j < i ==> !DetailsMatch(prior[j], billNumber, vendorName, billDate, employeeId, currentExpenseId))
    ensures found.None? <==> forall e :: e in prior ==> !DetailsMatch(e, billNumber, vendorName, billDate, employeeId, currentExpenseId)
  {
    if |prior| == 0 then None
    else if DetailsMatch(prior[0], billNumber, vendorName, billDate, employeeId, currentExpenseId) then Some(prior[0])
    else
      var rest := FirstDetailsMatch(prior[1..], billNumber, vendorName, billDate, employeeId, currentExpenseId);
      assert forall e :: e in prior ==> e == prior[0] || e in prior[1..];
      if rest.Some? then
        ghost var i :| 0 <= i < |prior[1..]| && prior[1..][i] == rest.value &&
          (forall j :: 0 <= j < i ==> !DetailsMatch(prior[1..][j], billNumber, vendorName, billDate, employeeId, currentExpenseId));
        assert prior[i + 1] == rest.value;
        rest
      else
        rest
  }

  /** The verdict with nothing found. */
  function NoDuplicate(fileHash: Option<string>): DuplicateVerdict
  {
    DuplicateVerdict(false, None, None, fileHash, false)
  }

  /** `perform_full_check`: hash first; only when the hash finds nothing are
      the bill details compared. A file that could not be hashed is never a
      duplicate and nothing is looked up. */
  function PerformFullCheck(prior: seq<Expense>, fileHash: Option<string>, billNumber: Option<string>, vendorName: Option<string>,
                            billDate: Option<int>, employeeId: nat, currentExpenseId: Option<nat>): (v: DuplicateVerdict)
    ensures v.fileHash == fileHash
    ensures fileHash.None? || fileHash == Some("") ==> v == NoDuplicate(fileHash)
    ensures v.isDuplicate <==> v.original.Some?
    ensures v.isDuplicate <==> v.duplicateType.Some?
    ensures v.shouldBlock <==> v.duplicateType == Some(FileHash)
    ensures v.duplicateType == Some(FileHash) <==>
      fileHash.Some? && fileHash.value != "" && CheckDuplicateByHash(prior, fileHash.value, employeeId, currentExpenseId).Some?
    ensures v.duplicateType == Some(FileHash) ==> v.original == CheckDuplicateByHash(prior, fileHash.value, employeeId, currentExpenseId)
    ensures v.duplicateType == Some(BillDetails) ==>
      v.original == CheckDuplicateByBillDetails(prior, billNumber, vendorName, billDate, employeeId, currentExpenseId)
    ensures v.original.Some? ==> v.original.value in prior && Comparable(v.original.value, employeeId, currentExpenseId)
  {
    if fileHash.None? || fileHash.value == "" then NoDuplicate(fileHash)
    else
      match CheckDuplicateByHash(prior, fileHash.value, employeeId, currentExpenseId)
      case Some(original) => DuplicateVerdict(true, Some(FileHash), Some(original), fileHash, true)
      case None =>
        match CheckDuplicateByBillDetails(prior, billNumber, vendorName, billDate, employeeId, currentExpenseId)
        case Some(original) => DuplicateVerdict(true, Some(BillDetails), Some(original), fileHash, false)
        case None => NoDuplicate(fileHash)
  }

  /** A claim that matches an earlier claim by hash and another by bill
      details is reported, and blocked, as a file-hash duplicate only. */
  lemma ExactMatchWins(prior: seq<Expense>, fileHash: string, billNumber: string, vendorName: string, billDate: Option<int>,
                       employeeId: nat, currentExpenseId: Option<nat>, byHash: Expense)
    requires fileHash != ""
    requires byHash in prior && HashMatches(byHash, fileHash, employeeId, currentExpenseId)
    ensures var v := PerformFullCheck(prior, Some(fileHash), Some(billNumber), Some(vendorName), billDate, employeeId, currentExpenseId);
            v.duplicateType == Some(FileHash) && v.shouldBlock
  {
  }

  /** A claim the checks may not compare against (another employee's, one in
      any status but submitted or approved, or the claim being edited) changes
      no verdict, wherever it sits among the earlier claims. */
  lemma {:induction false} IncomparableClaimIgnored(before: seq<Expense>, e: Expense, after: seq<Expense>,
                                                    fileHash: Option<string>, billNumber: Option<string>, vendorName: Option<string>,
                                                    billDate: Option<int>, employeeId: nat, currentExpenseId: Option<nat>)
    requires !Comparable(e, employeeId, currentExpenseId)
    ensures PerformFullCheck(before + [e] + after, fileHash, billNumber, vendorName, billDate, employeeId, currentExpenseId)
         == PerformFullCheck(before + after, fileHash, billNumber, vendorName, billDate, employeeId, currentExpenseId)
  {
    if fileHash.Some? && fileHash.value != "" {
      HashSkips(before, e, after, fileHash.value, employeeId, currentExpenseId);
    }
    assert CheckDuplicateByBillDetails(before + [e] + after, billNumber, vendorName, billDate, employeeId, currentExpenseId)
        == CheckDuplicateByBillDetails(before + after, billNumber, vendorName, billDate, employeeId, currentExpenseId) by {
      if billNumber.Some? && vendorName.Some? {
        DetailsSkip(before, e, after, billNumber.value, vendorName.value, billDate, employeeId, currentExpenseId);
      }
    }
  }

  lemma {:induction false} HashSkips(before: seq<Expense>, e: Expense, after: seq<Expense>, fileHash: string, employeeId: nat, currentExpenseId: Option<nat>)
    requires !HashMatches(e, fileHash, employeeId, currentExpenseId)
    ensures CheckDuplicateByHash(before + [e] + after, fileHash, employeeId, currentExpenseId)
         == CheckDuplicateByHash(before + after, fileHash, employeeId, currentExpenseId)
    decreases |before|
  {
    if |before| == 0 {
      assert before + [e] + after == [e] + after;
      assert ([e] + after)[1..] == after;
      assert before + after == after;
    } else {
      assert (before + [e] + after)[1..] == before[1..] + [e] + after;
      assert (before + after)[1..] == before[1..] + after;
      HashSkips(before[1..], e, after, fileHash, employeeId, currentExpenseId);
    }
  }

  lemma {:induction false} DetailsSkip(before: seq<Expense>, e: Expense, after: seq<Expense>, billNumber: string, vendorName: string,
                                       billDate: Option<int>, employeeId: nat, currentExpenseId: Option<nat>)
    requires !DetailsMatch(e, billNumber, vendorName, billDate, employeeId, currentExpenseId)
    ensures FirstDetailsMatch(before + [e] + after, billNumber, vendorName, billDate, employeeId, currentExpenseId)
         == FirstDetailsMatch(before + after, billNumber, vendorName, billDate, employeeId, currentExpenseId)
    decreases |before|
  {
    if |before| == 0 {
      assert before + [e] + after == [e] + after;
      assert ([e] + after)[1..] == after;
      assert before + after == after;
    } else {
      assert (before + [e] + after)[1..] == before[1..] + [e] + after;
      assert (before + after)[1..] == before[1..] + after;
      DetailsSkip(before[1..], e, after, billNumber, vendorName, billDate, employeeId, currentExpenseId);
    }
  }
}
