// The extraction record (the `document_extractions` row), its status enum
// and the query scopes the model class offers.
module Records {
  import opened Php

  /** The lifecycle status of an extraction. */
  datatype Status = Pending | Completed | Failed

  /** The string the status is stored and exchanged as. */
  function StatusValue(s: Status): string {
    match s
    case Pending => "pending"
    case Completed => "completed"
    case Failed => "failed"
  }

  /** The enum case backed by a string, None for any other string. */
  function StatusFrom(v: string): Option<Status> {
    if v == "pending" then Some(Pending)
    else if v == "completed" then Some(Completed)
    else if v == "failed" then Some(Failed)
    else None
  }

  /** The wire string of a status reads back as that status, and a string
      that reads as a status is that status's wire string. */
  lemma StatusRoundTrip(s: Status, v: string)
    ensures StatusFrom(StatusValue(s)) == Some(s)
    ensures StatusFrom(v) == Some(s) ==> StatusValue(s) == v
  {
  }

  /** One extraction: the auto-assigned id and the eight writable columns. */
  datatype Record = Record(
    id: nat,
    documentType: string,
    filename: string,
    identifier: string,
    extractedData: map<string, Json>,
    metadata: map<string, string>,
    status: Status,
    errorMessage: Option<string>,
    externalTaskId: Option<string>)

  /** `->where(...)` with the predicate `p`: the rows of `s` that satisfy `p`, in table order. */
  function Where(s: seq<Record>, p: Record -> bool): (r: seq<Record>)
    ensures |r| <= |s|
    ensures forall x :: x in r <==> x in s && p(x)
    ensures multiset(r) <= multiset(s)
  {
    if s == [] then []
    else
      var rest := Where(s[..|s| - 1], p);
      assert s == s[..|s| - 1] + [s[|s| - 1]];
      if p(s[|s| - 1]) then rest + [s[|s| - 1]] else rest
  }

  /** `scopePending`. */
  function PendingOnly(s: seq<Record>): (r: seq<Record>)
    ensures forall x :: x in r <==> x in s && x.status == Pending
  {
    Where(s, (x: Record) => x.status == Pending)
  }

  /** `scopeCompleted`. */
  function CompletedOnly(s: seq<Record>): (r: seq<Record>)
    ensures forall x :: x in r <==> x in s && x.status == Completed
  {
    Where(s, (x: Record) => x.status == Completed)
  }

  /** `scopeFailed`. */
  function FailedOnly(s: seq<Record>): (r: seq<Record>)
    ensures forall x :: x in r <==> x in s && x.status == Failed
  {
    Where(s, (x: Record) => x.status == Failed)
  }

  /** `scopeForType`. */
  function ForType(s: seq<Record>, documentType: string): (r: seq<Record>)
    ensures forall x :: x in r <==> x in s && x.documentType == documentType
  {
    Where(s, (x: Record) => x.documentType == documentType)
  }

  /** `scopeForFile`. */
  function ForFile(s: seq<Record>, filename: string): (r: seq<Record>)
    ensures forall x :: x in r <==> x in s && x.filename == filename
  {
    Where(s, (x: Record) => x.filename == filename)
  }

  /** Filtering a table with one more row at the end. */
  lemma WhereSnoc(xs: seq<Record>, y: Record, p: Record -> bool)
    ensures Where(xs + [y], p) == Where(xs, p) + (if p(y) then [y] else [])
  {
    assert (xs + [y])[..|xs|] == xs;
  }

  /** `forType($t)->forFile($f)` keeps exactly the rows of that type and file, in table order. */
  lemma {:induction false} ForTypeThenForFile(s: seq<Record>, documentType: string, filename: string)
    ensures ForFile(ForType(s, documentType), filename) == Where(s, (x: Record) => x.documentType == documentType && x.filename == filename)
  {
    if s != [] {
      var init, last := s[..|s| - 1], s[|s| - 1];
      assert s == init + [last];
      ForTypeThenForFile(init, documentType, filename);
      if last.documentType == documentType {
        assert ForType(s, documentType) == ForType(init, documentType) + [last];
        WhereSnoc(ForType(init, documentType), last, (x: Record) => x.filename == filename);
      }
    }
  }

  /** `->latest()->first()` on rows listed in creation order: the most recently created row. */
  function Latest(s: seq<Record>): (r: Option<Record>)
    ensures r.None? <==> s == []
    ensures r.Some? ==> r.value == s[|s| - 1]
  {
    if s == [] then None else Some(s[|s| - 1])
  }

  predicate SameDocument(x: Record, documentType: string, filename: string) {
    x.documentType == documentType && x.filename == filename
  }

  /** The position of the most recently created row for (type, filename). */
  function LatestIndex(s: seq<Record>, documentType: string, filename: string): (k: Option<nat>)
    ensures k.Some? ==> k.value < |s| && SameDocument(s[k.value], documentType, filename)
    ensures k.Some? ==> forall j :: k.value < j < |s| ==> !SameDocument(s[j], documentType, filename)
    ensures k.None? ==> forall j :: 0 <= j < |s| ==> !SameDocument(s[j], documentType, filename)
  {
    if s == [] then None
    else if SameDocument(s[|s| - 1], documentType, filename) then Some(|s| - 1)
    else LatestIndex(s[..|s| - 1], documentType, filename)
  }

  /** The dedup query of `extractOrRetrieve`. */
  function Existing(s: seq<Record>, documentType: string, filename: string): Option<Record> {
    Latest(ForFile(ForType(s, documentType), filename))
  }

  lemma {:induction false} LatestWhereSameDocument(s: seq<Record>, documentType: string, filename: string)
    ensures Latest(Where(s, (x: Record) => x.documentType == documentType && x.filename == filename)) ==
            (match LatestIndex(s, documentType, filename) case Some(k) => Some(s[k]) case None => None)
  {
    if s != [] && !SameDocument(s[|s| - 1], documentType, filename) {
      LatestWhereSameDocument(s[..|s| - 1], documentType, filename);
    }
  }

  /** The dedup query finds the most recently created row with the same type
      and filename, and nothing when there is none. */
  lemma ExistingIsLatestMatch(s: seq<Record>, documentType: string, filename: string)
    ensures Existing(s, documentType, filename).None? <==> forall j :: 0 <= j < |s| ==> !SameDocument(s[j], documentType, filename)
    ensures Existing(s, documentType, filename).Some? ==>
              exists k :: 0 <= k < |s| && Existing(s, documentType, filename).value == s[k] && SameDocument(s[k], documentType, filename) &&
                          forall j :: k < j < |s| ==> !SameDocument(s[j], documentType, filename)
  {
    ForTypeThenForFile(s, documentType, filename);
    LatestWhereSameDocument(s, documentType, filename);
  }

  /** `where('external_task_id', $taskId)->first()`: the position of the first
      row carrying that task id, in table order. */
  function FindByTaskId(s: seq<Record>, taskId: string): (k: Option<nat>)
    ensures k.Some? ==> k.value < |s| && s[k.value].externalTaskId == Some(taskId)
    ensures k.Some? ==> forall j :: 0 <= j < k.value ==> s[j].externalTaskId != Some(taskId)
    ensures k.None? ==> forall j :: 0 <= j < |s| ==> s[j].externalTaskId != Some(taskId)
  {
    if s == [] then None
    else if s[0].externalTaskId == Some(taskId) then Some(0)
    else match FindByTaskId(s[1..], taskId)
      case Some(k) => Some(k + 1)
      case None => None
  }
}
