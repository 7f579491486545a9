/**
 * One upload batch as values: the bulk switch to `Uploading`, the per-file
 * status updates keyed by id, the fold of those updates over the batch, and
 * the list of stored paths handed to the completion callback.
 */
module Batch {
  import opened Wrappers
  import opened Staging

  /** Every entry switches to `Uploading`; nothing else about it changes. */
  function AllUploading(files: seq<Entry>): (r: seq<Entry>)
    ensures |r| == |files|
    ensures forall i :: 0 <= i < |r| ==>
              r[i].status == Uploading && r[i].(status := files[i].status) == files[i]
  {
    seq(|files|, i requires 0 <= i < |files| => files[i].(status := Uploading))
  }

  /** Entries carrying `id` become `Success` at 100; all others are untouched. */
  function MarkSuccess(files: seq<Entry>, id: string): (r: seq<Entry>)
    ensures |r| == |files|
  {
    seq(|files|, i requires 0 <= i < |files| =>
      if files[i].id == id then files[i].(status := Success, progress := 100) else files[i])
  }

  /**
   * After a successful upload of the file with `id`, entry `i` is `Success` at
   * 100 if it carries `id` (its other fields kept), and untouched otherwise.
   */
  lemma MarkSuccessAt(files: seq<Entry>, id: string, i: nat)
    requires i < |files|
    ensures var r := MarkSuccess(files, id);
              r[i].(status := files[i].status, progress := files[i].progress) == files[i] &&
              if files[i].id == id then r[i].status == Success && r[i].progress == 100
              else r[i] == files[i]
  {
  }

  /** Entries carrying `id` become `Error` and keep their progress; all others are untouched. */
  function MarkError(files: seq<Entry>, id: string): (r: seq<Entry>)
    ensures |r| == |files|
  {
    seq(|files|, i requires 0 <= i < |files| =>
      if files[i].id == id then files[i].(status := Error) else files[i])
  }

  /**
   * After a failed upload of the file with `id`, entry `i` is `Error` with its
   * other fields, progress included, kept if it carries `id`, and untouched otherwise.
   */
  lemma MarkErrorAt(files: seq<Entry>, id: string, i: nat)
    requires i < |files|
    ensures var r := MarkError(files, id);
              r[i].(status := files[i].status) == files[i] &&
              if files[i].id == id then r[i].status == Error else r[i] == files[i]
  {
  }

  /** The list update made when the upload of `file` ends with `outcome`. */
  function Settle(files: seq<Entry>, file: Entry, outcome: Option<string>): (r: seq<Entry>)
    ensures |r| == |files|
  {
    if outcome.Some? then MarkSuccess(files, file.id) else MarkError(files, file.id)
  }

  /**
   * After the upload of `file` ends, entry `i` is `Success` at 100 if it carries
   * the file's id and the upload stored a path, `Error` with its progress kept if
   * it carries the id and the upload failed, and untouched otherwise; its id,
   * file and folder are always kept.
   */
  lemma SettleAt(files: seq<Entry>, file: Entry, outcome: Option<string>, i: nat)
    requires i < |files|
    ensures var r := Settle(files, file, outcome);
              r[i].(status := files[i].status, progress := files[i].progress) == files[i] &&
              if files[i].id != file.id then r[i] == files[i]
              else if outcome.Some? then r[i].status == Success && r[i].progress == 100
              else r[i].status == Error && r[i].progress == files[i].progress
  {
    if outcome.Some? {
      MarkSuccessAt(files, file.id, i);
    } else {
      MarkErrorAt(files, file.id, i);
    }
  }

  /** The list after the first `k` files of `batch` have been settled, starting from `start`. */
  function Settled(start: seq<Entry>, batch: seq<Entry>, outcomes: seq<Option<string>>, k: nat): (r: seq<Entry>)
    requires |outcomes| == |batch| && k <= |batch|
    ensures |r| == |start|
  {
    if k == 0 then start
    else Settle(Settled(start, batch, outcomes, k - 1), batch[k - 1], outcomes[k - 1])
  }

  /** The whole batch as the component runs it over its current list `files`. */
  function RunBatch(files: seq<Entry>, outcomes: seq<Option<string>>): (r: seq<Entry>)
    requires |outcomes| == |files|
    ensures |r| == |files|
  {
    Settled(AllUploading(files), files, outcomes, |files|)
  }

  /**
   * Reference definition of an entry's status: the outcome of the last of the
   * first `k` files that carries `id`, or `initial` when none does.
   */
  function StatusAfter(batch: seq<Entry>, outcomes: seq<Option<string>>, id: string, k: nat, initial: Status): Status
    requires |outcomes| == |batch| && k <= |batch|
  {
    if k == 0 then initial
    else if batch[k - 1].id == id then (if outcomes[k - 1].Some? then Success else Error)
    else StatusAfter(batch, outcomes, id, k - 1, initial)
  }

  /** Reference definition of an entry's progress: 100 once a file with its id has succeeded. */
  function ProgressAfter(batch: seq<Entry>, outcomes: seq<Option<string>>, id: string, k: nat, initial: nat): nat
    requires |outcomes| == |batch| && k <= |batch|
  {
    if k == 0 then initial
    else if batch[k - 1].id == id && outcomes[k - 1].Some? then 100
    else ProgressAfter(batch, outcomes, id, k - 1, initial)
  }

  /** The fold agrees entry by entry with the reference definitions. */
  lemma {:induction false} SettledEntry(start: seq<Entry>, batch: seq<Entry>, outcomes: seq<Option<string>>, k: nat, i: nat)
    requires |outcomes| == |batch| && k <= |batch| && i < |start|
    ensures Settled(start, batch, outcomes, k)[i] ==
            start[i].(status := StatusAfter(batch, outcomes, start[i].id, k, start[i].status),
                      progress := ProgressAfter(batch, outcomes, start[i].id, k, start[i].progress))
  {
    if k > 0 {
      SettledEntry(start, batch, outcomes, k - 1, i);
      SettleAt(Settled(start, batch, outcomes, k - 1), batch[k - 1], outcomes[k - 1], i);
    }
  }

  /** Once a file with `id` has been settled, the status for `id` is terminal. */
  lemma {:induction false} StatusAfterTerminal(batch: seq<Entry>, outcomes: seq<Option<string>>, id: string, k: nat, initial: Status, j: nat)
    requires |outcomes| == |batch| && j < k <= |batch| && batch[j].id == id
    ensures Terminal(StatusAfter(batch, outcomes, id, k, initial))
  {
    if batch[k - 1].id != id {
      StatusAfterTerminal(batch, outcomes, id, k - 1, initial, j);
    }
  }

  /** Before any file carrying `id` is settled, the entry keeps its status and progress. */
  lemma {:induction false} UntouchedBefore(batch: seq<Entry>, outcomes: seq<Option<string>>, id: string, k: nat, s: Status, p: nat)
    requires |outcomes| == |batch| && k <= |batch|
    requires forall j :: 0 <= j < k ==> batch[j].id != id
    ensures StatusAfter(batch, outcomes, id, k, s) == s
    ensures ProgressAfter(batch, outcomes, id, k, p) == p
  {
    if k > 0 {
      UntouchedBefore(batch, outcomes, id, k - 1, s, p);
    }
  }

  /** No two entries share an id. */
  predicate UniqueIds(files: seq<Entry>) {
    forall i, j :: 0 <= i < j < |files| ==> files[i].id != files[j].id
  }

  /** With unique ids, the status and progress for file `i` are fixed by its own outcome. */
  lemma {:induction false} OwnOutcome(batch: seq<Entry>, outcomes: seq<Option<string>>, i: nat, k: nat, s: Status, p: nat)
    requires |outcomes| == |batch| && i < k <= |batch| && UniqueIds(batch)
    ensures StatusAfter(batch, outcomes, batch[i].id, k, s) == (if outcomes[i].Some? then Success else Error)
    ensures ProgressAfter(batch, outcomes, batch[i].id, k, p) == (if outcomes[i].Some? then 100 else p)
  {
    if k == i + 1 {
      UntouchedBefore(batch, outcomes, batch[i].id, i, s, p);
    } else {
      OwnOutcome(batch, outcomes, i, k - 1, s, p);
    }
  }

  /**
   * A finished batch leaves no entry of the list it started from pending or
   * uploading, and keeps every entry's id, file and folder.
   */
  lemma BatchTerminal(files: seq<Entry>, outcomes: seq<Option<string>>)
    requires |outcomes| == |files|
    ensures |RunBatch(files, outcomes)| == |files|
    ensures forall i :: 0 <= i < |files| ==>
              var e := RunBatch(files, outcomes)[i];
              Terminal(e.status) && e.id == files[i].id && e.name == files[i].name && e.folder == files[i].folder
  {
    var start := AllUploading(files);
    forall i | 0 <= i < |files|
      ensures var e := RunBatch(files, outcomes)[i];
              Terminal(e.status) && e.id == files[i].id && e.name == files[i].name && e.folder == files[i].folder
    {
      SettledEntry(start, files, outcomes, |files|, i);
      StatusAfterTerminal(files, outcomes, files[i].id, |files|, start[i].status, i);
    }
  }

  /**
   * With unique ids, each entry ends as its own upload ended: `Success` with
   * progress 100, or `Error` with its progress unchanged; its id, file and
   * folder are kept.
   */
  lemma BatchOwnOutcome(files: seq<Entry>, outcomes: seq<Option<string>>)
    requires |outcomes| == |files| && UniqueIds(files)
    ensures |RunBatch(files, outcomes)| == |files|
    ensures forall i :: 0 <= i < |files| ==>
              RunBatch(files, outcomes)[i] ==
              if outcomes[i].Some? then files[i].(status := Success, progress := 100)
              else files[i].(status := Error)
  {
    var start := AllUploading(files);
    forall i | 0 <= i < |files|
      ensures RunBatch(files, outcomes)[i] ==
              if outcomes[i].Some? then files[i].(status := Success, progress := 100)
              else files[i].(status := Error)
    {
      SettledEntry(start, files, outcomes, |files|, i);
      OwnOutcome(files, outcomes, i, |files|, start[i].status, start[i].progress);
    }
  }

  /** The stored paths of the successful uploads, in submission order. */
  function SuccessPaths(outcomes: seq<Option<string>>): (r: seq<string>)
    ensures |r| <= |outcomes|
  {
    if outcomes == [] then []
    else
      var last := outcomes[|outcomes| - 1];
      SuccessPaths(outcomes[..|outcomes| - 1]) + (if last.Some? then [last.value] else [])
  }

  /** A path is handed over exactly when some upload succeeded with it. */
  lemma {:induction false} SuccessPathsMembers(outcomes: seq<Option<string>>)
    ensures forall p :: p in SuccessPaths(outcomes) <==> exists i :: 0 <= i < |outcomes| && outcomes[i] == Some(p)
  {
    if outcomes != [] {
      var before := outcomes[..|outcomes| - 1];
      SuccessPathsMembers(before);
      assert forall i :: 0 <= i < |before| ==> before[i] == outcomes[i];
    }
  }

  /** Paths are collected in order: the list for a concatenation is the concatenation of the lists. */
  lemma {:induction false} SuccessPathsConcat(a: seq<Option<string>>, b: seq<Option<string>>)
    ensures SuccessPaths(a + b) == SuccessPaths(a) + SuccessPaths(b)
  {
    if b == [] {
      assert a + b == a;
    } else {
      var b' := b[..|b| - 1];
      assert (a + b)[..|a + b| - 1] == a + b';
      SuccessPathsConcat(a, b');
    }
  }

  /** Settling one more file extends the path list by that file's path, if it has one. */
  lemma SuccessPathsStep(outcomes: seq<Option<string>>, i: nat)
    requires i < |outcomes|
    ensures SuccessPaths(outcomes[..i + 1]) ==
            SuccessPaths(outcomes[..i]) + (if outcomes[i].Some? then [outcomes[i].value] else [])
  {
    assert outcomes[..i + 1][..i] == outcomes[..i];
  }

  /** Every upload succeeding hands over every path; every upload failing hands over none. */
  lemma {:induction false} SuccessPathsAllOrNone(outcomes: seq<Option<string>>)
    ensures (forall i :: 0 <= i < |outcomes| ==> outcomes[i].None?) ==> SuccessPaths(outcomes) == []
    ensures (forall i :: 0 <= i < |outcomes| ==> outcomes[i].Some?) ==> |SuccessPaths(outcomes)| == |outcomes|
  {
    if outcomes != [] {
      SuccessPathsAllOrNone(outcomes[..|outcomes| - 1]);
    }
  }
}
