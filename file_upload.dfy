/** The upload queue of components/file-upload.tsx: an ordered list of
    upload items and a busy flag, filled by `addFiles`, trimmed by
    `removeFile` and driven by `handleUpload`, a sequential pass that
    uploads every pending item in index order. The upload call itself is an
    oracle: a sequence of outcomes, the k-th for the k-th call. */
module FileUpload {
  import opened Strings
  import Format

  datatype Option<T> = None | Some(value: T)

  /** `MAX_FILE_SIZE`: 50 MiB. */
  const MaxFileSize: nat := 50 * 1024 * 1024

  /** What `validateFile` reports for an oversized file: "Макс. " followed by
      the size humanizer's rendering of MAX_FILE_SIZE, "50 МБ". */
  const OversizeMessage: string := "Макс. 50 МБ"

  /** The message recorded when the upload throws something that is not an `Error`. */
  const GenericFailure: string := "Ошибка"

  /** The fields of a browser `File` the queue reads. */
  datatype File = File(name: string, size: nat, mimeType: string)

  datatype Status = Pending | Uploading | Done | Error

  /** `UploadingFile`: one row of the queue. */
  datatype UploadingFile = UploadingFile(file: File, progress: int, status: Status, error: Option<string>)

  /** What an upload call throws: an `Error` object with its message, or any other value. */
  datatype Thrown = ErrorObject(message: string) | OtherValue

  /** How one upload call ends. */
  datatype UploadOutcome = Succeeded | Failed(thrown: Thrown)

  /** The local `getFileIcon` of the queue rows: four icons by MIME prefix. */
  function QueueIcon(mimeType: string): (icon: string)
    ensures icon == "IconPhoto" <==> Format.GetFileIcon(mimeType) == "image"
    ensures icon == "IconVideo" <==> Format.GetFileIcon(mimeType) == "video"
    ensures icon == "IconMusic" <==> Format.GetFileIcon(mimeType) == "audio"
    ensures icon == "IconFile" <==> !Format.MediaPrefix(mimeType)
  {
    if StartsWith(mimeType, "image/") then "IconPhoto"
    else if StartsWith(mimeType, "video/") then "IconVideo"
    else if StartsWith(mimeType, "audio/") then "IconMusic"
    else "IconFile"
  }

  /** `validateFile`: a message exactly for files over the ceiling. */
  function ValidateFile(file: File): (message: Option<string>)
    ensures message.Some? <==> file.size > 52428800
    ensures message.Some? ==> message.value == OversizeMessage
  {
    if file.size > MaxFileSize then Some(OversizeMessage) else None
  }

  /** The item `addFiles` makes of one selected file; a non-empty message
      makes it an error, as the string's truthiness does in the source. */
  function NewItem(file: File): (item: UploadingFile)
    ensures item.file == file && item.progress == 0
    ensures item.error == ValidateFile(file)
    ensures item.status == Error <==> file.size > MaxFileSize
    ensures item.status == Pending <==> file.size <= MaxFileSize
    ensures Resting(item)
  {
    var error := ValidateFile(file);
    UploadingFile(file, 0, if error.Some? && error.value != "" then Error else Pending, error)
  }

  /** The items `addFiles` appends for a selection, one per file in order. */
  function Enqueued(files: seq<File>): (items: seq<UploadingFile>)
    ensures |items| == |files|
    ensures forall j :: 0 <= j < |files| ==> items[j].file == files[j] && items[j].progress == 0
    ensures forall j :: 0 <= j < |files| ==>
              (items[j].status == Error <==> files[j].size > MaxFileSize)
              && (items[j].status == Pending <==> files[j].size <= MaxFileSize)
    ensures forall j :: 0 <= j < |files| ==>
              (items[j].status == Error ==> items[j].error == Some(OversizeMessage))
              && (items[j].status == Pending ==> items[j].error == None)
  {
    seq(|files|, j requires 0 <= j < |files| => NewItem(files[j]))
  }

  /** `prev.filter((_, i) => i !== index)`: drop the item at position index. */
  function WithoutIndex<T>(items: seq<T>, index: int): (r: seq<T>)
    ensures 0 <= index < |items| ==> r == items[..index] + items[index + 1..]
    ensures !(0 <= index < |items|) ==> r == items
    decreases |items|
  {
    if items == [] then []
    else (if index == 0 then [] else [items[0]]) + WithoutIndex(items[1..], index - 1)
  }

  /** The shape of every item between two upload passes: pending without a
      message, or failed with one, and no progress either way. */
  predicate Resting(item: UploadingFile) {
    item.progress == 0
    && ((item.status == Pending && item.error == None) || (item.status == Error && item.error.Some?))
  }

  predicate AllResting(items: seq<UploadingFile>) {
    forall j :: 0 <= j < |items| ==> Resting(items[j])
  }

  /** The number of items among the first n with the given status. */
  function CountBefore(items: seq<UploadingFile>, n: nat, status: Status): (c: nat)
    requires n <= |items|
    ensures c <= n
  {
    if n == 0 then 0
    else CountBefore(items, n - 1, status) + (if items[n - 1].status == status then 1 else 0)
  }

  /** The number of items with the given status. */
  function CountStatus(items: seq<UploadingFile>, status: Status): nat {
    CountBefore(items, |items|, status)
  }

  /** `files.filter((f) => f.status === 'pending').length`, both the guard of
      `handleUpload` and `pendingCount`. */
  function PendingCount(items: seq<UploadingFile>): (c: nat)
    ensures c <= |items|
    ensures c == 0 <==> forall j :: 0 <= j < |items| ==> items[j].status != Pending
  {
    CountZeroIff(items, |items|, Pending);
    CountStatus(items, Pending)
  }

  /** The files of the pending items among the first n, in index order. */
  function PendingFilesBefore(items: seq<UploadingFile>, n: nat): (files: seq<File>)
    requires n <= |items|
    ensures |files| == CountBefore(items, n, Pending)
  {
    if n == 0 then []
    else PendingFilesBefore(items, n - 1) + (if items[n - 1].status == Pending then [items[n - 1].file] else [])
  }

  /** The files of the pending items, in index order. */
  function PendingFiles(items: seq<UploadingFile>): seq<File> {
    PendingFilesBefore(items, |items|)
  }

  /** The number of successes among the first n outcomes. */
  function Successes(outcomes: seq<UploadOutcome>, n: nat): (c: nat)
    requires n <= |outcomes|
    ensures c <= n
  {
    if n == 0 then 0
    else Successes(outcomes, n - 1) + (if outcomes[n - 1].Succeeded? then 1 else 0)
  }

  /** `error instanceof Error ? error.message : 'Ошибка'`. */
  function FailureMessage(thrown: Thrown): (message: string)
    ensures thrown.ErrorObject? ==> message == thrown.message
    ensures thrown.OtherValue? ==> message == GenericFailure
    ensures message == GenericFailure <==> thrown.OtherValue? || thrown.message == GenericFailure
  {
    match thrown
    case ErrorObject(message) => message
    case OtherValue => GenericFailure
  }

  /** The state an attempted item ends in: done at full progress exactly
      when its call succeeded, failed with no progress and the thrown message
      exactly when it threw; the file is kept, and the rewrite from the
      started item is a legal transition. */
  function Attempted(item: UploadingFile, outcome: UploadOutcome): (r: UploadingFile)
    ensures r.file == item.file
    ensures r.status == Done <==> outcome.Succeeded?
    ensures r.status == Error <==> outcome.Failed?
    ensures r.progress == if outcome.Succeeded? then 100 else 0
    ensures outcome.Succeeded? ==> r.error == item.error
    ensures outcome.Failed? ==> r.error == Some(FailureMessage(outcome.thrown))
    ensures Transition(Started(item), r)
  {
    match outcome
    case Succeeded => item.(status := Done, progress := 100)
    case Failed(thrown) => item.(status := Error, progress := 0, error := Some(FailureMessage(thrown)))
  }

  /** Item j at the end of one pass, before any clearing: the calls are
      made in index order, so a pending item gets the outcome numbered by
      the pending items before it; every other item is left as it was. */
  function SettledAt(items: seq<UploadingFile>, outcomes: seq<UploadOutcome>, j: int): UploadingFile
    requires 0 <= j < |items| && PendingCount(items) <= |outcomes|
  {
    CountMono(items, j + 1, |items|, Pending);
    if items[j].status == Pending then Attempted(items[j], outcomes[CountBefore(items, j, Pending)])
    else items[j]
  }

  /** The list at the end of one pass, before any clearing. */
  function Settled(items: seq<UploadingFile>, outcomes: seq<UploadOutcome>): (r: seq<UploadingFile>)
    requires PendingCount(items) <= |outcomes|
    ensures |r| == |items|
  {
    seq(|items|, j requires 0 <= j < |items| => SettledAt(items, outcomes, j))
  }

  /** `{ ...f, status: 'uploading', progress: 50 }`: an item whose call is under way. */
  function Started(item: UploadingFile): (r: UploadingFile)
    ensures r.file == item.file && r.error == item.error
    ensures r.status == Uploading && r.progress == 50
    ensures Transition(item, r) <==> item.status == Pending
  {
    item.(status := Uploading, progress := 50)
  }

  /** One rewrite of the row at `index` during a pass. */
  datatype Move = Move(index: int, before: UploadingFile, after: UploadingFile)

  /** The status changes a pass may make to an item. */
  predicate Transition(before: UploadingFile, after: UploadingFile) {
    before.file == after.file
    && ((before.status == Pending && after.status == Uploading && after.progress == 50
         && after.error == before.error)
        || (before.status == Uploading && after.status == Done && after.progress == 100
            && after.error == before.error)
        || (before.status == Uploading && after.status == Error && after.progress == 0 && after.error.Some?))
  }

  /** The rewrites a pass makes while visiting the first n items: two for
      each pending item, none for the others. */
  function PassMoves(items: seq<UploadingFile>, outcomes: seq<UploadOutcome>, n: nat): (moves: seq<Move>)
    requires n <= |items| && PendingCount(items) <= |outcomes|
    ensures |moves| == 2 * CountBefore(items, n, Pending)
  {
    if n == 0 then []
    else
      CountMono(items, n, |items|, Pending);
      var item := items[n - 1];
      PassMoves(items, outcomes, n - 1)
      + if item.status == Pending then
          [Move(n - 1, item, Started(item)),
           Move(n - 1, Started(item), Attempted(item, outcomes[CountBefore(items, n - 1, Pending)]))]
        else []
  }

  /** Every rewrite of a pass is a legal transition of an item that was
      pending, and the rows are visited in index order. */
  lemma {:induction false} PassMovesLegal(items: seq<UploadingFile>, outcomes: seq<UploadOutcome>, n: nat)
    requires n <= |items| && PendingCount(items) <= |outcomes|
    ensures forall t :: 0 <= t < |PassMoves(items, outcomes, n)| ==>
              0 <= PassMoves(items, outcomes, n)[t].index < n
              && items[PassMoves(items, outcomes, n)[t].index].status == Pending
              && Transition(PassMoves(items, outcomes, n)[t].before, PassMoves(items, outcomes, n)[t].after)
    ensures forall t, u :: 0 <= t < u < |PassMoves(items, outcomes, n)| ==>
              PassMoves(items, outcomes, n)[t].index <= PassMoves(items, outcomes, n)[u].index
    decreases n
  {
    if n > 0 {
      PassMovesLegal(items, outcomes, n - 1);
    }
  }

  lemma AppendAssoc<T>(a: seq<T>, b: seq<T>, c: seq<T>)
    ensures (a + b) + c == a + (b + c)
  {
  }

  /** Counting over a longer prefix never gives less. */
  lemma {:induction false} CountMono(items: seq<UploadingFile>, m: nat, n: nat, status: Status)
    requires m <= n <= |items|
    ensures CountBefore(items, m, status) <= CountBefore(items, n, status)
    decreases n
  {
    if m < n {
      CountMono(items, m, n - 1, status);
    }
  }

  /** No item of a status among the first n exactly when the count is zero. */
  lemma {:induction false} CountZeroIff(items: seq<UploadingFile>, n: nat, status: Status)
    requires n <= |items|
    ensures CountBefore(items, n, status) == 0 <==> forall j :: 0 <= j < n ==> items[j].status != status
    decreases n
  {
    if n > 0 {
      CountZeroIff(items, n - 1, status);
    }
  }

  /** The first n outcomes all succeeded exactly when they count n
      successes, and all failed exactly when they count none. */
  lemma {:induction false} SuccessesExtremes(outcomes: seq<UploadOutcome>, n: nat)
    requires n <= |outcomes|
    ensures Successes(outcomes, n) == n <==> forall k :: 0 <= k < n ==> outcomes[k].Succeeded?
    ensures Successes(outcomes, n) == 0 <==> forall k :: 0 <= k < n ==> outcomes[k].Failed?
    decreases n
  {
    if n > 0 {
      SuccessesExtremes(outcomes, n - 1);
    }
  }

  /** After a pass the items that are done are the ones done before plus one
      per successful call. */
  lemma {:induction false} SettledDoneCount(items: seq<UploadingFile>, outcomes: seq<UploadOutcome>, n: nat)
    requires n <= |items| && PendingCount(items) <= |outcomes|
    ensures CountBefore(items, n, Pending) <= PendingCount(items)
    ensures CountBefore(Settled(items, outcomes), n, Done)
            == CountBefore(items, n, Done) + Successes(outcomes, CountBefore(items, n, Pending))
    decreases n
  {
    if n > 0 {
      CountMono(items, n, |items|, Pending);
      SettledDoneCount(items, outcomes, n - 1);
    }
  }

  /** A pass in which no call succeeds leaves every item failed, each with a
      message, so the list is again at rest. */
  lemma ZeroSuccessesLeaveErrors(items: seq<UploadingFile>, outcomes: seq<UploadOutcome>)
    requires AllResting(items) && PendingCount(items) <= |outcomes|
    requires Successes(outcomes, PendingCount(items)) == 0
    ensures |Settled(items, outcomes)| == |items|
    ensures forall j :: 0 <= j < |items| ==> Settled(items, outcomes)[j].status == Error
    ensures AllResting(Settled(items, outcomes))
  {
    var settled := Settled(items, outcomes);
    SuccessesExtremes(outcomes, PendingCount(items));
    forall j | 0 <= j < |items|
      ensures settled[j].status == Error && Resting(settled[j])
    {
      CountMono(items, j + 1, |items|, Pending);
    }
  }

  /** When every call succeeds, every pending item ends done and the
      success count is the number of pending items. */
  lemma AllSucceed(items: seq<UploadingFile>, outcomes: seq<UploadOutcome>)
    requires PendingCount(items) <= |outcomes|
    requires forall k :: 0 <= k < PendingCount(items) ==> outcomes[k].Succeeded?
    ensures Successes(outcomes, PendingCount(items)) == PendingCount(items)
    ensures |Settled(items, outcomes)| == |items|
    ensures forall j :: 0 <= j < |items| && items[j].status == Pending ==>
              Settled(items, outcomes)[j].status == Done && Settled(items, outcomes)[j].progress == 100
  {
    SuccessesExtremes(outcomes, PendingCount(items));
    forall j | 0 <= j < |items| && items[j].status == Pending
      ensures Settled(items, outcomes)[j].status == Done && Settled(items, outcomes)[j].progress == 100
    {
      CountMono(items, j + 1, |items|, Pending);
    }
  }

  /** The queue of one mounted upload control. */
  class UploadQueue {
    /** `files`: the rows, in insertion order. */
    var files: seq<UploadingFile>
    /** `isUploading`: a pass is running. */
    var isUploading: bool
    /** The files handed to the upload call so far, in call order. */
    var uploadCalls: seq<File>
    /** How many times the cached media list was invalidated. */
    var invalidations: nat
    /** The row rewrites made by upload passes so far, oldest first. */
    ghost var moves: seq<Move>

    ghost predicate Valid()
      reads this
    {
      AllResting(files) && !isUploading
    }

    constructor ()
      ensures Valid()
      ensures files == [] && uploadCalls == [] && invalidations == 0 && moves == []
    {
      files := [];
      isUploading := false;
      uploadCalls := [];
      invalidations := 0;
      moves := [];
    }

    /** `addFiles`: append one new item per selected file. */
    method AddFiles(newFiles: seq<File>)
      requires Valid()
      modifies this
      ensures Valid()
      ensures files == old(files) + Enqueued(newFiles)
      ensures isUploading == old(isUploading) && uploadCalls == old(uploadCalls)
      ensures invalidations == old(invalidations) && moves == old(moves)
    {
      files := files + Enqueued(newFiles);
    }

    /** `removeFile`: drop the item at a position; other positions are a no-op. */
    method RemoveFile(index: int)
      requires Valid()
      modifies this
      ensures Valid()
      ensures files == WithoutIndex(old(files), index)
      ensures isUploading == old(isUploading) && uploadCalls == old(uploadCalls)
      ensures invalidations == old(invalidations) && moves == old(moves)
    {
      files := WithoutIndex(files, index);
    }

    /** One iteration of the pass over a pending item: mark it uploading at
        half progress, make the upload call, then record its outcome. */
    method Attempt(i: int, outcome: UploadOutcome) returns (succeeded: bool)
      requires 0 <= i < |files| && files[i].status == Pending
      modifies this
      ensures succeeded <==> outcome.Succeeded?
      ensures files == old(files)[i := Attempted(old(files)[i], outcome)]
      ensures uploadCalls == old(uploadCalls) + [old(files)[i].file]
      ensures moves == old(moves) + [Move(i, old(files)[i], Started(old(files)[i])),
                                     Move(i, Started(old(files)[i]), files[i])]
      ensures isUploading == old(isUploading) && invalidations == old(invalidations)
    {
      var item := files[i];
      files := files[i := files[i].(status := Uploading, progress := 50)];
      moves := moves + [Move(i, item, files[i])];
      uploadCalls := uploadCalls + [item.file];
      var started := files[i];
      match outcome {
        case Succeeded =>
          files := files[i := files[i].(status := Done, progress := 100)];
        case Failed(thrown) =>
          files := files[i := files[i].(status := Error, error := Some(FailureMessage(thrown)), progress := 0)];
      }
      moves := moves + [Move(i, started, files[i])];
      succeeded := outcome.Succeeded?;
    }

    /** The state of a pass over snapshot that has visited its first i
        positions: k calls made, each visited item settled, the rest as in
        the snapshot, and the calls and rewrites of those positions logged
        after calls0 and moves0. */
    ghost predicate Visited(snapshot: seq<UploadingFile>, outcomes: seq<UploadOutcome>, i: nat, k: nat,
                            successCount: nat, calls0: seq<File>, moves0: seq<Move>)
      reads this
    {
      i <= |snapshot| && PendingCount(snapshot) <= |outcomes| && |files| == |snapshot|
      && k == CountBefore(snapshot, i, Pending) && k <= PendingCount(snapshot)
      && (forall j :: 0 <= j < i ==> files[j] == SettledAt(snapshot, outcomes, j))
      && files[i..] == snapshot[i..]
      && successCount == Successes(outcomes, k)
      && uploadCalls == calls0 + PendingFilesBefore(snapshot, i)
      && moves == moves0 + PassMoves(snapshot, outcomes, i)
    }

    /** One iteration of the loop of `handleUpload`: skip position i unless
        its item was pending in the snapshot, otherwise attempt it with the
        next outcome and count a success. */
    method Visit(snapshot: seq<UploadingFile>, outcomes: seq<UploadOutcome>, i: nat, k: nat, successCount: nat,
                 ghost calls0: seq<File>, ghost moves0: seq<Move>)
      returns (k': nat, successCount': nat)
      requires i < |snapshot| && Visited(snapshot, outcomes, i, k, successCount, calls0, moves0)
      modifies this
      ensures Visited(snapshot, outcomes, i + 1, k', successCount', calls0, moves0)
      ensures isUploading == old(isUploading) && invalidations == old(invalidations)
    {
      CountMono(snapshot, i + 1, |snapshot|, Pending);
      assert files[i] == files[i..][0];
      k', successCount' := k, successCount;
      var item := snapshot[i];
      if item.status == Pending {
        var succeeded := Attempt(i, outcomes[k]);
        if succeeded {
          successCount' := successCount' + 1;
        }
        AppendAssoc(calls0, PendingFilesBefore(snapshot, i), [item.file]);
        AppendAssoc(moves0, PassMoves(snapshot, outcomes, i),
                    [Move(i, item, Started(item)), Move(i, Started(item), Attempted(item, outcomes[k]))]);
        k' := k' + 1;
      }
    }

    /** The loop of `handleUpload`: attempt every item pending in the list
        as it is at the call, in index order; outcomes[k] is how the k-th
        upload call ends. */
    method UploadEach(outcomes: seq<UploadOutcome>) returns (successCount: nat)
      requires PendingCount(files) <= |outcomes|
      modifies this
      ensures files == Settled(old(files), outcomes)
      ensures successCount == Successes(outcomes, PendingCount(old(files)))
      ensures uploadCalls == old(uploadCalls) + PendingFiles(old(files))
      ensures moves == old(moves) + PassMoves(old(files), outcomes, |old(files)|)
      ensures isUploading == old(isUploading) && invalidations == old(invalidations)
    {
      var snapshot := files;
      successCount := 0;
      var k := 0;
      var i := 0;
      while i < |snapshot|
        invariant Visited(snapshot, outcomes, i, k, successCount, old(uploadCalls), old(moves))
        invariant isUploading == old(isUploading) && invalidations == old(invalidations)
      {
        k, successCount := Visit(snapshot, outcomes, i, k, successCount, old(uploadCalls), old(moves));
        i := i + 1;
      }
      assert files == Settled(snapshot, outcomes);
    }

    /** `handleUpload`: nothing happens unless an item is pending; otherwise
        one uninterrupted pass between the busy flag's two changes, then one
        invalidation of the cached media list, then the list is cleared if
        any call succeeded. */
    method HandleUpload(outcomes: seq<UploadOutcome>) returns (successCount: nat)
      requires Valid()
      requires PendingCount(files) <= |outcomes|
      modifies this
      ensures Valid()
      ensures PendingCount(old(files)) == 0 ==>
                successCount == 0 && files == old(files) && uploadCalls == old(uploadCalls)
                && invalidations == old(invalidations) && moves == old(moves)
      ensures PendingCount(old(files)) > 0 ==>
                successCount == Successes(outcomes, PendingCount(old(files)))
                && uploadCalls == old(uploadCalls) + PendingFiles(old(files))
                && moves == old(moves) + PassMoves(old(files), outcomes, |old(files)|)
                && invalidations == old(invalidations) + 1
                && files == (if successCount > 0 then [] else Settled(old(files), outcomes))
    {
      if PendingCount(files) == 0 {
        return 0;
      }
      ghost var before := files;
      isUploading := true;
      successCount := UploadEach(outcomes);
      isUploading := false;
      invalidations := invalidations + 1;
      if successCount > 0 {
        files := [];
      } else {
        ZeroSuccessesLeaveErrors(before, outcomes);
      }
    }
  }
}
