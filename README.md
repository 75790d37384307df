# Media gallery client: upload queue, MIME classifiers and gallery grouping

This project models, in Dafny, the logic of a small web client for a media
store: the browser lists the media held by a server, shows pictures and
films grouped by day, shows other files as rows, and uploads new files
through a queue.

Five modules, one file each:

- `Strings` (`strings.dfy`): JavaScript's `startsWith` and `includes` over
  strings as sequences of characters, with lemmas that refute a prefix or a
  substring for concrete MIME types.
- `Format` (`format.dfy`): `getFileIcon` of `lib/format.ts`, an ordered chain
  of prefix and substring tests that maps a MIME type to one of eight labels.
  Its contract states, for each label, exactly which MIME types receive it.
  Because `includes('document')` is tested before `includes('sheet')`, the
  OOXML spreadsheet type
  `application/vnd.openxmlformats-officedocument.spreadsheetml.sheet` is
  labelled `doc`. `Format.OoxmlSheetIsDoc` proves this.
- `FileRow` (`file_row.dfy`): `getFileType`, `iconMap` and `colorMap` of
  `components/file-row.tsx`. The row's classifier has no image or video label,
  recognises PDF only by the exact type, and counts `text/plain` as a
  document. `FileRow.ClassifiersAgreeIff` characterises exactly where it
  agrees with `getFileIcon`.
- `FileUpload` (`file_upload.dfy`): the upload control of
  `components/file-upload.tsx`, as a class `UploadQueue`:
  - its fields are the rows, the busy flag, a log of upload calls, a count of
    cache invalidations, and a ghost log of row rewrites;
  - `addFiles` validates and appends;
  - `removeFile` drops a position;
  - `handleUpload` makes one sequential pass over the pending rows;
  - each upload call is an oracle: the k-th entry of a sequence of outcomes
    says how the k-th call ends;
  - the pass is proved against the specification function `Settled`, and the
    source's promises are lemmas about it: every row rewrite is a legal
    status transition, a pass with no success leaves every row failed with a
    message, and the done count grows by exactly the successes.
- `Gallery` (`gallery.dfy`): the page of `app/page.tsx`:
  - the loop that splits the media list into pictures and films on one side
    and other files on the other;
  - `groupByDate`, which buckets media under "Сегодня", "Вчера" or a
    day-month label;
  - the JavaScript record is a map plus the insertion order of its keys,
    which is the order `Object.entries` reports;
  - both loops are proved against an order-preserving filter, `Where`. Its
    own lemmas show that it keeps exactly the selected items, in input order,
    and that the two sides of a split together hold the input as a multiset.

Time and locale enter `Gallery` only through a `Calendar` value. It holds
today's day number, a function from a timestamp to its local calendar day,
and a function from a day to its "day month" label.

## Model

| member | source | states |
|---|---|---|
| Format.GetFileIcon | lib/format.ts:22-36 | the label is one of the eight; each prefix rule wins whatever follows; each substring label is given exactly when its test passes and no earlier test did; `file` exactly when no test passes |
| Format.OoxmlSheetIsDoc | lib/format.ts:26-28 | the OOXML spreadsheet type contains both "document" and "sheet" and no "pdf", and is labelled `doc` |
| Format.ApplicationPdfIsPdf | lib/format.ts:26 | `application/pdf` is labelled `pdf` |
| Format.ApplicationZipIsArchive | lib/format.ts:29-34 | `application/zip` passes no earlier test and is labelled `archive` |
| Format.UnknownTypeIsFile | lib/format.ts:35 | a type matching no test falls through to `file` |
| Format.TextPlainIsFile | lib/format.ts:22-35 | `text/plain` matches none of the tests and is labelled `file` |
| FileRow.GetFileType | components/file-row.tsx:44-62 | the type is a key of both tables; `audio` exactly for the audio prefix; `pdf` exactly for the exact PDF type; each later type exactly when its test passes and no earlier one did; `file` otherwise |
| FileRow.RowIcon | components/file-row.tsx:70 | the icon is `iconMap` at the row's type, and never empty, so the `IconFile` fallback never applies |
| FileRow.RowColor | components/file-row.tsx:71 | the colour is `colorMap` at the row's type, and never empty, so the `colorMap.file` fallback never applies |
| FileRow.ImageAndVideoAreFiles | components/file-row.tsx:44-61 | the row has no image or video label: `image/png` and `video/mp4` match none of its tests and are shown as plain files |
| FileRow.PdfNeedsExactType | components/file-row.tsx:46 | `application/pdf` is a PDF, and `application/x-pdf` is a plain file |
| FileRow.TextPlainIsDoc | components/file-row.tsx:47-52 | `text/plain` is a document |
| FileRow.TarIsArchive | components/file-row.tsx:54-60 | `application/x-tar` is found by the "tar" test |
| FileRow.OoxmlSheetIsDocRow | components/file-row.tsx:47-53 | the OOXML spreadsheet type is a document here as well |
| FileRow.ClassifiersAgreeIff | components/file-row.tsx:44-62 | `getFileIcon` and `getFileType` give the same label exactly on the MIME types `SameCategory` describes |
| FileRow.RowLabelsKeptByFormat | components/file-row.tsx:44-62 | a row PDF is a PDF for `getFileIcon`; a `getFileIcon` document or spreadsheet is the same for the row |
| FileUpload.QueueIcon | components/file-upload.tsx:37-42 | the photo, video and music icons go exactly to the types `getFileIcon` labels image, video and audio; the file icon goes exactly to the rest |
| FileUpload.ValidateFile | components/file-upload.tsx:60-65 | a message exactly for files over 52428800 bytes, and it is "Макс. 50 МБ" |
| FileUpload.NewItem | components/file-upload.tsx:68-74 | the item keeps the file at no progress and carries the validation message; it is failed exactly when the file is oversized and pending exactly when not, and it is at rest |
| FileUpload.Enqueued | components/file-upload.tsx:68-76 | one item per file, in order, with that file and no progress; failed with the size message exactly when oversized, pending without a message otherwise |
| FileUpload.WithoutIndex | components/file-upload.tsx:88-90 | the list without the item at an index in range, and the same list for any other index |
| FileUpload.PendingCount | components/file-upload.tsx:139 | the count of pending items is at most the number of items, and zero exactly when no item is pending; the same count is the guard of `handleUpload` and hides the upload button when zero |
| FileUpload.Started | components/file-upload.tsx:103-107 | the item keeps its file and message and is uploading at 50; this rewrite is a legal transition exactly when the item was pending |
| FileUpload.FailureMessage | components/file-upload.tsx:117-119 | an `Error` yields its own message and any other thrown value "Ошибка"; the message is "Ошибка" exactly for a non-`Error` value or an `Error` carrying that text |
| FileUpload.Attempted | components/file-upload.tsx:109-127 | an attempted item keeps its file; it is done at 100 with its message kept exactly when its call succeeded, and failed at 0 with the thrown message exactly when its call threw; the rewrite from the started item is a legal transition |
| FileUpload.SuccessesExtremes | components/file-upload.tsx:109-127 | `successCount` equals the number of calls exactly when all succeeded, and is zero exactly when all failed |
| FileUpload.PassMovesLegal | components/file-upload.tsx:99-127 | every row rewrite of a pass touches a row that was pending and is pending → uploading, uploading → done, or uploading → error with a message, and rows are visited in index order |
| FileUpload.SettledDoneCount | components/file-upload.tsx:99-127 | after a pass the done items are those done before plus one per successful call |
| FileUpload.ZeroSuccessesLeaveErrors | components/file-upload.tsx:117-136 | a pass with no success leaves every item failed with a message and at zero progress |
| FileUpload.AllSucceed | components/file-upload.tsx:109-116 | when every call succeeds, the success count is the pending count and every pending item ends done at 100 |
| FileUpload.UploadQueue.constructor | components/file-upload.tsx:52-53 | an empty queue, not uploading |
| FileUpload.UploadQueue.AddFiles | components/file-upload.tsx:67-79 | the rows become the old rows followed by the new items; nothing else changes; the queue stays at rest |
| FileUpload.UploadQueue.RemoveFile | components/file-upload.tsx:88-90 | the rows lose the item at the index; nothing else changes |
| FileUpload.UploadQueue.Attempt | components/file-upload.tsx:103-127 | the row becomes uploading at 50, one call is logged for its file, and the row then ends as the outcome says; the two rewrites are logged |
| FileUpload.UploadQueue.Visit | components/file-upload.tsx:99-128 | one loop iteration keeps the pass invariant: the visited rows are settled, the rest untouched, and calls, rewrites and successes are counted |
| FileUpload.UploadQueue.UploadEach | components/file-upload.tsx:99-128 | the rows become `Settled` of the rows at the call; the calls are the pending files in index order; the success count is the successes among them |
| FileUpload.UploadQueue.HandleUpload | components/file-upload.tsx:92-137 | with nothing pending, nothing changes; otherwise one pass, one invalidation, and the rows are cleared exactly when some call succeeded; the queue is again at rest |
| Gallery.Partition | app/page.tsx:55-68 | `mediaItems` is the pictures and films and `fileItems` the rest, each in list order |
| Gallery.PartitionIsExact | app/page.tsx:59-65 | the two lists' lengths add up to the input's, they hold the input as a multiset, and each holds only its own kind |
| Gallery.WhereIsOrderedFilter | app/page.tsx:59-65 | a filtered list's t-th item is the input item at the t-th selected position, the positions ascend, and they are exactly the selected ones |
| Gallery.WhereSizes | app/page.tsx:59-65 | the two outcomes of a test share the items out between them |
| Gallery.WhereSplits | app/page.tsx:59-65 | the two outcomes of a test hold the input as a multiset |
| Gallery.WhereSound | app/page.tsx:59-65 | a filtered list holds only input items that pass its test |
| Gallery.DateKey | app/page.tsx:22-35 | a media created today gets "Сегодня" and one created the day before gets "Вчера" |
| Gallery.DateKeyCases | app/page.tsx:18-35 | the key is "Сегодня" exactly for today, "Вчера" exactly for the day before, and the day's label otherwise |
| Gallery.GroupByDate | app/page.tsx:16-42 | the keys come in order of first occurrence; the record has exactly those keys; each key's group is the media with that key, in input order |
| Gallery.GroupedAreBuckets | app/page.tsx:37-38 | the record built so far holds exactly the keys met, each with the media having that key, in order |
| Gallery.KeyOrderDistinct | app/page.tsx:37 | no key is inserted twice |
| Gallery.KeyOrderHasKey | app/page.tsx:37-38 | a key is present exactly when its group is non-empty, so no group is empty |
| Gallery.OneGroupEach | app/page.tsx:22-39 | each media is in the group of its own key and in no other |
| Gallery.GroupSizesSum | app/page.tsx:22-39 | the group sizes add up to the number of media grouped |
| Gallery.GroupedMediaAreVisual | app/page.tsx:70 | every media in a group of `mediaItems` is a listed picture or film with that group's key |

## Left out

- `formatFileSize` and `formatDate` of `lib/format.ts`: they use floating point, logarithms and the locale. The one value the queue needs, the rendering of the 50 MiB ceiling, is the constant "50 МБ".
- `Date`, `toDateString` and `toLocaleDateString`: they are replaced by the `Calendar` value. A day is an integer, and the day before today is `today - 1`. The label is an opaque function that never yields "Сегодня" or "Вчера".
- The HTTP layer: upload calls are an oracle, a sequence of outcomes. `invalidateQueries` is a counter. The toast is not modelled.
- JSX, icon components, and CSS beyond the class strings of `colorMap`: not modelled. The icon components are their names as strings.
- Interleavings of the asynchronous pass: `handleUpload` awaits each call. The model runs the pass without interruption.
- Row removal during a pass: in the source the loop reads the list from the closure and rewrites rows by position, so removing a row mid-pass would shift positions. The model does not capture this.
- Re-entry: `handleUpload` does not test `isUploading`; only the disabled button prevents a second pass. `FileUpload.UploadQueue.HandleUpload` requires the queue at rest, so no second pass starts while one is running.
- FileUpload.UploadQueue.HandleUpload: requires at least as many outcomes as pending rows, so the oracle never runs dry.
- Characters: strings are sequences of Dafny characters, not UTF-16 code units. The MIME types involved are ASCII.
- The `Media` type file of the repository is not part of this model. Its fields are id, file name, MIME type, size and creation timestamp; the timestamp is an integer here. A `createdAt` that `Date` cannot parse is not modelled: in the source every such media gets the label "Invalid Date" and they share one group.
- Day-month labels of different years coincide, so media from the same day of two years share a group in the source and in the model alike. Keys that look like array indices or collide with `Object.prototype` members cannot arise from these labels. They are not modelled.
