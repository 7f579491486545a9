# Photo uploader: a verified model of the upload orchestrator

This project models the state logic of the `PhotoUploader` React component
(`components/photo-uploader.tsx`). The component keeps an ordered list of
staged photo entries, a list of folder names, an active folder, an
"upload in progress" flag and an aggregate progress percentage. Four handlers
change that state:

- **stage** (`handleFileChange`) appends one pending entry per picked file;
- **remove** (`removeFile`) filters the list by entry id;
- **add folder** (`addFolder`) appends a new, non-empty folder name and makes it active;
- **upload all** (`uploadFiles`) uploads the staged entries one after another
  and records a per-entry status, the aggregate progress and the stored paths.

The model has five modules:

- `Wrappers`: the `Option` type for one upload's outcome.
- `Staging`: entries, staging, removal by id and the folder list, all as values.
- `Progress`: JavaScript's `Math.round(k / n * 100)` written as the integer expression
  `(200k + n) / (2n)`, with the rounding, monotonicity and end-point facts proved.
- `Batch`: the per-step list updaters of one upload batch as pure functions.
  It also holds the fold of those updaters over the batch and reference definitions
  of each entry's final status and progress. `SuccessPaths` is the list handed to
  the completion callback.
- `PhotoUploader`: the component's state as the class `Uploader`, whose methods
  replace the fields as the component's setters do. `UploadFiles` keeps the
  source's `for` loop, its `completedFiles` counter and its growing list of paths.

The network is an oracle. `UploadFiles` takes one `Option<string>` per staged
entry, in submission order: `Some(path)` is an accepted upload whose response
named `path`, and `None` is a failed request or a non-OK response. Entry ids are
inputs (`Pick.id`) instead of being built from the file name and the clock.

Three points of the code's behaviour the model keeps:

- Removal drops every entry carrying the id, not only one. The code filters by id (line 84).
- Removal releases no preview. The code never revokes the object URL.
- If two entries share an id, each upload outcome is applied to all of them. So every
  entry with that id ends with the status of the last upload carrying it
  (`Batch.StatusAfter`). With unique ids each entry gets its own outcome
  (`Batch.BatchOwnOutcome`).

## Model

| member | source | states |
|---|---|---|
| `Staging.Staged` | components/photo-uploader.tsx:54-72 | the new list keeps every old entry unchanged in front and adds one entry per pick, in pick order; each new entry is pending with progress 0, tagged with the active folder; an empty selection leaves the list as it was |
| `Staging.StagedTwice` | components/photo-uploader.tsx:72 | two selections in a row stage the same list as one selection of all their picks in order, so the length is the total number of picks |
| `Staging.Without` | components/photo-uploader.tsx:82-87 | the result holds exactly the entries of the list whose id differs from the removed id, and is no longer than the list |
| `Staging.WithoutConcat` | components/photo-uploader.tsx:84 | removal works piecewise on a concatenation, so the remaining entries keep their relative order |
| `Staging.WithoutAbsent` | components/photo-uploader.tsx:84 | removing an id that no entry carries leaves the list unchanged |
| `Staging.WithoutIdempotent` | components/photo-uploader.tsx:82-87 | removing the same id twice gives the same list as removing it once |
| `Staging.WithFolder` | components/photo-uploader.tsx:89-91 | the folder list changes if and only if the name is non-empty (JavaScript truthiness, so a name of spaces is accepted) and new; when it changes it is the old list with exactly that one name appended; a duplicate-free list stays duplicate-free |
| `Progress.Percent` | components/photo-uploader.tsx:159 | the aggregate progress for k of n finished files is a percentage between 0 and 100 |
| `Progress.PercentRounds` | components/photo-uploader.tsx:159 | the percentage is the integer nearest to 100k/n, a half rounding up, as `Math.round` does |
| `Progress.PercentMonotone` | components/photo-uploader.tsx:158-159 | finishing more files never lowers the percentage |
| `Progress.PercentDone` | components/photo-uploader.tsx:170-171 | after the last of n files the percentage is exactly 100 |
| `Progress.PercentNone` | components/photo-uploader.tsx:102 | with no file finished the percentage is 0, the value set when a batch starts |
| `Progress.Trace` | components/photo-uploader.tsx:158-171 | the sequence of percentages set during a batch has one value per finished file |
| `Progress.TraceAt` | components/photo-uploader.tsx:158-171 | the j-th percentage set is that of j+1 finished files, and the sequence never decreases |
| `Batch.AllUploading` | components/photo-uploader.tsx:109-111 | at batch start every entry becomes `Uploading` and nothing else about any entry changes |
| `Batch.MarkSuccess` | components/photo-uploader.tsx:150-156 | the update after a successful upload keeps the list's length; its per-entry effect is stated by `MarkSuccessAt` |
| `Batch.MarkSuccessAt` | components/photo-uploader.tsx:150-156 | entries with the uploaded file's id become `Success` with progress 100; their other fields and every other entry are untouched |
| `Batch.MarkError` | components/photo-uploader.tsx:164-168 | the update after a failed upload keeps the list's length; its per-entry effect is stated by `MarkErrorAt` |
| `Batch.MarkErrorAt` | components/photo-uploader.tsx:164-168 | entries with the failed file's id become `Error` and keep their progress; every other entry is untouched |
| `Batch.Settle` | components/photo-uploader.tsx:142-168 | the update made when one file's upload ends keeps the list's length; its per-entry effect is stated by `SettleAt` |
| `Batch.SettleAt` | components/photo-uploader.tsx:142-168 | after one file's upload ends, an entry with that file's id is `Success` at 100 when a path was stored and `Error` with its progress kept when the upload failed; other entries are untouched; id, file and folder are always kept |
| `Batch.RunBatch` | components/photo-uploader.tsx:109-173 | the list after a whole batch has the same length as the list the batch started from; its entries are described by `BatchTerminal` and `BatchOwnOutcome` |
| `Batch.SettledEntry` | components/photo-uploader.tsx:113-173 | after k files each entry equals its start value with the status and progress given by the reference definitions `StatusAfter` and `ProgressAfter` |
| `Batch.StatusAfterTerminal` | components/photo-uploader.tsx:150-168 | once a file carrying an id has been settled, the status for that id is `Success` or `Error` |
| `Batch.UntouchedBefore` | components/photo-uploader.tsx:150-168 | an entry keeps its status and progress until a file carrying its id is settled |
| `Batch.OwnOutcome` | components/photo-uploader.tsx:150-168 | with unique ids, the status and progress for file i are fixed by file i's own outcome from step i+1 on |
| `Batch.BatchTerminal` | components/photo-uploader.tsx:109-173 | a finished batch leaves no entry of the list it started with pending or uploading, and keeps every entry's id, file and folder |
| `Batch.BatchOwnOutcome` | components/photo-uploader.tsx:109-173 | with unique ids, each entry ends `Success` with progress 100 when its upload succeeded and `Error` with its progress kept when it failed; its id, file and folder are kept |
| `Batch.SuccessPaths` | components/photo-uploader.tsx:106-147 | the list handed to the completion callback holds at most one path per file; its contents are stated by `SuccessPathsMembers`, `SuccessPathsStep` and `SuccessPathsConcat` |
| `Batch.SuccessPathsMembers` | components/photo-uploader.tsx:142-147 | a path is handed to the completion callback exactly when some upload succeeded with it; failed uploads add nothing |
| `Batch.SuccessPathsStep` | components/photo-uploader.tsx:146-147 | settling one more file extends the path list by that file's stored path when its upload succeeded, and leaves it as it was when it failed |
| `Batch.SuccessPathsConcat` | components/photo-uploader.tsx:147 | the paths are collected in submission order: the list for a concatenation of outcomes is the concatenation of the lists |
| `Batch.SuccessPathsAllOrNone` | components/photo-uploader.tsx:142-147 | if every upload fails the callback receives no path; if every upload succeeds it receives one path per file |
| `PhotoUploader.Uploader.constructor` | components/photo-uploader.tsx:43-50 | the component starts with no entries, the single folder "folder_1" active, an empty folder-name input, no upload running and progress 0 |
| `PhotoUploader.Uploader.HandleFileChange` | components/photo-uploader.tsx:52-80 | the list becomes the staged list for the picks and the active folder; no other state changes; the invariant (unique folders, active folder listed, every entry's folder listed) is kept |
| `PhotoUploader.Uploader.RemoveFile` | components/photo-uploader.tsx:82-87 | the list becomes the old list without the entries carrying the id; no other state changes |
| `PhotoUploader.Uploader.SetNewFolderName` | components/photo-uploader.tsx:217-221 | the folder-name input takes the typed text; nothing else changes |
| `PhotoUploader.Uploader.SelectFolder` | components/photo-uploader.tsx:196-199 | choosing a listed folder makes it active; nothing else changes |
| `PhotoUploader.Uploader.AddFolder` | components/photo-uploader.tsx:89-96 | a non-empty new name is appended, made active and the input cleared; an empty or known name changes nothing; folders stay duplicate-free and the active folder stays listed |
| `PhotoUploader.Uploader.UploadFiles` | components/photo-uploader.tsx:98-180 | with no entries or a batch running nothing changes and no callback happens; otherwise the list ends as the batch fold of the outcomes, every entry is terminal, the flag is cleared, progress is 100, the callback receives exactly the successful paths in order, and the progress values set are those of 1..n finished files |
| `PhotoUploader.TwoFileOutcome` | components/photo-uploader.tsx:98-180 | two distinct files where the first upload stores "/a.jpg" and the second fails end `Success` then `Error`; the callback receives ["/a.jpg"] and progress reads 50 then 100 |

## Left out

- The upload request is not modelled: `FormData`, the JSON metadata with the username and folder, the `/upload` URL and `fetch` (lines 115-146). Each request's result is an input, one `Option<string>` per entry.
- A response that is OK but whose JSON has no `path` field is not modelled. The code would push `undefined`; in the model a success always carries a string.
- Preview object URLs (`URL.createObjectURL`, line 62) are not modelled. They are browser resources, and the code never releases them.
- Entry ids built from `Date.now()` (line 63) are inputs, because the clock is outside the model.
- React's asynchronous state updates are not modelled: batched `setState`, stale closures, and other handlers running while an upload awaits the network. `UploadFiles` runs as one uninterrupted step, so the list it walks is the list it updates.
- `Progress.Percent`: uses exact integer rounding instead of floating-point `Math.round((k / n) * 100)`. Where the float product lands just beside a half, the two may differ by one.
- The `onUploadComplete` callback is optional in the component. The model returns the path list it would receive and does not model whether a callback was passed.
- The rendering is not modelled: JSX, the file-size display in MB, the `folderDialogOpen` dialog flag (UI only) and `console` logging.
- `app/api/gallery/route.ts` is not part of this model. It is a pass-through proxy whose only logic is the 400 response for a missing `username`.
