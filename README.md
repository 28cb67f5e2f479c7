# Memory Album Creator — a Dafny model of its serverless handlers

Memory Album Creator turns one uploaded recording and a list of short
"experience" texts into an album: a zip archive with a readme, the
original recording and one themed remix per experience. The remix theme
of each experience is picked from a fixed theme table by keyword. This
project models the five Netlify functions that do this work:

- `process-audio.js` builds the album in a single request.
- `upload.js` stores the upload and the job's pending record, then
  starts the background worker.
- `process-audio-background.js` is that worker. It builds the album,
  stores it as `{jobId}-result` and marks the job `completed` or `failed`.
- `status.js` answers with a job's record.
- `download.js` answers with the stored album.

Modules:

- `Runtime`, `Http`: options, results, injected faults, the JavaScript
  error messages the handlers let through, and the response shape.
- `Strings`: ASCII `toLowerCase`, `includes`, `String(n)`, `padStart`.
- `Themes`: the theme table in declaration order, the first-match
  selector (`SelectTheme`) and the selection loop (`PickTheme`).
- `Album`: track names, archive layout, and the zip-file-name sanitiser.
- `Storage`: the blob store, the store keys and the class `Platform`.
  - The store is a `map<string, Value>`.
  - The keys are `{jobId}`, `{jobId}-metadata` and `{jobId}-result`.
  - `Platform` holds the store, the scratch directory and a log of every
    store write, deletion and worker trigger. Each store change is an
    `Op` with an `applied` flag, and the final store is
    `Applied(old store, ops)`.
- `Background`, `Upload`, `ProcessAudio`: each handler is a method on a
  `Platform`, step by step as the source runs it. Each method is proved
  equal to a pure specification function (`Process`, `Submit`,
  `Respond`), and the handler's properties are lemmas on that function.
- `Lifecycle`: properties of the background worker.
- `Status`, `Download`: pure lookups.
- `Journey`: what `status` and `download` answer after an upload or a
  worker run.

External outcomes are inputs to the model. Each handler takes an `Env`
value that fixes:

- the result of each store access (`Fault`: `None`, or the message of the
  error it throws);
- the multipart parser's output;
- the experiences decoder;
- the per-track transform errors;
- the trigger response;
- the clock.

## Model

| member | source | states |
|---|---|---|
| Strings.LowerChar | netlify/functions/process-audio-background.js:51 | an ASCII upper-case letter becomes the letter 32 code points later; every other character is kept |
| Strings.Lower | netlify/functions/process-audio-background.js:51 | lower-casing keeps the length |
| Strings.LowerAt | netlify/functions/process-audio-background.js:51 | lower-casing works character by character |
| Strings.LowerNoUpper | netlify/functions/process-audio-background.js:51 | a text without upper-case letters is its own lower-case form |
| Strings.LowerIdempotent | netlify/functions/process-audio-background.js:51 | lower-casing twice is lower-casing once |
| Strings.Contains | netlify/functions/process-audio-background.js:51 | `text.includes(pattern)`: the pattern equals the text's prefix, or occurs in the text after its first character; its meaning is stated by `ContainsIff` |
| Strings.ContainsIff | netlify/functions/process-audio-background.js:51 | `includes` holds exactly when the pattern occurs at some index of the text |
| Strings.NatToString | netlify/functions/process-audio-background.js:70 | `String(n)` for a whole number: its decimal digits, most significant first; its shape is stated by `NatToStringDigits` |
| Strings.NatToStringDigits | netlify/functions/process-audio-background.js:70 | `String(n)` is non-empty and all decimal digits; it has one digit iff n < 10; it has no leading zero for n ≥ 1 |
| Strings.NatToStringInjective | netlify/functions/process-audio-background.js:70 | different numbers have different decimal strings |
| Strings.PadStart | netlify/functions/process-audio-background.js:70 | `padStart(width, fill)`: the fill character repeated before the text up to the width; its shape is stated by `PadStartShape` |
| Strings.PadStartShape | netlify/functions/process-audio-background.js:70 | `padStart(width, fill)` has length max(|s|, width), ends with s and is fill before it |
| Themes.OrderDistinct | netlify/functions/process-audio-background.js:12-22 | the table declares nine distinct keys, the last one `default` |
| Themes.OrderListsCatalog | netlify/functions/process-audio-background.js:12-22 | the declaration order lists exactly the table's keys |
| Themes.FirstMatch | netlify/functions/process-audio-background.js:50-55 | the result is the index of a key the text includes, with no earlier key included; None means no key is included |
| Themes.PickTheme | netlify/functions/process-audio-background.js:49-55 | the selection loop with `break` returns `SelectTheme` of the text |
| Themes.SelectTheme | netlify/functions/process-audio-background.js:49-56 | the theme key of an experience: the first key in declaration order that the lower-cased text includes, else `default`; stated by `SelectThemeIsFirstMatch` and `SelectThemeFallback` |
| Themes.SelectThemeInOrder | netlify/functions/process-audio-background.js:49-56 | the selected key is one of the declared keys |
| Themes.SelectThemeInCatalog | netlify/functions/process-audio-background.js:49-56 | the selected key always names a theme of the table |
| Themes.SelectThemeIsFirstMatch | netlify/functions/process-audio-background.js:49-55 | a keyword key is selected iff the lower-cased text includes it and no earlier key |
| Themes.SelectThemeFallback | netlify/functions/process-audio-background.js:49-55 | `default` is selected iff the lower-cased text includes none of the eight keyword keys |
| Themes.LoveBeforeParty | netlify/functions/process-audio-background.js:13-16 | a text with both "love" and "party" never selects `party`, and selects `love` unless it also includes "childhood" |
| Themes.SelectThemeIgnoresCase | netlify/functions/process-audio-background.js:51 | selection gives the same key for a text and its lower-case form |
| Themes.ChildhoodExample | netlify/functions/process-audio-background.js:49-55 | "my childhood home" selects `childhood` |
| Themes.FallbackExample | netlify/functions/process-audio-background.js:49-55 | "our first date" selects `default` |
| Themes.LovePartyExample | netlify/functions/process-audio-background.js:50-55 | "love party" selects `love` |
| Storage.KeyContract | netlify/functions/process-audio-background.js:30-74 | the audio, metadata and result keys of one job are pairwise different; metadata and result keys determine the job; no metadata key is a result key |
| Storage.GetJson | netlify/functions/status.js:9 | a fault throws; a missing key reads as null; a stored record is returned as stored; a value that is not JSON throws |
| Storage.GetBlob | netlify/functions/download.js:9 | a fault throws; a missing key reads as null; a stored value is returned as stored |
| Storage.Apply | netlify/functions/upload.js:18-73 | one effect on the store: an applied write sets its key, an applied deletion removes it, a trigger or a failed step changes nothing |
| Storage.Applied | netlify/functions/process-audio-background.js:74-85 | the store after a run of effects, applied in order |
| Storage.Platform.Set | netlify/functions/process-audio-background.js:74 | a write is logged; it changes the key only when no fault occurs, and it returns the fault |
| Storage.Platform.Delete | netlify/functions/upload.js:72-73 | a deletion is logged; it removes the key only when no fault occurs |
| Storage.Platform.Post | netlify/functions/upload.js:47-56 | starting the worker logs a trigger for the job |
| Storage.Platform.Save | netlify/functions/process-audio-background.js:36-41 | writing a scratch file sets that path and nothing else |
| Storage.Platform.Unlink | netlify/functions/process-audio-background.js:91 | the listed scratch paths are removed and no others |
| Album.TrackNumber | netlify/functions/process-audio-background.js:70 | `String(n).padStart(2, '0')`; stated by the `TrackNumber…` lemmas below |
| Album.TrackName | netlify/functions/process-audio-background.js:70 | the number of track i + 2, "_", the theme key, "_remix.mp3"; stated by `TrackNameParts` |
| Album.TrackNumberSmall | netlify/functions/process-audio-background.js:70 | numbers below 10 are padded to two digits with a leading '0' |
| Album.TrackNumberLarge | netlify/functions/process-audio-background.js:70 | numbers of 10 and above are their unpadded decimal string |
| Album.TwoDigitNumber | netlify/functions/process-audio-background.js:70 | a number from 10 to 99 prints as its tens digit then its units digit |
| Album.TrackNumberDigits | netlify/functions/process-audio-background.js:70 | a track number has at least two characters, all digits |
| Album.TrackNumberBelowHundred | netlify/functions/process-audio-background.js:70 | below 100 a track number is exactly its two decimal digits |
| Album.TrackNumberInjective | netlify/functions/process-audio-background.js:70 | different numbers give different track numbers |
| Album.TrackNameParts | netlify/functions/process-audio-background.js:70 | a track name is the padded number, '_', the theme key, "_remix.mp3" |
| Album.TrackNameDigits | netlify/functions/process-audio-background.js:70 | a track name starts with the digits of its number |
| Album.TrackNameNumber | netlify/functions/process-audio-background.js:70 | equal track names have equal indices, whatever the keys |
| Album.TrackNumberNotOriginal | netlify/functions/process-audio-background.js:45-70 | no track number from 2 on starts like "01_original.mp3" |
| Album.TrackNamesDistinct | netlify/functions/process-audio-background.js:44-70 | remixes of different experiences have different names, and no remix is named like the readme or the original |
| Album.TrackNamesSorted | netlify/functions/process-audio-background.js:70 | below track 100, names sort in experience order |
| Album.TrackNamesUnsortedAtHundred | netlify/functions/process-audio-background.js:70 | track "100_…" sorts before track "99_…", so name order and experience order part at 100 |
| Album.RemixEntry | netlify/functions/process-audio-background.js:48-70 | the entry of one experience: its track name under the selected key, holding the original remixed with that key's theme |
| Album.Header | netlify/functions/process-audio-background.js:44-45 | the first two entries, `readme.txt` with the readme text and `01_original.mp3` with the original |
| Album.Remixes | netlify/functions/process-audio-background.js:47-71 | k experiences give exactly k remixes |
| Album.RemixAt | netlify/functions/process-audio-background.js:47-71 | among the remixes of the first k experiences, remix i is the entry made from experience i |
| Album.Archive | netlify/functions/process-audio-background.js:43-71 | the album's entries in the order they are added to the zip; stated by `ArchiveLayout` |
| Album.ArchiveLayout | netlify/functions/process-audio-background.js:43-71 | N experiences give N+2 entries: readme.txt, 01_original.mp3, then one remix per experience in order |
| Album.ArchiveNamesDistinct | netlify/functions/process-audio-background.js:43-71 | no two archive entries share a name |
| Album.EntryNamesDistinct | netlify/functions/process-audio-background.js:43-71 | any two positions of the archive have different names |
| Album.ReplaceNonAlnum | netlify/functions/status.js:19 | replacing non-alphanumerics keeps the length |
| Album.ReplaceAt | netlify/functions/status.js:19 | each ASCII letter or digit is kept; every other character becomes '_' |
| Album.ZipStem | netlify/functions/status.js:19 | `title.replace(/[^a-z0-9]/gi, '_').toLowerCase()`; stated by `ZipStemAt` and `ZipStemCharset` |
| Album.StatusFilename | netlify/functions/status.js:19 | the status endpoint's file name: the stem, then ".zip", with no fallback |
| Album.AlbumFilename | netlify/functions/process-audio.js:126 | the synchronous handler's file name: the stem, or "memory_album" when the stem is empty, then ".zip"; stated by `FilenameFallback` |
| Album.ZipStemAt | netlify/functions/status.js:19 | character i of the stem is the lower-cased letter or digit, or '_' |
| Album.ZipStemCharset | netlify/functions/status.js:19 | the stem has the title's length and only characters from [a-z0-9_] |
| Album.ZipStemIdempotent | netlify/functions/status.js:19 | sanitising a sanitised title changes nothing |
| Album.FilenameFallback | netlify/functions/process-audio.js:126 | the stem is empty iff the title is; status names an empty title ".zip"; process-audio falls back to "memory_album.zip" iff the title is empty or sanitises to "memory_album"; otherwise the two names agree |
| Album.FallbackNameFromNonEmptyTitle | netlify/functions/process-audio.js:126 | the non-empty title "Memory Album" also gives "memory_album.zip" |
| Background.OriginalPath | netlify/functions/process-audio-background.js:32 | the scratch path `original_{jobId}` of the saved original |
| Background.OutputPath | netlify/functions/process-audio-background.js:57 | the scratch path `output_{jobId}_{i}.mp3` of track i |
| Background.Readme | netlify/functions/process-audio-background.js:44 | the readme text "Album: …\nFor: …", a missing field reading as "undefined" |
| Background.OutputPaths | netlify/functions/process-audio-background.js:57-58 | the first n output paths are `output_{jobId}_{i}` for i < n, in order |
| Background.OriginalNotOutput | netlify/functions/process-audio-background.js:32-57 | the original's scratch path is never an output path |
| Background.Completed | netlify/functions/process-audio-background.js:76-80 | the completed record has status "completed" and finishedAt set to the time of the write |
| Background.CompletedKeeps | netlify/functions/process-audio-background.js:76-80 | every other field of the record is kept unchanged |
| Background.Failed | netlify/functions/process-audio-background.js:85-89 | the failed record has status "failed" and the error message |
| Background.FailedKeeps | netlify/functions/process-audio-background.js:85-89 | every other field of the re-read record is kept unchanged |
| Background.FirstFailure | netlify/functions/process-audio-background.js:47-69 | the failing track, if any, is the lowest index whose transform fails, and all before it succeed |
| Background.FirstFailureAt | netlify/functions/process-audio-background.js:47-69 | a failing track after only successes is the first failure of every longer run |
| Background.Attempted | netlify/functions/process-audio-background.js:29-80 | the try block: the metadata read (a throw, or a null record whose `experiences` throws a TypeError), the experiences parse, then `Loaded` |
| Background.Loaded | netlify/functions/process-audio-background.js:32-80 | the original's path is recorded, then the audio read (a throw, or a null stream whose `pipe` throws) and the save, then `Remixed` |
| Background.Remixed | netlify/functions/process-audio-background.js:43-80 | the tracks in order up to the first failure, recording each output path before its transform; with no failure, `Stored` of the whole archive |
| Background.Stored | netlify/functions/process-audio-background.js:73-80 | generate, then the result write, then the completed-record write, each throw ending the block |
| Background.Process | netlify/functions/process-audio-background.js:24-92 | the whole handler: the try block, then the catch block on a throw |
| Background.Settled | netlify/functions/process-audio-background.js:82-89 | after a throw, the re-read of the record (a throw rejects; null spreads as an empty record), then `FailedTrace` |
| Background.FailedTrace | netlify/functions/process-audio-background.js:85-89 | the failed-record write appended to the try block's effects; a throw of that write rejects the handler |
| Background.TryBlock | netlify/functions/process-audio-background.js:29-80 | the try block throws, logs, writes and records scratch paths exactly as `Attempted` says; scratch files change only at recorded paths |
| Background.LoadAndRemix | netlify/functions/process-audio-background.js:32-80 | from the original's path on, the block behaves as `Loaded` says |
| Background.RemixAndStore | netlify/functions/process-audio-background.js:43-80 | from the archive on, the block behaves as `Remixed` says |
| Background.StoreAlbum | netlify/functions/process-audio-background.js:73-80 | the result write, then the completed write, as `Stored` says |
| Background.SaveRemix | netlify/functions/process-audio-background.js:48-70 | one successful track yields experience i's entry and writes its output path only |
| Background.RemixTracks | netlify/functions/process-audio-background.js:47-71 | the loop stops at the first failing track; it records output paths up to and including that track; without a failure it adds every remix in order |
| Background.CatchBlock | netlify/functions/process-audio-background.js:82-89 | the catch block re-reads the record and writes the failed record, as `Settled` says |
| Background.Handle | netlify/functions/process-audio-background.js:24-92 | the handler's outcome, log and store are those of `Process`, and every recorded scratch path is removed |
| Lifecycle.StoredEffects | netlify/functions/process-audio-background.js:73-80 | storing the album writes only the job's result and metadata keys |
| Lifecycle.AttemptedEffects | netlify/functions/process-audio-background.js:29-80 | the try block writes only the job's result and metadata keys |
| Lifecycle.ProcessEffects | netlify/functions/process-audio-background.js:29-89 | the whole handler writes only the job's result and metadata keys |
| Lifecycle.WritesOnlyJobKeys | netlify/functions/process-audio-background.js:29-89 | every effect is a write to `{jobId}-metadata` or `{jobId}-result`; nothing is deleted |
| Lifecycle.StatusesWritten | netlify/functions/process-audio-background.js:76-89 | every metadata write sets status "completed" or "failed", never "processing" or "pending" |
| Lifecycle.ReadyAttempt | netlify/functions/process-audio-background.js:30-45 | once the record, experiences and audio load, the try block is the remix stage |
| Lifecycle.CatchPath | netlify/functions/process-audio-background.js:82-89 | after a throw, with the record re-read, the handler writes that record as failed |
| Lifecycle.AllTracksRemixed | netlify/functions/process-audio-background.js:29-80 | with every track succeeding, the try block writes the whole archive, then the completed record, and records the original and every output path |
| Lifecycle.SuccessPath | netlify/functions/process-audio-background.js:29-92 | on success the result is written before the completed record, and the final store is the old one with both set |
| Lifecycle.ThrewBeforeWrites | netlify/functions/process-audio-background.js:82-89 | a throw before any write leads to just the failed-record write |
| Lifecycle.FirstFailingTrack | netlify/functions/process-audio-background.js:47-69 | a failure at track k writes nothing and records paths of tracks 0..k only; later tracks are not attempted |
| Lifecycle.TrackFailure | netlify/functions/process-audio-background.js:47-89 | a failing track leads to only the failed-record write with its message; the result key is present iff it was before, with the same value |
| Lifecycle.AttemptWrites | netlify/functions/process-audio-background.js:73-80 | any write of the try block comes after every track succeeded; the first is the result with the whole archive; the rest write metadata |
| Lifecycle.CatchWritesMetadata | netlify/functions/process-audio-background.js:82-89 | the catch block only appends metadata writes to the try block's |
| Lifecycle.SettledAppendsMetadata | netlify/functions/process-audio-background.js:82-89 | whatever the try block did, the catch block keeps its operations as a prefix and adds only writes of the job's metadata key |
| Lifecycle.ResultNeedsEveryTrack | netlify/functions/process-audio-background.js:29-80 | a result write happens only as the first step, after every load and every track succeeded, and holds the whole archive |
| Lifecycle.ResultWithFailedStatus | netlify/functions/process-audio-background.js:74-89 | a failed completed-write leaves the archive stored while the record says failed: a reachable state |
| Lifecycle.MissingJob | netlify/functions/process-audio-background.js:30-89 | with no record, the handler writes a fresh failed record holding the TypeError message and no scratch path |
| Lifecycle.AttemptTemp | netlify/functions/process-audio-background.js:32-58 | recorded paths are empty, or the original followed by output paths 0..n−1; they are non-empty iff the record and experiences loaded |
| Lifecycle.TempShape | netlify/functions/process-audio-background.js:32-92 | the same holds for the paths the handler removes |
| Status.Report | netlify/functions/status.js:13-19 | the body has albumTitle and filename, plus status and error when the record has them, copied unchanged |
| Status.Lookup | netlify/functions/status.js:8-24 | a fault gives 500 with its message; 404 "Job not found." iff no record; 200 with the report iff a record with a title; a stored value that is not JSON gives 500 with the parse error, and a record without a title gives 500 with the `replace` TypeError |
| Status.ReportedFilename | netlify/functions/status.js:19 | the filename is the title's length plus 4, ends in ".zip", uses only [a-z0-9_] before it; an empty title gives ".zip" |
| Status.ReadsOnlyMetadata | netlify/functions/status.js:9 | the answer depends only on the job's metadata key |
| Download.Fetch | netlify/functions/download.js:8-21 | a fault gives 500; 404 "Result not found." iff no result; 200 with application/zip, the stored bytes base64-encoded and the flag set iff present |
| Download.ReadsOnlyResult | netlify/functions/download.js:9 | the answer depends only on the job's result key |
| Upload.Collected | netlify/functions/upload.js:15-28 | the part handlers over the first k parts: a field sets its name (a `__proto__` field is ignored, as the inherited setter ignores it), a stored file sets `originalFilename`, a failed store write rejects; stated by `CollectedKeys` and `CollectedValue` |
| Upload.Parsed | netlify/functions/upload.js:12-33 | all parts handled, then the parser's own error unless a write failed first |
| Upload.SetsField | netlify/functions/upload.js:15-28 | whether part i assigns a field: a field part of that name other than `__proto__`, or for `originalFilename` a file part whose write succeeded |
| Upload.PartValue | netlify/functions/upload.js:15-28 | the value a part assigns: the field value or the file name |
| Upload.CollectedKeys | netlify/functions/upload.js:15-28 | a field is set after k parts exactly when one of those parts assigns it; no other key appears |
| Upload.CollectedValue | netlify/functions/upload.js:15-28 | a field holds the value of the last part that assigns it, so `originalFilename` is the last stored file's name unless a later field part of that name follows |
| Upload.ProtoNeverRecorded | netlify/functions/upload.js:9-27 | a field part named `__proto__` never becomes a field of the form |
| Upload.Attempted | netlify/functions/upload.js:11-61 | the try block: the parse, the file-name check, then `Registered` |
| Upload.Registered | netlify/functions/upload.js:40-61 | the pending-record write, then the trigger, its rejection or the `!ok` message |
| Upload.Cleanup | netlify/functions/upload.js:70-77 | the catch block's deletions: the audio key, then the metadata key only if the first succeeded |
| Upload.Submit | netlify/functions/upload.js:6-80 | the whole handler: 202 with `{jobId}`, or the deletions and 500 with the error message |
| Upload.Pending | netlify/functions/upload.js:40-44 | the pending record has status "pending", even when the form sent its own status, and submittedAt |
| Upload.PendingKeeps | netlify/functions/upload.js:40-44 | every other form field is kept as submitted |
| Upload.ReadForm | netlify/functions/upload.js:12-33 | the part loop leaves the fields, effects and first error `Parsed` describes |
| Upload.TryBlock | netlify/functions/upload.js:11-61 | the try block throws, logs and writes as `Attempted` says |
| Upload.Register | netlify/functions/upload.js:40-61 | the pending write, then the trigger and its check, as `Registered` says |
| Upload.CleanUp | netlify/functions/upload.js:70-77 | the catch block's deletions, as `Cleanup` says |
| Upload.Handle | netlify/functions/upload.js:6-80 | the handler's response, log and store are those of `Submit` |
| Upload.PartsWriteAudio | netlify/functions/upload.js:15-24 | the part handlers write only the job's audio key |
| Upload.FilenameMeansAudio | netlify/functions/upload.js:15-28 | without a client field of that name, a recorded file name means the audio was stored |
| Upload.AcceptedUpload | netlify/functions/upload.js:40-66 | 202 means: no error, a file name recorded, the pending record written, the worker triggered, body {jobId} |
| Upload.AcceptedRecord | netlify/functions/upload.js:15-44 | after a 202 the stored record, field by field apart from status and submittedAt, has exactly the fields some part assigned, each with the last such part's value |
| Upload.AcceptedHasAudio | netlify/functions/upload.js:15-66 | without a client field "originalFilename", 202 means the audio is stored under the job id |
| Upload.FieldPassesFileCheck | netlify/functions/upload.js:26-37 | a client field "originalFilename" with no file part passes the file check and is accepted with no audio stored |
| Upload.RegisteredTriggers | netlify/functions/upload.js:40-61 | registration triggers only this job, right after an applied metadata write |
| Upload.CleanupTriggersNothing | netlify/functions/upload.js:70-77 | the catch block only deletes |
| Upload.TriggerAfterMetadata | netlify/functions/upload.js:40-56 | every trigger is for this job and follows an applied pending-record write |
| Upload.NoFileNoMetadata | netlify/functions/upload.js:35-37 | with no file name it fails with "No file was uploaded." and writes no metadata |
| Upload.RejectedUpload | netlify/functions/upload.js:67-78 | the answer is 202 or 500; 500 iff the try block threw, after its deletions, with its message |
| Upload.FailureRemovesKeys | netlify/functions/upload.js:70-77 | when both deletions succeed, a failed upload leaves neither the audio nor the metadata key |
| ProcessAudio.AlbumReadme | netlify/functions/process-audio.js:86 | the readme text "Album: …\nFor: …\n\nCreated with Memory Album Creator." |
| ProcessAudio.Saved | netlify/functions/process-audio.js:21-29 | the parser's saved file of the `audio` field, at its scratch path |
| ProcessAudio.Written | netlify/functions/process-audio.js:21-31 | the scratch files a rejected parse had written, every one of them present |
| ProcessAudio.Respond | netlify/functions/process-audio.js:61-158 | the whole handler: 405, or the parse, the experiences, the upload check and `Built`, with the files left and the path removed |
| ProcessAudio.FinalTmp | netlify/functions/process-audio.js:145-157 | the scratch directory after a run: the parser's files added, then the recorded upload path removed |
| ProcessAudio.Message | netlify/functions/process-audio.js:143 | an empty message is replaced by the generic one; others are kept |
| ProcessAudio.Failure | netlify/functions/process-audio.js:139-144 | the catch block answers 500 with a non-empty error, the message itself when non-empty |
| ProcessAudio.Built | netlify/functions/process-audio.js:125-137 | building the answer gives 200 or 500 |
| ProcessAudio.AddTracks | netlify/functions/process-audio.js:91-122 | the track loop appends one remix per experience, in order |
| ProcessAudio.Build | netlify/functions/process-audio.js:84-137 | the archive is built from the saved upload, as `Built` says |
| ProcessAudio.Handle | netlify/functions/process-audio.js:61-158 | the response and the scratch directory are those `Respond` describes |
| ProcessAudio.MethodNotAllowed | netlify/functions/process-audio.js:63-65 | a non-POST request gets 405 "Method Not Allowed" and leaves the scratch directory alone |
| ProcessAudio.MissingAudio | netlify/functions/process-audio.js:78-80 | no audio upload gives 500 with "No audio file uploaded or file failed to save." |
| ProcessAudio.UploadRemoved | netlify/functions/process-audio.js:145-157 | a recorded upload path is removed on success and failure alike; every other path is present iff it was before or the parser saved it, and a path the parser did not save keeps its content |
| ProcessAudio.SaveRejected | netlify/functions/process-audio.js:21-31 | the files written before a rejected parse land in the scratch directory, as `Written` says |
| ProcessAudio.RejectedParseLeavesFiles | netlify/functions/process-audio.js:13-45 | a rejected parse answers 500 with its message, records no upload path, and leaves every file it had written in the scratch directory |
| ProcessAudio.ParseFailureKeepsUpload | netlify/functions/process-audio.js:75-81 | an experiences parse failure gives 500 and leaves the saved upload in the scratch directory |
| ProcessAudio.AlbumResponse | netlify/functions/process-audio.js:84-137 | 200 carries application/json, the archive in order, N+2 distinct names, the sanitised file name and the title |
| ProcessAudio.StatusCodes | netlify/functions/process-audio.js:61-144 | the answer is 200, 405 or 500, and every 500 carries a non-empty error |
| Journey.PendingAfterUpload | netlify/functions/upload.js:40-44 | after an accepted upload with a title, the status answer is 200 with status "pending" |
| Journey.CompletedAfterSuccess | netlify/functions/process-audio-background.js:73-80 | after a successful run, status says "completed" and download returns the archive |
| Journey.FailedAfterTrackFailure | netlify/functions/process-audio-background.js:82-89 | after a failing track, status says "failed" with the message, and download says 404 if no earlier result existed |

## Left out

- The audio transform (ffmpeg) and its filter strings are opaque: a remix
  is `Remix(original, themeKey)`, and a track either succeeds or throws
  the message in `transformErrors`. Codec, bitrate and partial output
  files are not modelled.
- JSZip and base64 are opaque. An archive is its ordered list of
  `(name, content)` entries, and a base64 body is `Base64(value)`.
  `generateAsync` only succeeds or throws.
- Busboy multipart parsing, `JSON.parse` of the experiences and `fetch`
  are inputs:
  - the parser's parts or error, and in process-audio.js the files it
    had written before rejecting (`env.leftOnReject`);
  - a decoder `string -> Result<seq<string>>`, given "undefined" when the
    field is missing;
  - the trigger's fault, `ok` flag and body text.
  Experiences that decode to something other than a list of strings are
  not modelled.
- `JSON.parse(event.body)` in the worker and `event.queryStringParameters`
  in status and download run outside the `try`. The model takes the job
  id as a parameter, so a malformed event is not modelled.
- `uuidv4()` and `new Date().toISOString()` are parameters (`jobId`,
  `env.now`), and the timestamp in the parser's scratch path is part of
  the path it reports.
- Asynchrony races are not modelled; all handlers run sequentially:
  - in upload.js the async part handler may finish after the parser's
    `finish` event;
  - in process-audio.js the `throw` inside the ffmpeg error callback
    never reaches the `try`, so the handler has no per-track failure path.
- In upload.js, `response.text()` of a failed trigger always succeeds
  (`env.triggerText`). Store calls only succeed or throw a message. A
  stored value that is not JSON makes `getJSON` throw a fixed parse-error
  message.
- `fs.existsSync`/`unlinkSync` failures are not modelled; unlinking a
  recorded path always succeeds.
- Other file fields of a multipart form in process-audio.js (anything but
  `audio`) and their scratch files are not modelled.
- Lower-casing and the sanitiser cover ASCII only. Unicode case mapping
  and UTF-16 code units are not modelled.
- JSON key order in response bodies is not modelled: bodies are maps.
- Behaviour the handlers do not have is not modelled: a `processing`
  status, a per-track timeout, retries, a partial-archive policy.
- Logging is not modelled: the `console.log` and `console.error` calls
  (process-audio.js throughout, upload.js lines 21, 68 and 75, the
  worker's line 83) only write to the function log and change no state
  the handlers read.
- `generate-upload-url.js` and `upload-audio.js` are not part of this
  model.

## Notes on behaviour

- The background worker never writes a `processing` status and has no
  timeout. The only statuses it writes are `completed` and `failed`
  (`Lifecycle.StatusesWritten`).
- Selection is by substring in declaration order, so "our first date"
  selects `default`, not `love` (`Themes.FallbackExample`).
- In process-audio.js the `memory_album.zip` fallback applies when the
  title is empty. The non-empty title "Memory Album" gives the same name
  (`Album.FallbackNameFromNonEmptyTitle`).
- Track names sort in experience order only below track 100
  (`Album.TrackNamesUnsortedAtHundred`).
- In upload.js a client form field named `originalFilename` passes the
  "No file was uploaded." check without any audio being stored
  (`Upload.FieldPassesFileCheck`).
- In process-audio.js an experiences parse failure happens before the
  upload path is recorded, so the saved upload stays in the scratch
  directory (`ProcessAudio.ParseFailureKeepsUpload`).
- In process-audio.js a parse that rejects after the parser wrote
  files leaves those files in the scratch directory: no upload path was
  recorded, so the `finally` block removes nothing
  (`ProcessAudio.RejectedParseLeavesFiles`).
- In upload.js a form field named `__proto__` is dropped: `fields` is a
  plain object, and assigning a string to that name goes to the inherited
  setter, which ignores it (`Upload.ProtoNeverRecorded`).
- The worker for a job without a record fails reading `experiences` of
  `null`, and then writes a fresh record `{status: "failed", error}`
  (`Lifecycle.MissingJob`).
- The worker is not transactional. If the completed write fails after
  the result write, the result is stored while the record says `failed`
  (`Lifecycle.ResultWithFailedStatus`).
