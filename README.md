# font-kit upload pipeline in Dafny

font-kit is a web page where a user uploads a font file and then previews it.
The server validates the upload, reads the family name and the OpenType layout
features with a font parser, and stores the file in an object store behind a
CDN. It answers with the file's public URL, its format and the features, each
described from a built-in catalogue. The page shows an eased progress bar while
it waits. It tracks the stage of the pipeline in a status store and keeps the
last font in a store mirrored into the browser's local storage.

The model has one module per source file, plus two shared helper modules (`Decimal` and `Wrappers`):

- `FeatureCatalog` (`feature_catalog.dfy`): the feature catalogue and `getFeatureInfo`.
- `FontForm` (`font_form.dfy`): the form schema's three checks.
- `FontTypes` (`font_types.dfy`): the shapes `FontFeature`, `FontInfo` and `Font`.
- `UploadAction` (`upload_action.dfy`): the server action.
  - The font parser and the object store are parameters.
  - The action returns its answer together with the calls it made to them.
- `UploadProgress` (`upload_progress.dfy`): the duration estimate, the easing and the animator.
  - The animator is a class.
  - The host's animation-frame queue is held in its own fields.
- `UploadStatusStore` (`upload_status.dfy`): the status record and its transitions, as a class.
- `Decimal` (`decimal.dfy`): decimal digits, and the text a template literal gives a whole number below 10^21 in magnitude.
- `SavedFont` (`font_store.dfy`): the saved-font store, as a class over a map standing for local storage.
- `Wrappers` (`wrappers.dfy`): `Option` and `Result`.

Notes on behaviour the model follows:

- The comment above the stylistic-set pattern says `ss01`–`ss20`. The pattern `([0-1][0-9]|20|0[1-9])` also accepts `00`. The model follows the pattern: `ss00` and `cv00` select the generic entries (`FeatureCatalog.NumberedExamples`).
- The animator's default cap of 95 keeps it below 100 until `complete`. Rounding can still make it report the cap itself before the estimated duration has passed (`UploadProgress.CapReachedBeforeEnd`).
- `start` reads the clock twice: once for the start time, and again inside `animate`. The first value is 0 only when both readings agree; 1 ms apart with a 100 ms duration it is already 4 (`UploadProgress.FirstValueAfterClockGap`).
- A second `start` leaves the first frame chain scheduled. Only the newest frame is then named by `animationFrame`, so `complete` or `cancel` stops only that one (`UploadProgress.ProgressAnimator.Start`).
- `update` on the saved-font store changes the value without writing storage. A reload then restores the previously saved font (`SavedFont.FontStore.Update`).

## Model

| member | source | states |
|---|---|---|
| FeatureCatalog.SetNumberRange | src/lib/utils/feature-info.ts:614 | the number group accepts two digits exactly when their value is at most 20 (00 to 20) |
| FeatureCatalog.FeatureTable | src/lib/utils/feature-info.ts:6-607 | the 122 entries of `FEATURE_INFO`, each tag with its name and description, the two wildcards included |
| FeatureCatalog.IsSetNumber | src/lib/utils/feature-info.ts:614 | the number group of both patterns on exactly two characters: 0 or 1 then a digit, or 20, or 0 then 1 to 9 |
| FeatureCatalog.IsStylisticSetTag | src/lib/utils/feature-info.ts:614 | the anchored stylistic-set pattern: exactly `ss` followed by the two-character number group |
| FeatureCatalog.IsCharacterVariantTag | src/lib/utils/feature-info.ts:618 | the anchored character-variant pattern: exactly `cv` followed by the two-character number group |
| FeatureCatalog.PatternsAreNumberedTags | src/lib/utils/feature-info.ts:614-618 | each anchored pattern holds exactly for its prefix followed by a two-digit number from 00 to 20 |
| FeatureCatalog.CatalogKeys | src/lib/utils/feature-info.ts:6-607 | every catalogue key is a four-character tag starting with a lower-case letter that is not ss/cv plus a digit, or one of the two wildcards |
| FeatureCatalog.WildcardEntries | src/lib/utils/feature-info.ts:108-117 | `ss*` and `cv*` are entries holding the generic Stylistic Set and Character Variant descriptions |
| FeatureCatalog.NoNumberedKeys | src/lib/utils/feature-info.ts:611-621 | no tag matching either pattern is a catalogue key, so the patterns are only reached on a miss and never shadowed |
| FeatureCatalog.GetFeatureInfo | src/lib/utils/feature-info.ts:609-623 | a hit returns its entry; a numbered ss/cv tag returns the family entry; the result is null exactly when the tag is neither a key nor a numbered tag; every result is a catalogue entry |
| FeatureCatalog.ExactHitWins | src/lib/utils/feature-info.ts:532-536 | `ssty` resolves to its own Script Style entry, not to a stylistic set |
| FeatureCatalog.WildcardKeysResolve | src/lib/utils/feature-info.ts:611 | the wildcard keys themselves are found by the exact lookup |
| FeatureCatalog.NumberedExamples | src/lib/utils/feature-info.ts:614-621 | `ss00`, `ss20` and `cv07` give the generic family entries |
| FeatureCatalog.UnmatchedExamples | src/lib/utils/feature-info.ts:614-622 | `ss21`, `ss1`, `ss001`, `SS01` and `cv99` give null: anchored, two digits, case-sensitive, at most 20 |
| FontForm.Issues | src/lib/forms/font.ts:5-27 | a non-file fails only the file check; for a file each of the type and size messages appears exactly when its own check fails |
| FontForm.IsAllowedMimeType | src/lib/forms/font.ts:11-20 | the declared type is one of the eight listed strings, compared exactly |
| FontForm.IsWithinSizeLimit | src/lib/forms/font.ts:24 | the size is at most the 5 MiB limit, inclusive |
| FontForm.IsValid | src/lib/forms/font.ts:5-27 | the form is valid when no check reports an issue (`form.valid`) |
| FontForm.ValidIffAllChecksPass | src/lib/forms/font.ts:5-27 | the form is valid exactly when the value is a file of an allowed type and at most 5 MiB |
| FontForm.SizeLimitBoundary | src/lib/forms/font.ts:3 | 5242880 bytes pass and 5242881 bytes fail with the size message alone |
| FontForm.MimeTypeIsExact | src/lib/forms/font.ts:11-20 | the octet-stream type, the empty type, an upper-case type and a type with parameters are all rejected |
| FontForm.ChecksAreIndependent | src/lib/forms/font.ts:8-26 | the size check ignores the type and the type check ignores the size |
| UploadAction.ClassifyFormat | src/routes/+page.server.ts:68-75 | each format holds exactly when its own suffix does; the first match wins, and the unknown format holds when no suffix matches |
| UploadAction.FormatName | src/routes/+page.server.ts:68-75 | the format strings reported to the page: truetype, woff, woff2 and unknown |
| UploadAction.EndsWith | src/routes/+page.server.ts:69-74 | `endsWith`: the last characters of the name are exactly the suffix |
| UploadAction.SuffixesExclude | src/routes/+page.server.ts:69-74 | no name ends in two of the recognised suffixes |
| UploadAction.FormatExamples | src/routes/+page.server.ts:68-75 | `.otf` is truetype and `.woff2` is woff2; an upper-case `.TTF` is unknown |
| UploadAction.InsertionOrder | src/routes/+page.server.ts:40 | the iteration order of `new Set(names)`: each name at its first occurrence |
| UploadAction.FamilyNames | src/routes/+page.server.ts:40 | `fonts.map(f => f.familyName)`: one name per member, in order |
| UploadAction.InsertionOrderKeepsPrefix | src/routes/+page.server.ts:40 | building an insertion-ordered set keeps what it holds at the front and ends with exactly the names seen |
| UploadAction.FirstOfSetIsFirstName | src/routes/+page.server.ts:40 | the first value of the set of names is the first name, and the set is empty only for no names |
| UploadAction.CollectionFamily | src/routes/+page.server.ts:40-45 | a collection has a usable family exactly when its first member's family name is non-empty, and it is that name |
| UploadAction.ResolveFont | src/routes/+page.server.ts:36-52 | a face gives its own name and features; anything else gives `Unknown`; a collection resolves exactly when its first family is non-empty and `getFont` finds it, then with that face's features |
| UploadAction.EnrichFeatures | src/routes/+page.server.ts:95-98 | one entry per tag, in order, each pairing the tag with its catalogue lookup |
| UploadAction.HandleUpload | src/routes/+page.server.ts:25-110 | exits in order: invalid form gives 400 with no calls; unresolved collection gives 400 after parsing; store failure gives 500 after parsing and storing; otherwise success with the URL, name, file name, format and enriched features |
| UploadProgress.EstimateUploadDuration | src/lib/utils/upload-progress.ts:6-15 | the estimate is always between 1500 and 10000 milliseconds |
| UploadProgress.EstimateFloor | src/lib/utils/upload-progress.ts:12 | files of at most one second's worth of bytes get the 1.5 s minimum |
| UploadProgress.EstimateCeiling | src/lib/utils/upload-progress.ts:12 | files of at least 9.5 seconds' worth of bytes get the 10 s maximum |
| UploadProgress.EstimateBetween | src/lib/utils/upload-progress.ts:8-14 | in between, the estimate is the transfer time at 2.5 MiB/s plus 0.5 s |
| UploadProgress.EstimateMonotone | src/lib/utils/upload-progress.ts:6-15 | a larger file never gets a shorter estimate |
| UploadProgress.EaseOutQuart | src/lib/utils/upload-progress.ts:20-22 | `1 - (1 - t)^4` |
| UploadProgress.EaseEndpoints | src/lib/utils/upload-progress.ts:20-22 | the easing maps 0 to 0 and 1 to 1 |
| UploadProgress.EaseMonotone | src/lib/utils/upload-progress.ts:20-22 | on [0, 1] the easing stays within [0, 1] and never decreases |
| UploadProgress.Round | src/lib/utils/upload-progress.ts:41 | `Math.round`: the nearest whole number, halves rounded up |
| UploadProgress.RawProgress | src/lib/utils/upload-progress.ts:38 | `Math.min(elapsed / duration, 1)` |
| UploadProgress.EasedValue | src/lib/utils/upload-progress.ts:39-41 | the rounded eased share scaled by the cap |
| UploadProgress.TickValue | src/lib/utils/upload-progress.ts:37-41 | the value one frame reports for the time elapsed since the start |
| UploadProgress.RoundProperties | src/lib/utils/upload-progress.ts:41 | rounding keeps order and leaves whole numbers unchanged |
| UploadProgress.RawProgressMonotone | src/lib/utils/upload-progress.ts:38 | for non-negative elapsed time the share is within [0, 1] and grows with time |
| UploadProgress.RawProgressEnds | src/lib/utils/upload-progress.ts:38 | no elapsed time is a share of 0; the whole duration or more is a share of 1 |
| UploadProgress.RawProgressBelowOne | src/lib/utils/upload-progress.ts:38 | less than the whole duration is a share below 1 |
| UploadProgress.EasedAtZero | src/lib/utils/upload-progress.ts:39-41 | a share of 0 reports 0 |
| UploadProgress.EasedAtOne | src/lib/utils/upload-progress.ts:39-41 | a share of 1 reports exactly the cap |
| UploadProgress.EasedMonotone | src/lib/utils/upload-progress.ts:39-41 | reported values stay within [0, cap] and grow with the share |
| UploadProgress.TickBounds | src/lib/utils/upload-progress.ts:37-41 | every frame reports between 0 and the cap |
| UploadProgress.TickAtStart | src/lib/utils/upload-progress.ts:49-51 | the frame at the start reports 0 |
| UploadProgress.TickAtEnd | src/lib/utils/upload-progress.ts:37-43 | once the duration has passed, the share is 1 and the frame reports the cap |
| UploadProgress.TickMonotone | src/lib/utils/upload-progress.ts:37-41 | a later frame never reports less than an earlier one |
| UploadProgress.CapReachedBeforeEnd | src/lib/utils/upload-progress.ts:39-41 | with 1000 ms and cap 95, the frame at 900 ms already reports 95 |
| UploadProgress.ProgressAnimator.constructor | src/lib/utils/upload-progress.ts:28-34 | no frame is requested yet and nothing is reported |
| UploadProgress.ProgressAnimator.Animate | src/lib/utils/upload-progress.ts:36-46 | reports the eased value for the elapsed time; requests a new frame exactly while the share is below 1 |
| UploadProgress.ProgressAnimator.Start | src/lib/utils/upload-progress.ts:36-52 | records the first clock reading as the start time and reports the tick for the second reading; it requests a frame exactly when the share is below 1; equal readings report 0 and request a frame; an earlier frame stays scheduled |
| UploadProgress.ProgressAnimator.RunFrame | src/lib/utils/upload-progress.ts:36-46 | a host frame runs `animate` with the start time kept; while the share is below 1 it requests the next frame, once the duration has passed it reports the cap and requests nothing; one chain stays one chain; on a running animation with a clock that does not go back the reported value never decreases |
| UploadProgress.ProgressAnimator.Complete | src/lib/utils/upload-progress.ts:53-56 | cancels the named frame if there is one, keeps its id and reports 100; with one chain nothing stays scheduled |
| UploadProgress.ProgressAnimator.Cancel | src/lib/utils/upload-progress.ts:57-59 | cancels the named frame if there is one and reports nothing; with one chain nothing stays scheduled |
| UploadProgress.StartThenRunFrame | src/lib/utils/upload-progress.ts:36-52 | after a start and one host frame, two values that never fall and stay within the cap, the first 0 when the start's two clock readings agree; one frame pending before the duration has passed, none and the cap after |
| UploadProgress.FirstValueAfterClockGap | src/lib/utils/upload-progress.ts:50-51 | with 100 ms and cap 95, start's readings 1 ms apart make the first value 4, not 0 |
| Decimal.NatToString | src/lib/stores/upload-status.ts:46 | the text is a non-empty run of digits with no leading zero |
| Decimal.NatToStringRoundTrip | src/lib/stores/upload-status.ts:46 | reading the digits back gives the number |
| Decimal.IntToStringRoundTrip | src/lib/stores/upload-status.ts:46 | reading the signed text back gives the number |
| Decimal.IntToString | src/lib/stores/upload-status.ts:46 | `${n}` for a whole number: a minus sign before the digits of a negative one |
| UploadStatusStore.ProgressMessageRoundTrip | src/lib/stores/upload-status.ts:42-47 | a progress message can be read back to the progress it was written for |
| UploadStatusStore.ProgressMessage | src/lib/stores/upload-status.ts:46 | the stage text, a space, the number and `%`, as in both progress updates |
| UploadStatusStore.StatusStore.constructor | src/lib/stores/upload-status.ts:21-28 | starts idle at 0 with an empty message |
| UploadStatusStore.StatusStore.StartUpload | src/lib/stores/upload-status.ts:33-40 | the whole new uploading record, with file size and start time, well-formed |
| UploadStatusStore.StatusStore.UpdateUploadProgress | src/lib/stores/upload-status.ts:42-47 | only progress and message change; the message carries the progress; well-formedness is kept |
| UploadStatusStore.StatusStore.StartProcessing | src/lib/stores/upload-status.ts:49-54 | the whole new processing record, without the optional fields |
| UploadStatusStore.StatusStore.StartSaving | src/lib/stores/upload-status.ts:56-63 | the whole new saving record, with file size and start time |
| UploadStatusStore.StatusStore.UpdateSavingProgress | src/lib/stores/upload-status.ts:65-70 | only progress and message change; the message carries the progress; well-formedness is kept |
| UploadStatusStore.StatusStore.StartLoadingFont | src/lib/stores/upload-status.ts:72-77 | the whole new loading record, without the optional fields |
| UploadStatusStore.StatusStore.Complete | src/lib/stores/upload-status.ts:79-84 | the complete record at 100 with `Font ready!` |
| UploadStatusStore.StatusStore.Fail | src/lib/stores/upload-status.ts:86-92 | `error` (named `Fail` because `Error` is a stage): the error record with the fixed message and the cause in the error field |
| UploadStatusStore.StatusStore.Reset | src/lib/stores/upload-status.ts:94 | back to the initial record |
| SavedFont.SaveThenLoad | src/lib/stores/font-store.ts:15-24 | with a round-tripping codec, a saved font loads back and a removed key loads null |
| SavedFont.DroppedEntryLoadsNull | src/lib/stores/font-store.ts:35-46 | after an unparsable entry is dropped, the next load is null and drops nothing |
| SavedFont.LoadedFont | src/lib/stores/font-store.ts:35-46 | the value `loadFromStorage` returns: the parsed entry when it is present, non-empty and parses; otherwise null |
| SavedFont.LoadDropsEntry | src/lib/stores/font-store.ts:36-44 | the load removes the entry exactly when it is present, non-empty and does not parse |
| SavedFont.FontStore.constructor | src/lib/stores/font-store.ts:9 | in a browser the initial value is what storage loads; otherwise null |
| SavedFont.FontStore.LoadFromStorage | src/lib/stores/font-store.ts:35-46 | returns the parsed entry, or null when it is missing, empty or unparsable; removes it only when it does not parse |
| SavedFont.FontStore.Set | src/lib/stores/font-store.ts:15-24 | in a browser a font is written under the key and null removes it, no other key changes; the value becomes the font, and storage then loads it back |
| SavedFont.FontStore.Update | src/lib/stores/font-store.ts:25 | the value is transformed and storage is untouched |
| SavedFont.FontStore.Clear | src/lib/stores/font-store.ts:26-31 | in a browser the key is removed and storage then loads null; the value is null |

## Left out

- The font parser (`fontkit.create`) is a parameter returning a face, a collection or neither. The model does not cover a parser that throws on malformed bytes, which the action does not catch.
- A family name that is null or undefined is left out: names are strings, and only the empty string is falsy.
- An object without `availableFeatures` is left out. In the source, iterating it would throw after the file is stored.
- The object store is a parameter that either stores or fails. The client setup, the ACL, the expiry header and `console.error` are not modelled, nor is the shape of the error.
- The form library's other issue details, the form object returned with each failure, and the `console.log` in the type check are not modelled.
- `FeatureCatalog.GetFeatureInfo`: JavaScript objects inherit keys such as `constructor` and `toString`. In the source these return a truthy non-entry; the model's table holds only its own entries, so they give null.
- `UploadProgress.TickValue` and the animator: numbers are exact reals, not IEEE doubles, and the clock is whole milliseconds.
- `UploadProgress.ProgressAnimator.constructor`: it requires a positive duration. A zero duration divides by zero in the source; the estimate always yields at least 1500 ms.
- `UploadProgress.ProgressAnimator.RunFrame`: the host runs only frames that are scheduled, and the callback `onProgress` is recorded as the sequence of reported values.
- `UploadStatusStore.StatusStore.UpdateUploadProgress` and `UpdateSavingProgress`: progress is a whole number. A fractional number would render with a decimal point.
- `SavedFont.FontStore`: `JSON.stringify` and `JSON.parse` are parameters. `JSON.parse` is taken to return a `Font`, because the source casts without checking the shape.
- Store subscription (Svelte's `subscribe`) and the notification of subscribers are not modelled.
- `Date.now()` is a parameter of the operations that read it.
- `Decimal.IntToString`: it gives the text of `${n}` only for whole numbers below 10^21 in magnitude, where JavaScript switches to exponent notation (`1e+21`). It is also exact only up to 2^53, beyond which JavaScript numbers lose whole-number precision.
- `UploadProgress.EasedAtOne` and `UploadProgress.TickAtEnd`: the cap `maxProgress` is a whole number. With a fractional cap the source's last frame reports the cap rounded, not the cap.
- `SavedFont.FontStore.Set`: local storage never fails in the model. In the source `setItem` can throw (a full quota, say); the value is then not updated. A second failure inside the load's `catch`, when `removeItem` runs again, is not modelled either.
