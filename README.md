# MediaConverter core in Dafny

A verified model of the core of MediaConverter, a SvelteKit page that converts audio, image
and video files in the browser with ffmpeg.wasm and keeps the results in an IndexedDB cache
that has a size budget. The model follows the TypeScript of `src/lib` file by file:

- `media.dfy` (module `Media`): the format registry of `media.ts`. It holds the tag list of
  each media type, `inferMediaType`, the base, advanced and extended drop-down lists, the MIME
  table and `getMimeType`. Everything is constants and total functions, with the lemmas the
  tables satisfy.
- `ffmpeg.dfy` (module `Ffmpeg`): `init`, `convertFile` and `batchConvert` from `ffmpeg.ts`.
  - The module variable and its engine are a class `Engine`. It records whether an instance
    exists, whether that instance loaded, its virtual file system and the commands it was given.
  - Each method is proved equal to a spec function on an `EngineState` value: `InitSpec`,
    `StagedConvert`, `ConvertSpec`, `BatchSpec`.
  - The output name is `Stem` and friends. The argument array is `Command`, which is built
    push by push in `BuildCommand`.
  - The batch loop is `Chain`, a fold that stops at the first failure.
- `storage.dfy` (module `Storage`): the stores and operations of `storage.ts`, as a class
  `MediaCache` whose `db` field is the object store (an id-keyed map).
  - The sort of `enforceStorageLimit` is `SortNewestFirst`.
  - Its splice-inside-`for…of` loop is the method `EvictSorted`. It is proved equal to the
    spec function `Evict`.
- `grouping.dfy` (module `Grouping`): the `reduce` into a dictionary of lists that both
  `groupMediaByField` and `groupConvertedMedia` perform, as a loop method `GroupBy` proved
  against `Select`.
- `utils.dfy` (module `Utils`): `getDateGroup`, `groupConvertedMedia`, `updateFormatOptions`,
  and the MIME classification of `updatePreview`. The page stores that these functions set are
  the fields of the class `ConverterUi`; the preview URL, which `updatePreview` receives as a
  Writable argument, is a field of it too.
- `wrappers.dfy` (module `Wrappers`): `Option`, `Result` and `Min`.

Parameters stand in for foreign behaviour:

- the reason `ffmpeg.load` rejects, if it does;
- the files the engine leaves in its file system while it runs a command;
- how many `put` requests succeed before one rejects;
- whether a `delete` or `clear` request succeeds;
- what `getAll` resolved with;
- the current time;
- the object URL of a preview.

## Model

| member | source | states |
|---|---|---|
| Media.FormatListsDisjoint | src/lib/media.ts:1-57 | no tag is in two of the audio, image and video lists |
| Media.IsAudioFormat | src/lib/media.ts:65-67 | membership in the audio tag list; with `FormatListsDisjoint`, an audio tag is no other type's |
| Media.IsImageFormat | src/lib/media.ts:69-71 | membership in the image tag list |
| Media.IsVideoFormat | src/lib/media.ts:73-75 | membership in the video tag list |
| Media.InferMediaType | src/lib/media.ts:77-88 | succeeds exactly on registered tags, and the tag is then in the list of the returned type; any other tag gives the Unknown Media Format error naming the tag |
| Media.InferMediaTypeOwner | src/lib/media.ts:77-88 | a tag of type t is inferred as t, and t is the only type whose list has it |
| Media.ExtendedIsBaseThenAdvanced | src/lib/media.ts:91-177 | each extended list is its base list followed by its advanced list, so the base list is a proper prefix |
| Media.OptionValuesRegistered | src/lib/media.ts:91-177 | every value offered in a base or extended list of a type is a registered tag of that type |
| Media.AdvancedAudioRepeats | src/lib/media.ts:149-173 | the advanced audio list has 23 entries and repeats WMA (at positions 1 and 22, counting from 0) and WV (at positions 13 and 21) |
| Media.AvifNeverOffered | src/lib/media.ts:91-177 | `avif` is a registered image tag, yet no list of any type offers it |
| Media.MimeTablesCoverFormats | src/lib/media.ts:184-251 | the MIME table of each type has exactly the tags of that type as keys |
| Media.GetMimeType | src/lib/media.ts:253-264 | defined exactly on registered tags, and then the entry for the tag in the table of the type `InferMediaType` gives it; otherwise the Unknown Media Format error |
| Media.AudioMimePrefix | src/lib/media.ts:185-211 | every audio tag's MIME type starts with `audio/` |
| Media.ImageMimePrefix | src/lib/media.ts:212-222 | every image tag's MIME type starts with `image/` |
| Media.VideoMimePrefix | src/lib/media.ts:223-250 | every video tag's MIME type starts with `video/`, except `rm`, `swf` and `rmvb`, whose MIME types start with `application/` |
| Grouping.GroupBy | src/lib/storage.ts:132-142 | throws exactly when some key is a property name a plain object inherits; otherwise a group exists exactly for each key that occurs, and it is non-empty and holds the items with that key, in input order |
| Grouping.Select | src/lib/storage.ts:132-142 | the group a key receives: the items with that key, in input order; `SelectMembers`, `SelectCounts` and `SelectIsSubsequence` characterise it |
| Grouping.ItemInExactlyOneGroup | src/lib/storage.ts:132-142 | every item is in the group of its own key and in no other group |
| Grouping.SelectMembers | src/lib/storage.ts:132-142 | a group holds only input items that have its key |
| Grouping.SelectCounts | src/lib/storage.ts:132-142 | a group holds each input item with its key as many times as the input does |
| Grouping.SelectIsSubsequence | src/lib/storage.ts:132-142 | a group keeps the input order |
| Ffmpeg.Stem | src/lib/ffmpeg.ts:48 | `split('.')[0]` is a prefix of the name without a dot, followed in the name by a dot unless it is the whole name |
| Ffmpeg.OutputFileName | src/lib/ffmpeg.ts:48 | the stem followed by `-converted.` and the format; `OutputFileNameShape` states its properties |
| Ffmpeg.StemUnique | src/lib/ffmpeg.ts:48 | no other prefix has those three properties |
| Ffmpeg.OutputFileNameShape | src/lib/ffmpeg.ts:48 | a name without a dot is kept whole before `-converted.<format>`, and the output name never equals the input name |
| Ffmpeg.OutputFileNameExample | src/lib/ffmpeg.ts:48 | `a.b.mp4` converted to `webm` is named `a-converted.webm` |
| Ffmpeg.Command | src/lib/ffmpeg.ts:55-74 | the command starts with `-i` and the input name, ends with the output name after one `-c:v` pair holding the given codec or `libx264`, and has length 5 + 2·[resolution given] + 2·[bitrate given] |
| Ffmpeg.CommandRoundTrip | src/lib/ffmpeg.ts:55-74 | reading the command back yields the input, the resolution and the bitrate exactly when they are non-empty, the codec or `libx264`, and the output |
| Ffmpeg.BuildCommand | src/lib/ffmpeg.ts:55-74 | the push-by-push construction yields `Command` |
| Ffmpeg.InitSpec | src/lib/ffmpeg.ts:12-27 | with an instance already set, nothing changes and `init` resolves; otherwise exactly one instance is constructed and loaded once, and it is usable exactly when the load resolves |
| Ffmpeg.StagedConvert | src/lib/ffmpeg.ts:44-91 | the part of `convertFile` after `init`: stage the input, run the command, read the output and delete both files only when it is binary; `StagedConvertSpec` states its properties |
| Ffmpeg.ConvertSpec | src/lib/ffmpeg.ts:38-92 | `convertFile`: `InitSpec`, then `StagedConvert` unless `init` rejected; `PoisonedInstanceNeverRecovers` is about it |
| Ffmpeg.Chain | src/lib/ffmpeg.ts:110-118 | the `for…of` loop of `batchConvert`: convert each file in turn from the state the previous one left, stop at the first rejection, and collect the bytes in order; `ChainInOrder`, `ChainAppend`, `ChainStopsAtFailure` and `ChainSnoc` state its properties |
| Ffmpeg.BatchSpec | src/lib/ffmpeg.ts:101-119 | `batchConvert`: `InitSpec`, then `Chain` over the files unless `init` rejected |
| Ffmpeg.PoisonedInstanceNeverRecovers | src/lib/ffmpeg.ts:12-27 | once the instance variable holds an instance whose load failed, every conversion rejects and changes nothing |
| Ffmpeg.StagedConvertSpec | src/lib/ffmpeg.ts:48-91 | on a loaded instance a conversion runs exactly one command; it succeeds exactly when the output read back is binary, and then it returns those bytes under the output name with both staged files deleted; when it rejects after staging, the file system stays as staged, input file included |
| Ffmpeg.ConvertOneCommand | src/lib/ffmpeg.ts:111-112 | a conversion inside a batch gives the engine at most the command for its own file, and that command whenever it succeeds |
| Ffmpeg.CommandsForEach | src/lib/ffmpeg.ts:111-112 | the k-th command of a fully attempted batch is the command for the k-th file |
| Ffmpeg.ChainInOrder | src/lib/ffmpeg.ts:110-118 | the commands a batch gives the engine are always the first ones of the fully attempted batch; on success there is one result per file and all commands were given |
| Ffmpeg.ConvertEachInOrder | src/lib/ffmpeg.ts:101-119 | `batchConvert` runs its files strictly in order, as `ChainInOrder` states |
| Ffmpeg.ChainAppend | src/lib/ffmpeg.ts:110-118 | converting a + b is converting a and then, only when all of a succeeded, b from where a left the engine, with the results of a first |
| Ffmpeg.ChainStopsAtFailure | src/lib/ffmpeg.ts:110-118 | after the first file that rejects, later files are never attempted: they change neither the outcome nor the engine |
| Ffmpeg.ChainSnoc | src/lib/ffmpeg.ts:111-117 | after a prefix that succeeded, the next file decides the outcome: its conversion's error, or the results so far followed by its bytes |
| Ffmpeg.Engine.constructor | src/lib/ffmpeg.ts:7 | no instance, nothing loaded, an empty file system, and no commands |
| Ffmpeg.Engine.Init | src/lib/ffmpeg.ts:12-27 | the new state and the outcome are those of `InitSpec` |
| Ffmpeg.Engine.WriteFile | src/lib/ffmpeg.ts:51 | the file system gains the input bytes under the input name |
| Ffmpeg.Engine.Exec | src/lib/ffmpeg.ts:78 | the command is appended to the log, and the files the engine writes are added |
| Ffmpeg.Engine.ReadFile | src/lib/ffmpeg.ts:82 | returns the file under the name, or rejects when there is none |
| Ffmpeg.Engine.DeleteFile | src/lib/ffmpeg.ts:88-89 | the name is removed from the file system |
| Ffmpeg.Engine.RunStaged | src/lib/ffmpeg.ts:44-91 | the new state and the outcome are those of `StagedConvert` |
| Ffmpeg.Engine.ConvertFile | src/lib/ffmpeg.ts:38-92 | the new state and the outcome are those of `ConvertSpec` |
| Ffmpeg.Engine.ConvertInOrder | src/lib/ffmpeg.ts:110-118 | the new state and the outcome are those of `Chain` over the batch |
| Ffmpeg.Engine.BatchConvert | src/lib/ffmpeg.ts:101-119 | the new state and the outcome are those of `BatchSpec` |
| Storage.Insert | src/lib/storage.ts:80 | inserting adds exactly the one item |
| Storage.SortNewestFirst | src/lib/storage.ts:80 | the copy is sorted newest first and is a permutation of the items |
| Storage.SortIsStable | src/lib/storage.ts:80 | items with the same date keep their relative order |
| Storage.Evict | src/lib/storage.ts:83-89 | the splicing loop as written: each visited item is counted, one that takes the total past the limit is removed and the item after it is skipped; `EvictIsSubsequence`, `EvictKeepsPrefixWithinBudget` and `SpliceKeepsOverBudget` state its properties |
| Storage.EvictIsSubsequence | src/lib/storage.ts:83-91 | the survivors are a subsequence of the sorted copy |
| Storage.EvictKeepsPrefixWithinBudget | src/lib/storage.ts:83-89 | every newest-first prefix whose total size fits the limit survives |
| Storage.SpliceKeepsOverBudget | src/lib/storage.ts:83-89 | four 40 MB items with a 100 MB limit keep items 1, 2 and 4 (120 MB), and a second pass removes item 4 |
| Storage.TruncateToBudget | src/lib/storage.ts:83-89 | the intended eviction keeps a prefix of the sorted copy |
| Storage.TruncateToBudgetSpec | src/lib/storage.ts:83-89 | the intended eviction's survivors fit the limit; an item is removed only when keeping the prefix up to it would exceed the limit; a second pass changes nothing |
| Storage.TruncateKeepsPrefixWithinBudget | src/lib/storage.ts:83-89 | the intended eviction also keeps every prefix that fits |
| Storage.EvictSorted | src/lib/storage.ts:83-89 | the loop that splices at the iterator's cursor yields `Evict` of the sorted copy |
| Storage.PutAll | src/lib/storage.ts:29-34 | one `put` per item, in order, each replacing the record under the item's id; the `PutAll…` lemmas state its properties |
| Storage.PutAllKeys | src/lib/storage.ts:29-34 | after the puts the store holds its old ids and the ids of the items, and no others |
| Storage.PutAllKeepsIds | src/lib/storage.ts:29-34 | puts never remove a record |
| Storage.PutAllLastWins | src/lib/storage.ts:29-34 | each id ends up under the last item that carries it |
| Storage.PutAllUntouched | src/lib/storage.ts:29-34 | an id no item carries keeps its old record |
| Storage.ListingCoversStore | src/lib/storage.ts:18-19 | a `getAll` listing holds every record of the store |
| Storage.WithoutId | src/lib/storage.ts:47 | `filter((item) => item.id !== id)`; `WithoutIdSpec` states its properties |
| Storage.FieldKey | src/lib/storage.ts:134 | `item[field]` as a property key: the string fields themselves, `[object Blob]` for the blob, the decimal text of the size, and the media type and date through their string conversions |
| Storage.WithoutIdSpec | src/lib/storage.ts:47 | the filter removes every item with the id, and keeps every other item in order and as often as it occurred |
| Storage.MediaCache.constructor | src/lib/storage.ts:6-11 | empty memory and grouping, a 100 MB limit, persistence on, over the existing store |
| Storage.MediaCache.LoadConvertedMediaFromStorage | src/lib/storage.ts:16-24 | memory becomes the listing of the store, or stays as it was when `getAll` rejects |
| Storage.MediaCache.SaveConvertedMediaToStorage | src/lib/storage.ts:29-39 | the store receives, in order, the puts of the in-memory items up to the first that rejects |
| Storage.MediaCache.DeleteMediaItem | src/lib/storage.ts:45-54 | memory loses every item with the id even when the store's delete rejects; the store loses the id only when the delete succeeds |
| Storage.MediaCache.DeleteAllMedia | src/lib/storage.ts:59-68 | memory is emptied, and the store too when `clear` succeeds |
| Storage.MediaCache.EnforceStorageLimit | src/lib/storage.ts:73-100 | memory becomes `Evict` of the newest-first copy against limit × 1024 × 1024; with persistence on, the survivors are put; no record is ever removed from the store |
| Storage.MediaCache.TogglePersistMedia | src/lib/storage.ts:113-125 | with the flag on, memory is saved and kept; with it off, memory is emptied and the store is cleared when `clear` succeeds |
| Storage.MediaCache.GroupMediaByField | src/lib/storage.ts:130-145 | when some item's key is a property name a plain object inherits (such as `constructor` or `toString`), the `reduce` throws and the grouping store is unchanged; otherwise it has one group per field value that occurs, holding the items with that value in memory order |
| Utils.DateGroup | src/lib/utils.ts:61-78 | for a whole-day difference d: Today exactly when d = 0, Yesterday exactly when d = 1, Last Week exactly for the other d < 7, Last Month exactly for 7 ≤ d < 30, Older exactly for d ≥ 30 |
| Utils.Day | src/lib/utils.ts:65-66 | the calendar day of a time, with the time of day dropped; `TimeOfDayIgnored` is about it |
| Utils.FutureIsLastWeek | src/lib/utils.ts:73-75 | a date after today is labelled Last Week |
| Utils.TimeOfDayIgnored | src/lib/utils.ts:65-66 | every moment of a calendar day gets the same label |
| Utils.DateGroupChronological | src/lib/utils.ts:61-78 | for dates up to today, an older date never gets a newer label |
| Utils.LabelsNotInherited | src/lib/utils.ts:83-87 | no label is an inherited property name, so the `reduce` of `groupConvertedMedia` never throws |
| Utils.GroupConvertedMedia | src/lib/utils.ts:80-94 | a group exists exactly for each label that occurs; it is non-empty, has one of the five labels, and holds the items with that label in input order |
| Utils.OptionsFor | src/lib/utils.ts:41-59 | no type gives no options; a type gives its extended list in advanced mode and its base list otherwise; every value offered is inferred back as the selected type |
| Utils.ClassifyMime | src/lib/utils.ts:22-34 | image, video or audio exactly when the MIME type has that prefix, and none when it has none of the three |
| Utils.RegistryMimeClassifies | src/lib/utils.ts:22-34 | the registry's MIME type of a tag is classified as the tag's own type, except `rm`, `swf` and `rmvb`, which get no type |
| Utils.ConverterUi.constructor | src/lib/stores.ts:6-10 | no media type, basic mode and no options, the defaults of the stores; and no preview |
| Utils.ConverterUi.UpdatePreview | src/lib/utils.ts:19-39 | an empty selection gives no type; otherwise the first file's MIME type is classified; a preview is set exactly when a type is, and it is the file's object URL |
| Utils.ConverterUi.UpdateFormatOptions | src/lib/utils.ts:41-59 | the options become `OptionsFor` the selected type and mode |

## Left out

- `formatMediaFileSize` and `src/lib/mediaFileSizeFormatter.ts` are not modelled: they use
  floating point (`Math.log`, division, `toFixed`).
- `src/lib/indexedDB.ts`: the object store is an id-keyed map in a field of `MediaCache`. The
  connection caching and the request callbacks are not modelled. A failed request is a
  parameter.
- `Storage.MediaCache.LoadConvertedMediaFromStorage`: the order of the `getAll` listing is
  left open. The model only requires one item per record, under its own id.
- The engine internals are foreign code. This covers `fetchFile`, `toBlobURL`, the CDN
  download and the log handler of `init`. The model observes the engine only through its
  instance flag, load flag, file system and command log. What a command writes is a
  parameter.
- `exec`'s exit code is not modelled, because `convertFile` ignores it. An `exec`, `writeFile`
  or `deleteFile` that rejects on a loaded instance is not modelled either.
- The `if (!ffmpeg)` checks of `convertFile` and `batchConvert` are left out. They cannot
  fire after `init` has returned, because `init` always sets the variable.
- The `typeof convertedFile === 'string'` check in `batchConvert` is left out for the same
  reason: `convertFile` never returns a string.
- Toasts, `console` and the `localStorage` writes are not modelled. They are side channels,
  so `togglePersistMedia` is modelled without its `localStorage.setItem`.
- `updateStorageLimit` is not modelled separately. It only starts `enforceStorageLimit` and
  writes to `localStorage`.
- `downloadAllMedia` and `copyMediaToClipboard` are not modelled: they use JSZip, the DOM and
  the Clipboard API.
- `URL.createObjectURL` is foreign. It is the `objectUrl` parameter of `UpdatePreview`.
- Time handling:
  - Dates are integer milliseconds, already shifted to local time.
  - A calendar day is `ms / 86400000`.
  - Time zones are not modelled. Nor are days of 23 or 25 hours around a daylight-saving
    change, where the real `diffDays` is not a whole number.
- Invalid dates and their `NaN` comparisons are not modelled.
- `Utils.GroupConvertedMedia`: `getDateGroup` reads the clock once per item. The model labels
  every item against one `now`, so it does not capture a batch that straddles midnight.
- Sizes are natural numbers and the limit is an integer. A fractional or `NaN` limit is not
  modelled.
- `Storage.EvictSorted`: `indexOf(item)` is modelled as the position of the loop's cursor. This
  holds because the items are distinct objects. Reference identity itself is not modelled.
- `Storage.MediaCache.GroupMediaByField`: the groups are a map, so the key order of the
  JavaScript object is lost (integer-like keys, such as sizes, first in ascending order, then
  the others in insertion order). The same holds for `Utils.GroupConvertedMedia`.
- `Storage.FieldKey`: the key of the `type` field is the string of the media type enumeration,
  which lives in a file that is not part of this model. The key of the `date` field is
  `Date.prototype.toString`, which depends on the locale. Both are parameters.
- The subscriptions of the Svelte stores are not modelled. Nor is any interleaving of the
  async functions: each one is one sequential step.

## Where the code differs from the intended design

The model follows the code in each of these cases:

- **Failed load:** a failed engine load was meant to discard the instance so that the next
  call loads afresh. In the code the instance variable stays set, so every later conversion
  rejects (`Ffmpeg.PoisonedInstanceNeverRecovers`).
- **Batch failures:** batches were meant to isolate failures. `batchConvert` stops at the
  first failure instead (`Ffmpeg.ChainStopsAtFailure`).
- **Cleanup:** cleanup of staged files was meant to happen on every exit path. The code
  deletes only on success (`Ffmpeg.StagedConvertSpec`).
- **Evicted records:** eviction was meant to remove the records of evicted items from the
  store. The code only puts the survivors, so evicted records stay
  (`Storage.MediaCache.EnforceStorageLimit`).
- **Toggling persistence off:** turning persistence off calls `deleteAllMedia`, which also
  empties memory (`Storage.MediaCache.TogglePersistMedia`).

## Findings

| source | as written | input that shows it | evidently intended | confidence | as-written member | corrected member |
|---|---|---|---|---|---|---|
| src/lib/storage.ts:83-89 | `splice` inside `for…of` over the same array skips the item after each removed one; that item stays unexamined and uncounted | four items of 40 MB each, newest first, with a 100 MB limit: items 1, 2 and 4 survive, 120 MB in all, and a second pass removes item 4 | remove every item from the first one that takes the running total over the limit, so the survivors fit and a second pass changes nothing | high; not executed | Storage.SpliceKeepsOverBudget | Storage.TruncateToBudgetSpec |
