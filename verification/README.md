# Filetag upload core in Dafny

A model of the core of the Filetag upload service: the
transaction counter that decides when a multi-file upload is complete, the
`uploadFiles` callback that drives it, the aggregation of a session's file
shortcuts into a zip shortcut, the dispatch of a download request, and the
`Directory` record with its in-memory `Directories` store.

Everything is pure: the transaction map and the three directory indexes
are immutable maps, and each operation returns the new state together with
what the JavaScript function returns. Node runs each function body on one
thread without interruption, so each body is one step of the model. An
`uploadFiles` callback is not one body, though: its length announcement
runs when the callback starts (app.js:432), while its completion runs in
the write stream's `'finish'` handler (app.js:469-482), after the
asynchronous `make`. The model therefore splits a callback into
`Upload.Announce` and `Upload.Finish`, and other callbacks may run between
the two.

Modules, one per concern:

- `Env` (env.dfy): `undefined` as `None`, string truthiness, the text a
  value becomes as an object key (`undefined` becomes `"undefined"`), and the
  `Host` collaborators that are inputs here: `path.join`, `path.basename`,
  `utilities.getKeyFromString`, `utilities.getGuidFromString` and the two
  configured roots.
- `Delimited` (delimited.dfy): JavaScript `split` and `join` with `';'`.
- `Transactions` (transactions.dfy): `transactionMap` and its four functions.
- `DirectoryRecord` (directory_record.dfy): the `Directory` constructor,
  `import`/`export` and `make`.
- `DirectoryStore` (directory_store.dfy): `Directories.get`,
  `getBySessionId`, `getByOwnerUserId` and `set`.
- `Shortcuts` (shortcuts.dfy): the aggregation in `notify_uploadCompletion`
  and the dispatch in `downloadFile`.
- `Upload` (upload.dfy): the two halves of an `uploadFiles` callback.

Behaviour of the code worth knowing, all modelled as written:

- A completion on an id with no record creates `{0, 0}` (app.js:311-316),
  decrements it to -1, removes it and reports closure (app.js:355-362).
  Completing an id that is already closed therefore reports closure again.
  When three completions of a two-part transaction all follow its
  announcements, the upload is reported complete twice.
- A later `setTransactionByTransactionId` on an open transaction changes
  only `length` (app.js:331-335). Closure is driven by `remains`, which keeps
  the count of the first non-zero announcement.
- `remains` is seeded whenever the stored `length` is 0 (app.js:331-333),
  not only on the first call for an id.
- The archive content type is `'zip'`, and its destinations are joined
  with `';'` (app.js:646-662).

## Model

| member | source | states |
|---|---|---|
| Transactions.Get | app.js:305-322 | An undefined id changes nothing and yields nothing. A known id yields its record and leaves the map alone. An unknown id gets a `{0, 0}` record. No other id is touched. |
| Transactions.SetLength | app.js:324-339 | An undefined id or length changes nothing. Otherwise the id holds the new length. `remains` is seeded from that length only when the id had no record or its length was 0, and is left untouched otherwise. No other id changes. |
| Transactions.Remove | app.js:341-349 | An undefined id changes nothing. Otherwise the id has no record afterwards and no other id changes. |
| Transactions.Complete | app.js:351-368 | An undefined id changes nothing and returns undefined. Otherwise it reports closure exactly when `remains` was at most 1, an absent id counting as 0. After a closure the id has no record. Without closure, `remains` dropped by exactly 1 and `length` is unchanged. No other id changes. |
| Transactions.ClosureSchedule | app.js:351-368 | For any number n of completions of one id, call i (from 0) reports closure exactly when i + 1 reaches the original `remains`. The record survives exactly while `remains` exceeds n, with `remains` reduced by n. Other ids are untouched. |
| Transactions.FreshTransactionClosesOnLast | app.js:324-368 | After announcing n ≥ 1 parts on an unknown id, the first n − 1 completions report false and the n-th reports true. The id is then gone and the map is as before the announcement. |
| Transactions.StaleIdClosesAgain | app.js:351-362 | Completing an id that has no record (never announced, or already closed) reports closure and leaves the map unchanged. |
| Transactions.AnnouncedThriceClosesTwice | app.js:311-368 | Three announcements of two parts on an unknown id, then three completions: false, true, true. The map ends as it began. |
| Transactions.AlternatingClosesOnce | app.js:311-368 | Three announcements of two parts on an unknown id, each followed at once by a completion: false, true, false. A record `{2, 1}` is left behind. |
| Transactions.ReannouncingKeepsSchedule | app.js:329-335 | Re-announcing an open transaction, one whose length is non-zero, with any length leaves the closure answers of every later run of completions unchanged. |
| Transactions.ApplyIsLocal | app.js:305-368 | One set or complete call on an id reads and writes only that id's record. Its answer depends only on that record. |
| Transactions.Isolation | app.js:305-368 | In any interleaving of set and complete calls over many ids, the final record of an id and every answer given for it equal those of running only the calls naming that id. |
| Delimited.Split | app.js:405 | `split(';')` always yields at least one piece and no piece contains the separator. Text without a separator yields itself alone. |
| Delimited.SplitJoin | app.js:652-653 | Joining a non-empty list of separator-free pieces with `';'` and splitting it again gives back the list. |
| Delimited.JoinSplit | app.js:405 | Joining the pieces of any split gives back the text. |
| Shortcuts.FileShortcuts | app.js:648-651 | The kept shortcuts are exactly those of the session whose content type is `'file'`, and no others. |
| Shortcuts.FileShortcutsAppend | app.js:648-651 | Filtering keeps iteration order: the files of two consecutive runs of shortcuts are the files of the first followed by the files of the second. |
| Shortcuts.AppendDestination | app.js:651-653 | Adding a file shortcut adds its destination to the aggregated list. A `';'` goes before it exactly when the list so far is non-empty, and the result still matches the join of the member destinations without leading empties. |
| Shortcuts.CollectSessionFiles | app.js:646-662 | The loop keeps exactly the session's file shortcuts, in order. The destination list equals the members' destinations joined by `';'`, with empty leading destinations leaving no trace. When every destination is non-empty and free of `';'`, splitting the list on `';'` gives back each member's destination. |
| Shortcuts.ZipDestinationsRoundTrip | app.js:646-662 | For at least one member with non-empty, `';'`-free destinations, the aggregated list splits back into exactly those destinations in order. |
| Shortcuts.ZipFileName | app.js:626-630 | The archive name is the recipient's address, then `_`, then the timestamp, then `.zip`, with nothing else in between. |
| Shortcuts.NotifyUploadCompletion | app.js:632-681 | A session with no shortcut group gets no notice. Otherwise the notice lists the session's file shortcuts, and a zip shortcut is requested if and only if there are more than one. That zip shortcut carries the aggregated destinations, the generated archive name and the session id. |
| Shortcuts.DownloadFile | app.js:370-418 | A key that does not normalise gets 500. A normalised key with no shortcut gets 404, and only that case gets 404. A falsy destination gets 500. `'file'` sends exactly one path under the app root. `'zip'` sends one (joined path, basename) entry per `';'` segment, in order, named after the shortcut. Any other type gets 500. |
| Shortcuts.ZipDownloadServesEachFile | app.js:400-412 | Downloading a zip shortcut whose destination list was aggregated from files with clean destinations serves exactly one entry per member file, in member order. |
| DirectoryRecord.NewDirectory | res/directories.js:7-31 | Every field that props define is kept. The id is props' truthy `_id`, else props' `directoryid`, else the generated id. The physical path defaults to the generated id under the upload root. Other defaults: creation time is the clock, size 0, no public upload or download, enabled. Both id and path are always defined. |
| DirectoryRecord.Import | res/directories.js:84-101 | `import` takes the id from a truthy `_id`, else from `directoryid`, and copies the other twelve fields unchanged. Its partners are ImportAcceptsEitherId and DocumentRoundTrip. |
| DirectoryRecord.Export | res/directories.js:102-120 | `export` writes the id only as `_id`. Reading the document back with `import` reproduces the Directory if and only if its id is not the empty string. |
| DirectoryRecord.DocumentRoundTrip | res/directories.js:84-120 | A document read by `import` and written back by `export` is unchanged exactly when it has no `directoryid` field and its `_id` is not the empty string. |
| DirectoryRecord.DefaultPathFollowsGeneratedId | res/directories.js:10-31 | Without a path in props, the physical path is `_generatePhysicalPath` of the generated id. It stays so even when props supply their own `_id` or `directoryid`. |
| DirectoryRecord.ExportImportRoundTrip | res/directories.js:84-120 | `import(export(d))` reproduces every field of d if and only if d's id is not the empty string. An empty id is falsy as `_id` and comes back undefined. |
| DirectoryRecord.ImportAcceptsEitherId | res/directories.js:84-88 | `import` reads a non-empty id the same whether it arrives as `_id` or as `directoryid`. A truthy `_id` wins over `directoryid`. |
| DirectoryRecord.NewDirectoryPersists | res/directories.js:10-25 | A Directory built with a non-empty generated id, and no empty `directoryid` in props, survives export and import unchanged. |
| DirectoryRecord.Make | res/directories.js:32-45 | `make` succeeds exactly when `mkdir` succeeds or fails with code `EEXIST`, so making the same directory twice succeeds both times. Any other error is passed on with its code. |
| DirectoryStore.EmptyIsWellformed | res/directories.js:133-135 | The three empty indexes satisfy the store invariant. |
| DirectoryStore.SetKeepsWellformed | res/directories.js:186-202 | `set` preserves the store invariant. Indexed directories stay built. Session keys match each directory's own session id. Owner lists stay non-empty and hold only that owner's directories. Every indexed directory stays in its owner's list. |
| DirectoryStore.Set | res/directories.js:186-208 | The new Directory is indexed under the raw `props.sessionid`. It is also indexed under `props.directoryid` as supplied: undefined becomes the key `"undefined"`, and the generated id gains or loses no entry. It is appended to its owner's list, created if absent, which grows by exactly one. Every other entry of all three indexes is unchanged, and the invariant is kept. |
| DirectoryStore.Get | res/directories.js:147-159 | Under the normalised id, a present entry is returned with the store unchanged. An absent entry without props yields undefined with the store unchanged. An absent entry with props yields what `set(props)` builds. |
| DirectoryStore.GetBySessionId | res/directories.js:160-172 | Under the normalised session id, a present entry is returned with the store unchanged. An absent entry without props yields undefined with the store unchanged. An absent entry with props yields what `set(props)` builds. |
| DirectoryStore.GetByOwnerUserId | res/directories.js:173-185 | Under the normalised owner id, a present entry yields the owner's whole, non-empty list with the store unchanged. An absent entry without props yields undefined. An absent entry with props yields the single Directory `set(props)` builds. |
| DirectoryStore.SessionLookupCreatesOnce | res/directories.js:160-172 | When the session normaliser leaves the id unchanged, two lookups with props for that session return the same Directory. The second lookup leaves the store exactly as the first left it. |
| DirectoryStore.UnnormalisedSessionCreatesTwice | res/directories.js:160-202 | When the normaliser changes the session id to an unindexed key, `set` indexes under the raw id, so a second lookup misses again. The owner's list then grows by two. |
| DirectoryStore.LaterSetWins | res/directories.js:186-202 | Two `set`s for one session and owner: the session index keeps the later Directory, and the owner's list gains both, in order. |
| Upload.SessionIdOf | app.js:427 | `sid || generateId()`: a truthy session id is used as given, and a missing or empty one is replaced by the generated id. |
| Upload.TransactionIdOf | app.js:428 | `tid || generateId()`: a truthy transaction id is used as given, and a missing or empty one is replaced by the generated id, so such a part starts a transaction of its own. |
| Upload.TransactionLengthOf | app.js:429 | `tlen || 1`: a non-zero length is taken as given, and a missing or zero length becomes 1, so the announced length is never 0. |
| Upload.Announce | app.js:425-460 | The synchronous half of a callback. It performs exactly the counter's set call for the part's id and length, so the id holds a record with that non-zero length. It keeps the directory invariant. It leaves a pending completion exactly when the part will be stored, carrying the part's transaction id, session id, owner and original name. It answers 200 only for a part in flight and 500 only for a done part whose `make` fails. |
| Upload.Finish | app.js:469-487 | The `'finish'` handler. It performs exactly the counter's complete call on the map as it stands then, answers 200 and creates the pending shortcut. It reports closure exactly when at most one part remains, an absent record counting as none. Without closure, one fewer part remains. Directories and every other id are unchanged. |
| Upload.OnPart | app.js:423-502 | A callback whose stream finishes before any other callback runs. It announces the transaction length and keeps the directory invariant. Only a done part whose directory exists and whose stream finished completes one transaction item and creates a file shortcut. It answers 200 and reports closure as the counter decides. A done part whose `make` fails answers 500 without decrementing. A part still in flight answers 200 without decrementing. Other statuses answer nothing. |
| Upload.UnstoredPartNeverDecrements | app.js:425-498 | A part that was not stored never closes its transaction. The transaction's `remains` is the earlier one, or the announced length when the record had no length yet. |
| Upload.StoredPartDecrementsOnce | app.js:455-487 | A stored part completes against the counter as it stands when its stream finishes, after any calls other callbacks made in between. With r parts then remaining, it closes exactly when r ≤ 1 and removes the record. Otherwise one fewer part remains. No other id changes. |
| Upload.DuplicateDonePartsCloseTwice | app.js:425-487 | One part reported done three times for a transaction of two, with all three announcements made before any stream finishes: the completions answer false, true, true. The upload is reported complete twice, and the counter ends as it began. |
| Upload.SequentialDuplicatesCloseOnce | app.js:425-487 | The same three reports when each stream finishes before the next callback starts: false, true, false. The third announcement re-creates the record, so a record with one part remaining is left behind. |
| Upload.LonePartClosesAtOnce | app.js:425-487 | A stored part with no transaction id and no length is a transaction of one. It closes at once, creates its file shortcut and leaves the transaction map as it was. |
| Upload.TwoPartTransaction | app.js:425-487 | Two stored parts announced as one transaction of two, for one session whose id the GUID normaliser leaves unchanged: the first does not close it and the second does. No record remains. Both files land in the same Directory, and the second part creates no Directory. |

## Left out

- Express routing, cookies, response headers (including `Content-Disposition`), and the sign-in, sign-out and browse handlers: they rest on accounts.js, users.js and shortcuts.js, which are not part of this model.
- The shortcut store (shortcuts.js is not part of this model): a session's shortcuts are an input sequence in iteration order, and key lookup is an input map. The content type of the file shortcut `uploadFiles` creates is that store's default, so it is not fixed here.
- Account and user resolution in `uploadFiles`: the owner user id is an input.
- The chunked-upload transport (`flow.post`, `flow.write`, `flow.clean`), `fs.createWriteStream`, `fs.mkdir` and `fs.readdir` (`Directory.browse`): only how `make` classifies the `mkdir` answer and whether the write stream finished are modelled, both as inputs.
- MongoDB `load` and `save`, including `set` calling `save()` whatever its flag says: persistence I/O.
- SendGrid delivery, ejs rendering, `url.resolve` links, moment date formatting (the archive-name timestamp is an input), `filesize`, `renderCompletedUpload` and the Azure Key Vault client: foreign libraries and presentation.
- GUID generation and the bodies of the utilities.js normalisers: the generated ids and the clock are inputs, and the normalisers are fields of `Host`.
- The email, GUID and hex-hash regex constants and the startup callback chain: routing and I/O plumbing.
- DirectoryStore.Set, DirectoryRecord.Export, DirectoryRecord.Make: the `notStrictEqual` asserts in `make` (res/directories.js:33) and `export` (res/directories.js:103) compare the field with the text `'undefined'`, not with its type. They never fire for a missing field, but do fire for a field holding the text "undefined". Because `set` calls `save()` (res/directories.js:204), which calls `export()` at once (res/directories.js:62), a `set` for which `_id || directoryid` (res/directories.js:87) is the text "undefined" throws an AssertionError after all three indexes are already updated. `DirectoryStore.Set` returns normally there, and `DirectoryRecord.Export` exports the id. `make` throws for a physical path "undefined", while `DirectoryRecord.Make` only classifies the mkdir answer. Thrown exceptions are not modelled.
- DirectoryStore.Set, DirectoryStore.Get, DirectoryStore.GetBySessionId, DirectoryStore.GetByOwnerUserId: the `typeof` asserts on the lookup keys (res/directories.js:148, 161, 174) are discharged by the `string` parameter types. `set`'s own assert that `props.sessionid` is defined (res/directories.js:187) becomes the `requires` of `Set`, and of each lookup for the case where it would call `set`.
- The `_parent`, `_context` and `_config` fields of a Directory: they hold the store, database and configuration, not data.
- Upload.TransactionLengthOf, Upload.OnPart: request body fields are treated as already-parsed integers, so `tlen` of 0 falls back to 1. The source receives strings, where `"0"` is truthy: it is announced as `"0"`, and `item.length == 0` (app.js:331) then treats it as zero. Neither this nor non-numeric text (NaN arithmetic) is modelled.
- Transactions.Get, Transactions.SetLength, Transactions.Complete: `transactionMap` is a plain object keyed by the request's `tid`, so an id that names an inherited member of `Object.prototype` (`constructor`, `__proto__`, `toString`, ...) is never absent there. Under strict mode, `constructor` makes the length write throw, and `__proto__` writes onto the prototype and never closes. The model gives such ids an ordinary blank record instead, because JavaScript prototype lookup is not modelled.
- DirectoryStore.Set, DirectoryStore.Get, DirectoryStore.GetBySessionId, DirectoryStore.GetByOwnerUserId: the three indexes are plain objects too, so keys naming `Object.prototype` members behave as for the counter above. The model treats them as ordinary keys.
- `removeItemByTransactionId` assigns `undefined` rather than deleting the key. The model removes the key, which every lookup treats the same way.
