# rise-image: the single-file image element

This project models the state machine inside the `rise-image` web component
(`src/rise-image.js`), the digital-signage widget that shows one image file
kept in a player's local storage. The element holds three pieces of mutable
state, the `url` property, the `_watchInitiated` flag and the `src` of its inner
`iron-image`. Four kinds of input drive it:

- the one-shot `start` event, which either shows the file straight from public
  storage (preview) or subscribes to licence-status changes;
- licence-status callbacks, which start the single-file watch at most once or
  dispatch `unlicensed`;
- watch messages, which are ignored when they carry no status, reported as
  `image-error` on `FILE-ERROR`, and otherwise reported as
  `image-status-updated`;
- status updates, which set the image `src` only on `CURRENT`.

It also models the file-format helper `_getStorageFileFormat`.

Layout:

- `storage_format.dfy` (module `StorageFormat`): `lastIndexOf`, `toLowerCase`
  and the file-format helper, as functions with their characterisation.
- `image_machine.dfy` (module `ImageMachine`): the element as a value `Element`.
  Each handler is a pure transition. The element's effects on the outside world
  are kept in an append-only `log` of `Action`s: dispatched events with their
  `detail`, and "watch started" calls. `Deliver` passes an input to its handler
  only while a listener for it is registered. `Run` delivers a sequence of
  inputs.
- `image_properties.dfy` (module `ImageProperties`): the invariant of reachable
  elements and the properties over whole input sequences.
- `rise_image.dfy` (module `RiseImageElement`): class `RiseImage`, whose
  handlers update the fields in place, each proved equal to the transition of
  the same name.
- `wrappers.dfy`: `Option`, for message fields that may be missing.

The preview check, the licensing service and the local-storage watch are
external services. They appear as inputs: a preview flag on `Start`,
`LicenceStatus(authorized)` and `FileMessage(msg)`. Subscribing to the watch is
recorded as a `WatchStarted(file)` action. JavaScript truthiness is modelled
where the code relies on it. `!message.status` holds for a missing or empty
status. `message.fileUrl || ""` yields the empty string for a missing or empty
url.

The wider product this element belongs to also has a multi-file slideshow
engine (file lists, render queue, transition timers, health flag). That engine
is not part of `src/rise-image.js`, so this model follows the code of this file
and does not describe it.

## Model

| member | source | states |
|---|---|---|
| StorageFormat.LastIndexOf | src/rise-image.js:109 | the result is -1 exactly when the character is absent; otherwise it is a position holding the character with no occurrence after it |
| StorageFormat.ToLowerCase | src/rise-image.js:109 | same length, each character mapped to lower case, and no upper-case letter is left |
| StorageFormat.GetStorageFileFormat | src/rise-image.js:108-110 | the result is the lower-cased text after the last "."; the whole path lower-cased when there is no "."; it never contains "." and is never longer than the path |
| StorageFormat.ExtensionOfJoined | src/rise-image.js:108-110 | round trip: the format of `stem + "." + ext`, for a dot-free `ext`, is `ext` lower-cased, whatever the stem holds |
| StorageFormat.ToLowerCaseIdempotent | src/rise-image.js:109 | lower-casing a second time changes nothing |
| StorageFormat.UpperCaseExtensionExample | src/rise-image.js:108-110 | "images/Logo.PNG" has format "png" |
| StorageFormat.DoubleExtensionExample | src/rise-image.js:108-110 | "archive.tar.gz" has format "gz": only the text after the last dot counts |
| ImageMachine.OrEmpty | src/rise-image.js:171 | the message's `fileUrl` when present, "" when missing (an empty url stays empty) |
| ImageMachine.SendImageEvent | src/rise-image.js:193-199 | exactly one event with the given name and detail is appended; nothing else changes |
| ImageMachine.HandleImageStatusUpdated | src/rise-image.js:181-191 | on "CURRENT" the src becomes the url; on any other status the src is unchanged; exactly one `image-status-updated` event with detail {file, url, status}; url, watch flag and listeners unchanged |
| ImageMachine.HandleSingleFileError | src/rise-image.js:155-164 | exactly one `image-error` event whose detail is {file, errorMessage, errorDetail} from the message; nothing else changes |
| ImageMachine.HandleSingleFileUpdate | src/rise-image.js:166-179 | a message without a status changes nothing; with a status, url becomes `fileUrl` or ""; `FILE-ERROR` emits only the `image-error` event and leaves src alone; any other status emits one `image-status-updated` event and shows the url only on "CURRENT"; the watch flag and listeners never change |
| ImageMachine.HandleStartForPreview | src/rise-image.js:112-117 | url becomes the storage prefix followed by the file, src equals that url, one `image-status-updated` event with status "CURRENT"; nothing else changes |
| ImageMachine.HandleStart | src/rise-image.js:119-141 | preview takes the preview path; otherwise only the licence callback gets registered and nothing else changes |
| ImageMachine.HandleLicenceStatus | src/rise-image.js:126-140 | authorised: the watch flag is set afterwards; the watch is started (one `WatchStarted(file)` action) only if it was not started before, and otherwise nothing changes; unauthorised: one `unlicensed` event and the watch flag unchanged; url and src are never touched |
| ImageMachine.Deliver | src/rise-image.js:71-75 | delivering an input only appends to the log and never changes the file |
| ImageMachine.Run | src/rise-image.js:71-75 | over any input sequence the log only grows and the file stays the same |
| ImageProperties.InitialConsistent | src/rise-image.js:59-64 | a new element satisfies the invariant and has started no watch |
| ImageProperties.DeliverKeepsConsistent | src/rise-image.js:126-140 | every input keeps the invariant: the watch-start count in the log is 1 when `_watchInitiated` is set and 0 otherwise; each watch is for the element's file; a started watch implies a licence callback; a licence callback implies the start listener is gone |
| ImageProperties.RunKeepsConsistent | src/rise-image.js:126-140 | the invariant holds after any input sequence |
| ImageProperties.WatchStartedAtMostOnce | src/rise-image.js:130-135 | from a new element, under any inputs, the watch is started at most once, for the element's own file, and exactly when `_watchInitiated` is true |
| ImageProperties.PreviewStarted | src/rise-image.js:119-122 | after a preview start, url is the storage URL of the file, src equals it, the log holds one "CURRENT" status event, and no listener is registered |
| ImageProperties.PreviewIsFinal | src/rise-image.js:119-122 | after a preview start, no later input changes anything: licensing and watching are skipped for good |
| ImageProperties.NoLicenceNoWatch | src/rise-image.js:126-135 | an element with no start listener, no licence callback and no watch ignores every input |
| ImageProperties.UnauthorizedNeverWatches | src/rise-image.js:127-139 | if no input is an authorised licence status, the watch is never started |
| ImageProperties.SrcChangesOnlyOnCurrent | src/rise-image.js:184-186 | if an input changes the image src, then the new src is the url, and the one event it appended is `image-status-updated` with status "CURRENT" carrying that url |
| ImageProperties.StartHandledOnce | src/rise-image.js:73-75 | the "start" listener fires once: a second start event changes nothing |
| ImageProperties.LicensedTwiceWatchesOnce | src/rise-image.js:126-135 | a production start followed by two authorised licence statuses leaves exactly one `WatchStarted(file)` in the log and no event |
| RiseImageElement.RiseImage.constructor | src/rise-image.js:59-78 | the fields start as the initial element: empty url and src, watch not started, start listener registered, empty log; the invariant holds |
| RiseImageElement.RiseImage.SendImageEvent | src/rise-image.js:193-199 | appends exactly the dispatched event to the log |
| RiseImageElement.RiseImage.HandleImageStatusUpdated | src/rise-image.js:181-191 | the fields change as `ImageMachine.HandleImageStatusUpdated` says; src equals url after "CURRENT" and is unchanged otherwise |
| RiseImageElement.RiseImage.HandleSingleFileError | src/rise-image.js:155-164 | the fields change as `ImageMachine.HandleSingleFileError` says |
| RiseImageElement.RiseImage.HandleSingleFileUpdate | src/rise-image.js:166-179 | the fields change as `ImageMachine.HandleSingleFileUpdate` says; a status-less message changes no field |
| RiseImageElement.RiseImage.HandleStartForPreview | src/rise-image.js:112-117 | the fields change as `ImageMachine.HandleStartForPreview` says; url is the storage URL and src equals it |
| RiseImageElement.RiseImage.HandleStart | src/rise-image.js:119-141 | the fields change as `ImageMachine.HandleStart` says |
| RiseImageElement.RiseImage.HandleLicenceStatus | src/rise-image.js:126-140 | the fields change as `ImageMachine.HandleLicenceStatus` says; after an authorised status the watch flag is set, and a second authorised status leaves the log alone |
| RiseImageElement.RiseImage.Receive | src/rise-image.js:71-75 | the fields change as `ImageMachine.Deliver` says; the invariant is kept, so the log never records more than one watch start |

## Left out

- The Polymer template, property declarations, `observers` and `customElements.define` (src/rise-image.js:8-25, 53-57, 203): UI framework glue.
- `_handlePlaceholder` (src/rise-image.js:94-97): a preload toggle on the image primitive with console output.
- Telemetry: `_logInfo`, `_logError`, `_logWarning` and the payload builders `_getComponentData` and `_getStorageData` (src/rise-image.js:86-106, 143-153). They only write to an external logger, so the log records none of them. This also covers `start` and `licensed`, which are logged but never dispatched.
- The preview check, the licensing service and the local-storage watch (src/rise-image.js:120, 126, 131) are external and asynchronous. They are modelled as inputs and as the `WatchStarted` action, not as behaviour. Unsubscribing is not modelled, since this file never unsubscribes.
- `CustomEvent` and `dispatchEvent` (src/rise-image.js:193-199): an event is modelled as its name and detail appended to the log. The `bubbles` and `composed` flags are not modelled.
- The empty `error-changed` listener (src/rise-image.js:81-83) has no behaviour. The dispatch of the undefined `EVENT_CONFIGURED` in `ready()` (src/rise-image.js:77) is not modelled either.
- The `file` attribute is a constant string. A missing attribute (`null`) and a host that reassigns `file` later are not modelled.
- StorageFormat.ToLowerCase: only ASCII letters are lower-cased. JavaScript's full Unicode case mapping is not modelled.
- ImageMachine.HandleSingleFileUpdate: message fields are optional strings. Truthiness of non-string values such as numbers or booleans is not modelled.
- The multi-file slideshow engine is not present in `src/rise-image.js`, so there is nothing of it to model.
