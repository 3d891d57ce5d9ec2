/**
 * The state machine inside the `rise-image` element, as pure transitions over
 * a value `Element`: the displayed `url`, whether the single-file watch was
 * started, the `src` of the inner image, the listeners that are registered, and
 * an append-only log of what the element did to the outside world (events it
 * dispatched and watch subscriptions it started).
 */
module ImageMachine {
  import opened Wrappers

  // Event names the element dispatches.
  const EventStart := "start"
  const EventImageStatusUpdated := "image-status-updated"
  const EventImageError := "image-error"
  const EventUnlicensed := "unlicensed"

  /** Prefix of the public storage URL used in preview. */
  const StoragePrefix := "https://storage.googleapis.com/"

  // Statuses of a watch message that the element singles out.
  const StatusCurrent := "CURRENT"
  const StatusFileError := "FILE-ERROR"

  /** The `detail` of a dispatched event. */
  datatype Detail =
    | NoDetail
    | ErrorDetail(file: string, errorMessage: Option<string>, errorDetail: Option<string>)
    | StatusDetail(file: string, url: string, status: string)

  /** What the element does to the outside world. */
  datatype Action =
    | Dispatched(name: string, detail: Detail)
    | WatchStarted(path: string)

  /** A message from the local-storage single-file watch; every field may be missing. */
  datatype WatchMessage = WatchMessage(
    status: Option<string>,
    fileUrl: Option<string>,
    errorMessage: Option<string>,
    errorDetail: Option<string>)

  datatype Element = Element(
    file: string,             // the `file` attribute
    url: string,              // the `url` property
    watchInitiated: bool,     // `_watchInitiated`
    src: string,              // `src` of the inner image
    startListening: bool,     // the one-shot "start" listener is still registered
    licenceListening: bool,   // a licence-status callback is registered
    log: seq<Action>)

  /** An input arriving from the host or from an external service. */
  datatype Input =
    | Start(isPreview: bool)          // the "start" event; the flag is the player's preview check
    | LicenceStatus(authorized: bool) // a storage licence status change
    | FileMessage(msg: WatchMessage)  // a message of the single-file watch

  /** JavaScript truthiness of an optional string. */
  predicate Truthy(s: Option<string>)
  {
    s.Some? && s.value != ""
  }

  /** `s || ""`: the string when present, the empty string when missing. */
  function OrEmpty(s: Option<string>): (r: string)
    ensures s.Some? ==> r == s.value
    ensures s.None? ==> r == ""
  {
    if Truthy(s) then s.value else ""
  }

  /** `after` is `before` with `acts` appended to its log. */
  predicate Emits(before: Element, after: Element, acts: seq<Action>)
  {
    after.log == before.log + acts
  }

  /** Number of watch subscriptions recorded in a log. */
  function WatchStarts(log: seq<Action>): nat
  {
    if log == [] then 0
    else (if log[0].WatchStarted? then 1 else 0) + WatchStarts(log[1..])
  }

  /** The element after construction and `ready()`. */
  function Initial(file: string): Element
  {
    Element(file, "", false, "", true, false, [])
  }

  /** `_sendImageEvent`: dispatch one event and change nothing else. */
  function SendImageEvent(e: Element, name: string, detail: Detail): (r: Element)
    ensures Emits(e, r, [Dispatched(name, detail)])
    ensures r.(log := e.log) == e
  {
    e.(log := e.log + [Dispatched(name, detail)])
  }

  /** `_handleImageStatusUpdated`: show the url on "CURRENT" and report the status. */
  function HandleImageStatusUpdated(e: Element, status: string): (r: Element)
    ensures status == StatusCurrent ==> r.src == r.url
    ensures status != StatusCurrent ==> r.src == e.src
    ensures Emits(e, r, [Dispatched(EventImageStatusUpdated, StatusDetail(e.file, e.url, status))])
    ensures r.(src := e.src, log := e.log) == e
  {
    var shown := if status == StatusCurrent then e.(src := e.url) else e;
    SendImageEvent(shown, EventImageStatusUpdated, StatusDetail(shown.file, shown.url, status))
  }

  /** `_handleSingleFileError`: report the watch error as one "image-error" event. */
  function HandleSingleFileError(e: Element, msg: WatchMessage): (r: Element)
    ensures Emits(e, r, [Dispatched(EventImageError, ErrorDetail(e.file, msg.errorMessage, msg.errorDetail))])
    ensures r.(log := e.log) == e
  {
    SendImageEvent(e, EventImageError, ErrorDetail(e.file, msg.errorMessage, msg.errorDetail))
  }

  /** `_handleSingleFileUpdate`: ignore status-less messages, else record the url and route the status. */
  function HandleSingleFileUpdate(e: Element, msg: WatchMessage): (r: Element)
    ensures !Truthy(msg.status) ==> r == e
    ensures Truthy(msg.status) ==> r.url == OrEmpty(msg.fileUrl)
    ensures Truthy(msg.status) && msg.status.value == StatusFileError ==>
      && r.src == e.src
      && Emits(e, r, [Dispatched(EventImageError, ErrorDetail(e.file, msg.errorMessage, msg.errorDetail))])
    ensures Truthy(msg.status) && msg.status.value != StatusFileError ==>
      && Emits(e, r, [Dispatched(EventImageStatusUpdated, StatusDetail(e.file, r.url, msg.status.value))])
      && r.src == (if msg.status.value == StatusCurrent then r.url else e.src)
    ensures r.(url := e.url, src := e.src, log := e.log) == e
  {
    if !Truthy(msg.status) then e
    else
      var routed := e.(url := OrEmpty(msg.fileUrl));
      if msg.status.value == StatusFileError then HandleSingleFileError(routed, msg)
      else HandleImageStatusUpdated(routed, msg.status.value)
  }

  /** `_handleStartForPreview`: show the public storage URL of the file as current. */
  function HandleStartForPreview(e: Element): (r: Element)
    ensures r.url == StoragePrefix + e.file && r.src == r.url
    ensures Emits(e, r, [Dispatched(EventImageStatusUpdated, StatusDetail(e.file, r.url, StatusCurrent))])
    ensures r.(url := e.url, src := e.src, log := e.log) == e
  {
    HandleImageStatusUpdated(e.(url := StoragePrefix + e.file), StatusCurrent)
  }

  /** `_handleStart`: preview shows the file at once; otherwise wait for the licence. */
  function HandleStart(e: Element, isPreview: bool): (r: Element)
    ensures isPreview ==> r == HandleStartForPreview(e)
    ensures !isPreview ==> r.licenceListening && r.(licenceListening := e.licenceListening) == e
  {
    if isPreview then HandleStartForPreview(e)
    else e.(licenceListening := true)
  }

  /** The licence-status callback registered by `_handleStart`. */
  function HandleLicenceStatus(e: Element, authorized: bool): (r: Element)
    ensures authorized ==> r.watchInitiated
    ensures authorized && !e.watchInitiated ==> Emits(e, r, [WatchStarted(e.file)])
    ensures authorized && e.watchInitiated ==> r == e
    ensures !authorized ==> Emits(e, r, [Dispatched(EventUnlicensed, NoDetail)])
    ensures !authorized ==> r.watchInitiated == e.watchInitiated
    ensures r.(watchInitiated := e.watchInitiated, log := e.log) == e
  {
    if authorized then
      if !e.watchInitiated then e.(log := e.log + [WatchStarted(e.file)], watchInitiated := true)
      else e
    else SendImageEvent(e, EventUnlicensed, NoDetail)
  }

  /**
   * Delivery of one input: an input reaches its handler only while a listener
   * for it is registered. The "start" listener fires once; the watch callback
   * exists once the watch has been started.
   */
  function Deliver(e: Element, input: Input): (r: Element)
    ensures e.log <= r.log && r.file == e.file
  {
    match input
    case Start(isPreview) =>
      if e.startListening then HandleStart(e.(startListening := false), isPreview) else e
    case LicenceStatus(authorized) =>
      if e.licenceListening then HandleLicenceStatus(e, authorized) else e
    case FileMessage(msg) =>
      if e.watchInitiated then HandleSingleFileUpdate(e, msg) else e
  }

  /** Delivery of a sequence of inputs in order. */
  function Run(e: Element, inputs: seq<Input>): (r: Element)
    ensures e.log <= r.log && r.file == e.file
    decreases |inputs|
  {
    if inputs == [] then e else Run(Deliver(e, inputs[0]), inputs[1..])
  }
}
