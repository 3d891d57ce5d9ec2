/**
 * The `rise-image` element itself: its fields are updated in place by the
 * handlers, and each handler is proved to perform the transition of the same
 * name in `ImageMachine`.
 */
module RiseImageElement {
  import opened Wrappers
  import opened ImageMachine
  import opened ImageProperties

  class RiseImage {
    const file: string
    var url: string
    var watchInitiated: bool
    var imageSrc: string
    var startListening: bool
    var licenceListening: bool
    var log: seq<Action>

    /** The element's fields as a value. */
    function State(): Element
      reads this
    {
      Element(file, url, watchInitiated, imageSrc, startListening, licenceListening, log)
    }

    ghost predicate Valid()
      reads this
    {
      Consistent(State())
    }

    /** Construction followed by `ready()`, which registers the one-shot start listener. */
    constructor (file: string)
      ensures State() == Initial(file) && Valid()
    {
      this.file := file;
      url := "";
      watchInitiated := false;
      imageSrc := "";
      startListening := true;
      licenceListening := false;
      log := [];
      new;
      InitialConsistent(file);
    }

    method SendImageEvent(name: string, detail: Detail)
      modifies this`log
      ensures log == old(log) + [Dispatched(name, detail)]
    {
      log := log + [Dispatched(name, detail)];
    }

    method HandleImageStatusUpdated(status: string)
      modifies this`imageSrc, this`log
      ensures State() == ImageMachine.HandleImageStatusUpdated(old(State()), status)
      ensures status == StatusCurrent ==> imageSrc == url
      ensures status != StatusCurrent ==> imageSrc == old(imageSrc)
    {
      if status == StatusCurrent {
        imageSrc := url;
      }
      SendImageEvent(EventImageStatusUpdated, StatusDetail(file, url, status));
    }

    method HandleSingleFileError(msg: WatchMessage)
      modifies this`log
      ensures State() == ImageMachine.HandleSingleFileError(old(State()), msg)
    {
      var details := ErrorDetail(file, msg.errorMessage, msg.errorDetail);
      SendImageEvent(EventImageError, details);
    }

    method HandleSingleFileUpdate(msg: WatchMessage)
      modifies this`url, this`imageSrc, this`log
      ensures State() == ImageMachine.HandleSingleFileUpdate(old(State()), msg)
      ensures !Truthy(msg.status) ==> State() == old(State())
    {
      if !Truthy(msg.status) {
        return;
      }
      url := OrEmpty(msg.fileUrl);
      if msg.status.value == StatusFileError {
        HandleSingleFileError(msg);
        return;
      }
      HandleImageStatusUpdated(msg.status.value);
    }

    method HandleStartForPreview()
      modifies this`url, this`imageSrc, this`log
      ensures State() == ImageMachine.HandleStartForPreview(old(State()))
      ensures url == StoragePrefix + file && imageSrc == url
    {
      url := StoragePrefix + file;
      HandleImageStatusUpdated(StatusCurrent);
    }

    method HandleStart(isPreview: bool)
      modifies this`url, this`imageSrc, this`log, this`licenceListening
      ensures State() == ImageMachine.HandleStart(old(State()), isPreview)
    {
      if isPreview {
        HandleStartForPreview();
        return;
      }
      licenceListening := true;
    }

    /** The licence-status callback that `HandleStart` registers. */
    method HandleLicenceStatus(authorized: bool)
      modifies this`watchInitiated, this`log
      ensures State() == ImageMachine.HandleLicenceStatus(old(State()), authorized)
      ensures authorized ==> watchInitiated
      ensures authorized && old(watchInitiated) ==> log == old(log)
    {
      if authorized {
        if !watchInitiated {
          log := log + [WatchStarted(file)];
          watchInitiated := true;
        }
      } else {
        SendImageEvent(EventUnlicensed, NoDetail);
      }
    }

    /** One input from the host or an external service, dropped when nothing listens for it. */
    method Receive(input: Input)
      requires Valid()
      modifies this
      ensures Valid()
      ensures State() == Deliver(old(State()), input)
      ensures WatchStarts(log) <= 1
    {
      DeliverKeepsConsistent(State(), input);
      match input
      case Start(isPreview) =>
        if startListening {
          startListening := false;
          HandleStart(isPreview);
        }
      case LicenceStatus(authorized) =>
        if licenceListening {
          HandleLicenceStatus(authorized);
        }
      case FileMessage(msg) =>
        if watchInitiated {
          HandleSingleFileUpdate(msg);
        }
    }
  }
}
