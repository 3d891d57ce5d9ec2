/**
 * Properties of the element over whole input sequences: the watch starts at
 * most once, only after an authorised licence status in a non-preview start,
 * the image source changes only on a "CURRENT" status, and a preview start
 * leaves the element deaf to every later input.
 */
module ImageProperties {
  import opened Wrappers
  import opened ImageMachine

  /** Invariant of every element reachable from `Initial`. */
  ghost predicate Consistent(e: Element)
  {
    && WatchStarts(e.log) == (if e.watchInitiated then 1 else 0)
    && (forall i :: 0 <= i < |e.log| && e.log[i].WatchStarted? ==> e.log[i].path == e.file)
    && (e.watchInitiated ==> e.licenceListening)
    && (e.licenceListening ==> !e.startListening)
  }

  lemma {:induction false} WatchStartsAppend(a: seq<Action>, b: seq<Action>)
    ensures WatchStarts(a + b) == WatchStarts(a) + WatchStarts(b)
  {
    if a != [] {
      assert (a + b)[1..] == a[1..] + b;
      WatchStartsAppend(a[1..], b);
    } else {
      assert a + b == b;
    }
  }

  lemma InitialConsistent(file: string)
    ensures Consistent(Initial(file)) && WatchStarts(Initial(file).log) == 0
  {
  }

  /** One delivered input keeps the invariant. */
  lemma DeliverKeepsConsistent(e: Element, input: Input)
    requires Consistent(e)
    ensures Consistent(Deliver(e, input))
  {
    var r := Deliver(e, input);
    var acts := r.log[|e.log|..];
    assert r.log == e.log + acts;
    WatchStartsAppend(e.log, acts);
    assert WatchStarts([WatchStarted(e.file)]) == 1;
    assert WatchStarts([Dispatched(EventUnlicensed, NoDetail)]) == 0;
    if input.FileMessage? && e.watchInitiated {
      var msg := input.msg;
      assert WatchStarts([Dispatched(EventImageError, ErrorDetail(e.file, msg.errorMessage, msg.errorDetail))]) == 0;
      if Truthy(msg.status) {
        assert WatchStarts([Dispatched(EventImageStatusUpdated, StatusDetail(e.file, r.url, msg.status.value))]) == 0;
      }
    }
    if input.Start? && e.startListening {
      assert WatchStarts([Dispatched(EventImageStatusUpdated, StatusDetail(e.file, StoragePrefix + e.file, StatusCurrent))]) == 0;
    }
  }

  lemma {:induction false} RunKeepsConsistent(e: Element, inputs: seq<Input>)
    requires Consistent(e)
    ensures Consistent(Run(e, inputs))
    decreases |inputs|
  {
    if inputs != [] {
      DeliverKeepsConsistent(e, inputs[0]);
      RunKeepsConsistent(Deliver(e, inputs[0]), inputs[1..]);
    }
  }

  /**
   * However many licence callbacks, starts and watch messages arrive, the
   * single-file watch is started at most once, for the element's own file,
   * and it has been started exactly when `_watchInitiated` is set.
   */
  lemma WatchStartedAtMostOnce(file: string, inputs: seq<Input>)
    ensures var r := Run(Initial(file), inputs);
      && WatchStarts(r.log) <= 1
      && (WatchStarts(r.log) == 1 <==> r.watchInitiated)
      && (forall i :: 0 <= i < |r.log| && r.log[i].WatchStarted? ==> r.log[i].path == file)
  {
    RunKeepsConsistent(Initial(file), inputs);
  }

  /** The element right after a preview start. */
  function PreviewStarted(file: string): (p: Element)
    ensures p.url == StoragePrefix + file && p.src == p.url
    ensures p.log == [Dispatched(EventImageStatusUpdated, StatusDetail(file, p.url, StatusCurrent))]
    ensures !p.startListening && !p.licenceListening && !p.watchInitiated
  {
    Deliver(Initial(file), Start(true))
  }

  /**
   * After a preview start no listener is left: licensing and watching are
   * skipped for good, and the image keeps showing the storage URL.
   */
  lemma {:induction false} PreviewIsFinal(file: string, inputs: seq<Input>)
    ensures Run(PreviewStarted(file), inputs) == PreviewStarted(file)
    decreases |inputs|
  {
    if inputs != [] {
      PreviewIsFinal(file, inputs[1..]);
    }
  }

  /** An element that has no licence callback and no watch never starts one. */
  lemma {:induction false} NoLicenceNoWatch(e: Element, inputs: seq<Input>)
    requires !e.startListening && !e.licenceListening && !e.watchInitiated
    ensures Run(e, inputs) == e
    decreases |inputs|
  {
    if inputs != [] {
      NoLicenceNoWatch(Deliver(e, inputs[0]), inputs[1..]);
    }
  }

  /** No authorised licence status, no watch. */
  lemma {:induction false} UnauthorizedNeverWatches(e: Element, inputs: seq<Input>)
    requires !e.watchInitiated && WatchStarts(e.log) == 0
    requires forall i :: 0 <= i < |inputs| ==> inputs[i] != LicenceStatus(true)
    ensures !Run(e, inputs).watchInitiated && WatchStarts(Run(e, inputs).log) == 0
    decreases |inputs|
  {
    if inputs != [] {
      var d := Deliver(e, inputs[0]);
      var acts := d.log[|e.log|..];
      assert d.log == e.log + acts;
      WatchStartsAppend(e.log, acts);
      assert WatchStarts([Dispatched(EventUnlicensed, NoDetail)]) == 0;
      if inputs[0].Start? && e.startListening {
        assert WatchStarts([Dispatched(EventImageStatusUpdated, StatusDetail(e.file, StoragePrefix + e.file, StatusCurrent))]) == 0;
      }
      UnauthorizedNeverWatches(d, inputs[1..]);
    }
  }

  /**
   * The displayed source changes only when a "CURRENT" status is reported,
   * and then it becomes the element's url, which the same event carries.
   */
  lemma SrcChangesOnlyOnCurrent(e: Element, input: Input)
    ensures var r := Deliver(e, input);
      r.src != e.src ==>
        && r.src == r.url
        && Emits(e, r, [Dispatched(EventImageStatusUpdated, StatusDetail(e.file, r.url, StatusCurrent))])
  {
  }

  /** Only the first "start" event is handled. */
  lemma StartHandledOnce(e: Element, first: bool, second: bool)
    ensures Deliver(Deliver(e, Start(first)), Start(second)) == Deliver(e, Start(first))
  {
  }

  /** A production start, then two authorised licence statuses: one watch, no event. */
  lemma LicensedTwiceWatchesOnce(file: string)
    ensures Run(Initial(file), [Start(false), LicenceStatus(true), LicenceStatus(true)]).log
            == [WatchStarted(file)]
  {
  }
}
