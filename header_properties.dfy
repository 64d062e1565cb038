/** Properties of the header's state machine, stated on the `Header.Model`
    value and on traces of what can happen to it: the user scrolls, the app
    asks to start or stop, an animation completes. */
module HeaderProperties {
  import opened Host
  import opened HeaderAnimator
  import opened RefreshComponent
  import opened Header

  /** One thing that can happen to an attached header. */
  datatype Input =
    | Scroll(offsetY: real, dragging: bool)  // the user moves the content; the header is notified
    | RequestStart(isAuto: bool)              // startRefreshing(isAuto)
    | RequestStop                             // stopRefreshing()
    | Completed                               // the oldest pending animation completes

  function Step(h: Model, i: Input, c: Config): Model
    requires ValidConfig(c)
  {
    match i
    case Scroll(y, d) => AfterNotify(h.(host := h.host.(offsetY := y, dragging := d)), c)
    case RequestStart(isAuto) => AfterStartRefreshing(h, isAuto, c)
    case RequestStop => AfterStopRefreshing(h)
    case Completed => AfterFinish(h)
  }

  function Run(h: Model, inputs: seq<Input>, c: Config): Model
    requires ValidConfig(c)
    decreases |inputs|
  {
    if inputs == [] then h else Run(Step(h, inputs[0], c), inputs[1..], c)
  }

  lemma StepKeepsExclusive(h: Model, i: Input, c: Config)
    requires ValidConfig(c) && Exclusive(h.busy)
    ensures Exclusive(Step(h, i, c).busy)
  {
  }

  /** Whatever happens, the header is never refreshing and auto-refreshing at once. */
  lemma {:induction false} ExclusiveAlongRun(h: Model, inputs: seq<Input>, c: Config)
    requires ValidConfig(c) && Exclusive(h.busy)
    ensures Exclusive(Run(h, inputs, c).busy)
    decreases |inputs|
  {
    if inputs != [] {
      StepKeepsExclusive(h, inputs[0], c);
      ExclusiveAlongRun(Step(h, inputs[0], c), inputs[1..], c);
    }
  }

  /** startRefreshing while busy changes nothing. */
  lemma StartWhileBusyIsNoop(h: Model, isAuto: bool, c: Config)
    requires IsBusy(h.busy)
    ensures AfterStartRefreshing(h, isAuto, c) == h
  {
  }

  /** stopRefreshing while idle changes nothing. */
  lemma StopWhileIdleIsNoop(h: Model)
    requires !IsBusy(h.busy)
    ensures AfterStopRefreshing(h) == h
  {
  }

  /** A header without a scroll view still raises its busy flag on
      startRefreshing (only `start` returns early), and then no stop can
      clear it while the header has no scroll view: no animation is queued,
      so no completion runs. */
  lemma DetachedStartSticks(h: Model, isAuto: bool, c: Config)
    requires !h.attached && !IsBusy(h.busy)
    ensures var s := AfterStartRefreshing(h, isAuto, c);
            s == h.(busy := Busy(!isAuto, isAuto)) && AfterStopRefreshing(s) == s
  {
  }

  /** Once the stop animation has completed, another stop is a no-op. */
  lemma StopIsIdempotentOnceSettled(h: Model)
    requires IsBusy(h.busy) && h.pending == [] && h.attached
    ensures var s := AfterFinish(AfterStopRefreshing(h));
            !IsBusy(s.busy) && AfterStopRefreshing(s) == s
  {
  }

  /** A second stop before the first one's animation completed runs stop()
      again: two completions are queued and the animator hears the end twice. */
  lemma DoubleStopQueuesTwice(h: Model)
    requires IsBusy(h.busy) && h.attached
    ensures var s := AfterStopRefreshing(AfterStopRefreshing(h));
            s.pending == h.pending + [StopFinished, StopFinished] &&
            s.log == h.log + [AnimationEnd, AnimationEnd]
  {
  }

  /** The start/stop round trip on an idle, settled, attached header: start
      expands the top inset by the incremental height and scrolls to show
      the header, its completion runs the handler once; stop's completion
      brings the inset back, clears the flags and ends the ignoring. */
  lemma StartStopRoundTrip(h: Model, isAuto: bool, c: Config)
    requires ValidConfig(c) && h.attached && !IsBusy(h.busy) && h.pending == []
    ensures var started := AfterFinish(AfterStartRefreshing(h, isAuto, c));
            started.host.insetTop == h.host.insetTop + c.executeIncremental &&
            started.host.offsetY == -(h.host.insetTop + c.executeIncremental) &&
            started.handlerCalls == h.handlerCalls + 1 &&
            started.busy == Busy(!isAuto, isAuto) &&
            started.savedTop == h.host.insetTop &&
            !started.ignoring && started.host.scrollEnabled &&
            started.host.bounces == h.savedBounces &&
            started.pending == []
    ensures var stopped := AfterFinish(AfterStopRefreshing(AfterFinish(AfterStartRefreshing(h, isAuto, c))));
            stopped.host.insetTop == h.host.insetTop &&
            stopped.busy == Idle && !stopped.ignoring && stopped.host.scrollEnabled &&
            stopped.handlerCalls == h.handlerCalls + 1 &&
            stopped.pending == [] &&
            stopped.log == h.log + [AnimationBegin, AnimationEnd, StateChanged(PullToRefresh)]
  {
  }

  /** While busy, an offset change only follows the finger with the top
      inset, clamped between the saved inset and the saved inset plus the
      header's height; no state is reported and the offset is not recorded. */
  lemma BusyOffsetChange(h: Model, c: Config)
    requires ValidConfig(c) && h.attached && IsBusy(h.busy) && c.height >= 0.0
    ensures var r := AfterOffsetChange(h, c);
            r == h.(host := r.host) && r.host == h.host.(insetTop := r.host.insetTop) &&
            h.savedTop <= r.host.insetTop <= h.savedTop + c.height &&
            (h.savedTop <= -h.host.offsetY <= h.savedTop + c.height ==> r.host.insetTop == -h.host.offsetY) &&
            (-h.host.offsetY < h.savedTop ==> r.host.insetTop == h.savedTop) &&
            (-h.host.offsetY > h.savedTop + c.height ==> r.host.insetTop == h.savedTop + c.height)
  {
  }

  /** The idle header's response to an offset change, by zone of the offset
      recorded at the previous notification. */
  lemma IdleOffsetChange(h: Model, c: Config)
    requires ValidConfig(c) && h.attached && !IsBusy(h.busy)
    ensures var r := AfterOffsetChange(h, c);
            var progress := ProgressChanged(Progress(h.host.offsetY, h.savedTop, c.trigger));
            match ZoneOf(h.previousOffset + h.savedTop, c.trigger)
            case Release =>
              if h.host.dragging then
                r == h.(previousOffset := h.host.offsetY,
                        log := h.log + [StateChanged(ReleaseToRefresh), progress])
              else
                r.busy == Busy(true, false) && r.ignoring && r.handlerCalls == h.handlerCalls &&
                r.log == h.log + [AnimationBegin, StateChanged(Refreshing)] &&
                r.pending == h.pending + [StartFinished] &&
                r.previousOffset == r.host.offsetY == -(h.host.insetTop + c.executeIncremental)
            case Pull =>
              r == h.(previousOffset := h.host.offsetY,
                      log := h.log + [StateChanged(PullToRefresh), progress])
            case Rest =>
              r == h.(previousOffset := h.host.offsetY)
  {
  }

  /** A deeper pull never lands in a shallower zone. */
  lemma ZoneIsMonotone(deeper: real, shallower: real, trigger: real)
    requires deeper <= shallower && trigger >= 0.0
    ensures ZoneOf(shallower, trigger) == Release ==> ZoneOf(deeper, trigger) == Release
    ensures ZoneOf(shallower, trigger) == Pull ==> ZoneOf(deeper, trigger) != Rest
  {
  }

  predicate AllDragging(inputs: seq<Input>)
  {
    forall k :: 0 <= k < |inputs| ==> inputs[k].Scroll? && inputs[k].dragging
  }

  lemma DragStep(h: Model, i: Input, c: Config)
    requires ValidConfig(c) && !IsBusy(h.busy) && i.Scroll? && i.dragging
    ensures var r := Step(h, i, c);
            r.busy == h.busy && r.pending == h.pending && r.host.insetTop == h.host.insetTop &&
            r.handlerCalls == h.handlerCalls && h.log <= r.log &&
            StateChanged(Refreshing) !in r.log[|h.log|..]
  {
  }

  /** As long as the finger stays on the screen, an idle header never starts
      refreshing and never reports `.refreshing`: the insets, the flags and
      the pending animations stay as they were. */
  lemma {:induction false} DraggingNeverStarts(h: Model, inputs: seq<Input>, c: Config)
    requires ValidConfig(c) && !IsBusy(h.busy) && AllDragging(inputs)
    ensures var r := Run(h, inputs, c);
            r.busy == h.busy && r.pending == h.pending && r.host.insetTop == h.host.insetTop &&
            r.handlerCalls == h.handlerCalls && h.log <= r.log &&
            StateChanged(Refreshing) !in r.log[|h.log|..]
    decreases |inputs|
  {
    if inputs != [] {
      var next := Step(h, inputs[0], c);
      DragStep(h, inputs[0], c);
      DraggingNeverStarts(next, inputs[1..], c);
      var r := Run(next, inputs[1..], c);
      assert r.log[|h.log|..] == next.log[|h.log|..] + r.log[|next.log|..];
    }
  }

  predicate AllScrolls(inputs: seq<Input>)
  {
    forall k :: 0 <= k < |inputs| ==> inputs[k].Scroll?
  }

  /** While busy, scrolling alone never changes the flags, never reaches the
      animator, never records an offset and never queues an animation. */
  lemma {:induction false} BusyScrollsFreeze(h: Model, inputs: seq<Input>, c: Config)
    requires ValidConfig(c) && IsBusy(h.busy) && AllScrolls(inputs)
    ensures var r := Run(h, inputs, c);
            r.busy == h.busy && r.log == h.log && r.previousOffset == h.previousOffset &&
            r.pending == h.pending && r.savedTop == h.savedTop
    decreases |inputs|
  {
    if inputs != [] {
      BusyScrollsFreeze(Step(h, inputs[0], c), inputs[1..], c);
    }
  }

  /** At most one animation is in flight, and while one is, the header
      ignores notifications and is busy. */
  predicate Settled(h: Model)
  {
    |h.pending| <= 1 && (h.pending != [] ==> h.ignoring && IsBusy(h.busy))
  }

  /** The caller asks to stop only when no animation is in flight. */
  predicate StopsWhenSettled(h: Model, inputs: seq<Input>, c: Config)
    requires ValidConfig(c)
    decreases |inputs|
  {
    inputs == [] ||
    ((inputs[0] == RequestStop ==> h.pending == []) && StopsWhenSettled(Step(h, inputs[0], c), inputs[1..], c))
  }

  lemma StepKeepsSettled(h: Model, i: Input, c: Config)
    requires ValidConfig(c) && Settled(h)
    requires i == RequestStop ==> h.pending == []
    ensures Settled(Step(h, i, c))
  {
  }

  /** For such a caller, every in-flight animation is covered by the ignoring
      flag: no scroll notification is handled halfway through an animation. */
  lemma {:induction false} SettledAlongRun(h: Model, inputs: seq<Input>, c: Config)
    requires ValidConfig(c) && Settled(h) && StopsWhenSettled(h, inputs, c)
    ensures Settled(Run(h, inputs, c))
    decreases |inputs|
  {
    if inputs != [] {
      StepKeepsSettled(h, inputs[0], c);
      SettledAlongRun(Step(h, inputs[0], c), inputs[1..], c);
    }
  }

  /** A stop requested while start's animation is in flight breaks that: the
      start completion ends the ignoring while the stop animation is still
      pending. */
  lemma StopDuringStartAnimation(h: Model, c: Config)
    requires ValidConfig(c) && h.attached && !IsBusy(h.busy) && h.pending == [] && !h.ignoring
    ensures var r := Run(h, [RequestStart(false), RequestStop, Completed], c);
            r.pending == [StopFinished] && !r.ignoring && IsBusy(r.busy)
  {
    var s1 := Step(h, RequestStart(false), c);
    var s2 := Step(s1, RequestStop, c);
    var s3 := Step(s2, Completed, c);
    assert Run(s3, [], c) == s3;
    assert [RequestStart(false), RequestStop, Completed][1..] == [RequestStop, Completed];
    assert [RequestStop, Completed][1..] == [Completed];
  }

  /** Removing a busy header (es_removeRefreshHeader) leaves the host locked:
      the stop turned scrolling off while the header was attached, the
      deferred half of didMoveToSuperview then finds no scroll view and saves
      a zero top inset, and the stop's completion, which still holds the
      host, writes that zero into the inset but can no longer turn scrolling
      back on. */
  lemma RemovedBusyHeaderLocksHost(h: Model)
    requires h.attached && IsBusy(h.busy) && h.pending == []
    ensures var removed := AfterStopRefreshing(h).(attached := false);
            var r := AfterFinish(AfterDidAttach(removed));
            r.busy == Idle && r.pending == [] &&
            !r.host.scrollEnabled && r.host.insetTop == 0.0
  {
  }
}
