/** Properties of the footer's state machine, stated on the `Footer.Model`
    value and on traces of what can happen to it. */
module FooterProperties {
  import opened Host
  import opened HeaderAnimator
  import opened RefreshComponent
  import opened Footer

  /** One thing that can happen to a footer. */
  datatype Input =
    | Scroll(offsetY: real)              // the user moves the content; the footer is notified
    | Resized(contentHeight: real)       // the content size changes; the footer is notified
    | RequestStart(isAuto: bool)         // startRefreshing(isAuto)
    | RequestStop                        // stopRefreshing()
    | Completed                          // the oldest pending animation completes

  function Step(f: Model, i: Input, c: Config): Model
  {
    match i
    case Scroll(y) => AfterNotify(f.(host := f.host.(offsetY := y)), c)
    case Resized(h) => AfterSizeNotify(f.(host := f.host.(contentHeight := h)))
    case RequestStart(isAuto) => AfterStartRefreshing(f, isAuto)
    case RequestStop => AfterStopRefreshing(f)
    case Completed => AfterFinish(f)
  }

  function Run(f: Model, inputs: seq<Input>, c: Config): Model
    decreases |inputs|
  {
    if inputs == [] then f else Run(Step(f, inputs[0], c), inputs[1..], c)
  }

  lemma StepKeepsExclusive(f: Model, i: Input, c: Config)
    requires Exclusive(f.busy)
    ensures Exclusive(Step(f, i, c).busy)
  {
  }

  /** Whatever happens, the footer is never refreshing and auto-refreshing at once. */
  lemma {:induction false} ExclusiveAlongRun(f: Model, inputs: seq<Input>, c: Config)
    requires Exclusive(f.busy)
    ensures Exclusive(Run(f, inputs, c).busy)
    decreases |inputs|
  {
    if inputs != [] {
      StepKeepsExclusive(f, inputs[0], c);
      ExclusiveAlongRun(Step(f, inputs[0], c), inputs[1..], c);
    }
  }

  predicate OnlyMoves(inputs: seq<Input>)
  {
    forall k :: 0 <= k < |inputs| ==> inputs[k].Scroll? || inputs[k].Resized?
  }

  /** Once there is no more data, scrolling and resizing never load more:
      the flags, the animator's log, the pending animations and the handler
      count stay as they were. */
  lemma {:induction false} NoMoreDataNeverLoads(f: Model, inputs: seq<Input>, c: Config)
    requires f.noMoreData && OnlyMoves(inputs)
    ensures var r := Run(f, inputs, c);
            r.busy == f.busy && r.log == f.log && r.pending == f.pending &&
            r.handlerCalls == f.handlerCalls && r.noMoreData
    decreases |inputs|
  {
    if inputs != [] {
      NoMoreDataNeverLoads(Step(f, inputs[0], c), inputs[1..], c);
    }
  }

  /** A busy, hidden or exhausted footer ignores offset changes entirely. */
  lemma SuppressedIsNoop(f: Model, c: Config)
    requires Suppressed(f)
    ensures AfterOffsetChange(f, c) == f
  {
  }

  /** With no content in reach, the footer only fades out. */
  lemma InvisibleContentFadesOut(f: Model, c: Config)
    requires f.attached && !Suppressed(f) && !ContentVisible(f.host)
    ensures AfterOffsetChange(f, c) == f.(alpha := 0.0)
  {
  }

  /** An idle footer with content in reach is shown, and starts loading
      exactly when the trigger rule fires: it tells the animator
      `.refreshing`, then starts the scroll animation. */
  lemma VisibleOffsetChange(f: Model, c: Config)
    requires f.attached && !Suppressed(f) && ContentVisible(f.host)
    ensures var r := AfterOffsetChange(f, c);
            r.alpha == 1.0 &&
            (IsBusy(r.busy) <==> Fires(f.host, c.trigger)) &&
            (Fires(f.host, c.trigger) ==>
               r.busy == Busy(true, false) &&
               r.log == f.log + [StateChanged(Refreshing), AnimationBegin] &&
               r.pending == f.pending + [StartFinished] &&
               r.host.offsetY == Max(0.0, f.host.contentHeight - f.host.boundsHeight + f.host.insetBottom)) &&
            (!Fires(f.host, c.trigger) ==> r == f.(alpha := 1.0))
  {
  }

  /** Short content (500 in an 800-high view, trigger 60) loads more once
      the drag passes 30; tall content (2000) once its bottom edge is reached. */
  lemma FiresExamples(m: Metrics)
    requires m.insetTop == 0.0 && m.insetBottom == 0.0 && m.boundsHeight == 800.0
    ensures m.contentHeight == 500.0 && m.offsetY == 31.0 ==> Fires(m, 60.0)
    ensures m.contentHeight == 500.0 && m.offsetY == 29.0 ==> !Fires(m, 60.0)
    ensures m.contentHeight == 2000.0 && m.offsetY == 1200.0 ==> Fires(m, 60.0)
    ensures m.contentHeight == 2000.0 && m.offsetY == 1199.0 ==> !Fires(m, 60.0)
  {
  }

  /** Scrolling further down never un-fires the trigger rule. */
  lemma FiresIsMonotone(m: Metrics, deeper: real, trigger: real)
    requires m.offsetY <= deeper && Fires(m, trigger)
    ensures Fires(m.(offsetY := deeper), trigger)
  {
  }

  /** The animator hears about `noMoreData` only when it changes, and it
      hears the new value. */
  lemma SetNoMoreDataNotifiesOnChange(f: Model, v: bool)
    ensures var r := AfterSetNoMoreData(f, v);
            r.noMoreData == v &&
            (v == f.noMoreData ==> r == f) &&
            (v != f.noMoreData ==>
               r == f.(noMoreData := v,
                       log := f.log + [StateChanged(if v then NoMoreData else PullToRefresh)]))
  {
  }

  /** Setting `noMoreData` twice to the same value is the same as setting it once. */
  lemma SetNoMoreDataIsIdempotent(f: Model, v: bool)
    ensures AfterSetNoMoreData(AfterSetNoMoreData(f, v), v) == AfterSetNoMoreData(f, v)
  {
  }

  /** On an attached footer, hiding gives back the incremental height of the
      bottom inset and showing takes it, relative to the inset saved when the
      footer was attached; the other metrics do not move. */
  lemma SetHiddenInsets(f: Model, v: bool, c: Config)
    requires f.attached
    ensures var r := AfterSetHidden(f, v, c);
            r.hidden == v &&
            r.host == f.host.(insetBottom := r.host.insetBottom) &&
            (v ==> r.host.insetBottom == f.savedBottom) &&
            (!v ==> r.host.insetBottom == f.savedBottom + c.executeIncremental)
  {
  }

  /** Only the last assignment of `hidden` matters; in particular hiding and
      showing again is the same as showing. */
  lemma SetHiddenLastWins(f: Model, v: bool, w: bool, c: Config)
    ensures AfterSetHidden(AfterSetHidden(f, v, c), w, c) == AfterSetHidden(f, w, c)
  {
  }

  /** The start/stop round trip on an idle, settled, attached footer: the
      handler runs once, the flags clear, and the animator hears the begin,
      the end, and (unless there is no more data) `.pullToRefresh`. */
  lemma StartStopRoundTrip(f: Model, isAuto: bool)
    requires f.attached && !IsBusy(f.busy) && f.pending == []
    ensures var started := AfterFinish(AfterStartRefreshing(f, isAuto));
            started.busy == Busy(!isAuto, isAuto) &&
            started.handlerCalls == f.handlerCalls + 1 &&
            started.pending == [] &&
            started.host.offsetY == Max(0.0, f.host.contentHeight - f.host.boundsHeight + f.host.insetBottom)
    ensures var stopped := AfterFinish(AfterStopRefreshing(AfterFinish(AfterStartRefreshing(f, isAuto))));
            stopped.busy == Idle && stopped.pending == [] &&
            stopped.handlerCalls == f.handlerCalls + 1 &&
            stopped.log == f.log + [AnimationBegin, AnimationEnd] +
                           (if f.noMoreData then [] else [StateChanged(PullToRefresh)])
  {
  }

  /** A stop on a decelerating host pins the offset inside the content:
      never above the top, never past the last screenful. */
  lemma StopPinsDeceleratingOffset(f: Model)
    requires f.attached && IsBusy(f.busy) && f.host.decelerating
    ensures var r := AfterStopRefreshing(f);
            0.0 <= r.host.offsetY &&
            (f.host.contentHeight - f.host.frameHeight >= 0.0 ==>
               r.host.offsetY <= f.host.contentHeight - f.host.frameHeight) &&
            (0.0 <= f.host.offsetY <= f.host.contentHeight - f.host.frameHeight ==>
               r.host.offsetY == f.host.offsetY)
  {
  }

  /** A resize keeps an attached, shown footer that is not ignoring right
      below the content. */
  lemma ResizeFollowsContent(f: Model, height: real, c: Config)
    requires f.attached && !f.hidden && !f.ignoring
    ensures var r := Step(f, Resized(height), c);
            r.originY == height + f.savedBottom && r.host.contentHeight == height &&
            r.busy == f.busy && r.log == f.log
  {
  }

  /** A hidden or ignoring footer does not hear about the resize: it stays
      where it was. */
  lemma SilentFooterStaysPut(f: Model, height: real, c: Config)
    requires f.hidden || f.ignoring
    ensures Step(f, Resized(height), c) == f.(host := f.host.(contentHeight := height))
  {
  }
}
