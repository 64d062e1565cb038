/** ESRefreshHeaderView: pull-to-refresh at the top edge of the scroll view.
    `Model` is the header's state as a value (with the host's metrics and the
    animator's log); each method of `HeaderView` is proved to change the
    state as the corresponding `After...` function does. */
module Header {
  import opened Wrappers
  import opened Host
  import opened HeaderAnimator
  import opened RefreshComponent

  /** The completion blocks of the two inset animations, waiting to run. */
  datatype Completion = StartFinished | StopFinished

  datatype Model = Model(
    attached: bool,
    busy: Busy,
    ignoring: bool,
    previousOffset: real,
    savedTop: real,
    savedBounces: bool,
    handlerCalls: nat,
    pending: seq<Completion>,
    host: Metrics,
    log: seq<Event>)

  /** The animator's trigger and incremental height, and the header's own height. */
  datatype Config = Config(trigger: real, executeIncremental: real, height: real)

  predicate ValidConfig(c: Config) {
    c.trigger != 0.0
  }

  /** The three zones of `previousOffset + savedTop`. */
  datatype Zone = Release | Pull | Rest

  function ZoneOf(offsets: real, trigger: real): Zone
  {
    if offsets < -trigger then Release
    else if offsets < 0.0 then Pull
    else Rest
  }

  /** The progress reported to the animator: how far the offset is pulled
      past the saved top inset, as a fraction of the trigger distance. */
  function Progress(offset: real, top: real, trigger: real): real
    requires trigger != 0.0
  {
    -(offset + top) / trigger
  }

  /** The top inset while refreshing: follow the finger, but never below the
      saved inset nor beyond the header's height above it. */
  function ClampTop(offsetY: real, top: real, height: real): (r: real)
    ensures r <= top + height
    ensures height >= 0.0 ==> top <= r
    ensures top <= -offsetY <= top + height ==> r == -offsetY
    ensures -offsetY < top && height >= 0.0 ==> r == top
    ensures -offsetY > top + height && height >= 0.0 ==> r == top + height
  {
    var scrollingTop := if -offsetY > top then -offsetY else top;
    if scrollingTop > height + top then height + top else scrollingTop
  }

  /** ignoreObserver(ignore), on the model. */
  function Ignore(h: Model, ignore: bool): Model
  {
    h.(ignoring := ignore,
       host := if h.attached then h.host.(scrollEnabled := !ignore) else h.host)
  }

  /** The animated part of start(): tell the animator, save the current top
      inset and expand it by the incremental height; the offset follows the
      inset, and the completion is queued. */
  function ExpandTop(h: Model, c: Config): Model
  {
    var top := h.host.insetTop + c.executeIncremental;
    h.(savedTop := h.host.insetTop,
       host := h.host.(insetTop := top, offsetY := -top),
       log := h.log + [AnimationBegin],
       pending := h.pending + [StartFinished])
  }

  /** start(): ignore observation, stop bouncing, then expand the top inset.
      The handler runs in the completion. */
  function AfterStart(h: Model, c: Config): Model
  {
    if !h.attached then h
    else
      var h1 := Ignore(h, true);
      ExpandTop(h1.(host := h1.host.(bounces := false)), c)
  }

  function AfterStartRefreshing(h: Model, isAuto: bool, c: Config): Model
  {
    if IsBusy(h.busy) then h
    else AfterStart(h.(busy := StartRefreshingFlags(h.busy, isAuto)), c)
  }

  /** stop(): ignore observation, tell the animator, bring the top inset back
      to the saved one. The busy flags are cleared in the completion. */
  function AfterStop(h: Model): Model
  {
    if !h.attached then h
    else
      var h1 := Ignore(h, true);
      h1.(host := h1.host.(insetTop := h1.savedTop),
          log := h1.log + [AnimationEnd],
          pending := h1.pending + [StopFinished])
  }

  function AfterStopRefreshing(h: Model): Model
  {
    if IsBusy(h.busy) then AfterStop(h) else h
  }

  /** The completion of start()'s animation: run the handler, stop ignoring
      observation, restore bouncing. */
  function StartCompletion(h: Model): Model
  {
    var h1 := Ignore(h.(handlerCalls := h.handlerCalls + 1), false);
    h1.(host := h1.host.(bounces := h1.savedBounces))
  }

  /** The completion of stop()'s animation: the animator is told
      `.pullToRefresh`, the busy flags clear, the top inset is set back once
      more and observation resumes. */
  function StopCompletion(h: Model): Model
  {
    var h1 := h.(log := h.log + [StateChanged(PullToRefresh)], busy := Idle);
    Ignore(h1.(host := h1.host.(insetTop := h1.savedTop)), false)
  }

  /** The oldest pending completion block runs. The blocks captured the host,
      so they write to it even after the header was removed. */
  function AfterFinish(h: Model): Model
  {
    if h.pending == [] then h
    else
      var h0 := h.(pending := h.pending[1..]);
      match h.pending[0]
      case StartFinished => StartCompletion(h0)
      case StopFinished => StopCompletion(h0)
  }

  /** Reports a state, records the current offset, then (the `defer`) reports
      the progress computed from the offset just recorded. */
  function Report(h: Model, s: RefreshState, c: Config): Model
    requires ValidConfig(c)
  {
    var h1 := h.(log := h.log + [StateChanged(s)], previousOffset := h.host.offsetY);
    h1.(log := h1.log + [ProgressChanged(Progress(h1.previousOffset, h1.savedTop, c.trigger))])
  }

  /** offsetChangeAction. The zone is chosen from the offset recorded at the
      PREVIOUS notification. */
  function AfterOffsetChange(h: Model, c: Config): Model
    requires ValidConfig(c)
  {
    if !h.attached then h
    else if IsBusy(h.busy) then
      h.(host := h.host.(insetTop := ClampTop(h.host.offsetY, h.savedTop, c.height)))
    else AfterIdleOffsetChange(h, c)
  }

  /** The idle header's offset rule: the zone of the offset recorded at the
      previous notification decides between starting, reporting and nothing. */
  function AfterIdleOffsetChange(h: Model, c: Config): Model
    requires ValidConfig(c)
  {
    match ZoneOf(h.previousOffset + h.savedTop, c.trigger)
    case Release =>
      if h.host.dragging then Report(h, ReleaseToRefresh, c)
      else
        var h1 := AfterStartRefreshing(h, false, c);
        var h2 := h1.(log := h1.log + [StateChanged(Refreshing)]);
        h2.(previousOffset := h2.host.offsetY)
    case Pull => Report(h, PullToRefresh, c)
    case Rest => h.(previousOffset := h.host.offsetY)
  }

  /** An offset notification on an enabled, visible header. */
  function AfterNotify(h: Model, c: Config): Model
    requires ValidConfig(c)
  {
    if h.ignoring then h else AfterOffsetChange(h, c)
  }

  /** The block didMoveToSuperview defers: snapshot the host's bounce flag and
      top inset (defaults when the header has no scroll view by then). */
  function AfterDidAttach(h: Model): Model
  {
    h.(savedBounces := if h.attached then h.host.bounces else true,
       savedTop := if h.attached then h.host.insetTop else 0.0)
  }

  class HeaderView {
    const base: Component
    var previousOffset: real
    /** `scrollViewInsets.top`; the other edges are never read. */
    var savedTop: real
    var savedBounces: bool
    var pending: seq<Completion>
    var refreshIdentifier: Option<string>

    ghost function Repr(): set<object>
    {
      {this, base, base.animator, base.host}
    }

    ghost predicate Valid()
      reads this, base, base.animator
    {
      base.Valid()
    }

    function Snap(): Model
      reads this, base, base.animator, base.host
    {
      Model(base.attached, base.Flags(), base.isIgnoreObserving, previousOffset, savedTop,
            savedBounces, base.handlerCalls, pending, base.host.Snapshot(), base.animator.log)
    }

    function Cfg(): Config
      reads base
    {
      Config(base.animator.trigger, base.animator.executeIncremental, base.height)
    }

    constructor (host: ScrollView, animator: Animator)
      requires animator.Valid()
      ensures Valid() && fresh(base) && base.host == host && base.animator == animator
      ensures Snap() == Model(false, Idle, false, 0.0, 0.0, true, 0, [], host.Snapshot(), animator.log)
      ensures !base.isObserving && !base.hidden && base.userInteractionEnabled && base.height == 0.0
      ensures refreshIdentifier == None
    {
      base := new Component(host, animator);
      previousOffset, savedTop, savedBounces := 0.0, 0.0, true;
      pending := [];
      refreshIdentifier := None;
    }

    /** The blocks queued by adding the header to its host, run on the next
        turn of the run loop: register with the host if the header is in one,
        then take the snapshot. */
    method DidAttach()
      requires Valid()
      modifies this`savedBounces, this`savedTop, base`isObserving
      ensures Valid() && base.isObserving == (old(base.isObserving) || base.attached)
      ensures base.Settings() == old(base.Settings()).(isObserving := old(base.isObserving) || base.attached)
      ensures refreshIdentifier == old(refreshIdentifier)
      ensures Snap() == AfterDidAttach(old(Snap()))
    {
      base.AddObserver(base.attached);
      savedBounces := if base.attached then base.host.bounces else true;
      savedTop := if base.attached then base.host.insetTop else 0.0;
    }

    method Start()
      requires Valid()
      modifies Repr()
      ensures Valid()
      ensures base.Settings() == old(base.Settings()) && refreshIdentifier == old(refreshIdentifier)
      ensures old(base.animator.Latches()) ==> base.animator.Latches()
      ensures Snap() == AfterStart(old(Snap()), Cfg())
    {
      if !base.attached {
        return;
      }
      base.IgnoreObserver(true);
      base.host.bounces := false;
      ExpandTopInset();
    }

    method ExpandTopInset()
      requires Valid()
      modifies Repr()
      ensures Valid()
      ensures base.Settings() == old(base.Settings()) && refreshIdentifier == old(refreshIdentifier)
      ensures old(base.animator.Latches()) ==> base.animator.Latches()
      ensures Snap() == ExpandTop(old(Snap()), Cfg())
    {
      base.animator.RefreshAnimationBegin();
      var top := base.host.insetTop;
      savedTop := top;
      top := top + base.animator.executeIncremental;
      base.host.offsetY := previousOffset;
      // the animation block
      base.host.insetTop := top;
      base.host.offsetY := -top;
      pending := pending + [StartFinished];
    }

    /** startRefreshing(isAuto): `start` runs exactly when the header was idle. */
    method StartRefreshing(isAuto: bool)
      requires Valid()
      modifies Repr()
      ensures Valid()
      ensures base.Settings() == old(base.Settings()) && refreshIdentifier == old(refreshIdentifier)
      ensures old(base.animator.Latches()) ==> base.animator.Latches()
      ensures Snap() == AfterStartRefreshing(old(Snap()), isAuto, Cfg())
    {
      var runStart := base.StartRefreshing(isAuto);
      if runStart {
        Start();
      }
    }

    method Stop()
      requires Valid()
      modifies Repr()
      ensures Valid()
      ensures base.Settings() == old(base.Settings()) && refreshIdentifier == old(refreshIdentifier)
      ensures old(base.animator.Latches()) ==> base.animator.Latches()
      ensures Snap() == AfterStop(old(Snap()))
    {
      if !base.attached {
        return;
      }
      base.IgnoreObserver(true);
      base.animator.RefreshAnimationEnd();
      // the animation block
      base.host.insetTop := savedTop;
      pending := pending + [StopFinished];
    }

    method StopRefreshing()
      requires Valid()
      modifies Repr()
      ensures Valid()
      ensures base.Settings() == old(base.Settings()) && refreshIdentifier == old(refreshIdentifier)
      ensures old(base.animator.Latches()) ==> base.animator.Latches()
      ensures Snap() == AfterStopRefreshing(old(Snap()))
    {
      if base.isRefreshing || base.isAutoRefreshing {
        Stop();
      }
    }

    /** The oldest pending animation completes and its completion block runs. */
    method FinishAnimation()
      requires Valid()
      modifies Repr()
      ensures Valid()
      ensures base.Settings() == old(base.Settings()) && refreshIdentifier == old(refreshIdentifier)
      ensures old(base.animator.Latches()) ==> base.animator.Latches()
      ensures Snap() == AfterFinish(old(Snap()))
    {
      if pending == [] {
        return;
      }
      var done := pending[0];
      pending := pending[1..];
      match done {
        case StartFinished => RunStartCompletion();
        case StopFinished => RunStopCompletion();
      }
    }

    method RunStartCompletion()
      requires Valid()
      modifies Repr()
      ensures Valid()
      ensures base.Settings() == old(base.Settings()) && refreshIdentifier == old(refreshIdentifier)
      ensures old(base.animator.Latches()) ==> base.animator.Latches()
      ensures Snap() == StartCompletion(old(Snap()))
    {
      base.InvokeHandler();
      base.IgnoreObserver(false);
      base.host.bounces := savedBounces;
    }

    method RunStopCompletion()
      requires Valid()
      modifies Repr()
      ensures Valid()
      ensures base.Settings() == old(base.Settings()) && refreshIdentifier == old(refreshIdentifier)
      ensures old(base.animator.Latches()) ==> base.animator.Latches()
      ensures Snap() == StopCompletion(old(Snap()))
    {
      base.animator.RefreshStateDidChange(PullToRefresh);
      base.Stop();
      base.host.insetTop := savedTop;
      base.IgnoreObserver(false);
    }

    method OffsetChangeAction()
      requires Valid()
      modifies Repr()
      ensures Valid()
      ensures base.Settings() == old(base.Settings()) && refreshIdentifier == old(refreshIdentifier)
      ensures old(base.animator.Latches()) ==> base.animator.Latches()
      ensures Snap() == AfterOffsetChange(old(Snap()), Cfg())
    {
      if !base.attached {
        return;
      }
      if base.isRefreshing || base.isAutoRefreshing {
        base.host.insetTop := ClampTop(base.host.offsetY, savedTop, base.height);
        return;
      }
      TrackPull();
    }

    /** The idle part of offsetChangeAction. */
    method TrackPull()
      requires Valid() && !IsBusy(base.Flags())
      modifies Repr()
      ensures Valid()
      ensures base.Settings() == old(base.Settings()) && refreshIdentifier == old(refreshIdentifier)
      ensures old(base.animator.Latches()) ==> base.animator.Latches()
      ensures Snap() == AfterIdleOffsetChange(old(Snap()), Cfg())
    {
      var recordProgress := false;
      var offsets := previousOffset + savedTop;
      if offsets < -base.animator.trigger {
        if !base.host.dragging {
          StartRefreshing(false);
          base.animator.RefreshStateDidChange(Refreshing);
        } else {
          base.animator.RefreshStateDidChange(ReleaseToRefresh);
          recordProgress := true;
        }
      } else if offsets < 0.0 {
        base.animator.RefreshStateDidChange(PullToRefresh);
        recordProgress := true;
      }
      previousOffset := base.host.offsetY;
      if recordProgress {
        base.animator.RefreshProgressDidChange(-(previousOffset + savedTop) / base.animator.trigger);
      }
    }

    /** observeValueForKeyPath on the header; its size action is the base's,
        which does nothing. */
    method Observe(key: KeyPath)
      requires Valid()
      modifies Repr()
      ensures Valid()
      ensures base.Settings() == old(base.Settings()) && refreshIdentifier == old(refreshIdentifier)
      ensures old(base.animator.Latches()) ==> base.animator.Latches()
      ensures old(base.Dispatch(key)) == HandleOffset ==> Snap() == AfterOffsetChange(old(Snap()), Cfg())
      ensures old(base.Dispatch(key)) != HandleOffset ==> Snap() == old(Snap())
      ensures old(base.userInteractionEnabled && !base.hidden) && key == ContentOffset ==>
                Snap() == AfterNotify(old(Snap()), Cfg())
    {
      var action := base.Dispatch(key);
      if action == HandleOffset {
        OffsetChangeAction();
      }
    }
  }
}
