/** ESRefreshFooterView: load-more at the bottom edge of the scroll view.
    `Model` is the footer's state as a value (with the host's metrics and the
    animator's log); each method of `FooterView` is proved to change the
    state as the corresponding `After...` function does. */
module Footer {
  import opened Host
  import opened HeaderAnimator
  import opened RefreshComponent

  /** The completion blocks of the two offset animations, waiting to run. */
  datatype Completion = StartFinished | StopFinished

  datatype Model = Model(
    attached: bool,
    busy: Busy,
    ignoring: bool,
    noMoreData: bool,
    hidden: bool,
    alpha: real,
    savedBottom: real,
    originY: real,
    handlerCalls: nat,
    pending: seq<Completion>,
    host: Metrics,
    log: seq<Event>)

  /** The animator's trigger and incremental height, and the footer's own height. */
  datatype Config = Config(trigger: real, executeIncremental: real, height: real)

  /** The load-more trigger rule on a visible footer. Content taller than the
      view fires once the bottom of the content (with the bottom inset) is
      reached; shorter content fires once the drag passes half the trigger. */
  predicate Fires(m: Metrics, trigger: real)
  {
    if m.contentHeight + m.insetTop > m.boundsHeight then
      m.contentHeight - m.offsetY + m.insetBottom <= m.boundsHeight
    else
      m.offsetY + m.insetTop >= trigger / 2.0
  }

  /** Whether the content reaches the footer region at all. */
  predicate ContentVisible(m: Metrics)
  {
    m.contentHeight > 0.0 && m.offsetY + m.insetTop > 0.0
  }

  /** Whether offset notifications are suppressed outright. */
  predicate Suppressed(f: Model)
  {
    IsBusy(f.busy) || f.noMoreData || f.hidden
  }

  /** start(): tell the animator and scroll so that the footer is fully in
      view; the handler runs in the completion. */
  function AfterStart(f: Model): Model
  {
    if !f.attached then f
    else
      var y := Max(0.0, f.host.contentHeight - f.host.boundsHeight + f.host.insetBottom);
      f.(log := f.log + [AnimationBegin],
         host := f.host.(offsetY := y),
         pending := f.pending + [StartFinished])
  }

  function AfterStartRefreshing(f: Model, isAuto: bool): Model
  {
    if IsBusy(f.busy) then f
    else AfterStart(f.(busy := StartRefreshingFlags(f.busy, isAuto)))
  }

  /** stop(): tell the animator, queue the completion that clears the busy
      flags, and, when the host is decelerating, pin its offset inside the
      content (never above 0). */
  function AfterStop(f: Model): Model
  {
    if !f.attached then f
    else
      var m := f.host;
      f.(log := f.log + [AnimationEnd],
         pending := f.pending + [StopFinished],
         host := if m.decelerating
                 then m.(offsetY := Max(0.0, Min(m.offsetY, m.contentHeight - m.frameHeight)))
                 else m)
  }

  function AfterStopRefreshing(f: Model): Model
  {
    if IsBusy(f.busy) then AfterStop(f) else f
  }

  /** The oldest pending completion block runs. */
  function AfterFinish(f: Model): Model
  {
    if f.pending == [] then f
    else
      var f0 := f.(pending := f.pending[1..]);
      match f.pending[0]
      case StartFinished => f0.(handlerCalls := f0.handlerCalls + 1)
      case StopFinished =>
        var f1 := if f0.noMoreData then f0 else f0.(log := f0.log + [StateChanged(PullToRefresh)]);
        f1.(busy := Idle)
  }

  /** offsetChangeAction. */
  function AfterOffsetChange(f: Model, c: Config): Model
  {
    if !f.attached || Suppressed(f) then f
    else if !ContentVisible(f.host) then f.(alpha := 0.0)
    else
      var f1 := f.(alpha := 1.0);
      if Fires(f1.host, c.trigger) then
        AfterStartRefreshing(f1.(log := f1.log + [StateChanged(Refreshing)]), false)
      else f1
  }

  /** An offset notification on an interaction-enabled footer. */
  function AfterNotify(f: Model, c: Config): Model
  {
    if f.hidden || f.ignoring then f else AfterOffsetChange(f, c)
  }

  /** sizeChangeAction: keep the footer just below the content. */
  function AfterSizeChange(f: Model): Model
  {
    if !f.attached then f
    else f.(originY := f.host.contentHeight + f.savedBottom)
  }

  /** A content-size notification on an interaction-enabled footer. */
  function AfterSizeNotify(f: Model): Model
  {
    if f.hidden || f.ignoring then f else AfterSizeChange(f)
  }

  /** The `noMoreData` observer: the animator hears only real changes. */
  function AfterSetNoMoreData(f: Model, v: bool): Model
  {
    var f1 := if v != f.noMoreData
              then f.(log := f.log + [StateChanged(if v then NoMoreData else PullToRefresh)])
              else f;
    f1.(noMoreData := v)
  }

  /** The `hidden` observer (it runs on every assignment): a hidden footer
      gives its room back to the bottom inset, a shown one takes it. */
  function AfterSetHidden(f: Model, v: bool, c: Config): Model
  {
    f.(hidden := v,
       host := if f.attached
               then f.host.(insetBottom := f.savedBottom + (if v then 0.0 else c.executeIncremental))
               else f.host,
       originY := if f.attached then f.host.contentHeight else 0.0)
  }

  /** The block didMoveToSuperview defers: snapshot the bottom inset, make
      room for the footer below the content and move the footer there. */
  function AfterDidAttach(f: Model, c: Config): Model
  {
    if !f.attached then f.(savedBottom := 0.0, originY := 0.0)
    else
      f.(savedBottom := f.host.insetBottom,
         host := f.host.(insetBottom := f.host.insetBottom + c.height),
         originY := f.host.contentHeight)
  }

  class FooterView {
    const base: Component
    /** `scrollViewInsets.bottom`; the other edges are never read. */
    var savedBottom: real
    var noMoreData: bool
    var alpha: real
    /** The footer's `frame.origin.y`. */
    var originY: real
    var pending: seq<Completion>

    ghost function Repr(): set<object>
    {
      {this, base, base.animator, base.host}
    }

    ghost predicate Valid()
      reads this, base, base.animator
    {
      base.Valid()
    }

    function Snap(): Model
      reads this, base, base.animator, base.host
    {
      Model(base.attached, base.Flags(), base.isIgnoreObserving, noMoreData, base.hidden, alpha,
            savedBottom, originY, base.handlerCalls, pending, base.host.Snapshot(), base.animator.log)
    }

    function Cfg(): Config
      reads base
    {
      Config(base.animator.trigger, base.animator.executeIncremental, base.height)
    }

    constructor (host: ScrollView, animator: Animator)
      requires animator.Valid()
      ensures Valid() && fresh(base) && base.host == host && base.animator == animator
      ensures Snap() == Model(false, Idle, false, false, false, 1.0, 0.0, 0.0, 0, [],
                              host.Snapshot(), animator.log)
      ensures !base.isObserving && base.userInteractionEnabled && base.height == 0.0
    {
      base := new Component(host, animator);
      savedBottom, originY := 0.0, 0.0;
      noMoreData := false;
      alpha := 1.0;
      pending := [];
    }

    /** The blocks queued by adding the footer to its host, run on the next
        turn of the run loop: register with the host if the footer is in one,
        then make room. */
    method DidAttach()
      requires Valid()
      modifies this`savedBottom, this`originY, base`isObserving, base.host`insetBottom
      ensures Valid() && base.isObserving == (old(base.isObserving) || base.attached)
      ensures base.Settings() == old(base.Settings()).(isObserving := old(base.isObserving) || base.attached)
      ensures Snap() == AfterDidAttach(old(Snap()), Cfg())
    {
      base.AddObserver(base.attached);
      if base.attached {
        savedBottom := base.host.insetBottom;
        base.host.insetBottom := savedBottom + base.height;
        originY := base.host.contentHeight;
      } else {
        savedBottom := 0.0;
        originY := 0.0;
      }
    }

    method SizeChangeAction()
      modifies this`originY
      ensures base.Settings() == old(base.Settings())
      ensures Snap() == AfterSizeChange(old(Snap()))
    {
      if !base.attached {
        return;
      }
      var targetY := base.host.contentHeight + savedBottom;
      if originY != targetY {
        originY := targetY;
      }
    }

    method Start()
      requires Valid()
      modifies Repr()
      ensures Valid()
      ensures base.Settings() == old(base.Settings())
      ensures old(base.animator.Latches()) ==> base.animator.Latches()
      ensures Snap() == AfterStart(old(Snap()))
    {
      if !base.attached {
        return;
      }
      base.animator.RefreshAnimationBegin();
      var y := Max(0.0, base.host.contentHeight - base.host.boundsHeight + base.host.insetBottom);
      // the animation block
      base.host.offsetY := y;
      pending := pending + [StartFinished];
    }

    method StartRefreshing(isAuto: bool)
      requires Valid()
      modifies Repr()
      ensures Valid()
      ensures base.Settings() == old(base.Settings())
      ensures old(base.animator.Latches()) ==> base.animator.Latches()
      ensures Snap() == AfterStartRefreshing(old(Snap()), isAuto)
    {
      var runStart := base.StartRefreshing(isAuto);
      if runStart {
        Start();
      }
    }

    method Stop()
      requires Valid()
      modifies Repr()
      ensures Valid()
      ensures base.Settings() == old(base.Settings())
      ensures old(base.animator.Latches()) ==> base.animator.Latches()
      ensures Snap() == AfterStop(old(Snap()))
    {
      if !base.attached {
        return;
      }
      base.animator.RefreshAnimationEnd();
      pending := pending + [StopFinished];
      if base.host.decelerating {
        var y := Min(base.host.offsetY, base.host.contentHeight - base.host.frameHeight);
        if y < 0.0 {
          y := 0.0;
        }
        base.host.offsetY := y;
      }
    }

    method StopRefreshing()
      requires Valid()
      modifies Repr()
      ensures Valid()
      ensures base.Settings() == old(base.Settings())
      ensures old(base.animator.Latches()) ==> base.animator.Latches()
      ensures Snap() == AfterStopRefreshing(old(Snap()))
    {
      if base.isRefreshing || base.isAutoRefreshing {
        Stop();
      }
    }

    /** The oldest pending animation completes and its completion block runs. */
    method FinishAnimation()
      requires Valid()
      modifies Repr()
      ensures Valid()
      ensures base.Settings() == old(base.Settings())
      ensures old(base.animator.Latches()) ==> base.animator.Latches()
      ensures Snap() == AfterFinish(old(Snap()))
    {
      if pending == [] {
        return;
      }
      var done := pending[0];
      pending := pending[1..];
      match done {
        case StartFinished =>
          base.InvokeHandler();
        case StopFinished =>
          if !noMoreData {
            base.animator.RefreshStateDidChange(PullToRefresh);
          }
          base.Stop();
      }
    }

    method OffsetChangeAction()
      requires Valid()
      modifies Repr()
      ensures Valid()
      ensures base.Settings() == old(base.Settings())
      ensures old(base.animator.Latches()) ==> base.animator.Latches()
      ensures Snap() == AfterOffsetChange(old(Snap()), Cfg())
    {
      if !base.attached {
        return;
      }
      if base.isRefreshing || base.isAutoRefreshing || noMoreData || base.hidden {
        return;
      }
      var m := base.host;
      if m.contentHeight <= 0.0 || m.offsetY + m.insetTop <= 0.0 {
        alpha := 0.0;
        return;
      }
      alpha := 1.0;
      if m.contentHeight + m.insetTop > m.boundsHeight {
        if m.contentHeight - m.offsetY + m.insetBottom <= m.boundsHeight {
          base.animator.RefreshStateDidChange(Refreshing);
          StartRefreshing(false);
        }
      } else {
        if m.offsetY + m.insetTop >= base.animator.trigger / 2.0 {
          base.animator.RefreshStateDidChange(Refreshing);
          StartRefreshing(false);
        }
      }
    }

    /** observeValueForKeyPath on the footer. */
    method Observe(key: KeyPath)
      requires Valid()
      modifies Repr()
      ensures Valid()
      ensures base.Settings() == old(base.Settings())
      ensures old(base.animator.Latches()) ==> base.animator.Latches()
      ensures old(base.Dispatch(key)) == HandleOffset ==> Snap() == AfterOffsetChange(old(Snap()), Cfg())
      ensures old(base.Dispatch(key)) == HandleSize ==> Snap() == AfterSizeChange(old(Snap()))
      ensures old(base.Dispatch(key)) == Drop ==> Snap() == old(Snap())
      ensures old(base.userInteractionEnabled) && key == ContentOffset ==>
                Snap() == AfterNotify(old(Snap()), Cfg())
      ensures old(base.userInteractionEnabled) && key == ContentSize ==>
                Snap() == AfterSizeNotify(old(Snap()))
    {
      var action := base.Dispatch(key);
      match action {
        case HandleOffset => OffsetChangeAction();
        case HandleSize => SizeChangeAction();
        case Drop =>
      }
    }

    /** Assigning `noMoreData`. */
    method SetNoMoreData(v: bool)
      requires Valid()
      modifies this`noMoreData, base.animator
      ensures Valid()
      ensures base.Settings() == old(base.Settings())
      ensures old(base.animator.Latches()) ==> base.animator.Latches()
      ensures Snap() == AfterSetNoMoreData(old(Snap()), v)
    {
      var previous := noMoreData;
      noMoreData := v;
      if noMoreData != previous {
        base.animator.RefreshStateDidChange(if noMoreData then NoMoreData else PullToRefresh);
      }
    }

    method NoticeNoMoreData()
      requires Valid()
      modifies this`noMoreData, base.animator
      ensures Valid()
      ensures base.Settings() == old(base.Settings())
      ensures old(base.animator.Latches()) ==> base.animator.Latches()
      ensures Snap() == AfterSetNoMoreData(old(Snap()), true)
    {
      SetNoMoreData(true);
    }

    method ResetNoMoreData()
      requires Valid()
      modifies this`noMoreData, base.animator
      ensures Valid()
      ensures base.Settings() == old(base.Settings())
      ensures old(base.animator.Latches()) ==> base.animator.Latches()
      ensures Snap() == AfterSetNoMoreData(old(Snap()), false)
    {
      SetNoMoreData(false);
    }

    /** Assigning `hidden`. */
    method SetHidden(v: bool)
      modifies base`hidden, this`originY, base.host`insetBottom
      ensures base.Settings() == old(base.Settings()).(hidden := v)
      ensures Snap() == AfterSetHidden(old(Snap()), v, Cfg())
    {
      base.hidden := v;
      if base.attached {
        base.host.insetBottom := savedBottom + (if v then 0.0 else base.animator.executeIncremental);
        originY := base.host.contentHeight;
      } else {
        originY := 0.0;
      }
    }
  }
}
