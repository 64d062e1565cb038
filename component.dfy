/** ESRefreshComponent: the base of the header and the footer. It owns the two
    busy flags, the observation flags and the gate that decides whether a
    scroll notification reaches the subclass. */
module RefreshComponent {
  import opened Host
  import opened HeaderAnimator

  /** The pair (`isRefreshing`, `isAutoRefreshing`). */
  datatype Busy = Busy(refreshing: bool, autoRefreshing: bool)

  const Idle := Busy(false, false)

  predicate IsBusy(b: Busy) {
    b.refreshing || b.autoRefreshing
  }

  /** The two busy flags are never both set. */
  predicate Exclusive(b: Busy) {
    !(b.refreshing && b.autoRefreshing)
  }

  /** The flag effect of startRefreshing(isAuto): nothing while busy, otherwise
      exactly one flag is raised, chosen by `isAuto`. */
  function StartRefreshingFlags(b: Busy, isAuto: bool): (r: Busy)
    ensures IsBusy(r) && (Exclusive(b) ==> Exclusive(r))
    ensures IsBusy(b) ==> r == b
    ensures !IsBusy(b) ==> r.refreshing == !isAuto && r.autoRefreshing == isAuto
  {
    if IsBusy(b) then b else Busy(!isAuto, isAuto)
  }

  /** The flag effect of stopRefreshing on a component whose `stop` is the
      base one: nothing when idle, otherwise both flags cleared. */
  function StopRefreshingFlags(b: Busy): (r: Busy)
    ensures !IsBusy(r)
    ensures !IsBusy(b) ==> r == b
  {
    if IsBusy(b) then Idle else b
  }

  /** Calls a caller can make on a bare component. */
  datatype Call = StartCall(isAuto: bool) | StopCall

  function RunCalls(b: Busy, calls: seq<Call>): Busy
    decreases |calls|
  {
    if calls == [] then b
    else
      var next := match calls[0]
        case StartCall(isAuto) => StartRefreshingFlags(b, isAuto)
        case StopCall => StopRefreshingFlags(b);
      RunCalls(next, calls[1..])
  }

  /** No sequence of start and stop calls ever raises both busy flags. */
  lemma {:induction false} ExclusiveAlongCalls(b: Busy, calls: seq<Call>)
    requires Exclusive(b)
    ensures Exclusive(RunCalls(b, calls))
    decreases |calls|
  {
    if calls != [] {
      var next := match calls[0]
        case StartCall(isAuto) => StartRefreshingFlags(b, isAuto)
        case StopCall => StopRefreshingFlags(b);
      ExclusiveAlongCalls(next, calls[1..]);
    }
  }

  /** Stopping twice leaves the same flags as stopping once. */
  lemma StopRefreshingIdempotent(b: Busy)
    ensures StopRefreshingFlags(StopRefreshingFlags(b)) == StopRefreshingFlags(b)
  {
  }

  /** The two key paths the component observes on its host. */
  datatype KeyPath = ContentOffset | ContentSize

  /** Which subclass hook a notification is dispatched to. */
  datatype Action = HandleOffset | HandleSize | Drop

  /** The parts of a component that the refresh operations never write:
      the registration flag, the view's visibility, interaction and height,
      and the animator's three descriptions. */
  datatype ViewSettings = ViewSettings(
    isObserving: bool,
    hidden: bool,
    userInteractionEnabled: bool,
    height: real,
    pullDescription: string,
    releaseDescription: string,
    loadingDescription: string)

  class Component {
    /** The scroll view the component is added to. The weak `scrollView`
        reference of the source is `host` while `attached`, nil otherwise. */
    const host: ScrollView
    const animator: Animator
    var attached: bool
    var isRefreshing: bool
    var isAutoRefreshing: bool
    var isObserving: bool
    var isIgnoreObserving: bool
    var hidden: bool
    var userInteractionEnabled: bool
    /** The component's own frame height. */
    var height: real
    /** How many times the caller's handler has run. */
    var handlerCalls: nat

    ghost predicate Valid()
      reads this, animator
    {
      Exclusive(Flags()) && animator.Valid()
    }

    function Settings(): ViewSettings
      reads this, animator
    {
      ViewSettings(isObserving, hidden, userInteractionEnabled, height, animator.pullToRefreshDescription,
                   animator.releaseToRefreshDescription, animator.loadingDescription)
    }

    function Flags(): Busy
      reads this
    {
      Busy(isRefreshing, isAutoRefreshing)
    }

    /** A freshly created component is idle, visible, detached and not observing. */
    constructor (host: ScrollView, animator: Animator)
      requires animator.Valid()
      ensures Valid() && this.host == host && this.animator == animator
      ensures Flags() == Idle && !attached && !isObserving && !isIgnoreObserving
      ensures !hidden && userInteractionEnabled && height == 0.0 && handlerCalls == 0
    {
      this.host, this.animator := host, animator;
      attached := false;
      isRefreshing, isAutoRefreshing := false, false;
      isObserving, isIgnoreObserving := false, false;
      hidden, userInteractionEnabled := false, true;
      height := 0.0;
      handlerCalls := 0;
    }

    /** observeValueForKeyPath: a notification reaches the subclass only when
        the component is interaction-enabled, visible and not ignoring. */
    function Dispatch(key: KeyPath): (a: Action)
      reads this
      ensures a != Drop <==> userInteractionEnabled && !hidden && !isIgnoreObserving
      ensures a == HandleOffset ==> key == ContentOffset
      ensures a == HandleSize ==> key == ContentSize
    {
      if !userInteractionEnabled || hidden then Drop
      else if isIgnoreObserving then Drop
      else match key
        case ContentSize => HandleSize
        case ContentOffset => HandleOffset
    }

    /** ignoreObserver(ignore): sets the ignoring flag and, when the component
        has a scroll view, turns scrolling off while ignoring. */
    method IgnoreObserver(ignore: bool)
      modifies this`isIgnoreObserving, host`scrollEnabled
      ensures isIgnoreObserving == ignore
      ensures host.scrollEnabled == if attached then !ignore else old(host.scrollEnabled)
    {
      if attached {
        host.scrollEnabled := !ignore;
      }
      isIgnoreObserving := ignore;
    }

    /** addObserver(view): registers only when handed a scroll view, and only
        once; a second registration is skipped. */
    method AddObserver(toScrollView: bool)
      modifies this`isObserving
      ensures isObserving == (old(isObserving) || toScrollView)
    {
      if toScrollView && !isObserving {
        isObserving := true;
      }
    }

    /** removeObserver: unregisters only a registered component that is still
        in its scroll view. */
    method RemoveObserver()
      modifies this`isObserving
      ensures isObserving == (old(isObserving) && !attached)
    {
      if attached && isObserving {
        isObserving := false;
      }
    }

    /** addSubview on the host: willMoveToSuperview unregisters from the old
        superview (there is none for a new component), didMoveToSuperview
        picks up the host. Registration itself is deferred to the next turn
        of the run loop (AddObserver, called by the subclass's DidAttach). */
    method MoveToHost()
      modifies this`attached, this`isObserving
      ensures attached
      ensures isObserving == (old(isObserving) && !old(attached))
    {
      RemoveObserver();
      attached := true;
    }

    /** removeFromSuperview: unregisters from the host at once, then forgets
        it. The deferred registration is then handed no scroll view, so it
        registers nothing (AddObserver(false)). */
    method RemoveFromHost()
      modifies this`attached, this`isObserving
      ensures !attached
      ensures isObserving == (old(isObserving) && !old(attached))
    {
      RemoveObserver();
      attached := false;
    }

    /** The guard and flag update of startRefreshing(isAuto). The result says
        whether the subclass's `start` must run now: exactly when the
        component was idle. */
    method StartRefreshing(isAuto: bool) returns (runStart: bool)
      requires Valid()
      modifies this`isRefreshing, this`isAutoRefreshing
      ensures Valid()
      ensures runStart == !IsBusy(old(Flags()))
      ensures Flags() == StartRefreshingFlags(old(Flags()), isAuto)
    {
      if isRefreshing || isAutoRefreshing {
        return false;
      }
      isRefreshing := !isAuto;
      isAutoRefreshing := isAuto;
      runStart := true;
    }

    /** The base `stop`: clears both busy flags and nothing else. */
    method Stop()
      requires Valid()
      modifies this`isRefreshing, this`isAutoRefreshing
      ensures Valid() && Flags() == Idle
    {
      isRefreshing := false;
      isAutoRefreshing := false;
    }

    /** stopRefreshing on a component whose `stop` is the base one. */
    method StopRefreshing()
      requires Valid()
      modifies this`isRefreshing, this`isAutoRefreshing
      ensures Valid()
      ensures Flags() == StopRefreshingFlags(old(Flags()))
    {
      if isRefreshing || isAutoRefreshing {
        Stop();
      }
    }

    /** Runs the caller's handler (modelled by counting its invocations). */
    method InvokeHandler()
      modifies this`handlerCalls
      ensures handlerCalls == old(handlerCalls) + 1
    {
      handlerCalls := handlerCalls + 1;
    }
  }
}
