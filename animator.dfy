/** The default header animator: a state latch that deduplicates state
    notifications and maps each state to a title, plus the two geometry
    constants the components read. Every call a component makes is also
    appended to `log`, which is the observable protocol between a component
    and its animator. */
module HeaderAnimator {

  /** ESRefreshViewState. */
  datatype RefreshState = PullToRefresh | ReleaseToRefresh | Refreshing | AutoRefreshing | NoMoreData

  /** One call from a component to its animator. */
  datatype Event =
    | AnimationBegin
    | AnimationEnd
    | ProgressChanged(percent: real)
    | StateChanged(state: RefreshState)

  /** The state a latch that started in `init` holds after receiving `events`:
      the most recent state notification wins, the others leave it alone. */
  function Latched(init: RefreshState, events: seq<Event>): RefreshState
    decreases |events|
  {
    if events == [] then init
    else
      match events[|events| - 1]
      case StateChanged(s) => s
      case _ => Latched(init, events[..|events| - 1])
  }

  /** The title the animator shows after switching to state `s`; `.noMoreData`
      (the `default:` arm) keeps the current title. */
  function TitleFor(s: RefreshState, current: string, pull: string, release: string, loading: string): string
  {
    match s
    case Refreshing => loading
    case AutoRefreshing => loading
    case ReleaseToRefresh => release
    case PullToRefresh => pull
    case NoMoreData => current
  }

  lemma LatchedSnoc(init: RefreshState, events: seq<Event>, e: Event)
    ensures Latched(init, events + [e]) == if e.StateChanged? then e.state else Latched(init, events)
  {
    assert (events + [e])[..|events|] == events;
  }

  /** A log without state notifications leaves the latch where it started. */
  lemma {:induction false} LatchedWithoutStateChange(init: RefreshState, events: seq<Event>)
    requires forall j :: 0 <= j < |events| ==> !events[j].StateChanged?
    ensures Latched(init, events) == init
    decreases |events|
  {
    if events != [] {
      LatchedWithoutStateChange(init, events[..|events| - 1]);
    }
  }

  /** The latch holds the state of the most recent state notification. */
  lemma {:induction false} LatchedIsLastStateChange(init: RefreshState, events: seq<Event>, k: nat)
    requires k < |events| && events[k].StateChanged?
    requires forall j :: k < j < |events| ==> !events[j].StateChanged?
    ensures Latched(init, events) == events[k].state
    decreases |events|
  {
    if k < |events| - 1 {
      LatchedIsLastStateChange(init, events[..|events| - 1], k);
    }
  }

  /** Feeding the latch a log in two pieces is the same as feeding it the whole log. */
  lemma {:induction false} LatchedConcat(init: RefreshState, a: seq<Event>, b: seq<Event>)
    ensures Latched(init, a + b) == Latched(Latched(init, a), b)
    decreases |b|
  {
    if b == [] {
      assert a + b == a;
    } else {
      var b' := b[..|b| - 1];
      assert (a + b)[..|a + b| - 1] == a + b';
      LatchedConcat(init, a, b');
    }
  }

  /** ESRefreshHeaderAnimator. The localized descriptions are opaque strings
      chosen by the caller. */
  class Animator {
    const trigger: real
    const executeIncremental: real
    var state: RefreshState
    var title: string
    var pullToRefreshDescription: string
    var releaseToRefreshDescription: string
    var loadingDescription: string
    var log: seq<Event>

    /** Progress is a fraction of the trigger distance, so it must not be zero. */
    ghost predicate Valid()
      reads this
    {
      trigger != 0.0
    }

    /** The latched state is the one the log of received calls determines. */
    ghost predicate Latches()
      reads this
    {
      state == Latched(PullToRefresh, log)
    }

    /** The stock animator: trigger and incremental height of 60 points,
        initial state `.pullToRefresh`, title showing the pull description. */
    constructor Default(pull: string, release: string, loading: string)
      ensures Valid() && Latches() && log == []
      ensures trigger == 60.0 && executeIncremental == 60.0 && state == PullToRefresh
      ensures pullToRefreshDescription == pull && releaseToRefreshDescription == release
      ensures loadingDescription == loading && title == pull
    {
      trigger, executeIncremental := 60.0, 60.0;
      state := PullToRefresh;
      pullToRefreshDescription, releaseToRefreshDescription, loadingDescription := pull, release, loading;
      title := pull;
      log := [];
    }

    /** An animator with custom geometry (a footer animator or a custom header animator). */
    constructor (trigger: real, executeIncremental: real, pull: string, release: string, loading: string)
      requires trigger != 0.0
      ensures Valid() && Latches() && log == []
      ensures this.trigger == trigger && this.executeIncremental == executeIncremental
      ensures state == PullToRefresh && title == pull
      ensures pullToRefreshDescription == pull && releaseToRefreshDescription == release
      ensures loadingDescription == loading
    {
      this.trigger, this.executeIncremental := trigger, executeIncremental;
      state := PullToRefresh;
      pullToRefreshDescription, releaseToRefreshDescription, loadingDescription := pull, release, loading;
      title := pull;
      log := [];
    }

    /** refresh(_:stateDidChange:): a repeated state changes neither state nor
        title; a new state is latched and selects the title. */
    method RefreshStateDidChange(s: RefreshState)
      modifies this`state, this`title, this`log
      ensures Latches()
      ensures log == old(log) + [StateChanged(s)]
      ensures state == s
      ensures old(state) == s ==> title == old(title)
      ensures old(state) != s ==> title == TitleFor(s, old(title), pullToRefreshDescription,
                                                    releaseToRefreshDescription, loadingDescription)
    {
      LatchedSnoc(PullToRefresh, log, StateChanged(s));
      log := log + [StateChanged(s)];
      if state == s {
        return;
      }
      state := s;
      match s {
        case Refreshing => title := loadingDescription;
        case AutoRefreshing => title := loadingDescription;
        case ReleaseToRefresh => title := releaseToRefreshDescription;
        case PullToRefresh => title := pullToRefreshDescription;
        case NoMoreData =>
      }
    }

    /** refreshAnimationBegin: shows the loading title, keeps the state. */
    method RefreshAnimationBegin()
      modifies this`title, this`log
      ensures Latches() == old(Latches()) && state == old(state)
      ensures log == old(log) + [AnimationBegin]
      ensures title == loadingDescription
    {
      LatchedSnoc(PullToRefresh, log, AnimationBegin);
      log := log + [AnimationBegin];
      title := loadingDescription;
    }

    /** refreshAnimationEnd: shows the pull title, keeps the state. */
    method RefreshAnimationEnd()
      modifies this`title, this`log
      ensures Latches() == old(Latches()) && state == old(state)
      ensures log == old(log) + [AnimationEnd]
      ensures title == pullToRefreshDescription
    {
      LatchedSnoc(PullToRefresh, log, AnimationEnd);
      log := log + [AnimationEnd];
      title := pullToRefreshDescription;
    }

    /** refresh(_:progressDidChange:): this animator ignores progress. */
    method RefreshProgressDidChange(percent: real)
      modifies this`log
      ensures Latches() == old(Latches())
      ensures log == old(log) + [ProgressChanged(percent)]
    {
      LatchedSnoc(PullToRefresh, log, ProgressChanged(percent));
      log := log + [ProgressChanged(percent)];
    }

    /** The `pullToRefreshDescription` observer: the title is rewritten only
        when the description actually changes. */
    method SetPullToRefreshDescription(d: string)
      modifies this`pullToRefreshDescription, this`title
      ensures pullToRefreshDescription == d
      ensures title == if d != old(pullToRefreshDescription) then d else old(title)
    {
      var previous := pullToRefreshDescription;
      pullToRefreshDescription := d;
      if d != previous {
        title := d;
      }
    }
  }
}
