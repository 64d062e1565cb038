# ESPullToRefresh, modelled in Dafny

ESPullToRefresh adds a pull-to-refresh header and an infinite-scrolling
(load-more) footer to a `UIScrollView`. This project models the library's
logic:

- **The base component** (`RefreshComponent`). It has two busy flags
  (`isRefreshing` and `isAutoRefreshing`), the ignore-observer flag, the
  observing flag, and the gate that decides whether a scroll notification
  reaches the subclass.
- **The header** (`Header`). It runs the pull-to-refresh state machine. Offset
  changes are classified into three zones by the offset recorded at the
  previous notification. While busy, the top inset is clamped. `start` and
  `stop` expand the top inset and later restore it.
- **The footer** (`Footer`). It holds the load-more trigger rule, the
  `noMoreData` and `hidden` observers, the content-size action, and the clamp
  of a decelerating offset on stop.
- **The `UIScrollView` extension** (`ScrollViewExtension`). It is modelled as
  a wrapper class that owns the header and footer of one scroll view.
- **The refresh data manager** (`RefreshDataManager`). It keeps the
  per-identifier last-refresh dates and expiry intervals, and the `isExpired`
  rule.
- **The default header animator** (`HeaderAnimator`). It is a state latch that
  drops repeated state notifications and picks the title shown for each state.

The scroll view is a class with the vertical metrics the components read and
write (`Host`). Geometry is `real`.

The animator records every call a component makes in an event log. This log is
the observable protocol between a component and its animator. The caller's
refresh handler is a counter of its invocations.

Each `UIView.animate…(completion:)` is split in two:

- the animation block is applied at once;
- the completion is queued in `pending` and runs when `FinishAnimation` is
  called.

This split lets the model state what happens between an animation's start and
its end.

Each method of `HeaderView` and `FooterView` is proved to change the
snapshot state (`Header.Model`, `Footer.Model`) exactly as a pure function of
the old snapshot does. Its contract also states that the view's other fields
stay: the hidden and user-interaction flags, the height, the animator's
descriptions and, for the header, the identifier; the observing flag stays
too, except that `DidAttach` may set it. A latched animator stays latched.
The properties of the state machines are proved on those functions and on
traces of inputs (`HeaderProperties`, `FooterProperties`).

These pure functions carry the behaviour; the "## Model" rows of the methods
and lemmas named here cite their source lines:

- `Header.ZoneOf`, `Header.Progress`, `Header.Report`,
  `Header.AfterIdleOffsetChange`, `Header.AfterOffsetChange` and
  `Header.AfterNotify`: the header's offset rule (`Header.HeaderView.TrackPull`,
  `Header.HeaderView.OffsetChangeAction`, `Header.HeaderView.Observe`,
  `HeaderProperties.IdleOffsetChange`, `HeaderProperties.BusyOffsetChange`).
- `Header.Ignore`, `Header.ExpandTop`, `Header.AfterStart`,
  `Header.AfterStartRefreshing`, `Header.AfterStop`,
  `Header.AfterStopRefreshing`, `Header.StartCompletion`,
  `Header.StopCompletion` and `Header.AfterFinish`: start, stop and their
  completions (`Header.HeaderView.Start`, `Header.HeaderView.ExpandTopInset`,
  `Header.HeaderView.Stop`, `Header.HeaderView.FinishAnimation`,
  `HeaderProperties.StartStopRoundTrip`).
- `Header.AfterDidAttach` and `Footer.AfterDidAttach`: the deferred half of
  `didMoveToSuperview` (the two `DidAttach` rows).
- `Footer.Fires`, `Footer.ContentVisible`, `Footer.Suppressed`,
  `Footer.AfterOffsetChange` and `Footer.AfterNotify`: the footer's offset
  rule (`Footer.FooterView.OffsetChangeAction`, `Footer.FooterView.Observe`,
  `FooterProperties.VisibleOffsetChange`, `FooterProperties.FiresExamples`).
- `Footer.AfterSizeChange` and `Footer.AfterSizeNotify`: the size action and
  its gate (`Footer.FooterView.SizeChangeAction`,
  `FooterProperties.ResizeFollowsContent`,
  `FooterProperties.SilentFooterStaysPut`).
- `Footer.AfterStart`, `Footer.AfterStartRefreshing`, `Footer.AfterStop`,
  `Footer.AfterStopRefreshing` and `Footer.AfterFinish`: the footer's start,
  stop and completions (`Footer.FooterView.Start`, `Footer.FooterView.Stop`,
  `Footer.FooterView.FinishAnimation`, `FooterProperties.StartStopRoundTrip`).
- `Footer.AfterSetNoMoreData` and `Footer.AfterSetHidden`: the two property
  observers (`Footer.FooterView.SetNoMoreData`, `Footer.FooterView.SetHidden`,
  `FooterProperties.SetNoMoreDataNotifiesOnChange`,
  `FooterProperties.SetHiddenInsets`).

The `dispatch_async` hop in `didMoveToSuperview` is modelled as an explicit
later step, `DidAttach`.

Time is a `now` parameter. Dates and intervals are seconds on that clock.

## Model

| member | source | states |
|---|---|---|
| `HeaderAnimator.LatchedSnoc` | Sources/Animator/ESRefreshHeaderAnimator.swift:107-111 | a state notification moves the latch to that state; any other animator call leaves it where it was |
| `HeaderAnimator.LatchedWithoutStateChange` | Sources/Animator/ESRefreshHeaderAnimator.swift:102-111 | a run of calls without state notifications (begin, end, progress) never moves the latch |
| `HeaderAnimator.LatchedIsLastStateChange` | Sources/Animator/ESRefreshHeaderAnimator.swift:107-111 | the latched state is the state of the most recent state notification received |
| `HeaderAnimator.LatchedConcat` | Sources/Animator/ESRefreshHeaderAnimator.swift:107-111 | feeding the latch two runs of calls one after the other is the same as feeding it their concatenation |
| `HeaderAnimator.Animator.Default` | Sources/Animator/ESRefreshHeaderAnimator.swift:44-46 | the stock animator has trigger 60, incremental height 60, state `.pullToRefresh` and the pull description as its title |
| `HeaderAnimator.Animator.constructor` | Sources/Animator/ESRefreshHeaderAnimator.swift:74-80 | a custom animator starts in `.pullToRefresh`, showing the pull description, with the given geometry |
| `HeaderAnimator.Animator.RefreshStateDidChange` | Sources/Animator/ESRefreshHeaderAnimator.swift:107-137 | a repeated state changes neither the state nor the title; a new state is latched; refreshing and auto-refreshing show the loading text, release shows the release text, pull shows the pull text, no-more-data keeps the current title |
| `HeaderAnimator.Animator.RefreshAnimationBegin` | Sources/Animator/ESRefreshHeaderAnimator.swift:86-92 | shows the loading title; the state and the latch are untouched |
| `HeaderAnimator.Animator.RefreshAnimationEnd` | Sources/Animator/ESRefreshHeaderAnimator.swift:94-100 | shows the pull title; the state and the latch are untouched |
| `HeaderAnimator.Animator.RefreshProgressDidChange` | Sources/Animator/ESRefreshHeaderAnimator.swift:102-105 | progress has no effect on the state, the title or the latch |
| `HeaderAnimator.Animator.SetPullToRefreshDescription` | Sources/Animator/ESRefreshHeaderAnimator.swift:32-38 | the title is rewritten to the new description only when the description actually changes |
| `RefreshComponent.StartRefreshingFlags` | Sources/ESRefreshComponent.swift:171-180 | from idle, exactly one flag is raised (`isRefreshing == !isAuto`, `isAutoRefreshing == isAuto`); while busy the flags do not change; exclusivity is kept |
| `RefreshComponent.StopRefreshingFlags` | Sources/ESRefreshComponent.swift:182-197 | after a stop, neither flag is set; stopping an idle component changes nothing |
| `RefreshComponent.ExclusiveAlongCalls` | Sources/ESRefreshComponent.swift:171-197 | no sequence of start and stop calls ever sets both busy flags |
| `RefreshComponent.StopRefreshingIdempotent` | Sources/ESRefreshComponent.swift:182-188 | stopping twice leaves the same flags as stopping once |
| `RefreshComponent.Component.constructor` | Sources/ESRefreshComponent.swift:42-64 | a new component is idle, not observing, not ignoring, visible, interaction-enabled and detached |
| `RefreshComponent.Component.Dispatch` | Sources/ESRefreshComponent.swift:150-167 | a notification reaches the subclass if and only if the component is interaction-enabled, not hidden and not ignoring; offset changes go to the offset action and size changes to the size action |
| `RefreshComponent.Component.IgnoreObserver` | Sources/ESRefreshComponent.swift:126-131 | sets the ignoring flag to `ignore`; scrolling is turned off exactly while ignoring, and only when there is a scroll view |
| `RefreshComponent.Component.AddObserver` | Sources/ESRefreshComponent.swift:133-139 | registers only when handed a scroll view and not already observing; otherwise the flag stays |
| `RefreshComponent.Component.RemoveObserver` | Sources/ESRefreshComponent.swift:141-147 | unregisters only a component that is observing and still in its scroll view |
| `RefreshComponent.Component.MoveToHost` | Sources/ESRefreshComponent.swift:86-100 | willMoveToSuperview unregisters from the old superview, then the component is in the scroll view |
| `RefreshComponent.Component.RemoveFromHost` | Sources/ESRefreshComponent.swift:86-100 | the component unregisters from the scroll view it leaves and is then detached |
| `RefreshComponent.Component.StartRefreshing` | Sources/ESRefreshComponent.swift:171-180 | `start` must run exactly when the component was idle; the flags follow `StartRefreshingFlags` |
| `RefreshComponent.Component.Stop` | Sources/ESRefreshComponent.swift:194-197 | clears both busy flags and nothing else |
| `RefreshComponent.Component.StopRefreshing` | Sources/ESRefreshComponent.swift:182-188 | the flags follow `StopRefreshingFlags` |
| `RefreshComponent.Component.InvokeHandler` | Sources/ESPullToRefresh.swift:318-319 | the caller's handler runs once more |
| `RefreshDataManager.DataManager.constructor` | Sources/ESPullToRefresh+Manager.swift:37-45 | the dictionaries are the ones loaded from the store |
| `RefreshDataManager.DataManager.Date` | Sources/ESPullToRefresh+Manager.swift:47-50 | the recorded date for the key, or none exactly when none is recorded |
| `RefreshDataManager.DataManager.ExpiredTimeInterval` | Sources/ESPullToRefresh+Manager.swift:58-61 | the recorded interval for the key, or none exactly when none is recorded |
| `RefreshDataManager.DataManager.SetDate` | Sources/ESPullToRefresh+Manager.swift:52-56 | afterwards `date(key)` is the given date; nil removes the key; other keys keep their dates |
| `RefreshDataManager.DataManager.SetExpiredTimeInterval` | Sources/ESPullToRefresh+Manager.swift:63-67 | afterwards `expiredTimeInterval(key)` is the given interval; other keys keep theirs |
| `RefreshDataManager.DataManager.IsExpired` | Sources/ESPullToRefresh+Manager.swift:69-80 | with no date it is expired; with a date and no interval it is not; otherwise it is expired if and only if strictly more than the interval has passed since the date |
| `RefreshDataManager.DataManager.ClearAll` | Sources/ESPullToRefresh+Manager.swift:97-100 | the in-memory dictionaries are unchanged |
| `RefreshDataManager.DataManager.ClearLastRefreshInfo` | Sources/ESPullToRefresh+Manager.swift:102-104 | the in-memory dates are unchanged |
| `RefreshDataManager.DataManager.ClearExpiredTimeIntervalInfo` | Sources/ESPullToRefresh+Manager.swift:106-108 | the in-memory intervals are unchanged |
| `RefreshDataManager.ExpiryExample` | Sources/ESPullToRefresh+Manager.swift:76-79 | a refresh 25 s ago is expired under a 20 s interval and not under a 30 s one |
| `RefreshDataManager.ExpiryIsMonotone` | Sources/ESPullToRefresh+Manager.swift:69-80 | once expired, a key stays expired as the clock advances |
| `RefreshDataManager.FreshDateNotExpired` | Sources/ESPullToRefresh+Manager.swift:76-79 | up to and including date + interval, a key is not expired |
| `Header.ClampTop` | Sources/ESPullToRefresh.swift:242-252 | the busy top inset follows the finger (`-offsetY`) within [saved top, saved top + height]: the saved top when the finger is above it, saved top + height when the finger is beyond that |
| `Header.HeaderView.constructor` | Sources/ESPullToRefresh.swift:199-211 | a new header is idle and detached, with previous offset 0, bounces saved as true, no identifier, and no pending animation |
| `Header.HeaderView.DidAttach` | Sources/ESPullToRefresh.swift:223-233 | the header registers if it is in a scroll view, then saves the scroll view's bounce flag and top inset (true and 0 without a scroll view) |
| `Header.HeaderView.Start` | Sources/ESPullToRefresh.swift:291-325 | ignores observation, turns bounce off, tells the animator, saves the top inset, expands it by the incremental height with the offset following it, and queues the completion; does nothing without a scroll view |
| `Header.HeaderView.ExpandTopInset` | Sources/ESPullToRefresh.swift:305-318 | the animator hears the begin; the top inset is saved and then expanded by the incremental height, the offset follows it to −(new top), and start's completion is queued |
| `Header.HeaderView.StartRefreshing` | Sources/ESRefreshComponent.swift:171-180 | from idle: raises the flag and runs the header's `start`; while busy: nothing changes |
| `Header.HeaderView.Stop` | Sources/ESPullToRefresh.swift:327-347 | ignores observation, tells the animator, animates the top inset back to the saved one and queues the completion; does nothing without a scroll view |
| `Header.HeaderView.StopRefreshing` | Sources/ESRefreshComponent.swift:182-188 | runs the header's `stop` only while busy |
| `Header.HeaderView.FinishAnimation` | Sources/ESPullToRefresh.swift:315-346 | the oldest pending completion runs: start's or stop's |
| `Header.HeaderView.RunStartCompletion` | Sources/ESPullToRefresh.swift:318-323 | the handler runs, observation resumes and bounce is restored to the saved flag |
| `Header.HeaderView.RunStopCompletion` | Sources/ESPullToRefresh.swift:340-346 | the animator hears `.pullToRefresh`, both flags clear, the top inset is set back to the saved one and observation resumes |
| `Header.HeaderView.OffsetChangeAction` | Sources/ESPullToRefresh.swift:235-289 | changes the state as the header's offset rule does: clamp while busy; otherwise the zone of the previous offset decides the start, the release, the pull or nothing, and the progress is reported from the current offset |
| `Header.HeaderView.TrackPull` | Sources/ESPullToRefresh.swift:254-288 | for an idle header: beyond the trigger, a drag reports `.releaseToRefresh` and a release starts refreshing then reports `.refreshing`; above the top, `.pullToRefresh`; otherwise nothing; the offset is recorded and the progress reported from it after either report |
| `Header.HeaderView.Observe` | Sources/ESRefreshComponent.swift:150-167 | only offset notifications that pass the gate change the header; an enabled, visible header's offset notification is handled unless it is ignoring |
| `Footer.FooterView.constructor` | Sources/ESPullToRefresh.swift:351-381 | a new footer is idle, detached, opaque, has data and is shown, with no pending animation |
| `Footer.FooterView.DidAttach` | Sources/ESPullToRefresh.swift:397-411 | the footer registers if it is in a scroll view, then saves the bottom inset, adds its own height to it, and moves below the content (all zero without a scroll view) |
| `Footer.FooterView.SizeChangeAction` | Sources/ESPullToRefresh.swift:413-422 | an attached footer moves to content height + saved bottom inset |
| `Footer.FooterView.Start` | Sources/ESPullToRefresh.swift:458-475 | tells the animator, scrolls to max(0, content − bounds + bottom inset) and queues the completion; does nothing without a scroll view |
| `Footer.FooterView.StartRefreshing` | Sources/ESRefreshComponent.swift:171-180 | from idle: raises the flag and runs the footer's `start`; while busy: nothing changes |
| `Footer.FooterView.Stop` | Sources/ESPullToRefresh.swift:477-508 | tells the animator and queues the completion; a decelerating offset is pinned to max(0, min(offset, content − frame)) |
| `Footer.FooterView.StopRefreshing` | Sources/ESRefreshComponent.swift:182-188 | runs the footer's `stop` only while busy |
| `Footer.FooterView.FinishAnimation` | Sources/ESPullToRefresh.swift:470-491 | start's completion runs the handler; stop's tells the animator `.pullToRefresh` unless there is no more data, then clears the flags |
| `Footer.FooterView.OffsetChangeAction` | Sources/ESPullToRefresh.swift:424-456 | changes the state as the footer's offset rule does: suppressed, faded out, or shown and, when the trigger rule fires, reporting `.refreshing` and then starting |
| `Footer.FooterView.Observe` | Sources/ESRefreshComponent.swift:150-167 | notifications pass the gate only while the footer is enabled, shown and not ignoring; then offset notifications run the offset rule and size notifications the size action; the rest change nothing |
| `Footer.FooterView.SetNoMoreData` | Sources/ESPullToRefresh.swift:353-359 | the flag takes the value; the animator hears `.noMoreData` or `.pullToRefresh` only when the value changes |
| `Footer.FooterView.NoticeNoMoreData` | Sources/ESPullToRefresh.swift:511-513 | sets the no-more-data flag |
| `Footer.FooterView.ResetNoMoreData` | Sources/ESPullToRefresh.swift:516-518 | clears the no-more-data flag |
| `Footer.FooterView.SetHidden` | Sources/ESPullToRefresh.swift:361-375 | on every assignment, the bottom inset becomes the saved one (hidden) or the saved one plus the incremental height (shown), and the footer moves to the content height |
| `HeaderProperties.StepKeepsExclusive` | Sources/ESRefreshComponent.swift:171-197 | no header input sets both busy flags |
| `HeaderProperties.ExclusiveAlongRun` | Sources/ESRefreshComponent.swift:171-197 | along any trace of scrolls, starts, stops and completions, the header's two busy flags are never both set |
| `HeaderProperties.StartWhileBusyIsNoop` | Sources/ESRefreshComponent.swift:172-174 | startRefreshing on a busy header changes nothing |
| `HeaderProperties.StopWhileIdleIsNoop` | Sources/ESRefreshComponent.swift:183-185 | stopRefreshing on an idle header changes nothing |
| `HeaderProperties.DetachedStartSticks` | Sources/ESPullToRefresh.swift:291-330 | a header without a scroll view raises its flag on start, and no stop can clear it |
| `HeaderProperties.StopIsIdempotentOnceSettled` | Sources/ESPullToRefresh.swift:327-347 | once stop's completion has run, the header is idle and another stop changes nothing |
| `HeaderProperties.DoubleStopQueuesTwice` | Sources/ESPullToRefresh.swift:327-347 | two stops before the completion runs queue two completions, and the animator hears the end twice |
| `HeaderProperties.StartStopRoundTrip` | Sources/ESPullToRefresh.swift:309-346 | after start completes: top inset = saved + incremental, offset = −inset, handler ran once, bounce restored; after stop completes: inset = saved, flags clear, not ignoring, log = begin, end, `.pullToRefresh` |
| `HeaderProperties.BusyOffsetChange` | Sources/ESPullToRefresh.swift:242-252 | while busy, an offset change only moves the top inset within [saved, saved + height]: −offset when in range, the saved top above it, saved + height beyond it; no state report, no offset recorded |
| `HeaderProperties.IdleOffsetChange` | Sources/ESPullToRefresh.swift:254-287 | release zone and released: starts, then reports `.refreshing`; dragging: `.releaseToRefresh` plus progress; pull zone: `.pullToRefresh` plus progress; rest: nothing reported. The progress uses the current offset |
| `HeaderProperties.ZoneIsMonotone` | Sources/ESPullToRefresh.swift:263-285 | a deeper pull never falls into a shallower zone |
| `HeaderProperties.DragStep` | Sources/ESPullToRefresh.swift:263-276 | one notification while dragging never starts the header or reports `.refreshing` |
| `HeaderProperties.DraggingNeverStarts` | Sources/ESPullToRefresh.swift:263-276 | as long as the finger stays down, an idle header never starts, queues nothing, keeps its inset and never reports `.refreshing` |
| `HeaderProperties.BusyScrollsFreeze` | Sources/ESPullToRefresh.swift:242-252 | while busy, scrolling alone never changes the flags, the animator's log, the recorded offset or the pending animations |
| `HeaderProperties.StepKeepsSettled` | Sources/ESPullToRefresh.swift:291-347 | at most one animation is in flight, and ignoring covers it, as long as a stop is requested only when none is in flight |
| `HeaderProperties.SettledAlongRun` | Sources/ESPullToRefresh.swift:291-347 | the same along a whole trace: no scroll notification is handled halfway through an animation |
| `HeaderProperties.StopDuringStartAnimation` | Sources/ESPullToRefresh.swift:291-347 | a stop requested while start's animation is in flight leaves stop's animation pending after start's completion has resumed observation |
| `HeaderProperties.RemovedBusyHeaderLocksHost` | Sources/ESPullToRefresh.swift:89-93 | removing a busy header and then running the stop's completion clears the flags but leaves scrolling disabled and the top inset at 0 |
| `FooterProperties.StepKeepsExclusive` | Sources/ESRefreshComponent.swift:171-197 | no footer input sets both busy flags |
| `FooterProperties.ExclusiveAlongRun` | Sources/ESRefreshComponent.swift:171-197 | along any trace, the footer's two busy flags are never both set |
| `FooterProperties.NoMoreDataNeverLoads` | Sources/ESPullToRefresh.swift:431-434 | with no more data, scrolling and resizing never start a load, never reach the animator and never run the handler |
| `FooterProperties.SuppressedIsNoop` | Sources/ESPullToRefresh.swift:431-434 | a busy, hidden or exhausted footer ignores offset changes |
| `FooterProperties.InvisibleContentFadesOut` | Sources/ESPullToRefresh.swift:436-438 | with content height ≤ 0 or offset + top inset ≤ 0, only the alpha changes, to 0 |
| `FooterProperties.VisibleOffsetChange` | Sources/ESPullToRefresh.swift:436-455 | with content in reach, alpha becomes 1 and the footer starts if and only if the trigger rule fires; it then reports `.refreshing`, begins, scrolls to the bottom and queues the completion |
| `FooterProperties.FiresExamples` | Sources/ESPullToRefresh.swift:443-455 | content 500 in an 800 view with trigger 60: 31 fires and 29 does not; content 2000: offset 1200 fires and 1199 does not |
| `FooterProperties.FiresIsMonotone` | Sources/ESPullToRefresh.swift:443-455 | scrolling further down never un-fires the trigger rule |
| `FooterProperties.SetNoMoreDataNotifiesOnChange` | Sources/ESPullToRefresh.swift:353-359 | setting the same value changes nothing; a new value is recorded and reported as `.noMoreData` or `.pullToRefresh` |
| `FooterProperties.SetNoMoreDataIsIdempotent` | Sources/ESPullToRefresh.swift:353-359 | setting a value twice is the same as setting it once |
| `FooterProperties.SetHiddenInsets` | Sources/ESPullToRefresh.swift:361-375 | hidden: bottom inset = saved; shown: saved + incremental height; no other metric moves |
| `FooterProperties.SetHiddenLastWins` | Sources/ESPullToRefresh.swift:361-375 | only the last assignment of `hidden` matters, so hiding and then showing is the same as showing |
| `FooterProperties.StartStopRoundTrip` | Sources/ESPullToRefresh.swift:458-491 | the handler runs once, the flags clear, and the animator hears begin, end and (unless there is no more data) `.pullToRefresh` |
| `FooterProperties.StopPinsDeceleratingOffset` | Sources/ESPullToRefresh.swift:495-506 | a stop on a decelerating host keeps the offset at or below the last screenful and never above the top, and leaves an in-range offset alone |
| `FooterProperties.ResizeFollowsContent` | Sources/ESPullToRefresh.swift:413-422 | a resize that reaches an attached, shown footer that is not ignoring keeps it right below the content and bottom inset |
| `FooterProperties.SilentFooterStaysPut` | Sources/ESRefreshComponent.swift:150-158 | a hidden or ignoring footer does not hear the resize: only the content height changes |
| `ScrollViewExtension.RefreshScrollView.constructor` | Sources/ESPullToRefresh.swift:35-44 | a scroll view starts with no header and no footer |
| `ScrollViewExtension.RefreshScrollView.RemoveRefreshHeader` | Sources/ESPullToRefresh.swift:89-93 | the old header is stopped, detached and unregistered, and is forgotten |
| `ScrollViewExtension.RefreshScrollView.RemoveRefreshFooter` | Sources/ESPullToRefresh.swift:95-99 | the old footer is stopped, detached and unregistered, and is forgotten |
| `ScrollViewExtension.RefreshScrollView.AddPullToRefresh` | Sources/ESPullToRefresh.swift:57-65 | the previous header is removed first; the new header is in the scroll view, idle, as tall as the incremental height, and not registered until DidAttach |
| `ScrollViewExtension.RefreshScrollView.AddInfiniteScrolling` | Sources/ESPullToRefresh.swift:78-86 | the previous footer is removed first; the new footer is as tall as the incremental height and sits at content height + bottom inset |
| `ScrollViewExtension.RefreshScrollView.StartPullToRefresh` | Sources/ESPullToRefresh.swift:102-110 | the header gets a manual (not auto) startRefreshing; its identifier, settings and a latched animator stay |
| `ScrollViewExtension.RefreshScrollView.Expired` | Sources/ESPullToRefresh.swift:162-169 | false without a header or an identifier; otherwise the manager's `isExpired` for the identifier |
| `ScrollViewExtension.RefreshScrollView.AutoPullToRefresh` | Sources/ESPullToRefresh.swift:113-123 | the header gets an auto startRefreshing exactly when expired; its identifier, settings and a latched animator stay |
| `ScrollViewExtension.RefreshScrollView.StopPullToRefresh` | Sources/ESPullToRefresh.swift:126-135 | stops the header; unless the date is ignored, records `now` under the identifier, which the call keeps (other keys untouched), and resets `noMoreData`; then sets the footer's `hidden` to `ignoreFooter`; both components' other settings and latched animators stay |
| `ScrollViewExtension.RefreshScrollView.StopHeaderAndRecord` | Sources/ESPullToRefresh.swift:127-131 | the header stops and the date is recorded unless ignored; the footer sees only the scroll view change |
| `ScrollViewExtension.RefreshScrollView.UpdateFooter` | Sources/ESPullToRefresh.swift:132-134 | the footer's `noMoreData` is reset unless the date is ignored, then `hidden` is assigned; the manager is untouched |
| `ScrollViewExtension.RefreshScrollView.NoticeNoMoreData` | Sources/ESPullToRefresh.swift:138-141 | stops the footer, then sets its no-more-data flag; its settings and a latched animator stay |
| `ScrollViewExtension.RefreshScrollView.ResetNoMoreData` | Sources/ESPullToRefresh.swift:143-145 | clears the footer's no-more-data flag; its settings and a latched animator stay; the header is untouched |
| `ScrollViewExtension.RefreshScrollView.StopLoadingMore` | Sources/ESPullToRefresh.swift:147-149 | stops the footer; its settings and a latched animator stay |
| `ScrollViewExtension.RefreshScrollView.RefreshIdentifier` | Sources/ESPullToRefresh.swift:156-157 | the header's identifier, none without a header |
| `ScrollViewExtension.RefreshScrollView.SetRefreshIdentifier` | Sources/ESPullToRefresh.swift:158 | with a header, the identifier reads back as the one set, and the header's other state stays |
| `ScrollViewExtension.RefreshScrollView.ExpiredTimeInterval` | Sources/ESPullToRefresh.swift:171-178 | the manager's interval under the identifier, none without one |
| `ScrollViewExtension.RefreshScrollView.SetExpiredTimeInterval` | Sources/ESPullToRefresh.swift:179-183 | with an identifier, the interval reads back as the one set and every other key keeps its interval; without one, nothing changes |
| `ScrollViewExtension.RefreshScrollView.LastRefreshDate` | Sources/ESPullToRefresh.swift:187-194 | the manager's date under the identifier, none without one |

## Behaviour worth noting

- **Hiding the footer.** Each assignment of `hidden` sets the bottom inset to
  an absolute value: the saved inset when hiding, the saved inset plus the
  incremental height when showing. Hiding twice therefore gives back the
  height once (`FooterProperties.SetHiddenLastWins`).
- **`noMoreData`.** The setter only notifies the animator, and only when the
  value changes. It does not stop an active load; `es_noticeNoMoreData` stops
  the footer first.
- **Stopping twice.** A second stop issued before the first stop's animation
  completes runs `stop` again: it queues a second completion and notifies the
  animator twice (`HeaderProperties.DoubleStopQueuesTwice`). A stop is a no-op
  once the first stop's completion has run
  (`HeaderProperties.StopIsIdempotentOnceSettled`).
- **Observation during an animation.** Start's completion resumes observation
  even while a stop requested during start's animation is still pending
  (`HeaderProperties.StopDuringStartAnimation`). For callers that stop only
  after the handler ran, no offset is evaluated while an animation is pending
  (`HeaderProperties.SettledAlongRun`).
- **A missing scroll view.** `startRefreshing` raises the busy flag before the
  header's `start` returns early for want of a scroll view, and nothing clears
  it while the header has no scroll view (`HeaderProperties.DetachedStartSticks`).
- **Removing a busy header.** `es_removeRefreshHeader` stops the header, whose
  `stop` disables scrolling, and then removes it. The deferred part of
  `didMoveToSuperview` finds no scroll view and saves a zero top inset. The
  stop's completion still holds the scroll view: it writes that zero into the
  top inset, but `ignoreObserver(false)` no longer reaches the scroll view, so
  scrolling stays disabled (`HeaderProperties.RemovedBusyHeaderLocksHost`).

## Left out

- `HeaderAnimator.Animator.constructor`: requires a non-zero trigger, because the progress is a division by the trigger. With `CGFloat`, a zero trigger yields an infinity or NaN that the model's reals cannot represent.
- The UIKit view hierarchy and layout: `layoutSubviews`, the animator subview's frame, `autoresizingMask`, the header's frame, and every frame coordinate except the footer's `origin.y`. Alpha is kept only as the 0/1 values the footer assigns.
- The KVO registration mechanics. Registration is the observing flag. Only the vertical `contentOffset` and `contentSize` notifications are modelled, as explicit calls to `Observe`. The `.Initial` notification and notifications the host sends in response to the components' own writes are not generated.
- The `dispatch_async` hops. The work that `willMoveToSuperview` and `didMoveToSuperview` defer is the explicit step `DidAttach`, which reads the superview when it runs; the source's registration block captured the superview when it was queued, so a component added and removed within one turn of the run loop is not modelled. The hop in `es_startPullToRefresh` and `es_autoPullToRefresh` is not modelled: the header is started at once.
- Animation durations and curves, the `CGAffineTransform` rotations and the `impact()` haptics. Each animation block is applied at once, and its completion waits in `pending`.
- `NSUserDefaults` persistence and `synchronize`: only the in-memory dictionaries are modelled, and the clear operations therefore change nothing.
- The asynchronous `isExpired(forKey:block:)`: it only wraps the synchronous rule in two queue hops.
- Image and bundle loading and localized strings: the descriptions are strings chosen by the caller.
- `ESRefreshFooterAnimator` is not part of this model. The footer is driven by the same animator class as the header. The convenience initializers that create a default animator are covered by passing `HeaderAnimator.Animator.Default` to `AddPullToRefresh`.
- What the caller's handler does: it is a counter of its invocations.
- The horizontal axis (`contentOffset.x`, left and right insets) and the insets the components never read.
- `deinit`, which unregisters a component when it is freed: the model has no deallocation.
- `lastRefreshTimestamp` on the header: the library never reads or writes it.
- The example application and `GCDHelper`: these are demos and a thin wrapper over `dispatch_after`.
- The animator's `title`: each animator call states what it does to the title, but the header and footer methods do not carry it in their contracts.
- `ScrollViewExtension.RefreshScrollView.AddPullToRefresh` and `ScrollViewExtension.RefreshScrollView.AddInfiniteScrolling`: require that the header and the footer do not share one animator object; a shared animator (one view moved between two components, one latch for both) is not modelled.
