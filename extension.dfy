/** The UIScrollView extension: the `es_header` / `es_footer` associated
    properties and the operations built on them, as a wrapper that owns the
    scroll view's refresh components. */
module ScrollViewExtension {
  import opened Wrappers
  import opened Host
  import opened RefreshComponent
  import opened RefreshDataManager
  import HeaderAnimator
  import Header
  import Footer

  /** What es_stopPullToRefresh does to the footer: reset its no-more-data
      flag unless the date is ignored, then assign `isHidden`. */
  function FooterAfterStop(f: Footer.Model, ignoreDate: bool, ignoreFooter: bool, c: Footer.Config): Footer.Model
  {
    Footer.AfterSetHidden(if ignoreDate then f else Footer.AfterSetNoMoreData(f, false), ignoreFooter, c)
  }

  class RefreshScrollView {
    const scrollView: ScrollView
    /** The shared ESRefreshDataManager. */
    const manager: DataManager
    var header: Header.HeaderView?
    var footer: Footer.FooterView?

    ghost function HeaderObjects(): set<object>
      reads this
    {
      if header != null then header.Repr() else {}
    }

    ghost function FooterObjects(): set<object>
      reads this
    {
      if footer != null then footer.Repr() else {}
    }

    /** Installed components are valid, sit in this scroll view and do not
        share their base or their animator. */
    ghost predicate Valid()
      reads this, HeaderObjects(), FooterObjects()
    {
      (header != null ==> header.Valid() && header.base.host == scrollView && header.base.attached) &&
      (footer != null ==> footer.Valid() && footer.base.host == scrollView && footer.base.attached) &&
      (header != null && footer != null ==>
         header.base != footer.base && header.base.animator != footer.base.animator)
    }

    /** The header and the footer share only the scroll view. */
    lemma Disjoint()
      requires Valid()
      ensures header != null ==> header.Repr() <= HeaderObjects()
      ensures footer != null ==> footer.Repr() <= FooterObjects()
      ensures header != null && footer != null ==>
                footer !in header.Repr() && footer.base !in header.Repr() && footer.base.animator !in header.Repr() &&
                header !in footer.Repr() && header.base !in footer.Repr() && header.base.animator !in footer.Repr()
    {
    }

    constructor (scrollView: ScrollView, manager: DataManager)
      ensures Valid() && this.scrollView == scrollView && this.manager == manager
      ensures header == null && footer == null
    {
      this.scrollView, this.manager := scrollView, manager;
      header, footer := null, null;
    }

    /** es_removeRefreshHeader: stop the header, take it out of the scroll
        view (which unregisters it) and forget it. */
    method RemoveRefreshHeader()
      requires Valid()
      modifies this`header, HeaderObjects()
      ensures Valid() && header == null && footer == old(footer)
      ensures old(header) != null ==>
                old(header).Snap() == Header.AfterStopRefreshing(old(header.Snap())).(attached := false)
      ensures old(header) != null ==> !old(header).base.isObserving && old(header).Valid()
    {
      if header != null {
        header.StopRefreshing();
        header.base.RemoveFromHost();
        header := null;
      }
    }

    method RemoveRefreshFooter()
      requires Valid()
      modifies this`footer, FooterObjects()
      ensures Valid() && footer == null && header == old(header)
      ensures old(footer) != null ==>
                old(footer).Snap() == Footer.AfterStopRefreshing(old(footer.Snap())).(attached := false)
      ensures old(footer) != null ==> !old(footer).base.isObserving && old(footer).Valid()
    {
      if footer != null {
        footer.StopRefreshing();
        footer.base.RemoveFromHost();
        footer := null;
      }
    }

    /** es_addPullToRefresh: the previous header is removed first; the new one
        is as tall as the animator's incremental height and sits in the view,
        not yet registered (that happens in its DidAttach). */
    method AddPullToRefresh(animator: HeaderAnimator.Animator) returns (h: Header.HeaderView)
      requires Valid() && animator.Valid()
      requires footer != null ==> animator != footer.base.animator
      modifies this`header, HeaderObjects()
      ensures Valid() && fresh(h) && fresh(h.base) && header == h && footer == old(footer)
      ensures h.base.animator == animator && h.base.height == animator.executeIncremental
      ensures h.Snap() == Header.Model(true, Idle, false, 0.0, 0.0, true, 0, [], scrollView.Snapshot(), animator.log)
      ensures !h.base.isObserving && h.refreshIdentifier == None
      ensures old(header) != null ==>
                old(header).Snap() == Header.AfterStopRefreshing(old(header.Snap())).(attached := false)
      ensures old(header) != null ==> !old(header).base.isObserving
    {
      RemoveRefreshHeader();
      h := new Header.HeaderView(scrollView, animator);
      h.base.height := animator.executeIncremental;
      h.base.MoveToHost();
      header := h;
    }

    /** es_addInfiniteScrolling, the footer counterpart of AddPullToRefresh;
        the new footer starts right below the content and its bottom inset. */
    method AddInfiniteScrolling(animator: HeaderAnimator.Animator) returns (f: Footer.FooterView)
      requires Valid() && animator.Valid()
      requires header != null ==> animator != header.base.animator
      modifies this`footer, FooterObjects()
      ensures Valid() && fresh(f) && fresh(f.base) && footer == f && header == old(header)
      ensures f.base.animator == animator && f.base.height == animator.executeIncremental
      ensures f.Snap() == Footer.Model(true, Idle, false, false, false, 1.0, 0.0,
                                       scrollView.contentHeight + scrollView.insetBottom, 0, [],
                                       scrollView.Snapshot(), animator.log)
      ensures !f.base.isObserving
      ensures old(footer) != null ==>
                old(footer).Snap() == Footer.AfterStopRefreshing(old(footer.Snap())).(attached := false)
      ensures old(footer) != null ==> !old(footer).base.isObserving
    {
      RemoveRefreshFooter();
      f := new Footer.FooterView(scrollView, animator);
      f.base.height := animator.executeIncremental;
      f.originY := scrollView.contentHeight + scrollView.insetBottom;
      f.base.MoveToHost();
      footer := f;
    }

    /** es_startPullToRefresh (its hop to the next run-loop turn is not modelled). */
    method StartPullToRefresh()
      requires Valid()
      modifies HeaderObjects()
      ensures Valid()
      ensures header != null ==>
                header.Snap() == Header.AfterStartRefreshing(old(header.Snap()), false, header.Cfg())
      ensures RefreshIdentifier() == old(RefreshIdentifier())
      ensures header != null ==>
                header.base.Settings() == old(header.base.Settings()) &&
                (old(header.base.animator.Latches()) ==> header.base.animator.Latches())
    {
      if header != null {
        Disjoint();
        header.StartRefreshing(false);
      }
    }

    /** `expired`: decided by the data manager under the header's identifier;
        false when there is no header or no identifier. */
    function Expired(now: real): (expired: bool)
      reads this, header, manager
      ensures header == null || header.refreshIdentifier.None? ==> !expired
      ensures header != null && header.refreshIdentifier.Some? ==>
                expired == manager.IsExpired(header.refreshIdentifier.value, now)
    {
      if header != null && header.refreshIdentifier.Some? then
        manager.IsExpired(header.refreshIdentifier.value, now)
      else false
    }

    /** es_autoPullToRefresh: an auto refresh, only when expired. */
    method AutoPullToRefresh(now: real)
      requires Valid()
      modifies HeaderObjects()
      ensures Valid()
      ensures header != null ==>
                header.Snap() == if old(Expired(now))
                                 then Header.AfterStartRefreshing(old(header.Snap()), true, header.Cfg())
                                 else old(header.Snap())
      ensures RefreshIdentifier() == old(RefreshIdentifier())
      ensures header != null ==>
                header.base.Settings() == old(header.base.Settings()) &&
                (old(header.base.animator.Latches()) ==> header.base.animator.Latches())
    {
      if Expired(now) {
        if header != null {
          Disjoint();
          header.StartRefreshing(true);
        }
      }
    }

    /** es_stopPullToRefresh: stop the header; unless the date is ignored,
        record `now` under the header's identifier and reset the footer's
        no-more-data flag; then hide or show the footer. */
    method StopPullToRefresh(ignoreDate: bool, ignoreFooter: bool, now: real)
      requires Valid()
      modifies HeaderObjects(), FooterObjects(), manager`lastRefreshInfo
      ensures Valid()
      ensures header != null ==>
                header.Snap() == Header.AfterStopRefreshing(old(header.Snap())).(host := scrollView.Snapshot())
      ensures header != null && footer == null ==>
                header.Snap() == Header.AfterStopRefreshing(old(header.Snap()))
      ensures footer != null ==>
                footer.Snap() == FooterAfterStop(old(footer.Snap()).(host := if header != null
                                                                     then Header.AfterStopRefreshing(old(header.Snap())).host
                                                                     else old(scrollView.Snapshot())),
                                                 ignoreDate, ignoreFooter, footer.Cfg())
      ensures !ignoreDate && RefreshIdentifier().Some? ==>
                manager.Date(RefreshIdentifier().value) == Some(now) &&
                forall k :: k != RefreshIdentifier().value ==> manager.Date(k) == old(manager.Date(k))
      ensures ignoreDate || RefreshIdentifier().None? ==>
                manager.lastRefreshInfo == old(manager.lastRefreshInfo)
      ensures RefreshIdentifier() == old(RefreshIdentifier())
      ensures header != null ==>
                header.base.Settings() == old(header.base.Settings()) &&
                (old(header.base.animator.Latches()) ==> header.base.animator.Latches())
      ensures footer != null ==>
                footer.base.Settings() == old(footer.base.Settings()).(hidden := ignoreFooter) &&
                (old(footer.base.animator.Latches()) ==> footer.base.animator.Latches())
    {
      StopHeaderAndRecord(ignoreDate, now);
      UpdateFooter(ignoreDate, ignoreFooter);
    }

    /** The header half of es_stopPullToRefresh: stop it, then record the date. */
    method StopHeaderAndRecord(ignoreDate: bool, now: real)
      requires Valid()
      modifies HeaderObjects(), manager`lastRefreshInfo
      ensures Valid()
      ensures header != null ==> header.Snap() == Header.AfterStopRefreshing(old(header.Snap()))
      ensures scrollView.Snapshot() == if header != null then Header.AfterStopRefreshing(old(header.Snap())).host
                                       else old(scrollView.Snapshot())
      ensures footer != null ==> footer.Snap() == old(footer.Snap()).(host := scrollView.Snapshot())
      ensures RefreshIdentifier() == old(RefreshIdentifier())
      ensures footer != null ==> unchanged(footer, footer.base, footer.base.animator)
      ensures !ignoreDate && RefreshIdentifier().Some? ==>
                manager.Date(RefreshIdentifier().value) == Some(now) &&
                forall k :: k != RefreshIdentifier().value ==> manager.Date(k) == old(manager.Date(k))
      ensures ignoreDate || RefreshIdentifier().None? ==>
                manager.lastRefreshInfo == old(manager.lastRefreshInfo)
      ensures header != null ==>
                header.base.Settings() == old(header.base.Settings()) &&
                (old(header.base.animator.Latches()) ==> header.base.animator.Latches())
    {
      Disjoint();
      var h := header;
      if h != null {
        h.StopRefreshing();
        if !ignoreDate && h.refreshIdentifier.Some? {
          manager.SetDate(Some(now), h.refreshIdentifier.value);
        }
      }
    }

    /** The footer half of es_stopPullToRefresh: optionally reset the
        no-more-data flag, then assign `isHidden`. */
    method UpdateFooter(ignoreDate: bool, ignoreFooter: bool)
      requires Valid()
      modifies FooterObjects()
      ensures Valid()
      ensures footer != null ==> footer.Snap() == FooterAfterStop(old(footer.Snap()), ignoreDate, ignoreFooter, footer.Cfg())
      ensures footer == null ==> scrollView.Snapshot() == old(scrollView.Snapshot())
      ensures header != null ==> header.Snap() == old(header.Snap()).(host := scrollView.Snapshot())
      ensures RefreshIdentifier() == old(RefreshIdentifier()) && unchanged(manager)
      ensures header != null ==> unchanged(header, header.base, header.base.animator)
      ensures footer != null ==>
                footer.base.Settings() == old(footer.base.Settings()).(hidden := ignoreFooter) &&
                (old(footer.base.animator.Latches()) ==> footer.base.animator.Latches())
    {
      Disjoint();
      var f := footer;
      if f != null {
        if !ignoreDate {
          f.ResetNoMoreData();
        }
        f.SetHidden(ignoreFooter);
      }
    }

    /** es_noticeNoMoreData: stop the footer, then raise its no-more-data flag. */
    method NoticeNoMoreData()
      requires Valid()
      modifies FooterObjects()
      ensures Valid()
      ensures footer != null ==>
                footer.Snap() == Footer.AfterSetNoMoreData(Footer.AfterStopRefreshing(old(footer.Snap())), true)
      ensures footer != null ==>
                footer.base.Settings() == old(footer.base.Settings()) &&
                (old(footer.base.animator.Latches()) ==> footer.base.animator.Latches())
      ensures header != null ==> header.Snap() == old(header.Snap()).(host := scrollView.Snapshot())
    {
      if footer != null {
        Disjoint();
        footer.StopRefreshing();
        footer.NoticeNoMoreData();
      }
    }

    method ResetNoMoreData()
      requires Valid()
      modifies FooterObjects()
      ensures Valid()
      ensures footer != null ==> footer.Snap() == Footer.AfterSetNoMoreData(old(footer.Snap()), false)
      ensures footer != null ==>
                footer.base.Settings() == old(footer.base.Settings()) &&
                (old(footer.base.animator.Latches()) ==> footer.base.animator.Latches())
      ensures header != null ==> header.Snap() == old(header.Snap())
    {
      if footer != null {
        Disjoint();
        footer.ResetNoMoreData();
      }
    }

    method StopLoadingMore()
      requires Valid()
      modifies FooterObjects()
      ensures Valid()
      ensures footer != null ==> footer.Snap() == Footer.AfterStopRefreshing(old(footer.Snap()))
      ensures footer != null ==>
                footer.base.Settings() == old(footer.base.Settings()) &&
                (old(footer.base.animator.Latches()) ==> footer.base.animator.Latches())
      ensures header != null ==> header.Snap() == old(header.Snap()).(host := scrollView.Snapshot())
    {
      if footer != null {
        Disjoint();
        footer.StopRefreshing();
      }
    }

    /** The `refreshIdentifier` property lives on the header. */
    function RefreshIdentifier(): (id: Option<string>)
      reads this, header
      ensures header == null ==> id == None
      ensures header != null ==> id == header.refreshIdentifier
    {
      if header != null then header.refreshIdentifier else None
    }

    method SetRefreshIdentifier(id: Option<string>)
      requires Valid()
      modifies header
      ensures Valid()
      ensures header != null ==> RefreshIdentifier() == id
      ensures header != null ==> header.Snap() == old(header.Snap()) && header.base.Settings() == old(header.base.Settings())
    {
      if header != null {
        header.refreshIdentifier := id;
      }
    }

    /** `expiredTimeInterval`: read and written through the header's identifier. */
    function ExpiredTimeInterval(): (interval: Option<real>)
      reads this, header, manager
      ensures RefreshIdentifier().None? ==> interval == None
      ensures RefreshIdentifier().Some? ==> interval == manager.ExpiredTimeInterval(RefreshIdentifier().value)
    {
      if header != null && header.refreshIdentifier.Some? then
        manager.ExpiredTimeInterval(header.refreshIdentifier.value)
      else None
    }

    method SetExpiredTimeInterval(interval: Option<real>)
      modifies manager`expiredTimeIntervalInfo
      ensures RefreshIdentifier().Some? ==> ExpiredTimeInterval() == interval
      ensures RefreshIdentifier().Some? ==>
                forall k :: k != RefreshIdentifier().value ==>
                  manager.ExpiredTimeInterval(k) == old(manager.ExpiredTimeInterval(k))
      ensures RefreshIdentifier().None? ==> manager.expiredTimeIntervalInfo == old(manager.expiredTimeIntervalInfo)
    {
      if header != null && header.refreshIdentifier.Some? {
        manager.SetExpiredTimeInterval(interval, header.refreshIdentifier.value);
      }
    }

    /** `lastRefreshDate`. */
    function LastRefreshDate(): (date: Option<real>)
      reads this, header, manager
      ensures RefreshIdentifier().None? ==> date == None
      ensures RefreshIdentifier().Some? ==> date == manager.Date(RefreshIdentifier().value)
    {
      if header != null && header.refreshIdentifier.Some? then
        manager.Date(header.refreshIdentifier.value)
      else None
    }
  }
}
