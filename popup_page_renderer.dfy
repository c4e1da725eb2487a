/** The iOS renderer of a popup page: it keeps the two keyboard observer
    handles, the last reported keyboard bounds and the gesture-recognizer
    state, and it turns host callbacks into calls on the page (its size, the
    background-click signal) and on the popup navigation stack. What the
    host owns (the superview's bounds, the parent controller, the page's
    parent chain, the current application, the hit-test result) arrives as
    parameters; the calls the renderer makes are kept as logs. */
module PopupPageRenderer {
  import opened Notifications
  import opened PopupRules

  /** What a tap led to. A background tap on a renderer without a page is
      the null dereference of the page: no click is sent. */
  datatype TapOutcome = Ignored | BackgroundClickSent | NullPage

  class PopupPageRenderer {
    /** The notification center shared with every other renderer. */
    const center: NotificationCenter
    /** The page this renderer shows, null being `None`; set by the host. */
    var element: Option<ElementId>
    /** The keyboard-will-show and keyboard-will-hide observer handles. */
    var showObserver: Option<Token>
    var hideObserver: Option<Token>
    /** The keyboard bounds last reported, empty when the keyboard is hidden. */
    var keyboardBounds: Rect
    /** Whether the tap recognizer is on the renderer's view. */
    var gestureAttached: bool
    /** Every size given to the page, in order. */
    var sizeLog: seq<Size>
    /** How many background clicks were sent to the page. */
    var backgroundClicks: nat
    /** Every removal requested from the popup navigation stack, in order. */
    var removals: seq<Option<ElementId>>

    /** The two handle fields as one value. */
    function HandleFields(): Handles
      reads this`showObserver, this`hideObserver
    {
      Handles(showObserver, hideObserver)
    }

    /** The handles name exactly this renderer's active keyboard
        subscriptions. */
    ghost predicate Valid()
      reads this`showObserver, this`hideObserver, center
    {
      Consistent(HandleFields(), center.State(), this)
    }

    constructor (center: NotificationCenter, element: Option<ElementId>)
      requires WellFormed(center.State())
      ensures Valid()
      ensures this.center == center && this.element == element
      ensures showObserver == None && hideObserver == None
      ensures keyboardBounds == EmptyRect && !gestureAttached
      ensures sizeLog == [] && backgroundClicks == 0 && removals == []
    {
      this.center := center;
      this.element := element;
      showObserver, hideObserver := None, None;
      keyboardBounds := EmptyRect;
      gestureAttached := false;
      sizeLog, backgroundClicks, removals := [], 0, [];
      new;
      assert Owned(center.State(), this, KeyboardWillShow) == {};
      assert Owned(center.State(), this, KeyboardWillHide) == {};
    }

    /** ViewDidLoad: attach the tap recognizer when there is a view. */
    method ViewDidLoad(hasView: bool)
      modifies this`gestureAttached
      ensures gestureAttached == (old(gestureAttached) || hasView)
    {
      if hasView {
        gestureAttached := true;
      }
    }

    /** ViewDidUnload: detach the tap recognizer when there is a view. */
    method ViewDidUnload(hasView: bool)
      modifies this`gestureAttached
      ensures gestureAttached == (old(gestureAttached) && !hasView)
    {
      if hasView {
        gestureAttached := false;
      }
    }

    /** OnTap: signal a background click exactly when the hit test struck
        the recognizer's own view. */
    method OnTap(view: ViewId, struck: Option<ViewId>) returns (outcome: TapOutcome)
      modifies this`backgroundClicks
      ensures outcome == BackgroundClickSent <==> struck == Some(view) && element.Some?
      ensures outcome == Ignored <==> struck != Some(view)
      ensures backgroundClicks == old(backgroundClicks) + (if outcome == BackgroundClickSent then 1 else 0)
    {
      if struck == Some(view) {
        if element.None? {
          return NullPage;
        }
        backgroundClicks := backgroundClicks + 1;
        return BackgroundClickSent;
      }
      return Ignored;
    }

    /** UpdateElementSize: no size without superview bounds; otherwise the
        bounds' width and their height less the keyboard's. */
    method UpdateElementSize(superviewBounds: Option<Rect>)
      modifies this`sizeLog
      ensures superviewBounds.None? ==> sizeLog == old(sizeLog)
      ensures superviewBounds.Some? ==>
        sizeLog == old(sizeLog) + [Size(superviewBounds.value.width, superviewBounds.value.height - keyboardBounds.height)]
      ensures sizeLog == old(sizeLog) + SizeCalls(superviewBounds, keyboardBounds)
    {
      if superviewBounds.Some? {
        sizeLog := sizeLog + [ElementSize(superviewBounds.value, keyboardBounds)];
      }
    }

    /** ViewDidLayoutSubviews: recompute the size. */
    method ViewDidLayoutSubviews(superviewBounds: Option<Rect>)
      modifies this`sizeLog
      ensures sizeLog == old(sizeLog) + SizeCalls(superviewBounds, keyboardBounds)
    {
      UpdateElementSize(superviewBounds);
    }

    /** The keyboard-will-show callback: keep the reported bounds, then
        recompute the size once with them. */
    method KeyBoardUpNotification(reported: Rect, superviewBounds: Option<Rect>)
      modifies this`keyboardBounds, this`sizeLog
      ensures keyboardBounds == reported
      ensures sizeLog == old(sizeLog) + SizeCalls(superviewBounds, reported)
    {
      keyboardBounds := reported;
      UpdateElementSize(superviewBounds);
    }

    /** The keyboard-will-hide callback: reset the bounds to empty, then
        recompute the size once, which is then the whole superview. */
    method KeyBoardDownNotification(superviewBounds: Option<Rect>)
      modifies this`keyboardBounds, this`sizeLog
      ensures keyboardBounds == EmptyRect
      ensures sizeLog == old(sizeLog) + SizeCalls(superviewBounds, EmptyRect)
      ensures superviewBounds.Some? ==>
        sizeLog == old(sizeLog) + [Size(superviewBounds.value.width, superviewBounds.value.height)]
    {
      keyboardBounds := EmptyRect;
      UpdateElementSize(superviewBounds);
    }

    /** UnregisterAllObservers: remove the subscription of each handle that
        is set, then clear both handles. */
    method UnregisterAllObservers()
      requires Valid()
      modifies this`showObserver, this`hideObserver, center
      ensures Valid()
      ensures (HandleFields(), center.State()) == Unregister(old(HandleFields()), old(center.State()))
      ensures showObserver == None && hideObserver == None
      ensures Owned(center.State(), this, KeyboardWillShow) == {}
      ensures Owned(center.State(), this, KeyboardWillHide) == {}
      ensures OthersUnchanged(old(center.State()), center.State(), this)
    {
      UnregisterReleasesAll(HandleFields(), center.State(), this);
      if showObserver.Some? {
        center.RemoveObserver(showObserver.value);
      }
      if hideObserver.Some? {
        center.RemoveObserver(hideObserver.value);
      }
      showObserver := None;
      hideObserver := None;
    }

    /** ViewWillAppear: unregister first, then subscribe to both keyboard
        channels, so that exactly one subscription per channel is active
        however often it is called. */
    method ViewWillAppear()
      requires Valid()
      modifies this`showObserver, this`hideObserver, center
      ensures Valid()
      ensures (HandleFields(), center.State()) == Appear(old(HandleFields()), old(center.State()), this)
      ensures showObserver.Some? && hideObserver.Some?
      ensures Owned(center.State(), this, KeyboardWillShow) == {Subscription(showObserver.value, KeyboardWillShow, this)}
      ensures Owned(center.State(), this, KeyboardWillHide) == {Subscription(hideObserver.value, KeyboardWillHide, this)}
      ensures OthersUnchanged(old(center.State()), center.State(), this)
    {
      ghost var h0, c0 := HandleFields(), center.State();
      AppearRegistersOnce(h0, c0, this);
      UnregisterAllObservers();
      ghost var c1 := center.State();
      var showToken := center.AddObserver(KeyboardWillShow, this);
      showObserver := Some(showToken);
      ghost var c2 := center.State();
      var hideToken := center.AddObserver(KeyboardWillHide, this);
      hideObserver := Some(hideToken);
      assert c1 == Unregister(h0, c0).1;
      assert (c2, showToken) == Add(c1, KeyboardWillShow, this);
      assert (center.State(), hideToken) == Add(c2, KeyboardWillHide, this);
      assert (HandleFields(), center.State()) == Register(c1, this);
    }

    /** ViewWillDisappear: unregister both keyboard subscriptions, whatever
        was registered before. */
    method ViewWillDisappear()
      requires Valid()
      modifies this`showObserver, this`hideObserver, center
      ensures Valid()
      ensures (HandleFields(), center.State()) == Unregister(old(HandleFields()), old(center.State()))
      ensures Owned(center.State(), this, KeyboardWillShow) == {}
      ensures Owned(center.State(), this, KeyboardWillHide) == {}
      ensures OthersUnchanged(old(center.State()), center.State(), this)
    {
      UnregisterAllObservers();
    }

    /** IsAttachedToCurrentApplication: walk the parent chain from the page's
        parent upwards until it reaches the current application or ends. */
    method IsAttachedToCurrentApplication(ancestors: seq<ElementId>, currentApp: Option<ElementId>)
      returns (attached: bool)
      ensures attached == AttachedTo(element, ancestors, currentApp)
    {
      if element.None? {
        return false;
      }
      var i := 0;
      while i < |ancestors|
        invariant 0 <= i <= |ancestors|
        invariant forall k :: 0 <= k < i ==> Some(ancestors[k]) != currentApp
      {
        if Some(ancestors[i]) == currentApp {
          return true;
        }
        i := i + 1;
      }
      return false;
    }

    /** ViewDidDisappear: with a parent controller, ask the navigation stack
        to drop the page when it is detached from the current application, or
        when the parent is being dismissed and loaded; otherwise do nothing. */
    method ViewDidDisappear(parent: Option<ParentController>, ancestors: seq<ElementId>, currentApp: Option<ElementId>)
      modifies this`removals
      ensures removals == old(removals) +
        (if ShouldRemove(parent, AttachedTo(element, ancestors, currentApp)) then [element] else [])
    {
      if parent.None? {
        return;
      }
      var attached := IsAttachedToCurrentApplication(ancestors, currentApp);
      if !attached || (parent.value.isBeingDismissed && parent.value.isViewLoaded) {
        removals := removals + [element];
      }
    }
  }

  /** The host calls appear twice with no disappearance between, then
      disappear: one subscription per channel is active in between, none
      after. */
  method AppearTwiceThenDisappearScenario() returns (shows: nat, hides: nat, leftSubscribed: nat)
    ensures shows == 1 && hides == 1 && leftSubscribed == 0
  {
    var center := new NotificationCenter();
    var renderer := new PopupPageRenderer(center, Some(7));
    renderer.ViewWillAppear();
    renderer.ViewWillAppear();
    shows := |Owned(center.State(), renderer, KeyboardWillShow)|;
    hides := |Owned(center.State(), renderer, KeyboardWillHide)|;
    renderer.ViewWillDisappear();
    leftSubscribed := |SubscriptionsOf(center.State(), renderer)|;
  }

  /** A keyboard session: keyboard up (216 high) over a 320 by 600
      superview, a layout pass, keyboard down, another layout pass, then
      disappearance from a loaded parent controller with the page no longer
      under the current application. */
  method KeyboardSessionScenario() returns (sizes: seq<Size>, removed: seq<Option<ElementId>>)
    ensures sizes == [Size(320, 384), Size(320, 384), Size(320, 600), Size(320, 600)]
    ensures removed == [Some(7)]
  {
    var center := new NotificationCenter();
    var renderer := new PopupPageRenderer(center, Some(7));
    var screen := Some(Rect(0, 0, 320, 600));
    renderer.KeyBoardUpNotification(Rect(0, 384, 320, 216), screen);
    renderer.ViewDidLayoutSubviews(screen);
    renderer.KeyBoardDownNotification(screen);
    renderer.ViewDidLayoutSubviews(screen);
    renderer.ViewDidDisappear(Some(ParentController(false, true)), [], Some(1));
    sizes, removed := renderer.sizeLog, renderer.removals;
  }
}
