/** The decisions of the iOS popup page renderer, stated on values: the
    keyboard-observer registration protocol, the keyboard-aware size, the
    attachment predicate and the rule that decides whether the popup is
    dropped from the navigation stack. The renderer class in module
    PopupPageRenderer states its observer, size and cleanup behaviour in
    terms of these. */
module PopupRules {
  import opened Notifications

  datatype Option<T> = None | Some(value: T)

  // ---------------------------------------------------------------------
  // Keyboard observers
  // ---------------------------------------------------------------------

  /** The renderer's two observer handle fields, null being `None`. */
  datatype Handles = Handles(willShow: Option<Token>, willHide: Option<Token>)

  const NoHandles := Handles(None, None)

  /** The subscriptions on `channel` whose callback belongs to `observer`. */
  function Owned(c: Center, observer: object, channel: Channel): set<Subscription>
  {
    set s | s in c.active && s.observer == observer && s.channel == channel
  }

  /** All keyboard subscriptions whose callback belongs to `observer`. */
  function SubscriptionsOf(c: Center, observer: object): set<Subscription>
  {
    Owned(c, observer, KeyboardWillShow) + Owned(c, observer, KeyboardWillHide)
  }

  /** The subscription a handle field stands for, if it is set. */
  function HeldBy(handle: Option<Token>, channel: Channel, observer: object): set<Subscription>
  {
    if handle.Some? then {Subscription(handle.value, channel, observer)} else {}
  }

  /** A handle field is set exactly when the subscription it names is
      active, and the observer has no other subscription on that channel. */
  ghost predicate Consistent(h: Handles, c: Center, observer: object)
  {
    && WellFormed(c)
    && Owned(c, observer, KeyboardWillShow) == HeldBy(h.willShow, KeyboardWillShow, observer)
    && Owned(c, observer, KeyboardWillHide) == HeldBy(h.willHide, KeyboardWillHide, observer)
  }

  /** Every subscription of any other observer is active after exactly when
      it was active before. */
  ghost predicate OthersUnchanged(before: Center, after: Center, observer: object)
  {
    && (forall s :: s in after.active && s.observer != observer ==> s in before.active)
    && (forall s :: s in before.active && s.observer != observer ==> s in after.active)
  }

  /** Unregister the subscription a handle field names, if it is set. */
  function RemoveHeld(c: Center, handle: Option<Token>): Center
  {
    if handle.Some? then Remove(c, handle.value) else c
  }

  /** UnregisterAllObservers: remove each set handle's subscription, then
      clear both handle fields. */
  function Unregister(h: Handles, c: Center): (Handles, Center)
  {
    (NoHandles, RemoveHeld(RemoveHeld(c, h.willShow), h.willHide))
  }

  /** Register the keyboard-will-show callback, then the keyboard-will-hide
      one, keeping both handles. */
  function Register(c: Center, observer: object): (Handles, Center)
  {
    var (c1, showToken) := Add(c, KeyboardWillShow, observer);
    var (c2, hideToken) := Add(c1, KeyboardWillHide, observer);
    (Handles(Some(showToken), Some(hideToken)), c2)
  }

  /** ViewWillAppear: unregister first, then register afresh. */
  function Appear(h: Handles, c: Center, observer: object): (Handles, Center)
  {
    Register(Unregister(h, c).1, observer)
  }

  lemma RemoveHeldKeepsOthers(c: Center, handle: Option<Token>, channel: Channel, observer: object)
    requires WellFormed(c)
    requires Owned(c, observer, channel) == HeldBy(handle, channel, observer)
    ensures WellFormed(RemoveHeld(c, handle))
    ensures Owned(RemoveHeld(c, handle), observer, channel) == {}
    ensures forall s :: s in RemoveHeld(c, handle).active ==>
                        s in c.active && !(handle.Some? && s.token == handle.value)
    ensures forall s :: s in c.active && !(handle.Some? && s.token == handle.value) ==>
                        s in RemoveHeld(c, handle).active
  {
    assert Owned(RemoveHeld(c, handle), observer, channel) <= Owned(c, observer, channel);
  }

  /** Unregistering leaves no keyboard subscription of this observer, clears
      both handles, and touches no other observer's subscriptions. */
  lemma UnregisterReleasesAll(h: Handles, c: Center, observer: object)
    requires Consistent(h, c, observer)
    ensures var (h', c') := Unregister(h, c);
      && h' == NoHandles
      && Consistent(h', c', observer)
      && Owned(c', observer, KeyboardWillShow) == {}
      && Owned(c', observer, KeyboardWillHide) == {}
      && OthersUnchanged(c, c', observer)
      && c'.nextToken == c.nextToken
  {
    var c1 := RemoveHeld(c, h.willShow);
    RemoveHeldKeepsOthers(c, h.willShow, KeyboardWillShow, observer);
    var c2 := RemoveHeld(c1, h.willHide);
    RemoveHeldKeepsOthers(c1, h.willHide, KeyboardWillHide, observer);
  }

  /** Unregistering twice is unregistering once, and unregistering with
      both handles clear changes nothing. */
  lemma UnregisterIdempotent(h: Handles, c: Center)
    ensures Unregister(NoHandles, c) == (NoHandles, c)
    ensures var (h', c') := Unregister(h, c); Unregister(h', c') == (h', c')
  {
  }

  /** Registering on a center where the observer holds no keyboard
      subscription sets both handles, each naming the observer's only
      subscription on its channel, and touches no other observer. */
  lemma RegisterFromReleased(c: Center, observer: object)
    requires WellFormed(c)
    requires Owned(c, observer, KeyboardWillShow) == {} && Owned(c, observer, KeyboardWillHide) == {}
    ensures var (h', c') := Register(c, observer);
      && h'.willShow.Some? && h'.willHide.Some?
      && Consistent(h', c', observer)
      && Owned(c', observer, KeyboardWillShow) == {Subscription(h'.willShow.value, KeyboardWillShow, observer)}
      && Owned(c', observer, KeyboardWillHide) == {Subscription(h'.willHide.value, KeyboardWillHide, observer)}
      && OthersUnchanged(c, c', observer)
  {
    var (c1, showToken) := Add(c, KeyboardWillShow, observer);
    var (c2, hideToken) := Add(c1, KeyboardWillHide, observer);
    var sShow := Subscription(showToken, KeyboardWillShow, observer);
    var sHide := Subscription(hideToken, KeyboardWillHide, observer);
    assert Owned(c2, observer, KeyboardWillShow) <= Owned(c, observer, KeyboardWillShow) + {sShow};
    assert Owned(c2, observer, KeyboardWillHide) <= Owned(c, observer, KeyboardWillHide) + {sHide};
    assert sShow in Owned(c2, observer, KeyboardWillShow) && sHide in Owned(c2, observer, KeyboardWillHide);
  }

  /** After appearing, both handles are set and the observer holds exactly
      one keyboard-will-show and one keyboard-will-hide subscription; other
      observers' subscriptions are untouched. */
  lemma AppearRegistersOnce(h: Handles, c: Center, observer: object)
    requires Consistent(h, c, observer)
    ensures var (h', c') := Appear(h, c, observer);
      && h'.willShow.Some? && h'.willHide.Some?
      && Consistent(h', c', observer)
      && Owned(c', observer, KeyboardWillShow) == {Subscription(h'.willShow.value, KeyboardWillShow, observer)}
      && Owned(c', observer, KeyboardWillHide) == {Subscription(h'.willHide.value, KeyboardWillHide, observer)}
      && |Owned(c', observer, KeyboardWillShow)| == 1
      && |Owned(c', observer, KeyboardWillHide)| == 1
      && OthersUnchanged(c, c', observer)
  {
    UnregisterReleasesAll(h, c, observer);
    var c0 := Unregister(h, c).1;
    RegisterFromReleased(c0, observer);
    OthersUnchangedTransitive(c, c0, Register(c0, observer).1, observer);
  }

  /** Appearing twice in a row, with no disappearance between, still leaves
      exactly one subscription per channel: the second appearance drops the
      first one's subscriptions before registering. */
  lemma AppearTwiceRegistersOnce(h: Handles, c: Center, observer: object)
    requires Consistent(h, c, observer)
    ensures var (h1, c1) := Appear(h, c, observer);
      var (h2, c2) := Appear(h1, c1, observer);
      && Consistent(h2, c2, observer)
      && |Owned(c2, observer, KeyboardWillShow)| == 1
      && |Owned(c2, observer, KeyboardWillHide)| == 1
      && OthersUnchanged(c, c2, observer)
  {
    AppearRegistersOnce(h, c, observer);
    var (h1, c1) := Appear(h, c, observer);
    AppearRegistersOnce(h1, c1, observer);
  }

  /** A change that leaves every other observer's subscriptions alone (such
      as another renderer appearing or disappearing) keeps this observer's
      handles consistent. */
  lemma OtherObserverKeepsConsistency(h: Handles, c: Center, c': Center, observer: object, other: object)
    requires Consistent(h, c, observer) && WellFormed(c')
    requires other != observer && OthersUnchanged(c, c', other)
    ensures Consistent(h, c', observer)
  {
  }

  /** The two lifecycle callbacks that touch the keyboard observers. */
  datatype ObserverEvent = WillAppear | WillDisappear

  /** One callback's effect on the handles and the center. */
  function Step(e: ObserverEvent, h: Handles, c: Center, observer: object): (Handles, Center)
  {
    match e
    case WillAppear => Appear(h, c, observer)
    case WillDisappear => Unregister(h, c)
  }

  /** The callbacks in host delivery order, first to last. */
  function Replay(events: seq<ObserverEvent>, h: Handles, c: Center, observer: object): (Handles, Center)
    decreases |events|
  {
    if events == [] then (h, c)
    else
      var (h1, c1) := Step(events[0], h, c, observer);
      Replay(events[1..], h1, c1, observer)
  }

  lemma OthersUnchangedTransitive(c0: Center, c1: Center, c2: Center, observer: object)
    requires OthersUnchanged(c0, c1, observer) && OthersUnchanged(c1, c2, observer)
    ensures OthersUnchanged(c0, c2, observer)
  {
  }

  /** What one callback leaves behind: both subscriptions after an appear,
      none after a disappear. */
  ghost predicate Settled(e: ObserverEvent, c: Center, observer: object)
  {
    match e
    case WillAppear => |SubscriptionsOf(c, observer)| == 2
    case WillDisappear => SubscriptionsOf(c, observer) == {}
  }

  /** Consistent handles allow at most one subscription per channel. */
  lemma ConsistentAtMostOne(h: Handles, c: Center, observer: object)
    requires Consistent(h, c, observer)
    ensures |Owned(c, observer, KeyboardWillShow)| <= 1 && |Owned(c, observer, KeyboardWillHide)| <= 1
  {
  }

  /** One callback keeps the handles consistent, leaves other observers
      alone and settles this observer's subscriptions. */
  lemma StepSettles(e: ObserverEvent, h: Handles, c: Center, observer: object)
    requires Consistent(h, c, observer)
    ensures var (h', c') := Step(e, h, c, observer);
      Consistent(h', c', observer) && OthersUnchanged(c, c', observer) && Settled(e, c', observer)
  {
    var (h', c') := Step(e, h, c, observer);
    if e == WillAppear {
      AppearRegistersOnce(h, c, observer);
      assert Owned(c', observer, KeyboardWillShow) !! Owned(c', observer, KeyboardWillHide);
    } else {
      UnregisterReleasesAll(h, c, observer);
    }
  }

  /** However the host interleaves appear and disappear callbacks, the
      handles stay consistent, the observer never holds more than one
      subscription per channel, other observers are untouched, and after the
      last callback it holds both subscriptions if that was an appear and
      none if it was a disappear. */
  lemma {:induction false} ReplayKeepsOneSubscriptionPerChannel(events: seq<ObserverEvent>, h: Handles, c: Center, observer: object)
    requires Consistent(h, c, observer)
    ensures var (h', c') := Replay(events, h, c, observer);
      && Consistent(h', c', observer)
      && |Owned(c', observer, KeyboardWillShow)| <= 1
      && |Owned(c', observer, KeyboardWillHide)| <= 1
      && OthersUnchanged(c, c', observer)
      && (events != [] ==> Settled(events[|events| - 1], c', observer))
    decreases |events|
  {
    if events == [] {
      ConsistentAtMostOne(h, c, observer);
      return;
    }
    var (h1, c1) := Step(events[0], h, c, observer);
    StepSettles(events[0], h, c, observer);
    ReplayKeepsOneSubscriptionPerChannel(events[1..], h1, c1, observer);
    var (h', c') := Replay(events[1..], h1, c1, observer);
    assert Replay(events, h, c, observer) == (h', c');
    OthersUnchangedTransitive(c, c1, c', observer);
    if |events| > 1 {
      assert events[1..][|events[1..]| - 1] == events[|events| - 1];
    }
  }

  // ---------------------------------------------------------------------
  // Keyboard-aware size
  // ---------------------------------------------------------------------

  /** A rectangle; widths and heights are integers rather than floating
      point. */
  datatype Rect = Rect(x: int, y: int, width: int, height: int)

  /** The empty rectangle the keyboard bounds are reset to. */
  const EmptyRect := Rect(0, 0, 0, 0)

  datatype Size = Size(width: int, height: int)

  /** The size given to the page: the container's width, and its height less
      the keyboard's height. There is no clamp at zero. */
  function ElementSize(bounds: Rect, keyboard: Rect): Size
  {
    Size(bounds.width, bounds.height - keyboard.height)
  }

  /** The size calls one UpdateElementSize makes: none without container
      bounds, otherwise exactly one. */
  function SizeCalls(bounds: Option<Rect>, keyboard: Rect): (calls: seq<Size>)
    ensures |calls| <= 1
    ensures calls == [] <==> bounds.None?
    ensures bounds.Some? ==>
      calls[0].width == bounds.value.width && calls[0].height + keyboard.height == bounds.value.height
  {
    if bounds.Some? then [ElementSize(bounds.value, keyboard)] else []
  }

  /** With the keyboard hidden, the page gets the whole container. */
  lemma HiddenKeyboardGivesFullBounds(bounds: Rect)
    ensures SizeCalls(Some(bounds), EmptyRect) == [Size(bounds.width, bounds.height)]
  {
  }

  /** A keyboard taller than the container yields a negative height: the
      size is not clamped. */
  lemma SizeIsNotClamped(bounds: Rect, keyboard: Rect)
    requires keyboard.height > bounds.height
    ensures SizeCalls(Some(bounds), keyboard)[0].height < 0
  {
  }

  // ---------------------------------------------------------------------
  // Background taps
  // ---------------------------------------------------------------------

  /** Views are compared by identity. */
  type ViewId = nat

  // ---------------------------------------------------------------------
  // Attachment and cleanup
  // ---------------------------------------------------------------------

  /** Elements of the page tree (pages, the application) by identity. */
  type ElementId = nat

  /** The page is attached when it exists and the current application is
      one of its ancestors: `ancestors` lists the parent chain starting at the
      page's parent and ending at the last non-null ancestor. */
  predicate AttachedTo(element: Option<ElementId>, ancestors: seq<ElementId>, app: Option<ElementId>)
  {
    element.Some? && app.Some? && app.value in ancestors
  }

  /** The parent controller's two flags that the cleanup rule reads. */
  datatype ParentController = ParentController(isBeingDismissed: bool, isViewLoaded: bool)

  /** Whether ViewDidDisappear drops the popup from the navigation stack. */
  predicate ShouldRemove(parent: Option<ParentController>, attached: bool)
  {
    parent.Some? && (!attached || (parent.value.isBeingDismissed && parent.value.isViewLoaded))
  }

  /** The cleanup rule in full: removal happens exactly when there is a parent
      controller and either the page is detached or the parent is being
      dismissed while loaded. */
  lemma ShouldRemoveCases(parent: Option<ParentController>, attached: bool)
    ensures parent.None? ==> !ShouldRemove(parent, attached)
    ensures parent.Some? && !attached ==> ShouldRemove(parent, attached)
    ensures parent.Some? && attached ==>
      (ShouldRemove(parent, attached) <==> parent.value.isBeingDismissed && parent.value.isViewLoaded)
  {
  }
}
