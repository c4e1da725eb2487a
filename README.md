# Popup page renderer (iOS) — a Dafny model

This project models the iOS renderer of Rg.Plugins.Popup's `PopupPage`
(`PopupPageRenderer`). The renderer is the view controller that hosts one
popup page. It turns UIKit lifecycle callbacks, keyboard notifications and
taps into popup behaviour:

- **Keyboard observers.** `ViewWillAppear` first unregisters any keyboard
  observers it still holds, then subscribes to keyboard-will-show and
  keyboard-will-hide. `ViewWillDisappear` unregisters both. Unregistering
  removes a subscription only for a handle that is set, and always clears
  both handles.
- **Keyboard-aware size.** The keyboard callbacks store the keyboard's
  bounds, or reset them to the empty rectangle, and recompute the page's
  size. So does every layout pass. The size is the superview's width and
  its height less the keyboard's height. It is skipped when there is no
  superview.
- **Background taps.** A tap sends the page a background click only when
  the hit test lands on the recognizer's own view.
- **Cleanup.** With no parent controller, `ViewDidDisappear` does
  nothing. With a parent controller present, it walks the page's parent
  chain, looking for the current application, and asks the popup
  navigation stack to drop the page in two cases: the page is no longer
  attached, or the parent is being dismissed and its view is loaded.

The model has three modules:

- `Notifications` (`notifications.dfy`) models the notification center.
  It is a set of active subscriptions, each with a handle never issued
  before. The class `NotificationCenter` is that state, updated in place.
- `PopupRules` (`popup_rules.dfy`) holds the renderer's decisions as
  functions on values: the registration protocol (`Unregister`,
  `Register`, `Appear`), the size rule, the attachment predicate and the
  removal rule. The lemmas about them live here too.
- `PopupPageRenderer` (`popup_page_renderer.dfy`) holds the class
  `PopupPageRenderer`. The fields `showObserver`, `hideObserver` and
  `keyboardBounds` are the source's own fields. The others stand for what
  the renderer uses but does not declare: `center` is the default
  notification center, `element` the inherited `Element`, and
  `gestureAttached` whether the tap recognizer is on the view (not the
  recognizer object itself). `sizeLog`, `backgroundClicks` and `removals`
  record the calls made on the page and the navigation stack. The methods
  follow the source's methods. The observer methods, the size methods,
  `IsAttachedToCurrentApplication` and `ViewDidDisappear` are proved
  against the functions in `PopupRules`. `OnTap`, `ViewDidLoad` and
  `ViewDidUnload` state their effect directly on the renderer's fields.
  Host state that the renderer only reads is passed in as
  parameters: the superview's bounds, the parent controller's flags, the
  page's parent chain, `Application.Current` and the hit-test result. The
  calls the renderer makes on the page and on the navigation stack are
  kept as logs.

## Model

| member | source | states |
|---|---|---|
| `Notifications.Add` | src/Rg.Plugins.Popup.IOS/Renderers/PopupPageRenderer.cs:84-85 | registering adds exactly one subscription; its handle is the counter's current value, which was not active; the counter advances by one; handles stay unique |
| `Notifications.Remove` | src/Rg.Plugins.Popup.IOS/Renderers/PopupPageRenderer.cs:112 | unregistering a handle removes exactly the subscriptions carrying it; a handle that is not active changes nothing; handles stay unique |
| `Notifications.NotificationCenter.AddObserver` | src/Rg.Plugins.Popup.IOS/Renderers/PopupPageRenderer.cs:84 | the shared center's new state and the returned handle are those of `Add` |
| `Notifications.NotificationCenter.RemoveObserver` | src/Rg.Plugins.Popup.IOS/Renderers/PopupPageRenderer.cs:115 | the shared center's new state is that of `Remove` |
| `PopupRules.ConsistentAtMostOne` | src/Rg.Plugins.Popup.IOS/Renderers/PopupPageRenderer.cs:18-19 | when the two handle fields describe the renderer's subscriptions, it holds at most one subscription per channel |
| `PopupRules.RemoveHeldKeepsOthers` | src/Rg.Plugins.Popup.IOS/Renderers/PopupPageRenderer.cs:111-115 | removing a set handle's subscription leaves no subscription of the renderer on that channel and removes nothing without that handle; an unset handle removes nothing |
| `PopupRules.UnregisterReleasesAll` | src/Rg.Plugins.Popup.IOS/Renderers/PopupPageRenderer.cs:109-119 | after unregistering, both handles are null, the renderer has no keyboard subscription, other observers' subscriptions are exactly as before |
| `PopupRules.UnregisterIdempotent` | src/Rg.Plugins.Popup.IOS/Renderers/PopupPageRenderer.cs:109-119 | unregistering with both handles null changes nothing; unregistering twice equals unregistering once |
| `PopupRules.RegisterFromReleased` | src/Rg.Plugins.Popup.IOS/Renderers/PopupPageRenderer.cs:84-85 | registering both callbacks when the renderer holds no keyboard subscription sets both handles, each naming its only subscription on its channel, and leaves other observers untouched |
| `PopupRules.AppearRegistersOnce` | src/Rg.Plugins.Popup.IOS/Renderers/PopupPageRenderer.cs:78-86 | after appearing, both handles are set, each names the renderer's only subscription on its channel (exactly one each), and other observers are untouched |
| `PopupRules.AppearTwiceRegistersOnce` | src/Rg.Plugins.Popup.IOS/Renderers/PopupPageRenderer.cs:78-86 | two appearances with no disappearance between still leave exactly one subscription per channel |
| `PopupRules.OtherObserverKeepsConsistency` | src/Rg.Plugins.Popup.IOS/Renderers/PopupPageRenderer.cs:82-85 | a change that only touches another renderer's subscriptions keeps this renderer's handles consistent |
| `PopupRules.StepSettles` | src/Rg.Plugins.Popup.IOS/Renderers/PopupPageRenderer.cs:78-93 | one appear or disappear callback keeps the handles consistent and leaves others alone; afterwards the renderer holds both subscriptions (appear) or none (disappear) |
| `PopupRules.ReplayKeepsOneSubscriptionPerChannel` | src/Rg.Plugins.Popup.IOS/Renderers/PopupPageRenderer.cs:78-93 | for any order of appear and disappear callbacks: never more than one subscription per channel, others untouched, and the last callback decides whether two or zero are active |
| `PopupRules.SizeCalls` | src/Rg.Plugins.Popup.IOS/Renderers/PopupPageRenderer.cs:153-162 | one size update makes no call without superview bounds and exactly one otherwise, whose width is the superview's and whose height plus the keyboard's height is the superview's |
| `PopupRules.HiddenKeyboardGivesFullBounds` | src/Rg.Plugins.Popup.IOS/Renderers/PopupPageRenderer.cs:128-133 | with the keyboard bounds reset to empty, the page gets the superview's full width and height |
| `PopupRules.SizeIsNotClamped` | src/Rg.Plugins.Popup.IOS/Renderers/PopupPageRenderer.cs:161 | for every superview and every keyboard taller than it, the height given to the page is negative (no clamping) |
| `PopupRules.ShouldRemoveCases` | src/Rg.Plugins.Popup.IOS/Renderers/PopupPageRenderer.cs:99-106 | no removal without a parent controller; removal whenever detached; when attached, removal if and only if the parent is being dismissed and loaded |
| `PopupPageRenderer.PopupPageRenderer.constructor` | src/Rg.Plugins.Popup.IOS/Renderers/PopupPageRenderer.cs:17-33 | a new renderer has both handles null, empty keyboard bounds, no recognizer attached, no calls made, and no subscription of this renderer in the shared center (other renderers' subscriptions may be present) |
| `PopupPageRenderer.PopupPageRenderer.OnTap` | src/Rg.Plugins.Popup.IOS/Renderers/PopupPageRenderer.cs:46-55 | the click count grows by exactly one if and only if the hit test struck the recognizer's view and there is a page; a tap whose hit test struck nothing or a subview does nothing; a background tap with no page is the null dereference |
| `PopupPageRenderer.PopupPageRenderer.ViewDidLoad` | src/Rg.Plugins.Popup.IOS/Renderers/PopupPageRenderer.cs:57-62 | the recognizer is attached afterwards if there is a view, and its state is otherwise unchanged |
| `PopupPageRenderer.PopupPageRenderer.ViewDidUnload` | src/Rg.Plugins.Popup.IOS/Renderers/PopupPageRenderer.cs:64-69 | the recognizer is detached afterwards if there is a view, and its state is otherwise unchanged |
| `PopupPageRenderer.PopupPageRenderer.UpdateElementSize` | src/Rg.Plugins.Popup.IOS/Renderers/PopupPageRenderer.cs:153-162 | without superview bounds the size log is unchanged; otherwise exactly (W, H − keyboard height) is appended |
| `PopupPageRenderer.PopupPageRenderer.ViewDidLayoutSubviews` | src/Rg.Plugins.Popup.IOS/Renderers/PopupPageRenderer.cs:71-76 | a layout pass performs one size update with the stored keyboard bounds |
| `PopupPageRenderer.PopupPageRenderer.KeyBoardUpNotification` | src/Rg.Plugins.Popup.IOS/Renderers/PopupPageRenderer.cs:121-126 | the reported keyboard bounds are stored, then the size is updated once using them |
| `PopupPageRenderer.PopupPageRenderer.KeyBoardDownNotification` | src/Rg.Plugins.Popup.IOS/Renderers/PopupPageRenderer.cs:128-133 | the keyboard bounds become empty, then the size is updated once, to the superview's full (W, H) |
| `PopupPageRenderer.PopupPageRenderer.UnregisterAllObservers` | src/Rg.Plugins.Popup.IOS/Renderers/PopupPageRenderer.cs:109-119 | the new handles and center are those of `Unregister`: both handles null, no keyboard subscription of this renderer, every other subscription kept |
| `PopupPageRenderer.PopupPageRenderer.ViewWillAppear` | src/Rg.Plugins.Popup.IOS/Renderers/PopupPageRenderer.cs:78-86 | the new handles and center are those of `Appear`: both handles set, exactly one show and one hide subscription of this renderer, every other subscription kept |
| `PopupPageRenderer.PopupPageRenderer.ViewWillDisappear` | src/Rg.Plugins.Popup.IOS/Renderers/PopupPageRenderer.cs:88-93 | whatever was registered before, no keyboard subscription of this renderer remains, and every other subscription is kept |
| `PopupPageRenderer.PopupPageRenderer.IsAttachedToCurrentApplication` | src/Rg.Plugins.Popup.IOS/Renderers/PopupPageRenderer.cs:135-151 | the result is `AttachedTo`: false for a null page; otherwise true if and only if the current application occurs in the parent chain that starts at the page's parent (a null current application is never found) |
| `PopupPageRenderer.PopupPageRenderer.ViewDidDisappear` | src/Rg.Plugins.Popup.IOS/Renderers/PopupPageRenderer.cs:95-107 | appends the page to the removal log exactly once when there is a parent controller and the page is detached or the parent is being dismissed and loaded; otherwise appends nothing |
| `PopupPageRenderer.AppearTwiceThenDisappearScenario` | src/Rg.Plugins.Popup.IOS/Renderers/PopupPageRenderer.cs:78-93 | appear twice leaves exactly one keyboard-will-show and one keyboard-will-hide subscription of the renderer; a following disappear leaves none |
| `PopupPageRenderer.KeyboardSessionScenario` | src/Rg.Plugins.Popup.IOS/Renderers/PopupPageRenderer.cs:95-162 | keyboard 216 high over a 320 × 600 superview gives sizes (320, 384); after the keyboard hides, (320, 600); disappearing while detached gives exactly one removal |

## Left out

- UIKit and the notification center are foreign. `AddObserver` and
  `RemoveObserver` become the `NotificationCenter` model, whose handles
  come from a counter. The center's delivery of notifications to the
  callbacks is not modelled. The keyboard callbacks are methods the host
  may call at any time.
- `PopupPageRenderer.PopupPageRenderer.OnTap` may be called whether or
  not the recognizer is attached. The source only receives taps while
  the recognizer is on the view, and the model does not tie `OnTap` to
  `gestureAttached`.
- `UIKeyboard.BoundsFromNotification`, `LocationInView` and `HitTest`
  become parameters: the reported rectangle and the view the hit test
  struck. `View?.Superview?.Bounds` becomes an optional rectangle. `View`
  being null in `ViewDidLoad` and `ViewDidUnload` becomes a boolean.
- `ParentViewController` becomes an optional pair of flags. The page's
  parent chain becomes a finite sequence of element identities, from the
  page's parent up to its last non-null ancestor. `Application.Current`
  becomes an optional identity passed in.
- Cyclic parent chains: the source's loop (lines 142-148) would not
  terminate on one. A sequence cannot express a cycle.
- `OnElementChanged` (lines 35-44) only sets presentation and transition
  styles. It is left out.
- The gesture recognizer object and `CancelsTouchesInView` (line 31) are
  left out. The recognizer is a boolean "attached" flag.
- The base-class calls (`base.ViewWillAppear` and the others) and the
  renderer registration attribute (line 11) are framework code. They are
  not part of this model.
- `nfloat` and `CGRect` arithmetic becomes integer arithmetic. Only the
  keyboard rectangle's height is read.
- `SetElementSize`, `SendBackgroundClick` and
  `PopupNavigation.RemovePopupFromStack` are not modelled. Their calls are
  recorded as a size log, a click counter and a removal log.
- The page (`Element`) is set by the framework. No method here assigns
  it.
- `PopupPageRenderer.PopupPageRenderer.OnTap`: a background tap with a
  null page throws a null-reference exception in the source. The model
  returns `NullPage` instead and sends no click.
- The parent walk has no maximum-depth guard, and the model adds none.
- With a parent controller but no page, the code passes a null page to
  `RemovePopupFromStack`. The model keeps this: the removal log records
  `None`.
