# Background, modelled in Dafny

Background is a small iOS library. It paints the background of a `UIView`, or of a `UIButton` per control state, from a drawer. A drawer is a descriptor of content plus shape attributes. The library redraws whenever the view's size or the button's state changes, and it notices those changes from a listener called just before the main run loop goes to sleep.

The project models four pieces of the library:

- **Drawing** (`image_drawer.dfy`). The `AttributesStore` builder is a class whose methods append attributes and set flags. `attributePathWithRect` is a loop in which the last corner radius and the last corner mask win, and border settings are applied in list order. Its path choice is a pure function, `SelectPath`. `imageWithContext` produces a trace of abstract drawing commands: attribute commands first (clip before stroke), then the optional vertical flip, then the content. The graphics layer is a `Host` value with four oracles:
  - is there a current context for a size;
  - does the gradient build;
  - what image the trace makes;
  - what image a drawer defined outside the library returns (`customImage`).
- **Run-loop listener registry** (`main_runloop_observer.dfy`). An ordered list of wrappers, each holding a weak reference to its listener. A weak reference is an object reference plus a caller-supplied set `alive` of the objects still alive; a wrapper whose target is null or not in `alive` is dead. Adding, removing and each callout first compact the list. A callout then notifies every survivor once, in registration order.
- **View controller** (`background_view_drawer.dfy`). The `BackgroundViewDrawer` class holds one drawer, a size, the image view's frame and the displayed image. `Render(host, drawer, size)` stands for opening an image context and calling the drawer. A drawer is `NoneImageDrawer`, which never yields an image, a snapshot of an `ImageDrawer`, or `Custom(id)`: any other conformer of the public `BackgroundImageDrawerProtocol`, whose image is the `customImage` oracle of `Host`.
- **Button controller** (`background_button_drawer.dfy`). The `BackgroundButtonDrawer` class holds a drawer cache and an image cache, both keyed by the raw value of the control state.

Each controller is a class whose `didSet` observers are explicit transition methods. Each method is proved to move its fields as a pure function of the old state (`Model() == AssignSize(host, old(Model()), …)`). The caching and guard rules are lemmas about those functions. The `UIView` and `UIButton` convenience extensions are module-level methods.

The path rule follows `attributePathWithRect` (`Classes/ImageDrawer.swift:171-179`) case by case. Two of its cases are easy to misread:

- A radius of 0 with a partial corner mask takes the rounded-corners path with zero radii, not the plain rectangle.
- A positive radius with the all-corners mask gives a uniformly rounded rectangle.

`UIRectCorner.allCorners` has the raw value `~0`, which is `ALL_CORNERS = 0xFFFF_FFFF_FFFF_FFFF` here. So the mask made of the four single corners (15) counts as partial.

## Model

| member | source | states |
|---|---|---|
| Drawing.DirectionPoint.PointWithSize | Classes/ImageDrawer.swift:18-29 | left corners have x 0, right corners have x = width; top corners have y 0, bottom corners have y = height |
| Drawing.CornersAreDistinct | Classes/ImageDrawer.swift:18-29 | on a rectangle with no zero side, two corner names give the same point exactly when they are the same name |
| Drawing.AttributesStore.constructor | Classes/ImageDrawer.swift:53-55 | the store starts with the given list and all three flags false |
| Drawing.AttributesStore.AddClip | Classes/ImageDrawer.swift:57-62 | sets `clip` and nothing else, and returns the store itself |
| Drawing.AttributesStore.AddBorder | Classes/ImageDrawer.swift:64-69 | sets `border` and nothing else, and returns the store itself |
| Drawing.AttributesStore.AddContontCTX | Classes/ImageDrawer.swift:71-76 | sets `contentCTX` and nothing else, and returns the store itself |
| Drawing.AttributesStore.AddAttributes | Classes/ImageDrawer.swift:78-82 | appends exactly the one attribute at the end; earlier entries and all flags are kept |
| Drawing.ImageDrawer.constructor | Classes/ImageDrawer.swift:44-49 | a drawer owns a fresh, empty store and the given content |
| Drawing.ImageDrawer.AddAttributes | Classes/ImageDrawer.swift:85-88 | forwards to its store: the descriptor gains that one attribute at the end |
| Drawing.ImageDrawer.AddClip | Classes/ImageDrawer.swift:90-93 | forwards to its store: only the clip flag of the descriptor changes |
| Drawing.ImageDrawer.AddBorder | Classes/ImageDrawer.swift:95-98 | forwards to its store: only the border flag of the descriptor changes |
| Drawing.ImageDrawer.AddContontCTX | Classes/ImageDrawer.swift:100-103 | forwards to its store: only the flip flag of the descriptor changes |
| Drawing.LastRadius | Classes/ImageDrawer.swift:156-169 | a radius the scan ends with is the value of a radius entry of the list |
| Drawing.LastCorners | Classes/ImageDrawer.swift:156-169 | a mask the scan ends with is the value of a mask entry of the list |
| Drawing.StrokeSettings | Classes/ImageDrawer.swift:164-167 | the scan issues at most one setting per entry |
| Drawing.LastRadiusIndex | Classes/ImageDrawer.swift:156-169 | the index is that of a corner-radius entry and no later entry is one |
| Drawing.LastCornersIndex | Classes/ImageDrawer.swift:156-169 | the index is that of a corner-mask entry and no later entry is one |
| Drawing.LastRadiusIsLastEntry | Classes/ImageDrawer.swift:156-169 | the radius the scan ends with is absent exactly when there is no radius entry, and is otherwise the value of the last one |
| Drawing.LastCornersIsLastEntry | Classes/ImageDrawer.swift:156-169 | the mask the scan ends with is absent exactly when there is no mask entry, and is otherwise the value of the last one |
| Drawing.LastRadiusConcat | Classes/ImageDrawer.swift:156-169 | entries appended later override earlier radius entries; without new ones the old value survives |
| Drawing.LastCornersConcat | Classes/ImageDrawer.swift:156-169 | entries appended later override earlier mask entries; without new ones the old value survives |
| Drawing.StrokeSettingsConcat | Classes/ImageDrawer.swift:164-167 | border width and colour settings are issued in list order |
| Drawing.StrokeSettingsAreSettings | Classes/ImageDrawer.swift:164-167 | the scan issues only line-width and stroke-colour commands, one per border entry |
| Drawing.SelectPath | Classes/ImageDrawer.swift:171-179 | each of the four path kinds is chosen exactly under its own condition on a positive radius and a partial mask, and carries that radius and mask |
| Drawing.AttributePath | Classes/ImageDrawer.swift:171-179 | the path is over the given rectangle, and an empty list gives the plain rectangle |
| Drawing.PlainPathRule | Classes/ImageDrawer.swift:171-179 | the path is a plain rectangle exactly when the radius is not positive and the mask is absent or all corners; a positive radius with all corners is uniformly rounded |
| Drawing.PathOfExtendedList | Classes/ImageDrawer.swift:171-179 | after appending a mask and then a radius, the path depends on those two values only |
| Drawing.AttributesStore.AttributePathWithRect | Classes/ImageDrawer.swift:155-180 | the loop returns the path for the last radius and mask, and the border settings in list order |
| Drawing.AttributesTrace | Classes/ImageDrawer.swift:182-195 | an empty list issues no command, whatever the flags |
| Drawing.ClipAndStrokeRule | Classes/ImageDrawer.swift:182-195 | an empty list draws nothing whatever the flags; a clip happens exactly when the list is non-empty and `clip` is set, a stroke exactly when it is non-empty and `border` is set; every clip comes before every stroke |
| Drawing.AttributesStore.DrawAttributesInContext | Classes/ImageDrawer.swift:182-195 | the commands issued are the attribute trace of the store's current state |
| Drawing.ContentCommands | Classes/ImageDrawer.swift:119-151 | the content step issues only content commands: a fill of the whole rectangle, a gradient between the two corner points only when it builds, or the image drawn over the rectangle |
| Drawing.FlipCommands | Classes/ImageDrawer.swift:107-110 | flip commands are issued exactly when `contentCTX` is set, and they are all flip commands |
| Drawing.ImageTrace | Classes/ImageDrawer.swift:105-116 | a descriptor with no attributes and no flip sends only its content commands |
| Drawing.ImageTraceOrder | Classes/ImageDrawer.swift:105-116 | attribute commands, then flip commands, then content commands; a flip appears exactly when `contentCTX` is set |
| Drawing.ImageDrawer.ImageWithContext | Classes/ImageDrawer.swift:105-116 | draws the ordered trace of the drawer's descriptor and returns exactly what image extraction returns |
| Runloop.MainRunloopEventHandler.constructor | Classes/MainRunloopObserver/MainRunloopObserver.swift:14-18 | the wrapper holds the given target |
| Runloop.MainRunloopEventHandler.IsNil | Classes/MainRunloopObserver/MainRunloopObserver.swift:20 | a wrapper reads as nil when it never had a target, and a wrapper that does not read as nil has a target that is still alive |
| Runloop.MainRunloopEventHandler.MainRunloopWillWait | Classes/MainRunloopObserver/MainRunloopObserver.swift:22-24 | the event reaches the target exactly when the target is still alive |
| Runloop.Compact | Classes/MainRunloopObserver/MainRunloopObserver.swift:48-50 | the result is never longer than the list and holds no dead wrapper |
| Runloop.CompactMembership | Classes/MainRunloopObserver/MainRunloopObserver.swift:48-50 | compaction keeps exactly the live wrappers, leaves no dead one and never grows the list |
| Runloop.CompactConcat | Classes/MainRunloopObserver/MainRunloopObserver.swift:48-50 | compaction works piecewise, so survivors keep their relative order |
| Runloop.CompactIdempotent | Classes/MainRunloopObserver/MainRunloopObserver.swift:48-50 | a list with no dead entries is left as it is, and compacting twice is compacting once |
| Runloop.NoDeadIsFixed | Classes/MainRunloopObserver/MainRunloopObserver.swift:48-50 | compaction does not touch a list with no dead entries |
| Runloop.CompactDistinct | Classes/MainRunloopObserver/MainRunloopObserver.swift:48-50 | compaction never duplicates a wrapper |
| Runloop.MainRunloopObserver.constructor | Classes/MainRunloopObserver/MainRunloopObserver.swift:30-34 | the registry starts empty |
| Runloop.MainRunloopObserver.FilterNilObserver | Classes/MainRunloopObserver/MainRunloopObserver.swift:48-50 | the list becomes its compaction and holds no dead entry |
| Runloop.MainRunloopObserver.AddObserver | Classes/MainRunloopObserver/MainRunloopObserver.swift:36-39 | the list becomes the compacted old list plus one fresh wrapper of the observer at the end |
| Runloop.FirstIndex | Classes/MainRunloopObserver/MainRunloopObserver.swift:43 | the first index whose wrapper is the argument object, or none when no wrapper is |
| Runloop.FirstTargetIndex | Classes/MainRunloopObserver/MainRunloopObserver.swift:43 | the first index whose target is the argument object, or none when no target is |
| Runloop.MainRunloopObserver.RemoveObserver | Classes/MainRunloopObserver/MainRunloopObserver.swift:41-46 | compacts, then removes the first entry that is the argument itself; a listener that is not a wrapper leaves just the compacted list; a live wrapper passed in is gone afterwards, because the registry never lists a wrapper twice |
| Runloop.RemoveObserverKeepsListener | Classes/MainRunloopObserver/MainRunloopObserver.swift:36-46 | a listener added and then removed is still in the list |
| Runloop.MainRunloopObserver.RemoveObserverByTarget | Classes/MainRunloopObserver/MainRunloopObserver.swift:41-46 | compacts, then removes the first entry whose target is the argument |
| Runloop.RemoveAt | Classes/MainRunloopObserver/MainRunloopObserver.swift:44 | with no index the list is unchanged; otherwise it is one shorter, entries before the index stay and later ones move down one place |
| Runloop.RemoveByTargetDeregisters | Classes/MainRunloopObserver/MainRunloopObserver.swift:41-46 | for a listener registered once, removal by target leaves no entry for it and keeps every other entry |
| Runloop.RemoveObserverByTargetDeregisters | Classes/MainRunloopObserver/MainRunloopObserver.swift:36-46 | with removal by target, a listener added and then removed has no entry left |
| Runloop.RemoveAtDistinct | Classes/MainRunloopObserver/MainRunloopObserver.swift:44 | in a list without duplicates, the removed wrapper appears nowhere in what remains |
| Runloop.RemoveAtKeeps | Classes/MainRunloopObserver/MainRunloopObserver.swift:44 | removing one entry keeps the list free of duplicates and of dead entries |
| Runloop.MainRunloopObserver.RunloopCallout | Classes/MainRunloopObserver/MainRunloopObserver.swift:75-78 | compacts, then reaches every surviving target once, in list order |
| ViewBackground.DrawerImage | Classes/BackgroundViewDrawer.swift:13-21 | `NoneImageDrawer` yields no image; a descriptor yields what extraction of its trace yields; another conformer yields what it returns |
| ViewBackground.Render | Classes/BackgroundViewDrawer.swift:69-74 | with no current context there is no image; with one, the result is exactly the drawer's image; hence an image needs a context and a drawer other than `NoneImageDrawer` |
| ViewBackground.HelperDescriptor | Classes/BackgroundViewDrawer.swift:116-121 | keeps the content; its last mask and last radius are the helper's arguments; clip is set, border is not, and the flip flag is the given one |
| ViewBackground.HelperSettingsEmpty | Classes/BackgroundViewDrawer.swift:117-118 | the helper's two entries issue no border setting |
| ViewBackground.HelperDescriptorTrace | Classes/BackgroundViewDrawer.swift:116-121 | the helpers' descriptor issues no border settings, adds the path chosen from its mask and radius, clips, and never strokes |
| ViewBackground.Redraw | Classes/BackgroundViewDrawer.swift:67-77 | the zero size changes nothing; only the image can change; a successful render replaces it and a failed one keeps it |
| ViewBackground.AssignSize | Classes/BackgroundViewDrawer.swift:24-33 | an equal size under `isRedrawDistinctSize` changes nothing; otherwise the frame follows the size and a redraw follows |
| ViewBackground.WithBackground | Classes/BackgroundViewDrawer.swift:59-65 | the drawer is replaced; a redraw follows exactly when `secheuleWhenDrawerSettled` is set |
| ViewBackground.NoneDrawerKeepsImage | Classes/BackgroundViewDrawer.swift:17-21 | under `NoneImageDrawer`, no sequence of run-loop size updates changes the image |
| ViewBackground.ImageOnlyFromRenders | Classes/BackgroundViewDrawer.swift:74-76 | after any run-loop size updates, the image is the old one or a successful render of the drawer at one of the sizes seen |
| ViewBackground.DrawerUnchangedByTicks | Classes/BackgroundViewDrawer.swift:84-88 | run-loop size updates never change the drawer |
| ViewBackground.BackgroundViewDrawer.constructor | Classes/BackgroundViewDrawer.swift:45-58 | takes the view's size, has no drawer and no image, attaches itself to the view and is appended to the registry |
| ViewBackground.BackgroundViewDrawer.DrawerInView | Classes/BackgroundViewDrawer.swift:37-42 | returns the attached controller, with view and registry unchanged, if there is one; else a fresh one with the view's size and no drawer, attached and appended to the compacted registry; the view's bounds are kept either way |
| ViewBackground.BackgroundViewDrawer.RedrawBackground | Classes/BackgroundViewDrawer.swift:67-77 | moves the state as `Redraw` says |
| ViewBackground.BackgroundViewDrawer.SetSize | Classes/BackgroundViewDrawer.swift:24-33 | moves the state as `AssignSize` says |
| ViewBackground.BackgroundViewDrawer.SetBackground | Classes/BackgroundViewDrawer.swift:59-65 | moves the state as `WithBackground` says |
| ViewBackground.BackgroundViewDrawer.MainRunloopWillWait | Classes/BackgroundViewDrawer.swift:84-88 | assigns the view's bounds size |
| ViewBackground.SetImageDrawer | Classes/BackgroundViewDrawer.swift:116-121 | appends the mask, then the radius, sets clip; an attached controller moves as `WithBackground` says and the registry is untouched; otherwise a fresh controller, appended to the registry, starts from the view's size and then moves as `WithBackground` says; the view's bounds are kept |
| ViewBackground.SetBackgroundColor | Classes/BackgroundViewDrawer.swift:91-95 | a nil colour changes nothing; otherwise the controller, attached before (registry untouched) or fresh (appended to the registry, starting from the view's size), moves as `WithBackground` says with the colour and the helper's mask, radius and clip |
| ViewBackground.SetBackgroundGradient | Classes/BackgroundViewDrawer.swift:97-107 | an empty colour list changes nothing; otherwise the controller, attached before (registry untouched) or fresh (appended to the registry), moves as `WithBackground` says with the gradient and the helper's attributes |
| ViewBackground.SetBackgroundImage | Classes/BackgroundViewDrawer.swift:109-114 | a nil image changes nothing; otherwise the controller, attached before (registry untouched) or fresh (appended to the registry), moves as `WithBackground` says with the image and the helper's attributes, and only this helper sets the flip |
| ButtonBackground.Redraw | Classes/BackgroundButtonDrawer.swift:62-83 | skipped, with nothing changed, exactly when a side is zero or the state has no drawer; a cache hit shows the cached image without rendering; a failed render changes nothing; a success shows and caches the image for that state only |
| ButtonBackground.AssignSize | Classes/BackgroundButtonDrawer.swift:20-28 | an equal size under `isRedrawDistinctSize` changes nothing; any other assignment empties the image cache of every state and redraws the button's state |
| ButtonBackground.AssignState | Classes/BackgroundButtonDrawer.swift:37-42 | an unchanged state does nothing; a new state is redrawn and no cached image is lost |
| ButtonBackground.RunloopWillWait | Classes/BackgroundButtonDrawer.swift:91-94 | ends with the button's bounds size and state and the same drawers; with size and state unchanged under `isRedrawDistinctSize` nothing changes |
| ButtonBackground.WithBackground | Classes/BackgroundButtonDrawer.swift:55-60 | the drawer is stored under the state; that state is redrawn exactly when `secheuleWhenDrawerSettled` is set |
| ButtonBackground.WithFreshBackground | Classes/BackgroundButtonDrawer.swift:55-60 | the drawer is stored under the state and that state's cached image is dropped; the state is then redrawn exactly when `secheuleWhenDrawerSettled` is set; other states keep their images |
| ButtonBackground.RedrawTwiceRendersOnce | Classes/BackgroundButtonDrawer.swift:69-72 | unless the first redraw failed to render, a second one with nothing changed renders nothing and changes nothing |
| ButtonBackground.RedrawKeepsCoherent | Classes/BackgroundButtonDrawer.swift:62-83 | a redraw keeps every cached image equal to what its state's drawer renders and to what the button shows |
| ButtonBackground.AssignSizeKeepsCoherent | Classes/BackgroundButtonDrawer.swift:20-28 | a size assignment keeps the caches coherent, because a real change empties them |
| ButtonBackground.RunloopWillWaitKeepsCoherent | Classes/BackgroundButtonDrawer.swift:91-94 | the run-loop update, the size first and the state second, keeps the caches coherent |
| ButtonBackground.FreshBackgroundKeepsCoherent | Classes/BackgroundButtonDrawer.swift:55-60 | the corrected `setBackground` keeps the caches coherent |
| ButtonBackground.StaleImageAfterNewDrawer | Classes/BackgroundButtonDrawer.swift:55-72 | as written, a new drawer for a state with a cached image keeps showing the old image; the corrected one shows the new drawer's image |
| ButtonBackground.ZeroWidthButtonSkipsViewRenders | Classes/BackgroundButtonDrawer.swift:63 | a 0-by-50 size skips the button redraw, while the view still attempts the render (here under a host that grants a 0-wide context) |
| ButtonBackground.BackgroundButtonDrawer.constructor | Classes/BackgroundButtonDrawer.swift:44-51 | takes the button's size and state, has empty caches, attaches itself to the button and is appended to the registry |
| ButtonBackground.BackgroundButtonDrawer.DrawerInButton | Classes/BackgroundButtonDrawer.swift:30-35 | returns the attached controller, with button and registry unchanged, if there is one; else a fresh one with the button's size and state and empty caches, attached and appended to the compacted registry; bounds and state are kept either way |
| ButtonBackground.BackgroundButtonDrawer.RedrawBackgroundForState | Classes/BackgroundButtonDrawer.swift:62-83 | moves the caches and the shown images as `Redraw` says, and reports which branch was taken |
| ButtonBackground.BackgroundButtonDrawer.SetSize | Classes/BackgroundButtonDrawer.swift:20-28 | moves the state as `AssignSize` says and keeps the caches coherent |
| ButtonBackground.BackgroundButtonDrawer.SetState | Classes/BackgroundButtonDrawer.swift:37-42 | moves the state as `AssignState` says and keeps the caches coherent |
| ButtonBackground.BackgroundButtonDrawer.SetBackground | Classes/BackgroundButtonDrawer.swift:55-60 | moves the state as `WithBackground` says |
| ButtonBackground.BackgroundButtonDrawer.SetFreshBackground | Classes/BackgroundButtonDrawer.swift:55-60 | moves the state as `WithFreshBackground` says and keeps the caches coherent |
| ButtonBackground.BackgroundButtonDrawer.ButtonTouchEvents | Classes/BackgroundButtonDrawer.swift:85-87 | redraws the button's current state and keeps the caches coherent |
| ButtonBackground.BackgroundButtonDrawer.MainRunloopWillWait | Classes/BackgroundButtonDrawer.swift:91-94 | assigns the bounds size, then the state, and keeps the caches coherent |
| ButtonBackground.SetImageDrawer | Classes/BackgroundButtonDrawer.swift:124-129 | appends the mask, then the radius, sets clip; an attached controller moves for the state as `WithBackground` says (the `setBackground` written, stale cached image included) and the registry is untouched; otherwise a fresh controller, appended to the registry, starts from the button's size and state and then moves the same way; bounds and state are kept |
| ButtonBackground.SetBackgroundColor | Classes/BackgroundButtonDrawer.swift:98-102 | a nil colour changes nothing; otherwise the controller, attached before (registry untouched) or fresh (appended to the registry, starting from the button's size and state), moves for the state as `WithBackground` says with the colour and the helper's attributes; the controller stays attached to the argument button, so helpers chain |
| ButtonBackground.SetBackgroundGradient | Classes/BackgroundButtonDrawer.swift:104-115 | an empty colour list changes nothing; otherwise the controller, attached before (registry untouched) or fresh (appended to the registry), moves for the state as `WithBackground` says with the gradient and the helper's attributes; the controller stays attached to the argument button, so helpers chain |
| ButtonBackground.SetBackgroundImage | Classes/BackgroundButtonDrawer.swift:117-122 | a nil image changes nothing; otherwise the controller, attached before (registry untouched) or fresh (appended to the registry), moves for the state as `WithBackground` says with the image, the helper's attributes and the flip; the controller stays attached to the argument button, so helpers chain |

## Left out

- Rasterisation is not modelled: `CGContext` calls, `UIBezierPath` geometry, `CGGradient` and `makeImage` are abstract commands and the oracles of `Host`, because they are framework code working on floating point.
- A conformer of `BackgroundImageDrawerProtocol` defined outside the library is `Custom(id)`. Only the image it returns is modelled, through the `customImage` oracle. What it draws into the shared context is not modelled.
- `UIGraphicsBeginImageContextWithOptions`, `UIGraphicsEndImageContext` and `UIScreen.main.scale` are left out, because they are host context lifecycle and a screen query. The current context's presence is the oracle `contextAvailable`.
- The associated-object slot of `objc_getAssociatedObject` and `objc_setAssociatedObject` is an `associatedDrawer` field on `View` and on `Button`. In the library both controllers use the same key, and a button is also a view. The model keeps the two slots apart.
- Stored drawers are value snapshots of an `ImageDrawer`'s store at registration. In the library the store is a shared reference, so a later `addAttributes` on the same drawer would show in the next render. The model does not see such later changes.
- `CFRunLoopObserverCreate`, `CFRunLoopAddObserver`, `CFRunLoopRemoveObserver` and the `Unmanaged` trampoline are left out, because they are host event-loop I/O. `RunloopCallout` is the callout, and it returns the targets it reaches instead of calling them.
- Runloop.MainRunloopObserver.RunloopCallout: the notified controller's own update is a separate call (`MainRunloopWillWait` on the controller), not part of the callout.
- Weak references are not tracked by the runtime: the set `alive` is supplied by the caller of each operation. Nothing forces it to shrink monotonically between calls.
- `deinit` of `BackgroundViewDrawer` and of `MainRunloopObserver` is not modelled, because Dafny has no deallocation. When a controller dies, the next compaction drops its entry. This is what removes it in the library too, since its `removeObserver` call during deinit finds nothing.
- The weak `view` and `button` back-references are plain references that never become null.
- `addTarget(_:action:for:)`, `addSubview`, `sendSubviewToBack` and `precondition(Thread.isMainThread)` are left out, because they are UI wiring and thread checks. The image view is reduced to its frame size and its image.
- Gradient `colors` and `locations` of different lengths are passed to the `gradientAvailable` oracle. The model invents no rule for them.
- The shared `MainRunloopObserver.shared` singleton is a registry object passed to the controllers' constructors.

## Findings

| source | as written | input that shows it | evidently intended | confidence | as-written member | corrected member |
|---|---|---|---|---|---|---|
| Classes/MainRunloopObserver/MainRunloopObserver.swift:43 | `removeObserver` looks for the wrapper that is identical to the observer, but the list holds wrappers around observers, so no entry ever matches | add a live listener, then remove it: its entry stays in the list | remove the entry whose target is the observer | high, not executed | Runloop.RemoveObserverKeepsListener | Runloop.RemoveObserverByTargetDeregisters |
| Classes/BackgroundButtonDrawer.swift:55-60 | `setBackground` replaces the state's drawer but keeps the image cached for that state, and the redraw that follows shows the cached image | a 100x50 button with a red drawer rendered and cached for state 0; set a blue drawer for state 0: the button keeps showing the red image | drop the state's cached image when its drawer is replaced | medium, not executed | ButtonBackground.StaleImageAfterNewDrawer | ButtonBackground.FreshBackgroundKeepsCoherent |
