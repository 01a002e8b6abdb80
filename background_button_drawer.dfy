/**
 * `BackgroundButtonDrawer`: the background controller attached to a button,
 * with one drawer and one cached image per control state.
 *
 * The `didSet` observers of `size` and `state` are explicit transition
 * methods. What every transition does is given by a pure function over
 * `ButtonModel`; the methods are proved to follow those functions, and the
 * caching rules are lemmas about them.
 */
module ButtonBackground {
  import opened Wrappers
  import opened Drawing
  import ViewBackground
  import Runloop

  /** `UIControl.State` by its raw value, the key of both caches. */
  type ControlState = UInt

  /** The controller's state, plus the images the button shows per state. */
  datatype ButtonModel = ButtonModel(
    size: Size,
    state: ControlState,
    drawers: map<ControlState, ViewBackground.Drawer>,
    images: map<ControlState, Bitmap>,
    shown: map<ControlState, Bitmap>,
    isRedrawDistinctSize: bool,
    secheuleWhenDrawerSettled: bool)

  /** What one `redrawBackgroundForState` did. */
  datatype RedrawOutcome = Skipped | ReusedCache(cached: Bitmap) | Rendered(result: Option<Bitmap>)

  /**
   * `redrawBackgroundForState`: nothing when a side is zero or the state has
   * no drawer; the cached image, without rendering, when there is one; else a
   * render whose image, on success only, is shown and cached for that state.
   */
  function Redraw(host: Host, m: ButtonModel, st: ControlState): (r: (ButtonModel, RedrawOutcome))
    ensures r.1.Skipped? <==> m.size.width == 0.0 || m.size.height == 0.0 || st !in m.drawers
    ensures r.1.Skipped? ==> r.0 == m
    ensures r.1.ReusedCache? <==> !r.1.Skipped? && st in m.images
    ensures r.1.ReusedCache? ==> r.1.cached == m.images[st] && r.0 == m.(shown := m.shown[st := m.images[st]])
    ensures r.1.Rendered? ==> st in m.drawers && r.1.result == ViewBackground.Render(host, m.drawers[st], m.size)
    ensures r.1 == Rendered(None) ==> r.0 == m
    ensures r.1.Rendered? && r.1.result.Some? ==>
      r.0 == m.(images := m.images[st := r.1.result.value], shown := m.shown[st := r.1.result.value])
  {
    if m.size.width == 0.0 || m.size.height == 0.0 || st !in m.drawers then (m, Skipped)
    else if st in m.images then (m.(shown := m.shown[st := m.images[st]]), ReusedCache(m.images[st]))
    else match ViewBackground.Render(host, m.drawers[st], m.size)
      case Some(image) => (m.(images := m.images[st := image], shown := m.shown[st := image]), Rendered(Some(image)))
      case None => (m, Rendered(None))
  }

  /**
   * The `size` observer. An equal size under `isRedrawDistinctSize` does
   * nothing; any other assignment empties the image cache of every state and
   * redraws the state the button is in.
   */
  function AssignSize(host: Host, m: ButtonModel, newSize: Size, buttonState: ControlState): (r: ButtonModel)
    ensures m.size == newSize && m.isRedrawDistinctSize ==> r == m
    ensures !(m.size == newSize && m.isRedrawDistinctSize) ==>
      r == Redraw(host, m.(size := newSize, images := map[]), buttonState).0
    ensures !(m.size == newSize && m.isRedrawDistinctSize) ==> r.images.Keys <= {buttonState}
    ensures r.size == newSize && r.state == m.state && r.drawers == m.drawers
  {
    if m.size == newSize && m.isRedrawDistinctSize then m.(size := newSize)
    else Redraw(host, m.(size := newSize, images := map[]), buttonState).0
  }

  /** The `state` observer: an unchanged state does nothing; a new one is redrawn, and no cache is cleared. */
  function AssignState(host: Host, m: ButtonModel, newState: ControlState): (r: ButtonModel)
    ensures newState == m.state ==> r == m
    ensures newState != m.state ==> r == Redraw(host, m.(state := newState), newState).0
    ensures r.state == newState && r.size == m.size && r.drawers == m.drawers
    ensures forall k :: k in m.images ==> k in r.images && r.images[k] == m.images[k]
    ensures r.images.Keys <= m.images.Keys + {newState}
  {
    if newState == m.state then m
    else Redraw(host, m.(state := newState), newState).0
  }

  /** `mainRunloop(willWaiting:)`: the size is assigned first, the state second, both read from the button. */
  function RunloopWillWait(host: Host, m: ButtonModel, bounds: Size, buttonState: ControlState): (r: ButtonModel)
    ensures r.size == bounds && r.state == buttonState && r.drawers == m.drawers
    ensures m.size == bounds && m.isRedrawDistinctSize && m.state == buttonState ==> r == m
  {
    AssignState(host, AssignSize(host, m, bounds, buttonState), buttonState)
  }

  /** `setBackground(_:for:)` as written: store the drawer, redraw that state under `secheuleWhenDrawerSettled`. */
  function WithBackground(host: Host, m: ButtonModel, drawer: ViewBackground.Drawer, st: ControlState): (r: ButtonModel)
    ensures r.drawers == m.drawers[st := drawer] && r.size == m.size && r.state == m.state
    ensures !m.secheuleWhenDrawerSettled ==> r == m.(drawers := m.drawers[st := drawer])
    ensures m.secheuleWhenDrawerSettled ==> r == Redraw(host, m.(drawers := m.drawers[st := drawer]), st).0
  {
    var settled := m.(drawers := m.drawers[st := drawer]);
    if m.secheuleWhenDrawerSettled then Redraw(host, settled, st).0 else settled
  }

  /** Corrected `setBackground(_:for:)`: the image cached for that state is dropped with the old drawer. */
  function WithFreshBackground(host: Host, m: ButtonModel, drawer: ViewBackground.Drawer, st: ControlState): (r: ButtonModel)
    ensures r.drawers == m.drawers[st := drawer] && r.size == m.size && r.state == m.state
    ensures forall k :: k in m.images && k != st ==> k in r.images && r.images[k] == m.images[k]
    ensures !m.secheuleWhenDrawerSettled ==> r == m.(drawers := m.drawers[st := drawer], images := m.images - {st})
    ensures m.secheuleWhenDrawerSettled ==>
      r == Redraw(host, m.(drawers := m.drawers[st := drawer], images := m.images - {st}), st).0
  {
    var settled := m.(drawers := m.drawers[st := drawer], images := m.images - {st});
    if m.secheuleWhenDrawerSettled then Redraw(host, settled, st).0 else settled
  }

  // ---------------------------------------------------------------------------
  // The caching rules
  // ---------------------------------------------------------------------------

  /**
   * A second redraw of the same state with nothing changed in between renders
   * nothing and changes nothing, unless the first one rendered and failed.
   */
  lemma RedrawTwiceRendersOnce(host: Host, m: ButtonModel, st: ControlState)
    ensures var (m1, o1) := Redraw(host, m, st);
      o1 != Rendered(None) ==> !Redraw(host, m1, st).1.Rendered? && Redraw(host, m1, st).0 == m1
  {
    var (m1, o1) := Redraw(host, m, st);
    if o1.ReusedCache? || (o1.Rendered? && o1.result.Some?) {
      assert st in m1.images && m1.shown[st] == m1.images[st];
      assert m1.(shown := m1.shown[st := m1.images[st]]) == m1;
    }
  }

  /**
   * Every cached image is the one the state's current drawer renders at the
   * current size, and it is the one the button shows for that state.
   */
  ghost predicate Coherent(host: Host, m: ButtonModel)
  {
    forall st :: st in m.images ==>
      && st in m.drawers
      && ViewBackground.Render(host, m.drawers[st], m.size) == Some(m.images[st])
      && st in m.shown && m.shown[st] == m.images[st]
  }

  lemma RedrawKeepsCoherent(host: Host, m: ButtonModel, st: ControlState)
    requires Coherent(host, m)
    ensures Coherent(host, Redraw(host, m, st).0)
  {
  }

  lemma AssignSizeKeepsCoherent(host: Host, m: ButtonModel, newSize: Size, buttonState: ControlState)
    requires Coherent(host, m)
    ensures Coherent(host, AssignSize(host, m, newSize, buttonState))
  {
    if !(m.size == newSize && m.isRedrawDistinctSize) {
      RedrawKeepsCoherent(host, m.(size := newSize, images := map[]), buttonState);
    }
  }

  lemma RunloopWillWaitKeepsCoherent(host: Host, m: ButtonModel, bounds: Size, buttonState: ControlState)
    requires Coherent(host, m)
    ensures Coherent(host, RunloopWillWait(host, m, bounds, buttonState))
  {
    AssignSizeKeepsCoherent(host, m, bounds, buttonState);
    var m1 := AssignSize(host, m, bounds, buttonState);
    if buttonState != m1.state {
      RedrawKeepsCoherent(host, m1.(state := buttonState), buttonState);
    }
  }

  /** With the corrected `setBackground`, no cached image outlives the drawer it was rendered from. */
  lemma FreshBackgroundKeepsCoherent(host: Host, m: ButtonModel, drawer: ViewBackground.Drawer, st: ControlState)
    requires Coherent(host, m)
    ensures Coherent(host, WithFreshBackground(host, m, drawer, st))
  {
    var settled := m.(drawers := m.drawers[st := drawer], images := m.images - {st});
    assert Coherent(host, settled);
    if m.secheuleWhenDrawerSettled {
      RedrawKeepsCoherent(host, settled, st);
    }
  }

  /** The host of the stale-image example: red fills become image 1, anything else image 2. */
  function RedOrOtherHost(): Host
  {
    Host(
      (s: Size) => true,
      (c: seq<Color>, l: seq<real>) => true,
      (t: seq<Command>, s: Size) => if |t| > 0 && t[0] == SetFillColor(Color(1)) then Some(Bitmap(1)) else Some(Bitmap(2)),
      (id: nat, s: Size) => None)
  }

  /**
   * As written, `setBackground` keeps the image cached under the old drawer:
   * a red background on a 100x50 button is rendered and cached, then a blue
   * drawer is set for the same state, and the redraw reuses the red image.
   */
  lemma StaleImageAfterNewDrawer()
    ensures var host := RedOrOtherHost();
      var plain := StoreState([], false, false, false);
      var red := ViewBackground.Described(Descriptor(ColorContent(Color(1)), plain));
      var blue := ViewBackground.Described(Descriptor(ColorContent(Color(2)), plain));
      var m := ButtonModel(Size(100.0, 50.0), 0, map[0 := red], map[0 := Bitmap(1)], map[0 := Bitmap(1)], true, true);
      && Coherent(host, m)
      && ViewBackground.Render(host, blue, m.size) == Some(Bitmap(2))
      && WithBackground(host, m, blue, 0).shown[0] == Bitmap(1)
      && !Coherent(host, WithBackground(host, m, blue, 0))
      && WithFreshBackground(host, m, blue, 0).shown[0] == Bitmap(2)
  {
    var host := RedOrOtherHost();
    var plain := StoreState([], false, false, false);
    var size := Size(100.0, 50.0);
    var redD := Descriptor(ColorContent(Color(1)), plain);
    var blueD := Descriptor(ColorContent(Color(2)), plain);
    assert ImageTrace(redD, size, host) == [SetFillColor(Color(1)), FillRect(size)];
    assert ImageTrace(blueD, size, host) == [SetFillColor(Color(2)), FillRect(size)];
    assert ViewBackground.Render(host, ViewBackground.Described(redD), size) == Some(Bitmap(1));
    assert ViewBackground.Render(host, ViewBackground.Described(blueD), size) == Some(Bitmap(2));
  }

  /**
   * A 0-by-50 size stops the button before any render, while a view of the
   * same size still renders: the view only skips the size `.zero`.
   */
  lemma ZeroWidthButtonSkipsViewRenders()
    ensures var host := RedOrOtherHost();
      var red := ViewBackground.Described(Descriptor(ColorContent(Color(1)), StoreState([], false, false, false)));
      var size := Size(0.0, 50.0);
      && Redraw(host, ButtonModel(size, 0, map[0 := red], map[], map[], true, true), 0).1 == Skipped
      && ViewBackground.Redraw(host, ViewBackground.ViewModel(size, size, red, None, true, true)).image == Some(Bitmap(1))
  {
    var host := RedOrOtherHost();
    var size := Size(0.0, 50.0);
    var redD := Descriptor(ColorContent(Color(1)), StoreState([], false, false, false));
    assert ImageTrace(redD, size, host) == [SetFillColor(Color(1)), FillRect(size)];
  }

  // ---------------------------------------------------------------------------
  // The objects
  // ---------------------------------------------------------------------------

  /** A `UIButton`: its bounds, its state, the background images set per state, and its association slot. */
  class Button {
    var boundsSize: Size
    var state: ControlState
    var backgroundImages: map<ControlState, Bitmap>
    var associatedDrawer: BackgroundButtonDrawer?

    constructor (boundsSize: Size, state: ControlState)
      ensures this.boundsSize == boundsSize && this.state == state
      ensures backgroundImages == map[] && associatedDrawer == null
    {
      this.boundsSize := boundsSize;
      this.state := state;
      backgroundImages := map[];
      associatedDrawer := null;
    }
  }

  /** The controller found in a button's association slot is the one made for that button. */
  ghost predicate Attached(button: Button)
    reads button, button.associatedDrawer
  {
    button.associatedDrawer != null ==> button.associatedDrawer.button == button
  }

  class BackgroundButtonDrawer {
    const host: Host
    const button: Button
    var isRedrawDistinctSize: bool
    var secheuleWhenDrawerSettled: bool
    var size: Size
    var state: ControlState
    var stateDrawerCache: map<ControlState, ViewBackground.Drawer>
    var stateImageCache: map<ControlState, Bitmap>

    function Model(): ButtonModel
      reads this, button
    {
      ButtonModel(size, state, stateDrawerCache, stateImageCache, button.backgroundImages,
        isRedrawDistinctSize, secheuleWhenDrawerSettled)
    }

    /** Takes the button's size and state, attaches itself and registers with the run-loop observer. */
    constructor (button: Button, host: Host, runloop: Runloop.MainRunloopObserver, alive: set<object>)
      requires runloop.Valid()
      modifies button`associatedDrawer, runloop
      ensures this.button == button && this.host == host
      ensures Model() == ButtonModel(button.boundsSize, button.state, map[], map[], old(button.backgroundImages), true, true)
      ensures button.associatedDrawer == this
      ensures runloop.Valid()
      ensures Runloop.Appended(runloop, old(runloop.observerList), alive, this)
    {
      this.host := host;
      this.button := button;
      size := button.boundsSize;
      state := button.state;
      isRedrawDistinctSize := true;
      secheuleWhenDrawerSettled := true;
      stateDrawerCache := map[];
      stateImageCache := map[];
      new;
      button.associatedDrawer := this;
      runloop.AddObserver(this, alive + {this});
    }

    /** `drawerInButton`: the controller already attached to the button, else a new one. */
    static method DrawerInButton(button: Button, host: Host, runloop: Runloop.MainRunloopObserver, alive: set<object>)
      returns (drawer: BackgroundButtonDrawer)
      requires runloop.Valid() && Attached(button)
      modifies button`associatedDrawer, runloop
      ensures runloop.Valid()
      ensures button.associatedDrawer == drawer && drawer.button == button
      ensures button.boundsSize == old(button.boundsSize) && button.state == old(button.state)
      ensures old(button.associatedDrawer) != null ==>
        drawer == old(button.associatedDrawer) && unchanged(button) && unchanged(runloop)
      ensures old(button.associatedDrawer) == null ==>
        && fresh(drawer) && drawer.host == host
        && drawer.Model() == ButtonModel(button.boundsSize, button.state, map[], map[], button.backgroundImages, true, true)
        && Runloop.Appended(runloop, old(runloop.observerList), alive, drawer)
    {
      if button.associatedDrawer != null {
        return button.associatedDrawer;
      }
      drawer := new BackgroundButtonDrawer(button, host, runloop, alive);
    }

    method RedrawBackgroundForState(st: ControlState) returns (outcome: RedrawOutcome)
      modifies this, button`backgroundImages
      ensures (Model(), outcome) == Redraw(host, old(Model()), st)
    {
      if size.width == 0.0 || size.height == 0.0 || st !in stateDrawerCache {
        return Skipped;
      }
      if st in stateImageCache {
        button.backgroundImages := button.backgroundImages[st := stateImageCache[st]];
        return ReusedCache(stateImageCache[st]);
      }
      var rendered := ViewBackground.Render(host, stateDrawerCache[st], size);
      if rendered.Some? {
        button.backgroundImages := button.backgroundImages[st := rendered.value];
        stateImageCache := stateImageCache[st := rendered.value];
      }
      outcome := Rendered(rendered);
    }

    /** The `size` field's `didSet`, as an explicit transition. */
    method SetSize(newSize: Size)
      modifies this, button`backgroundImages
      ensures Model() == AssignSize(host, old(Model()), newSize, button.state)
      ensures old(Coherent(host, Model())) ==> Coherent(host, Model())
    {
      if Coherent(host, Model()) {
        AssignSizeKeepsCoherent(host, Model(), newSize, button.state);
      }
      var oldValue := size;
      size := newSize;
      if oldValue == size && isRedrawDistinctSize {
        return;
      }
      stateImageCache := map[];
      var _ := RedrawBackgroundForState(button.state);
    }

    /** The `state` field's `didSet`, as an explicit transition. */
    method SetState(newState: ControlState)
      modifies this, button`backgroundImages
      ensures Model() == AssignState(host, old(Model()), newState)
      ensures old(Coherent(host, Model())) ==> Coherent(host, Model())
    {
      if Coherent(host, Model()) && newState != state {
        RedrawKeepsCoherent(host, Model().(state := newState), newState);
      }
      var oldValue := state;
      state := newState;
      if state == oldValue {
        return;
      }
      var _ := RedrawBackgroundForState(state);
    }

    /** `setBackground(_:for:)`, as written. */
    method SetBackground(drawer: ViewBackground.Drawer, st: ControlState)
      modifies this, button`backgroundImages
      ensures Model() == WithBackground(host, old(Model()), drawer, st)
    {
      stateDrawerCache := stateDrawerCache[st := drawer];
      if secheuleWhenDrawerSettled {
        var _ := RedrawBackgroundForState(st);
      }
    }

    /** `setBackground(_:for:)` corrected: the state's cached image goes with its old drawer. */
    method SetFreshBackground(drawer: ViewBackground.Drawer, st: ControlState)
      modifies this, button`backgroundImages
      ensures Model() == WithFreshBackground(host, old(Model()), drawer, st)
      ensures old(Coherent(host, Model())) ==> Coherent(host, Model())
    {
      if Coherent(host, Model()) {
        FreshBackgroundKeepsCoherent(host, Model(), drawer, st);
      }
      stateDrawerCache := stateDrawerCache[st := drawer];
      stateImageCache := stateImageCache - {st};
      if secheuleWhenDrawerSettled {
        var _ := RedrawBackgroundForState(st);
      }
    }

    /** The target of every touch event: redraw the state the button is in. */
    method ButtonTouchEvents()
      modifies this, button`backgroundImages
      ensures Model() == Redraw(host, old(Model()), button.state).0
      ensures old(Coherent(host, Model())) ==> Coherent(host, Model())
    {
      var _ := RedrawBackgroundForState(button.state);
    }

    /** `mainRunloop(willWaiting:)`: the size first, then the state, both read from the button. */
    method MainRunloopWillWait()
      modifies this, button`backgroundImages
      ensures Model() == RunloopWillWait(host, old(Model()), button.boundsSize, button.state)
      ensures old(Coherent(host, Model())) ==> Coherent(host, Model())
    {
      SetSize(button.boundsSize);
      SetState(button.state);
    }
  }

  /**
   * The `UIButton.setImageDrawer` helper: round corners, then radius, then
   * clip, then register for the state through `setBackground` as written.
   */
  method SetImageDrawer(
    button: Button, drawer: ImageDrawer, round: RectCorner, radius: real, st: ControlState,
    host: Host, runloop: Runloop.MainRunloopObserver, alive: set<object>)
    requires runloop.Valid() && Attached(button)
    modifies drawer.attributesStore, button`associatedDrawer, button`backgroundImages, button.associatedDrawer, runloop
    ensures runloop.Valid() && Attached(button)
    ensures drawer.attributesStore.State() ==
      old(drawer.attributesStore.State()).(attribute := old(drawer.attributesStore.attribute) + [RoundCorners(round), CornerRadius(radius)], clip := true)
    ensures button.boundsSize == old(button.boundsSize) && button.state == old(button.state)
    ensures button.associatedDrawer != null
    ensures old(button.associatedDrawer) != null ==>
      button.associatedDrawer == old(button.associatedDrawer) && unchanged(runloop) &&
      button.associatedDrawer.Model() ==
        WithBackground(button.associatedDrawer.host, old(button.associatedDrawer.Model()), ViewBackground.Described(drawer.Snapshot()), st)
    ensures old(button.associatedDrawer) == null ==>
      fresh(button.associatedDrawer) && button.associatedDrawer.host == host &&
      Runloop.Appended(runloop, old(runloop.observerList), alive, button.associatedDrawer) &&
      button.associatedDrawer.Model() ==
        WithBackground(host, ButtonModel(old(button.boundsSize), old(button.state), map[], map[], old(button.backgroundImages), true, true),
          ViewBackground.Described(drawer.Snapshot()), st)
  {
    var _ := drawer.AddAttributes(RoundCorners(round));
    var _ := drawer.AddAttributes(CornerRadius(radius));
    var _ := drawer.AddClip();
    var snapshot := drawer.Snapshot();
    var controller := BackgroundButtonDrawer.DrawerInButton(button, host, runloop, alive);
    controller.SetBackground(ViewBackground.Described(snapshot), st);
  }

  /** `UIButton.setBackgroundColor(_:with:radius:for:)`: a nil colour leaves everything as it was. */
  method SetBackgroundColor(
    button: Button, color: Option<Color>, round: RectCorner := ALL_CORNERS, radius: real, st: ControlState,
    host: Host, runloop: Runloop.MainRunloopObserver, alive: set<object>)
    requires runloop.Valid() && Attached(button)
    modifies button`associatedDrawer, button`backgroundImages, button.associatedDrawer, runloop
    ensures runloop.Valid() && Attached(button)
    ensures button.boundsSize == old(button.boundsSize) && button.state == old(button.state)
    ensures color.None? ==>
      unchanged(button, runloop) && (button.associatedDrawer != null ==> unchanged(button.associatedDrawer))
    ensures color.Some? ==>
      button.associatedDrawer != null && st in button.associatedDrawer.stateDrawerCache &&
      button.associatedDrawer.stateDrawerCache[st] == ViewBackground.Described(ViewBackground.HelperDescriptor(ColorContent(color.value), round, radius, false))
    ensures color.Some? && old(button.associatedDrawer) != null ==>
      button.associatedDrawer == old(button.associatedDrawer) && unchanged(runloop) &&
      button.associatedDrawer.Model() ==
        WithBackground(button.associatedDrawer.host, old(button.associatedDrawer.Model()), ViewBackground.Described(ViewBackground.HelperDescriptor(ColorContent(color.value), round, radius, false)), st)
    ensures color.Some? && old(button.associatedDrawer) == null ==>
      fresh(button.associatedDrawer) && button.associatedDrawer != null && button.associatedDrawer.host == host &&
      Runloop.Appended(runloop, old(runloop.observerList), alive, button.associatedDrawer) &&
      button.associatedDrawer.Model() ==
        WithBackground(host, ButtonModel(old(button.boundsSize), old(button.state), map[], map[], old(button.backgroundImages), true, true),
          ViewBackground.Described(ViewBackground.HelperDescriptor(ColorContent(color.value), round, radius, false)), st)
  {
    if color.None? {
      return;
    }
    var drawer := new ImageDrawer(ColorContent(color.value));
    SetImageDrawer(button, drawer, round, radius, st, host, runloop, alive);
  }

  /** `UIButton.setBackgroundGradient`: an empty colour list leaves everything as it was. */
  method SetBackgroundGradient(
    button: Button, colors: seq<Color>, sPoint: DirectionPoint := LeftTop, ePoint: DirectionPoint := RightBottom,
    locations: seq<real> := [0.0, 1.0], round: RectCorner := ALL_CORNERS, radius: real, st: ControlState,
    host: Host, runloop: Runloop.MainRunloopObserver, alive: set<object>)
    requires runloop.Valid() && Attached(button)
    modifies button`associatedDrawer, button`backgroundImages, button.associatedDrawer, runloop
    ensures runloop.Valid() && Attached(button)
    ensures button.boundsSize == old(button.boundsSize) && button.state == old(button.state)
    ensures colors == [] ==>
      unchanged(button, runloop) && (button.associatedDrawer != null ==> unchanged(button.associatedDrawer))
    ensures colors != [] ==>
      button.associatedDrawer != null && st in button.associatedDrawer.stateDrawerCache &&
      button.associatedDrawer.stateDrawerCache[st] == ViewBackground.Described(ViewBackground.HelperDescriptor(GradientColor(colors, locations, sPoint, ePoint), round, radius, false))
    ensures colors != [] && old(button.associatedDrawer) != null ==>
      button.associatedDrawer == old(button.associatedDrawer) && unchanged(runloop) &&
      button.associatedDrawer.Model() ==
        WithBackground(button.associatedDrawer.host, old(button.associatedDrawer.Model()), ViewBackground.Described(ViewBackground.HelperDescriptor(GradientColor(colors, locations, sPoint, ePoint), round, radius, false)), st)
    ensures colors != [] && old(button.associatedDrawer) == null ==>
      fresh(button.associatedDrawer) && button.associatedDrawer != null && button.associatedDrawer.host == host &&
      Runloop.Appended(runloop, old(runloop.observerList), alive, button.associatedDrawer) &&
      button.associatedDrawer.Model() ==
        WithBackground(host, ButtonModel(old(button.boundsSize), old(button.state), map[], map[], old(button.backgroundImages), true, true),
          ViewBackground.Described(ViewBackground.HelperDescriptor(GradientColor(colors, locations, sPoint, ePoint), round, radius, false)), st)
  {
    if colors == [] {
      return;
    }
    var drawer := new ImageDrawer(GradientColor(colors, locations, sPoint, ePoint));
    SetImageDrawer(button, drawer, round, radius, st, host, runloop, alive);
  }

  /** `UIButton.setBackgroundImage(_:with:radius:for:)`: a nil image leaves everything as it was; an image is drawn flipped. */
  method SetBackgroundImage(
    button: Button, image: Option<Bitmap>, round: RectCorner := ALL_CORNERS, radius: real, st: ControlState,
    host: Host, runloop: Runloop.MainRunloopObserver, alive: set<object>)
    requires runloop.Valid() && Attached(button)
    modifies button`associatedDrawer, button`backgroundImages, button.associatedDrawer, runloop
    ensures runloop.Valid() && Attached(button)
    ensures button.boundsSize == old(button.boundsSize) && button.state == old(button.state)
    ensures image.None? ==>
      unchanged(button, runloop) && (button.associatedDrawer != null ==> unchanged(button.associatedDrawer))
    ensures image.Some? ==>
      button.associatedDrawer != null && st in button.associatedDrawer.stateDrawerCache &&
      button.associatedDrawer.stateDrawerCache[st] == ViewBackground.Described(ViewBackground.HelperDescriptor(ImageContent(image.value), round, radius, true))
    ensures image.Some? && old(button.associatedDrawer) != null ==>
      button.associatedDrawer == old(button.associatedDrawer) && unchanged(runloop) &&
      button.associatedDrawer.Model() ==
        WithBackground(button.associatedDrawer.host, old(button.associatedDrawer.Model()), ViewBackground.Described(ViewBackground.HelperDescriptor(ImageContent(image.value), round, radius, true)), st)
    ensures image.Some? && old(button.associatedDrawer) == null ==>
      fresh(button.associatedDrawer) && button.associatedDrawer != null && button.associatedDrawer.host == host &&
      Runloop.Appended(runloop, old(runloop.observerList), alive, button.associatedDrawer) &&
      button.associatedDrawer.Model() ==
        WithBackground(host, ButtonModel(old(button.boundsSize), old(button.state), map[], map[], old(button.backgroundImages), true, true),
          ViewBackground.Described(ViewBackground.HelperDescriptor(ImageContent(image.value), round, radius, true)), st)
  {
    if image.None? {
      return;
    }
    var drawer := new ImageDrawer(ImageContent(image.value));
    var _ := drawer.AddContontCTX();
    SetImageDrawer(button, drawer, round, radius, st, host, runloop, alive);
  }
}
