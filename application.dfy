/**
 * The Application shell: the single application object, its layer stack,
 * the queue of events raised during a frame, the window-minimised gate in
 * front of the per-frame body, and the two resize handlers. Everything the
 * application asks of the window, the engine, ImGui and the layers is an
 * entry appended to its `effects` log; what a layer does with an event is
 * opaque, except whether it marks the event handled (`layerHandles`).
 */
module Applications {

  /** A layer, by identity. */
  type LayerId = nat

  /** A width and a height, in pixels. */
  datatype Size = Size(width: nat, height: nat)

  datatype ColorFormat = R8G8B8A8 | D32

  /** A render target the application owns. */
  datatype Texture = Texture(size: Size, format: ColorFormat)

  /** The events the application reacts to itself; every other kind only travels to the layers. */
  datatype EventKind =
    | WindowResized(width: nat, height: nat)
    | ViewportResized(width: nat, height: nat)
    | OtherEvent(code: nat)

  datatype Event = Event(kind: EventKind, handled: bool)

  /** What the application asks of its window, engine, ImGui layer, layers and textures. */
  datatype Effect =
    | WindowCreated(title: string, size: Size)
    | EngineCreated
    | ImGuiAttached
    | TextureCreated(texture: Texture)
    | TextureDeleted(texture: Texture)
    | Render2DInitialized
    | LayerAttached(layer: LayerId)
    | EngineResized(width: nat, height: nat)
    | LayerEvent(layer: LayerId, kind: EventKind)
    | ImGuiBegin
    | PrepareFrame(imageIndex: nat)
    | OffscreenPass(color: Texture, depth: Texture, updated: seq<LayerId>)
    | LayerImGui(layer: LayerId)
    | ViewportShown(color: Texture)
    | SwapchainPass(imageIndex: nat)
    | EndFrame(imageIndex: nat)
    | ImGuiEnd
    | WindowUpdated
    | EngineWaitIdle
    | Render2DCleanup
    | LayerDetached(layer: LayerId)
    | EngineCleanup
    | WindowDestroyed

  /** The part of the application's state that events change. */
  datatype AppState = AppState(minimized: bool, viewport: Size, color: Texture, depth: Texture)

  /** A state together with what reaching it asked of the outside. */
  datatype Outcome = Outcome(state: AppState, effects: seq<Effect>)

  /** The colour and depth targets of a viewport of the given size. */
  function ColorTarget(size: Size): Texture { Texture(size, R8G8B8A8) }
  function DepthTarget(size: Size): Texture { Texture(size, D32) }

  /**
   * on_window_resized and on_viewport_resized, as the event dispatcher
   * runs them for the matching kind; both report the event unhandled.
   */
  function Dispatch(s: AppState, kind: EventKind): Outcome {
    match kind
    case WindowResized(w, h) =>
      Outcome(s.(minimized := w == 0 || h == 0), [EngineResized(w, h)])
    case ViewportResized(w, h) =>
      var size := Size(w, h);
      Outcome(AppState(s.minimized, size, ColorTarget(size), DepthTarget(size)),
        [TextureDeleted(s.color), TextureDeleted(s.depth), TextureCreated(ColorTarget(size)), TextureCreated(DepthTarget(size))])
    case OtherEvent(_) => Outcome(s, [])
  }

  /**
   * The layers an event reaches, in stack order: each layer sees it unless
   * it is already handled, and a layer may mark it handled.
   */
  function Deliveries(layers: seq<LayerId>, handles: (LayerId, EventKind) -> bool, kind: EventKind, handled: bool): seq<LayerId>
    decreases |layers|
  {
    if layers == [] || handled then []
    else [layers[0]] + Deliveries(layers[1..], handles, kind, handles(layers[0], kind))
  }

  /** One LayerEvent per layer, in order. */
  function LayerEvents(layers: seq<LayerId>, kind: EventKind): (effects: seq<Effect>)
    ensures |effects| == |layers|
  {
    if layers == [] then [] else [LayerEvent(layers[0], kind)] + LayerEvents(layers[1..], kind)
  }

  /** on_event: the application's own handlers, then the layers the event reaches. */
  function HandleEvent(s: AppState, layers: seq<LayerId>, handles: (LayerId, EventKind) -> bool, event: Event): Outcome {
    var own := Dispatch(s, event.kind);
    Outcome(own.state, own.effects + LayerEvents(Deliveries(layers, handles, event.kind, event.handled), event.kind))
  }

  /** The queued events handled one after the other, first queued first. */
  function DrainAll(s: AppState, layers: seq<LayerId>, handles: (LayerId, EventKind) -> bool, events: seq<Event>): Outcome
    decreases |events|
  {
    if events == [] then Outcome(s, [])
    else
      var first := HandleEvent(s, layers, handles, events[0]);
      var rest := DrainAll(first.state, layers, handles, events[1..]);
      Outcome(rest.state, first.effects + rest.effects)
  }

  /**
   * The layers an event reaches are a prefix of the stack: every one but
   * the last left it unhandled, and when the event stops before the end
   * of the stack it is because the last layer reached handled it (or it
   * arrived handled and reached none).
   */
  lemma {:induction false} DeliveriesStopAtFirstHandler(layers: seq<LayerId>, handles: (LayerId, EventKind) -> bool, kind: EventKind, handled: bool)
    ensures var d := Deliveries(layers, handles, kind, handled);
      && |d| <= |layers| && d == layers[..|d|]
      && (handled ==> d == [])
      && (forall j :: 0 <= j < |d| - 1 ==> !handles(d[j], kind))
      && (|d| < |layers| ==> handled || handles(d[|d| - 1], kind))
    decreases |layers|
  {
    if layers != [] && !handled {
      var tail := layers[1..];
      var h := handles(layers[0], kind);
      DeliveriesStopAtFirstHandler(tail, handles, kind, h);
      var d := Deliveries(layers, handles, kind, handled);
      var r := Deliveries(tail, handles, kind, h);
      assert d == [layers[0]] + r;
      assert layers[..|d|] == [layers[0]] + tail[..|r|];
      forall j | 0 <= j < |d| - 1
        ensures !handles(d[j], kind)
      {
        if j > 0 {
          assert d[j] == r[j - 1];
        } else if r != [] {
          assert !h;
        }
      }
    }
  }

  /** An event that no layer handles reaches every layer, in stack order. */
  lemma {:induction false} UnhandledReachesEveryLayer(layers: seq<LayerId>, handles: (LayerId, EventKind) -> bool, kind: EventKind)
    requires forall j :: 0 <= j < |layers| ==> !handles(layers[j], kind)
    ensures Deliveries(layers, handles, kind, false) == layers
    decreases |layers|
  {
    if layers != [] {
      var tail := layers[1..];
      assert forall j :: 0 <= j < |tail| ==> tail[j] == layers[j + 1];
      UnhandledReachesEveryLayer(tail, handles, kind);
    }
  }

  /** Draining two batches of events is draining the first, then the second from where the first left off. */
  lemma {:induction false} DrainAppend(s: AppState, layers: seq<LayerId>, handles: (LayerId, EventKind) -> bool, first: seq<Event>, second: seq<Event>)
    ensures var a := DrainAll(s, layers, handles, first);
      var b := DrainAll(a.state, layers, handles, second);
      DrainAll(s, layers, handles, first + second) == Outcome(b.state, a.effects + b.effects)
    decreases |first|
  {
    if first == [] {
      assert first + second == second;
    } else {
      var all := first + second;
      assert all[0] == first[0];
      assert all[1..] == first[1..] + second;
      var o := HandleEvent(s, layers, handles, first[0]);
      var r := DrainAll(o.state, layers, handles, first[1..]);
      var b := DrainAll(r.state, layers, handles, second);
      DrainAppend(o.state, layers, handles, first[1..], second);
      assert DrainAll(o.state, layers, handles, all[1..]) == Outcome(b.state, r.effects + b.effects);
      assert DrainAll(s, layers, handles, first) == Outcome(r.state, o.effects + r.effects);
      assert o.effects + (r.effects + b.effects) == (o.effects + r.effects) + b.effects;
    }
  }

  /** The size of the last window-resize event queued, if any. */
  function LastWindowSize(events: seq<Event>): Option<Size>
    decreases |events|
  {
    if events == [] then None
    else match events[|events| - 1].kind
      case WindowResized(w, h) => Some(Size(w, h))
      case _ => LastWindowSize(events[..|events| - 1])
  }

  /** The size of the last viewport-resize event queued, if any. */
  function LastViewportSize(events: seq<Event>): Option<Size>
    decreases |events|
  {
    if events == [] then None
    else match events[|events| - 1].kind
      case ViewportResized(w, h) => Some(Size(w, h))
      case _ => LastViewportSize(events[..|events| - 1])
  }

  datatype Option<T> = None | Some(value: T)

  /**
   * After the queue is drained the window counts as minimised exactly when
   * the last window-resize event had a zero width or height; without one,
   * the flag is unchanged. The viewport size is that of the last
   * viewport-resize event, with both targets of that size; without one,
   * viewport and targets are unchanged.
   */
  lemma {:induction false} DrainFollowsLastResize(s: AppState, layers: seq<LayerId>, handles: (LayerId, EventKind) -> bool, events: seq<Event>)
    ensures var t := DrainAll(s, layers, handles, events).state;
      && t.minimized == (match LastWindowSize(events) case None => s.minimized case Some(size) => size.width == 0 || size.height == 0)
      && (LastViewportSize(events).None? ==> t.viewport == s.viewport && t.color == s.color && t.depth == s.depth)
      && (LastViewportSize(events).Some? ==>
            t.viewport == LastViewportSize(events).value && t.color == ColorTarget(t.viewport) && t.depth == DepthTarget(t.viewport))
    decreases |events|
  {
    if events != [] {
      var init := events[..|events| - 1];
      var last := events[|events| - 1];
      assert events == init + [last];
      DrainFollowsLastResize(s, layers, handles, init);
      DrainAppend(s, layers, handles, init, [last]);
      var a := DrainAll(s, layers, handles, init);
      assert DrainAll(a.state, layers, handles, [last]).state == Dispatch(a.state, last.kind).state by {
        assert [last][1..] == [];
      }
    }
  }

  /**
   * The per-frame body when the window is not minimised: ImGui frame begin,
   * prepare_frame for the acquired image, the offscreen pass in which every
   * layer updates, every layer's ImGui, the viewport image, the swapchain
   * pass with the ImGui layer, end_frame for the same image, ImGui frame end.
   */
  function FrameEffects(s: AppState, layers: seq<LayerId>, imageIndex: nat): (effects: seq<Effect>)
    ensures |effects| == 7 + |layers|
  {
    [ImGuiBegin, PrepareFrame(imageIndex), OffscreenPass(s.color, s.depth, layers)]
    + LayerImGuiCalls(layers)
    + [ViewportShown(s.color), SwapchainPass(imageIndex), EndFrame(imageIndex), ImGuiEnd]
  }

  /** One on_imgui per layer, in stack order. */
  function LayerImGuiCalls(layers: seq<LayerId>): (effects: seq<Effect>)
    ensures |effects| == |layers|
  {
    if layers == [] then [] else [LayerImGui(layers[0])] + LayerImGuiCalls(layers[1..])
  }

  /**
   * Within a frame, prepare_frame comes before the offscreen pass, which
   * comes before the swapchain pass and then end_frame, all for the same
   * image; nothing else in the frame names an image.
   */
  lemma FrameOrder(s: AppState, layers: seq<LayerId>, imageIndex: nat)
    ensures var f := FrameEffects(s, layers, imageIndex);
      && f[1] == PrepareFrame(imageIndex)
      && f[2].OffscreenPass?
      && f[|f| - 3] == SwapchainPass(imageIndex)
      && f[|f| - 2] == EndFrame(imageIndex)
      && forall j :: 0 <= j < |f| && (f[j].PrepareFrame? || f[j].SwapchainPass? || f[j].EndFrame?) ==>
           f[j].imageIndex == imageIndex && (j == 1 || j == |f| - 3 || j == |f| - 2)
  {
    var f := FrameEffects(s, layers, imageIndex);
    var head := [ImGuiBegin, PrepareFrame(imageIndex), OffscreenPass(s.color, s.depth, layers)];
    var middle := LayerImGuiCalls(layers);
    var tail := [ViewportShown(s.color), SwapchainPass(imageIndex), EndFrame(imageIndex), ImGuiEnd];
    assert f == head + middle + tail;
    LayerImGuiCallsAt(layers);
    forall j | 0 <= j < |f| && (f[j].PrepareFrame? || f[j].SwapchainPass? || f[j].EndFrame?)
      ensures f[j].imageIndex == imageIndex && (j == 1 || j == |f| - 3 || j == |f| - 2)
    {
      if j < 3 {
        assert f[j] == head[j];
      } else if j >= 3 + |middle| {
        assert f[j] == tail[j - 3 - |middle|];
      }
    }
  }

  /**
   * render_viewport, for the viewport size the UI measured: a size other
   * than the current one queues a viewport-resize event.
   */
  function ViewportEvents(s: AppState, measured: Size): seq<Event> {
    if measured != s.viewport then [Event(ViewportResized(measured.width, measured.height), false)] else []
  }

  /**
   * One iteration of run: the frame body unless the window is minimised,
   * then the window update, then every queued event in order, the queue
   * left empty.
   */
  function Iteration(s: AppState, layers: seq<LayerId>, handles: (LayerId, EventKind) -> bool, queue: seq<Event>, imageIndex: nat, measured: Size): Outcome {
    var frame := if s.minimized then [] else FrameEffects(s, layers, imageIndex);
    var queued := if s.minimized then queue else queue + ViewportEvents(s, measured);
    var drained := DrainAll(s, layers, handles, queued);
    Outcome(drained.state, frame + [WindowUpdated] + drained.effects)
  }

  /** No event handler renders: handling events asks for no frame work. */
  lemma {:induction false} DrainRendersNothing(s: AppState, layers: seq<LayerId>, handles: (LayerId, EventKind) -> bool, events: seq<Event>)
    ensures forall e :: e in DrainAll(s, layers, handles, events).effects ==> !e.PrepareFrame? && !e.SwapchainPass? && !e.EndFrame?
    decreases |events|
  {
    if events != [] {
      var first := HandleEvent(s, layers, handles, events[0]);
      DrainRendersNothing(first.state, layers, handles, events[1..]);
      var d := Deliveries(layers, handles, events[0].kind, events[0].handled);
      LayerEventsAt(d, events[0].kind);
    }
  }

  /**
   * A minimised window renders nothing in an iteration: no frame is
   * prepared, submitted or ended, and only the window update and the
   * queued events happen.
   */
  lemma MinimizedIterationRendersNothing(s: AppState, layers: seq<LayerId>, handles: (LayerId, EventKind) -> bool, queue: seq<Event>, imageIndex: nat, measured: Size)
    requires s.minimized
    ensures var o := Iteration(s, layers, handles, queue, imageIndex, measured);
      && o.effects[0] == WindowUpdated
      && forall e :: e in o.effects ==> !e.PrepareFrame? && !e.SwapchainPass? && !e.EndFrame?
  {
    DrainRendersNothing(s, layers, handles, queue);
  }

  /** A window that is not minimised renders exactly one frame, for the image it was given, before the window update. */
  lemma VisibleIterationRendersOneFrame(s: AppState, layers: seq<LayerId>, handles: (LayerId, EventKind) -> bool, queue: seq<Event>, imageIndex: nat, measured: Size)
    requires !s.minimized
    ensures var o := Iteration(s, layers, handles, queue, imageIndex, measured);
      var f := FrameEffects(s, layers, imageIndex);
      && o.effects[..|f|] == f
      && o.effects[|f|] == WindowUpdated
      && forall e :: e in o.effects[|f| + 1..] ==> !e.PrepareFrame? && !e.SwapchainPass? && !e.EndFrame?
  {
    var o := Iteration(s, layers, handles, queue, imageIndex, measured);
    var f := FrameEffects(s, layers, imageIndex);
    var drained := DrainAll(s, layers, handles, queue + ViewportEvents(s, measured));
    DrainRendersNothing(s, layers, handles, queue + ViewportEvents(s, measured));
    assert o.effects == f + [WindowUpdated] + drained.effects;
    assert o.effects[|f| + 1..] == drained.effects;
  }

  /** The static slot that holds the one application instance. */
  class InstanceSlot {
    var instance: Application?

    constructor ()
      ensures instance == null
    {
      instance := null;
    }
  }

  class Application {
    var windowMinimized: bool
    var viewportSize: Size
    var colorTexture: Texture
    var depthTexture: Texture
    var queuedEvents: seq<Event>
    var layerStack: seq<LayerId>
    var effects: seq<Effect>
    const layerHandles: (LayerId, EventKind) -> bool

    /** The state the event handlers read and write. */
    function State(): AppState
      reads this`windowMinimized, this`viewportSize, this`colorTexture, this`depthTexture
    {
      AppState(windowMinimized, viewportSize, colorTexture, depthTexture)
    }

    /**
     * The constructor: it aborts when an application already exists and
     * otherwise becomes the instance; then a 1600 x 900 viewport, the
     * window, the engine, the attached ImGui layer, both targets at the
     * viewport size and the 2D renderer. `minimized` is the window flag's
     * initial value, which the header declares.
     */
    constructor (slot: InstanceSlot, minimized: bool, layerHandles: (LayerId, EventKind) -> bool)
      requires slot.instance == null
      modifies slot
      ensures slot.instance == this
      ensures viewportSize == Size(1600, 900) && windowMinimized == minimized
      ensures colorTexture == ColorTarget(viewportSize) && depthTexture == DepthTarget(viewportSize)
      ensures queuedEvents == [] && layerStack == [] && this.layerHandles == layerHandles
      ensures effects == [WindowCreated("Vulkan Engine", Size(1600, 900)), EngineCreated, ImGuiAttached,
        TextureCreated(ColorTarget(Size(1600, 900))), TextureCreated(DepthTarget(Size(1600, 900))), Render2DInitialized]
    {
      windowMinimized := minimized;
      viewportSize := Size(1600, 900);
      colorTexture := ColorTarget(Size(1600, 900));
      depthTexture := DepthTarget(Size(1600, 900));
      queuedEvents := [];
      layerStack := [];
      this.layerHandles := layerHandles;
      effects := [WindowCreated("Vulkan Engine", Size(1600, 900)), EngineCreated, ImGuiAttached,
        TextureCreated(ColorTarget(Size(1600, 900))), TextureCreated(DepthTarget(Size(1600, 900))), Render2DInitialized];
      new;
      slot.instance := this;
    }

    /** push_layer: the layer goes on top of the stack and is attached. */
    method PushLayer(layer: LayerId)
      modifies this`layerStack, this`effects
      ensures layerStack == old(layerStack) + [layer]
      ensures effects == old(effects) + [LayerAttached(layer)]
    {
      layerStack := layerStack + [layer];
      effects := effects + [LayerAttached(layer)];
    }

    /** queue_event: the event waits at the back of the queue. */
    method QueueEvent(event: Event)
      modifies this`queuedEvents
      ensures queuedEvents == old(queuedEvents) + [event]
    {
      queuedEvents := queuedEvents + [event];
    }

    /**
     * on_window_resized: minimised exactly when the width or the height is
     * zero; the size goes to the engine whatever it is; the event stays
     * unhandled.
     */
    method OnWindowResized(width: nat, height: nat) returns (handled: bool)
      modifies this`windowMinimized, this`effects
      ensures !handled
      ensures windowMinimized <==> width == 0 || height == 0
      ensures effects == old(effects) + [EngineResized(width, height)]
    {
      windowMinimized := width == 0 || height == 0;
      effects := effects + [EngineResized(width, height)];
      handled := false;
    }

    /**
     * on_viewport_resized: records the new size and replaces both targets
     * by ones of exactly that size; the event stays unhandled.
     */
    method OnViewportResized(width: nat, height: nat) returns (handled: bool)
      modifies this`viewportSize, this`colorTexture, this`depthTexture, this`effects
      ensures !handled
      ensures viewportSize == Size(width, height)
      ensures colorTexture == ColorTarget(viewportSize) && depthTexture == DepthTarget(viewportSize)
      ensures effects == old(effects) + [TextureDeleted(old(colorTexture)), TextureDeleted(old(depthTexture)),
        TextureCreated(colorTexture), TextureCreated(depthTexture)]
    {
      viewportSize := Size(width, height);
      var oldColor, oldDepth := colorTexture, depthTexture;
      effects := effects + [TextureDeleted(oldColor), TextureDeleted(oldDepth)];
      colorTexture := ColorTarget(viewportSize);
      depthTexture := DepthTarget(viewportSize);
      effects := effects + [TextureCreated(colorTexture), TextureCreated(depthTexture)];
      handled := false;
    }

    /**
     * on_event: the resize handlers for their kinds, then the layers in
     * stack order until one of them has marked the event handled.
     */
    method OnEvent(event: Event)
      modifies this`windowMinimized, this`viewportSize, this`colorTexture, this`depthTexture, this`effects
      ensures State() == HandleEvent(old(State()), layerStack, layerHandles, event).state
      ensures effects == old(effects) + HandleEvent(old(State()), layerStack, layerHandles, event).effects
    {
      var handled := DispatchOwn(event.kind);
      ghost var own := effects;
      DeliverToLayers(event.(handled := event.handled || handled));
    }

    /** The event dispatcher: on_window_resized or on_viewport_resized for their kinds, nothing for the others. */
    method DispatchOwn(kind: EventKind) returns (handled: bool)
      modifies this`windowMinimized, this`viewportSize, this`colorTexture, this`depthTexture, this`effects
      ensures !handled
      ensures State() == Dispatch(old(State()), kind).state
      ensures effects == old(effects) + Dispatch(old(State()), kind).effects
    {
      handled := false;
      match kind {
        case WindowResized(w, h) =>
          handled := OnWindowResized(w, h);
        case ViewportResized(w, h) =>
          handled := OnViewportResized(w, h);
        case OtherEvent(_) =>
      }
    }

    /** on_event's loop: the layers in stack order, stopping once the event is handled. */
    method DeliverToLayers(event: Event)
      modifies this`effects
      ensures effects == old(effects) + LayerEvents(Deliveries(layerStack, layerHandles, event.kind, event.handled), event.kind)
    {
      var handled := event.handled;
      ghost var delivered: seq<LayerId> := [];
      var i := 0;
      while i < |layerStack| && !handled
        invariant 0 <= i <= |layerStack|
        invariant Deliveries(layerStack, layerHandles, event.kind, event.handled)
          == delivered + Deliveries(layerStack[i..], layerHandles, event.kind, handled)
        invariant effects == old(effects) + LayerEvents(delivered, event.kind)
      {
        var layer := layerStack[i];
        DeliveriesStep(layerStack, layerHandles, event.kind, i);
        effects := effects + [LayerEvent(layer, event.kind)];
        LayerEventsSnoc(delivered, layer, event.kind);
        delivered := delivered + [layer];
        handled := layerHandles(layer, event.kind);
        i := i + 1;
      }
      assert Deliveries(layerStack[i..], layerHandles, event.kind, handled) == [];
      assert delivered + [] == delivered;
    }

    /** Each queued event through on_event, first queued first; the queue is then cleared. */
    method DrainEvents()
      modifies this`windowMinimized, this`viewportSize, this`colorTexture, this`depthTexture, this`effects, this`queuedEvents
      ensures State() == DrainAll(old(State()), layerStack, layerHandles, old(queuedEvents)).state
      ensures effects == old(effects) + DrainAll(old(State()), layerStack, layerHandles, old(queuedEvents)).effects
      ensures queuedEvents == []
    {
      var events := queuedEvents;
      ghost var s0 := State();
      var i := 0;
      assert events[..0] == [];
      while i < |events|
        invariant 0 <= i <= |events|
        invariant State() == DrainAll(s0, layerStack, layerHandles, events[..i]).state
        invariant effects == old(effects) + DrainAll(s0, layerStack, layerHandles, events[..i]).effects
      {
        OnEvent(events[i]);
        DrainStep(s0, layerStack, layerHandles, events, i);
        i := i + 1;
      }
      assert events[..i] == events;
      queuedEvents := [];
    }

    /** Every layer's on_imgui, in stack order. */
    method LayersImGui()
      modifies this`effects
      ensures effects == old(effects) + LayerImGuiCalls(layerStack)
    {
      var i := 0;
      while i < |layerStack|
        invariant 0 <= i <= |layerStack|
        invariant effects == old(effects) + LayerImGuiCalls(layerStack[..i])
      {
        LayerImGuiSnoc(layerStack[..i], layerStack[i]);
        assert layerStack[..i + 1] == layerStack[..i] + [layerStack[i]];
        effects := effects + [LayerImGui(layerStack[i])];
        i := i + 1;
      }
      assert layerStack[..i] == layerStack;
    }

    /**
     * One iteration of run's loop, for the image prepare_frame acquires and
     * the viewport size the UI measures: the frame body unless the window
     * is minimised, the window update, then the queued events in order and
     * an empty queue.
     */
    method RunIteration(imageIndex: nat, measured: Size)
      modifies this`windowMinimized, this`viewportSize, this`colorTexture, this`depthTexture, this`effects, this`queuedEvents
      ensures State() == Iteration(old(State()), layerStack, layerHandles, old(queuedEvents), imageIndex, measured).state
      ensures effects == old(effects) + Iteration(old(State()), layerStack, layerHandles, old(queuedEvents), imageIndex, measured).effects
      ensures queuedEvents == []
    {
      if !windowMinimized {
        RenderFrame(imageIndex, measured);
      }
      effects := effects + [WindowUpdated];
      DrainEvents();
    }

    /** run's frame body, for a window that is not minimised. */
    method RenderFrame(imageIndex: nat, measured: Size)
      modifies this`effects, this`queuedEvents
      ensures effects == old(effects) + FrameEffects(State(), layerStack, imageIndex)
      ensures queuedEvents == old(queuedEvents) + ViewportEvents(State(), measured)
    {
      effects := effects + [ImGuiBegin, PrepareFrame(imageIndex), OffscreenPass(colorTexture, depthTexture, layerStack)];
      LayersImGui();
      RenderViewport(measured);
      effects := effects + [SwapchainPass(imageIndex), EndFrame(imageIndex), ImGuiEnd];
    }

    /** render_viewport: shows the colour target; a measured size other than the viewport's queues a resize. */
    method RenderViewport(measured: Size)
      modifies this`effects, this`queuedEvents
      ensures effects == old(effects) + [ViewportShown(colorTexture)]
      ensures queuedEvents == old(queuedEvents) + ViewportEvents(State(), measured)
    {
      effects := effects + [ViewportShown(colorTexture)];
      if measured != viewportSize {
        QueueEvent(Event(ViewportResized(measured.width, measured.height), false));
      }
    }

    /**
     * The destructor as written: wait for the device, shut the 2D renderer
     * down, then a loop that pops and detaches the top layer while an
     * index counting up from 0 stays below the shrinking stack size, so
     * that only the top half (rounded up) of the layers is detached; then
     * the targets are deleted, the engine cleaned up and the window
     * destroyed.
     */
    method DestroyAsWritten()
      modifies this`layerStack, this`effects
      ensures layerStack == old(layerStack)[..|old(layerStack)| / 2]
      ensures effects == old(effects) + [EngineWaitIdle, Render2DCleanup]
        + DetachCalls(old(layerStack)[|old(layerStack)| / 2..])
        + [TextureDeleted(colorTexture), TextureDeleted(depthTexture), EngineCleanup, WindowDestroyed]
    {
      effects := effects + [EngineWaitIdle, Render2DCleanup];
      ghost var layers0, e0 := layerStack, effects;
      ghost var n := |layers0|;
      var i := 0;
      while i < |layerStack|
        invariant i + |layerStack| == n && i <= |layerStack| + 1
        invariant layerStack == layers0[..n - i]
        invariant effects == e0 + DetachCalls(layers0[n - i..])
      {
        var layer := layerStack[|layerStack| - 1];
        assert layers0[n - i - 1..][1..] == layers0[n - i..];
        effects := effects + [LayerDetached(layer)];
        layerStack := layerStack[..|layerStack| - 1];
        i := i + 1;
      }
      effects := effects + [TextureDeleted(colorTexture), TextureDeleted(depthTexture), EngineCleanup, WindowDestroyed];
    }

    /**
     * The destructor with every layer detached: the stack is popped until
     * it is empty, each layer detached as it comes off, top first.
     */
    method Destroy()
      modifies this`layerStack, this`effects
      ensures layerStack == []
      ensures effects == old(effects) + [EngineWaitIdle, Render2DCleanup] + DetachCalls(old(layerStack))
        + [TextureDeleted(colorTexture), TextureDeleted(depthTexture), EngineCleanup, WindowDestroyed]
    {
      effects := effects + [EngineWaitIdle, Render2DCleanup];
      ghost var layers0, e0 := layerStack, effects;
      ghost var n := |layers0|;
      while layerStack != []
        invariant |layerStack| <= n && layerStack == layers0[..|layerStack|]
        invariant effects == e0 + DetachCalls(layers0[|layerStack|..])
      {
        var k := |layerStack| - 1;
        assert layers0[k..][1..] == layers0[k + 1..];
        effects := effects + [LayerDetached(layerStack[k])];
        layerStack := layerStack[..k];
      }
      assert layers0[0..] == layers0;
      effects := effects + [TextureDeleted(colorTexture), TextureDeleted(depthTexture), EngineCleanup, WindowDestroyed];
    }
  }

  /** on_detach for each of `layers`, top of the stack first. */
  function DetachCalls(layers: seq<LayerId>): (effects: seq<Effect>)
    ensures |effects| == |layers|
  {
    if layers == [] then [] else DetachCalls(layers[1..]) + [LayerDetached(layers[0])]
  }

  /** The j-th detach is for the j-th layer counted from the top. */
  lemma {:induction false} DetachCallsAt(layers: seq<LayerId>)
    ensures forall j :: 0 <= j < |layers| ==> DetachCalls(layers)[j] == LayerDetached(layers[|layers| - 1 - j])
    decreases |layers|
  {
    if layers != [] {
      var tail := layers[1..];
      DetachCallsAt(tail);
      var d := DetachCalls(layers);
      forall j | 0 <= j < |layers| - 1
        ensures d[j] == LayerDetached(layers[|layers| - 1 - j])
      {
        assert d[j] == DetachCalls(tail)[j];
        assert tail[|tail| - 1 - j] == layers[|layers| - 1 - j];
      }
    }
  }

  /** Every layer of the stack, and nothing else, is detached. */
  lemma EveryLayerDetached(layers: seq<LayerId>, layer: LayerId)
    ensures LayerDetached(layer) in DetachCalls(layers) <==> layer in layers
  {
    DetachCallsAt(layers);
    var d := DetachCalls(layers);
    if layer in layers {
      var k :| 0 <= k < |layers| && layers[k] == layer;
      assert d[|layers| - 1 - k] == LayerDetached(layer);
    }
    if LayerDetached(layer) in d {
      var j :| 0 <= j < |d| && d[j] == LayerDetached(layer);
      assert layers[|layers| - 1 - j] == layer;
    }
  }

  /**
   * With two layers pushed, the destructor as written detaches the top
   * layer only: the bottom one is never detached and stays on the stack.
   */
  method DestructorLeavesLayerAttached() returns (remaining: seq<LayerId>, log: seq<Effect>)
    ensures remaining == [1]
    ensures LayerDetached(2) in log && LayerDetached(1) !in log
  {
    var slot := new InstanceSlot();
    var app := new Application(slot, false, (layer: LayerId, kind: EventKind) => false);
    app.PushLayer(1);
    app.PushLayer(2);
    app.DestroyAsWritten();
    remaining, log := app.layerStack, app.effects;
    assert [1, 2][1..] == [2];
    assert DetachCalls([2]) == [LayerDetached(2)] by {
      assert [2][1..] == [];
    }
  }

  /** Returns the instance; it aborts when there is none. */
  method GetInstance(slot: InstanceSlot) returns (app: Application)
    requires slot.instance != null
    ensures app == slot.instance
  {
    app := slot.instance;
  }

  /** Draining one more queued event is handling it in the state the earlier ones left. */
  lemma DrainStep(s: AppState, layers: seq<LayerId>, handles: (LayerId, EventKind) -> bool, events: seq<Event>, i: nat)
    requires i < |events|
    ensures var before := DrainAll(s, layers, handles, events[..i]);
      var next := HandleEvent(before.state, layers, handles, events[i]);
      DrainAll(s, layers, handles, events[..i + 1]) == Outcome(next.state, before.effects + next.effects)
  {
    var before := DrainAll(s, layers, handles, events[..i]);
    DrainAppend(s, layers, handles, events[..i], [events[i]]);
    assert events[..i + 1] == events[..i] + [events[i]];
    assert DrainAll(before.state, layers, handles, [events[i]]).state == HandleEvent(before.state, layers, handles, events[i]).state by {
      assert [events[i]][1..] == [];
    }
    assert DrainAll(before.state, layers, handles, [events[i]]).effects == HandleEvent(before.state, layers, handles, events[i]).effects + [] by {
      assert [events[i]][1..] == [];
    }
  }

  /** An unhandled event at layer i reaches it, then goes on from layer i + 1. */
  lemma DeliveriesStep(layers: seq<LayerId>, handles: (LayerId, EventKind) -> bool, kind: EventKind, i: nat)
    requires i < |layers|
    ensures Deliveries(layers[i..], handles, kind, false)
      == [layers[i]] + Deliveries(layers[i + 1..], handles, kind, handles(layers[i], kind))
  {
    assert layers[i..][1..] == layers[i + 1..];
  }

  /** The i-th LayerEvent is for the i-th layer. */
  lemma {:induction false} LayerEventsAt(layers: seq<LayerId>, kind: EventKind)
    ensures forall j :: 0 <= j < |layers| ==> LayerEvents(layers, kind)[j] == LayerEvent(layers[j], kind)
    decreases |layers|
  {
    if layers != [] {
      LayerEventsAt(layers[1..], kind);
      var l := LayerEvents(layers, kind);
      assert forall j :: 1 <= j < |layers| ==> l[j] == LayerEvents(layers[1..], kind)[j - 1];
    }
  }

  lemma {:induction false} LayerEventsSnoc(layers: seq<LayerId>, layer: LayerId, kind: EventKind)
    ensures LayerEvents(layers + [layer], kind) == LayerEvents(layers, kind) + [LayerEvent(layer, kind)]
    decreases |layers|
  {
    if layers == [] {
      assert [layer][1..] == [];
    } else {
      assert (layers + [layer])[1..] == layers[1..] + [layer];
      LayerEventsSnoc(layers[1..], layer, kind);
    }
  }

  /** The i-th on_imgui call is for the i-th layer. */
  lemma {:induction false} LayerImGuiCallsAt(layers: seq<LayerId>)
    ensures forall j :: 0 <= j < |layers| ==> LayerImGuiCalls(layers)[j] == LayerImGui(layers[j])
    decreases |layers|
  {
    if layers != [] {
      LayerImGuiCallsAt(layers[1..]);
      var l := LayerImGuiCalls(layers);
      assert forall j :: 1 <= j < |layers| ==> l[j] == LayerImGuiCalls(layers[1..])[j - 1];
    }
  }

  lemma {:induction false} LayerImGuiSnoc(layers: seq<LayerId>, layer: LayerId)
    ensures LayerImGuiCalls(layers + [layer]) == LayerImGuiCalls(layers) + [LayerImGui(layer)]
    decreases |layers|
  {
    if layers == [] {
      assert [layer][1..] == [];
    } else {
      assert (layers + [layer])[1..] == layers[1..] + [layer];
      LayerImGuiSnoc(layers[1..], layer);
    }
  }
}
