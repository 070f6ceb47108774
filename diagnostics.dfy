/** The diagnostics overlay of src/debug/diagnostics.rs: a two-state toggle
    driven by F2, an overlay tree whose lifetime is scoped to the `Enabled`
    state, and the per-frame rule that rewrites the overlay's texts from the
    diagnostics store.

    The world is described twice: as pure values (`World` and the functions
    that step it, about which the lemmas speak) and as the class
    `DiagnosticsUi`, whose fields the systems update in place and whose methods
    are proved to follow the pure functions. */
module Diagnostics {
  import opened Ecs
  import opened Input

  datatype DiagnosticsState = Enabled | Disabled

  /** The state the app starts in (`#[default] Disabled`). */
  const InitialState := Disabled

  /** The other state. */
  function Flip(s: DiagnosticsState): (r: DiagnosticsState)
    ensures r != s
  {
    if s == Enabled then Disabled else Enabled
  }

  /** One overlay tree: the `DiagnosticsDisplay` container and the texts of its
      four leaves, marked `FpsText`, `EntityCountText`, `MemoryText` and
      `RenderText`. The markers are private to this file, so the only entities
      that carry them are the leaves of such trees. */
  datatype Overlay = Overlay(fps: string, entities: string, memory: string, render: string)

  /** The texts `spawn_driver` gives the four leaves, in spawn order. */
  function Leaves(o: Overlay): (r: seq<string>) {
    [o.fps, o.entities, o.memory, o.render]
  }

  /** The tree `spawn_driver` creates. */
  const SpawnedOverlay := Overlay("FPS: --", "Entities: --", "Memory: --", "Render: --")

  /** One diagnostic of the store: its smoothed sample and its latest value,
      each absent until measured. */
  datatype Diagnostic = Diagnostic(smoothed: Option<real>, value: Option<real>)

  /** The three diagnostics `update_driver` reads; `None` when the store does
      not hold that diagnostic at all. */
  datatype DiagnosticsStore = DiagnosticsStore(
    fps: Option<Diagnostic>,
    entityCount: Option<Diagnostic>,
    memory: Option<Diagnostic>)

  /** The number formatting the text leaves use, left abstract: `{:.1}` and
      `{:.0}` of a floating-point number. */
  datatype NumberFormat = NumberFormat(oneDecimal: real -> string, noDecimals: real -> string)

  const BytesPerGigabyte: real := 1024.0 * 1024.0 * 1024.0

  function FpsLine(fps: real, fmt: NumberFormat): (r: string)
    ensures |r| >= 5 && r[..5] == "FPS: "
  {
    "FPS: " + fmt.oneDecimal(fps)
  }

  function EntitiesLine(count: real, fmt: NumberFormat): (r: string)
    ensures |r| >= 10 && r[..10] == "Entities: "
  {
    "Entities: " + fmt.noDecimals(count)
  }

  function MemoryLine(bytes: real, fmt: NumberFormat): (r: string)
    ensures |r| >= 17 && r[..14] == "Total Memory: " && r[|r| - 3..] == " GB"
  {
    "Total Memory: " + fmt.oneDecimal(bytes / BytesPerGigabyte) + " GB"
  }

  /** The text shown when the memory diagnostic is not in the store. */
  const MemoryUnavailable := "Memory: N/A"

  /** The FPS leaf after an update: rewritten only when the diagnostic exists
      and has a smoothed sample. */
  function NextFpsText(current: string, d: Option<Diagnostic>, fmt: NumberFormat): (r: string)
    ensures d.Some? && d.value.smoothed.Some? ==> r == FpsLine(d.value.smoothed.value, fmt)
    ensures d.None? || d.value.smoothed.None? ==> r == current
  {
    if d.Some? && d.value.smoothed.Some? then FpsLine(d.value.smoothed.value, fmt) else current
  }

  /** The entity-count leaf after an update: same rule as the FPS leaf. */
  function NextEntitiesText(current: string, d: Option<Diagnostic>, fmt: NumberFormat): (r: string)
    ensures d.Some? && d.value.smoothed.Some? ==> r == EntitiesLine(d.value.smoothed.value, fmt)
    ensures d.None? || d.value.smoothed.None? ==> r == current
  {
    if d.Some? && d.value.smoothed.Some? then EntitiesLine(d.value.smoothed.value, fmt) else current
  }

  /** The memory leaf after an update: the N/A sentinel when the diagnostic is
      missing, unchanged when it has no value yet, the formatted total when it
      has one. It reads the latest value, not the smoothed one. */
  function NextMemoryText(current: string, d: Option<Diagnostic>, fmt: NumberFormat): (r: string)
    ensures d.None? ==> r == MemoryUnavailable
    ensures d.Some? && d.value.value.None? ==> r == current
    ensures d.Some? && d.value.value.Some? ==> r == MemoryLine(d.value.value.value, fmt)
  {
    match d
    case None => MemoryUnavailable
    case Some(diag) =>
      match diag.value
      case None => current
      case Some(bytes) => MemoryLine(bytes, fmt)
  }

  /** One tree after `update_driver` found each of its leaves: the render leaf
      is never written. */
  function UpdateOverlay(o: Overlay, store: DiagnosticsStore, fmt: NumberFormat): (r: Overlay) {
    Overlay(
      NextFpsText(o.fps, store.fps, fmt),
      NextEntitiesText(o.entities, store.entityCount, fmt),
      NextMemoryText(o.memory, store.memory, fmt),
      o.render)
  }

  /** `update_driver` over all trees: each leaf query succeeds only when its
      marker matches exactly one entity, that is, when there is exactly one tree. */
  function UpdateOverlays(os: seq<Overlay>, store: DiagnosticsStore, fmt: NumberFormat): (r: seq<Overlay>) {
    if |os| == 1 then [UpdateOverlay(os[0], store, fmt)] else os
  }

  /** What `toggle` leaves in the `NextState` resource: on a fresh F2 press a
      request for the other state, otherwise whatever was pending before. */
  function ToggleRequest(state: DiagnosticsState, input: ButtonInput, pending: Option<DiagnosticsState>)
    : (r: Option<DiagnosticsState>)
    ensures JustPressed(input, F2) ==> r.Some? && r.value != state
    ensures !JustPressed(input, F2) ==> r == pending
  {
    if JustPressed(input, F2) then Some(Flip(state)) else pending
  }

  /** The app's diagnostics-related world: the current state, the pending
      `NextState` request and the overlay trees that exist. */
  datatype World = World(state: DiagnosticsState, next: Option<DiagnosticsState>, overlays: seq<Overlay>)

  const InitialWorld := World(InitialState, None, [])

  /** The invariant every reachable world keeps: one tree exactly while
      `Enabled`, none otherwise, and a pending request always names the other
      state. */
  ghost predicate Valid(w: World) {
    && |w.overlays| == (if w.state == Enabled then 1 else 0)
    && (w.next.Some? ==> w.next.value != w.state)
  }

  /** The runtime's state transition, run before `Update` each frame: a pending
      request for a different state runs `OnExit` (despawning every entity
      scoped to `Enabled` when leaving it), switches the state, and runs
      `OnEnter` (`spawn_driver` when entering `Enabled`). A request for the
      current state only clears the request. */
  function Transition(w: World): (r: World) {
    match w.next
    case None => w
    case Some(s) =>
      if s == w.state then w.(next := None)
      else
        var kept := if w.state == Enabled then [] else w.overlays;
        World(s, None, if s == Enabled then kept + [SpawnedOverlay] else kept)
  }

  /** The `Update` systems: `toggle`, and `update_driver` while `Enabled`. They
      touch disjoint data, so their relative order does not matter. */
  function Update(w: World, input: ButtonInput, store: DiagnosticsStore, fmt: NumberFormat): (r: World) {
    World(
      w.state,
      ToggleRequest(w.state, input, w.next),
      if w.state == Enabled then UpdateOverlays(w.overlays, store, fmt) else w.overlays)
  }

  /** One frame: the state transition, then `Update`. */
  function Frame(w: World, input: ButtonInput, store: DiagnosticsStore, fmt: NumberFormat): (r: World) {
    Update(Transition(w), input, store, fmt)
  }

  /** What one frame sees from outside: the keyboard and the diagnostics store. */
  datatype FrameInput = FrameInput(keys: ButtonInput, store: DiagnosticsStore)

  /** A run of frames from `w`. */
  function Run(w: World, frames: seq<FrameInput>, fmt: NumberFormat): (r: World)
    decreases |frames|
  {
    if frames == [] then w
    else Run(Frame(w, frames[0].keys, frames[0].store, fmt), frames[1..], fmt)
  }

  // ---------------------------------------------------------------------------
  // Properties of the pure model

  lemma InitialWorldIsValid()
    ensures Valid(InitialWorld) && InitialWorld.state == Disabled && InitialWorld.overlays == []
  {
  }

  /** A valid world has a tree exactly when it is `Enabled`. */
  lemma OverlayExistsIffEnabled(w: World)
    requires Valid(w)
    ensures w.overlays != [] <==> w.state == Enabled
    ensures w.state == Disabled <==> w.overlays == []
  {
  }

  /** Entering `Enabled` creates exactly one tree whose four leaves hold the
      placeholder texts. */
  lemma EnteringEnabledSpawnsOverlay(w: World)
    requires Valid(w) && w.state == Disabled && w.next == Some(Enabled)
    ensures Transition(w).state == Enabled
    ensures |Transition(w).overlays| == 1
    ensures Leaves(Transition(w).overlays[0]) == ["FPS: --", "Entities: --", "Memory: --", "Render: --"]
  {
  }

  /** Leaving `Enabled` despawns every tree, whatever was there. */
  lemma LeavingEnabledDespawnsOverlays(w: World)
    requires w.state == Enabled && Transition(w).state != Enabled
    ensures Transition(w).overlays == []
  {
  }

  lemma TransitionPreservesValid(w: World)
    requires Valid(w)
    ensures Valid(Transition(w)) && Transition(w).next == None
  {
  }

  lemma UpdatePreservesValid(w: World, input: ButtonInput, store: DiagnosticsStore, fmt: NumberFormat)
    requires Valid(w)
    ensures Valid(Update(w, input, store, fmt))
  {
  }

  lemma FramePreservesValid(w: World, input: ButtonInput, store: DiagnosticsStore, fmt: NumberFormat)
    requires Valid(w)
    ensures Valid(Frame(w, input, store, fmt))
  {
    TransitionPreservesValid(w);
    UpdatePreservesValid(Transition(w), input, store, fmt);
  }

  /** Every run of frames keeps the invariant. */
  lemma {:induction false} RunPreservesValid(w: World, frames: seq<FrameInput>, fmt: NumberFormat)
    requires Valid(w)
    ensures Valid(Run(w, frames, fmt))
    decreases |frames|
  {
    if frames != [] {
      FramePreservesValid(w, frames[0].keys, frames[0].store, fmt);
      RunPreservesValid(Frame(w, frames[0].keys, frames[0].store, fmt), frames[1..], fmt);
    }
  }

  /** In every world reachable from the start, no overlay leaf exists outside
      `Enabled`, and at most one tree exists. */
  lemma ReachableOverlaysScopedToEnabled(frames: seq<FrameInput>, fmt: NumberFormat)
    ensures Run(InitialWorld, frames, fmt).state != Enabled ==> Run(InitialWorld, frames, fmt).overlays == []
    ensures |Run(InitialWorld, frames, fmt).overlays| <= 1
  {
    RunPreservesValid(InitialWorld, frames, fmt);
  }

  /** The `Update` systems change the FPS, entity and memory texts of the tree
      only while `Enabled`, and never the state itself. */
  lemma UpdateOnlyWhileEnabled(w: World, input: ButtonInput, store: DiagnosticsStore, fmt: NumberFormat)
    ensures Update(w, input, store, fmt).state == w.state
    ensures w.state != Enabled ==> Update(w, input, store, fmt).overlays == w.overlays
  {
  }

  /** `update_driver` never changes the number of trees nor any render text. */
  lemma UpdateNeverWritesRender(os: seq<Overlay>, store: DiagnosticsStore, fmt: NumberFormat)
    ensures |UpdateOverlays(os, store, fmt)| == |os|
    ensures forall i :: 0 <= i < |os| ==> UpdateOverlays(os, store, fmt)[i].render == os[i].render
  {
  }

  /** A leaf text changes only when its query matched exactly one entity and
      the store had what that leaf reads; when both hold, the FPS and entity
      texts become the formatted samples and the memory text follows the
      memory rule. */
  lemma UpdateWritesOnlyWithSingleMatchAndSample(os: seq<Overlay>, store: DiagnosticsStore, fmt: NumberFormat, i: nat)
    requires i < |os|
    ensures UpdateOverlays(os, store, fmt)[i].fps != os[i].fps ==>
              |os| == 1 && store.fps.Some? && store.fps.value.smoothed.Some?
    ensures UpdateOverlays(os, store, fmt)[i].entities != os[i].entities ==>
              |os| == 1 && store.entityCount.Some? && store.entityCount.value.smoothed.Some?
    ensures UpdateOverlays(os, store, fmt)[i].memory != os[i].memory ==>
              |os| == 1 && (store.memory.None? || store.memory.value.value.Some?)
    ensures |os| == 1 && store.fps.Some? && store.fps.value.smoothed.Some? ==>
              UpdateOverlays(os, store, fmt)[0].fps == FpsLine(store.fps.value.smoothed.value, fmt)
    ensures |os| == 1 && store.entityCount.Some? && store.entityCount.value.smoothed.Some? ==>
              UpdateOverlays(os, store, fmt)[0].entities == EntitiesLine(store.entityCount.value.smoothed.value, fmt)
    ensures |os| == 1 ==> UpdateOverlays(os, store, fmt)[0].memory == NextMemoryText(os[0].memory, store.memory, fmt)
  {
  }

  /** The memory leaf of the one tree after `update_driver`: "Memory: N/A" when
      the store lacks the diagnostic, unchanged while it has no value, and the
      formatted total once it has one. */
  lemma UpdateMemoryText(o: Overlay, store: DiagnosticsStore, fmt: NumberFormat)
    ensures store.memory.None? ==> UpdateOverlays([o], store, fmt)[0].memory == MemoryUnavailable
    ensures store.memory.Some? && store.memory.value.value.None? ==>
              UpdateOverlays([o], store, fmt)[0].memory == o.memory
    ensures store.memory.Some? && store.memory.value.value.Some? ==>
              UpdateOverlays([o], store, fmt)[0].memory == MemoryLine(store.memory.value.value.value, fmt)
  {
  }

  /** `update_driver` writes nothing unless each marker matches exactly one entity. */
  lemma UpdateSkipsWithoutSingleMatch(os: seq<Overlay>, store: DiagnosticsStore, fmt: NumberFormat)
    requires Single(os).Failure?
    ensures UpdateOverlays(os, store, fmt) == os
  {
  }

  /** With nothing measured yet, an update changes no text; the memory leaf
      needs only its diagnostic to exist. */
  lemma UpdateWithoutSamplesIsIdentity(o: Overlay, store: DiagnosticsStore, fmt: NumberFormat)
    requires store.fps.None? || store.fps.value.smoothed.None?
    requires store.entityCount.None? || store.entityCount.value.smoothed.None?
    requires store.memory.Some? && store.memory.value.value.None?
    ensures UpdateOverlay(o, store, fmt) == o
  {
  }

  /** The N/A sentinel differs both from the placeholder shown before any
      sample and from every formatted memory total, so "unsupported" and
      "not sampled yet" are told apart. */
  lemma MemorySentinelIsDistinct(bytes: real, fmt: NumberFormat)
    ensures MemoryUnavailable != SpawnedOverlay.memory
    ensures MemoryUnavailable != MemoryLine(bytes, fmt)
  {
  }

  /** Once a sample was shown, a later frame without a sample keeps it: the
      FPS text never returns to the placeholder, given that formatting a
      number never yields the placeholder's dashes. */
  lemma FpsTextNeverReturnsToPlaceholder(current: string, d: Option<Diagnostic>, fmt: NumberFormat)
    requires current != SpawnedOverlay.fps
    requires forall v :: fmt.oneDecimal(v) != "--"
    ensures NextFpsText(current, d, fmt) != SpawnedOverlay.fps
  {
  }

  /** A frame without a fresh F2 press leaves nothing pending in a valid world. */
  lemma FrameWithoutF2LeavesNothingPending(w: World, input: ButtonInput, store: DiagnosticsStore, fmt: NumberFormat)
    requires Valid(w) && !JustPressed(input, F2)
    ensures Frame(w, input, store, fmt).next == None
  {
  }

  /** Two F2 presses, followed by one more frame for the second request to take
      effect, bring the state back; from `Disabled` the whole world is as
      before and no overlay entity is left. */
  lemma TwoTogglesRestoreState(w: World, f1: FrameInput, f2: FrameInput, f3: FrameInput, fmt: NumberFormat)
    requires Valid(w) && w.next == None
    requires JustPressed(f1.keys, F2) && JustPressed(f2.keys, F2) && !JustPressed(f3.keys, F2)
    ensures Run(w, [f1, f2, f3], fmt).state == w.state
    ensures Run(w, [f1, f2, f3], fmt).next == None
    ensures |Run(w, [f1, f2, f3], fmt).overlays| == |w.overlays|
    ensures w.state == Disabled ==> Run(w, [f1, f2, f3], fmt) == w
  {
    var w1 := Frame(w, f1.keys, f1.store, fmt);
    assert w1.state == w.state && w1.next == Some(Flip(w.state));
    var w2 := Frame(w1, f2.keys, f2.store, fmt);
    assert w2.state == Flip(w.state) && w2.next == Some(w.state);
    var w3 := Frame(w2, f3.keys, f3.store, fmt);
    assert w3.state == w.state && w3.next == None;
    assert [f1, f2, f3][1..] == [f2, f3];
    assert [f2, f3][1..] == [f3];
    assert [f3][1..] == [];
    assert Run(w3, [], fmt) == w3;
    assert Run(w2, [f3], fmt) == w3;
    assert Run(w1, [f2, f3], fmt) == w3;
    assert Run(w, [f1, f2, f3], fmt) == w3;
  }

  // ---------------------------------------------------------------------------
  // The systems, updating the app's state in place

  class DiagnosticsUi {
    /** `State<DiagnosticsState>` */
    var state: DiagnosticsState
    /** `NextState<DiagnosticsState>`: `None` when nothing is pending. */
    var next: Option<DiagnosticsState>
    /** The overlay trees that exist. */
    var overlays: seq<Overlay>

    function Model(): World
      reads this
    {
      World(state, next, overlays)
    }

    /** `init_state`: the default state, nothing pending, no overlay. */
    constructor ()
      ensures Model() == InitialWorld
      ensures state == Disabled && overlays == []
    {
      state := InitialState;
      next := None;
      overlays := [];
    }

    /** `DiagnosticsUi::toggle` */
    method Toggle(input: ButtonInput)
      modifies this`next
      ensures next == ToggleRequest(state, input, old(next))
      ensures JustPressed(input, F2) ==> next == Some(Flip(state))
    {
      if JustPressed(input, F2) {
        var newState := if state == Enabled then Disabled else Enabled;
        next := Some(newState);
      }
    }

    /** `DiagnosticsUi::spawn_driver`: one more tree with the placeholder texts. */
    method SpawnDriver()
      modifies this`overlays
      ensures overlays == old(overlays) + [SpawnedOverlay]
    {
      overlays := overlays + [Overlay("FPS: --", "Entities: --", "Memory: --", "Render: --")];
    }

    /** Leaving `Enabled` despawns every entity scoped to it: all trees. */
    method DespawnScoped()
      modifies this`overlays
      ensures overlays == []
    {
      overlays := [];
    }

    /** The runtime's state transition. */
    method ApplyTransition()
      modifies this
      ensures Model() == Transition(old(Model()))
    {
      if next.Some? {
        var entered := next.value;
        next := None;
        if entered != state {
          if state == Enabled {
            DespawnScoped();
          }
          state := entered;
          if entered == Enabled {
            SpawnDriver();
          }
        }
      }
    }

    /** `DiagnosticsUi::update_driver`: four independent leaf queries, each of
        which writes its leaf only when it matches exactly one entity. */
    method UpdateDriver(store: DiagnosticsStore, fmt: NumberFormat)
      modifies this`overlays
      ensures overlays == UpdateOverlays(old(overlays), store, fmt)
    {
      var fpsQuery := Single(overlays);
      if fpsQuery.Success? {
        if store.fps.Some? {
          if store.fps.value.smoothed.Some? {
            overlays := [fpsQuery.value.(fps := FpsLine(store.fps.value.smoothed.value, fmt))];
          }
        }
      }

      var entityQuery := Single(overlays);
      if entityQuery.Success? {
        if store.entityCount.Some? {
          if store.entityCount.value.smoothed.Some? {
            overlays := [entityQuery.value.(entities := EntitiesLine(store.entityCount.value.smoothed.value, fmt))];
          }
        }
      }

      var memoryQuery := Single(overlays);
      if memoryQuery.Success? {
        if store.memory.Some? {
          if store.memory.value.value.Some? {
            overlays := [memoryQuery.value.(memory := MemoryLine(store.memory.value.value.value, fmt))];
          }
        } else {
          overlays := [memoryQuery.value.(memory := MemoryUnavailable)];
        }
      }
      // The render leaf is looked up but never written.
    }

    /** The `Update` schedule: `toggle`, and `update_driver` under
        `run_if(in_state(Enabled))`. */
    method RunUpdate(input: ButtonInput, store: DiagnosticsStore, fmt: NumberFormat)
      modifies this
      ensures Model() == Update(old(Model()), input, store, fmt)
    {
      if state == Enabled {
        UpdateDriver(store, fmt);
      }
      Toggle(input);
    }

    /** One frame: the state transition, then `Update`. */
    method RunFrame(input: ButtonInput, store: DiagnosticsStore, fmt: NumberFormat)
      requires Valid(Model())
      modifies this
      ensures Model() == Frame(old(Model()), input, store, fmt)
      ensures Valid(Model())
    {
      ghost var before := Model();
      ApplyTransition();
      RunUpdate(input, store, fmt);
      FramePreservesValid(before, input, store, fmt);
    }
  }
}
