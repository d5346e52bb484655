/**
 * The per-frame scene tracker of ScrollStory.
 *
 * A ScrollStory watches a scrollable container holding an ordered list of
 * scenes. On each processed frame it finds the first scene whose box reaches
 * the container's guideline (the vertical midpoint of the container), how far
 * the guideline has travelled through that scene, and reports `exit`, `enter`
 * and `progress` events for what changed since the previous processed frame.
 *
 * The layout engine is not modelled: the container's scroll offset, the
 * container's box and the scene boxes are parameters of `Render`, and the
 * user callbacks become the events `Render` returns, in firing order.
 */
module SceneTracker {
  import opened Wrappers

  /** A box as the layout engine reports it, in viewport coordinates. */
  datatype Box = Box(top: real, bottom: real) {
    function Height(): real { bottom - top }
  }

  /** Every scene box has a positive height, so every progress ratio is defined. */
  predicate PositiveHeights(boxes: seq<Box>) {
    forall i :: 0 <= i < |boxes| ==> boxes[i].top < boxes[i].bottom
  }

  datatype Direction = Up | Down

  datatype Kind = Exit | Enter | Progress

  /** The record handed to a callback: `{ scene, element, progress, direction }`. */
  datatype Event<E> = Event(kind: Kind, scene: int, element: E, progress: real, direction: Direction)

  /** Which of the optional `exit`, `enter` and `progress` callbacks are configured. */
  datatype Callbacks = Callbacks(exit: bool, enter: bool, progress: bool)

  /** The constructor's configuration; an absent `container` or `scenes` is `None`. */
  datatype Config<E> = Config(container: Option<E>, scenes: Option<seq<E>>, callbacks: Callbacks)

  datatype ConstructError = ContainerNotFound | ScenesNotFound

  /** The active scene index when no scene overlaps the guideline. */
  const NoScene: int := -1

  /** The active scene index `refresh` stores so that the next frame reports a scene change. */
  const RefreshPending: int := -2

  /** The guideline: the vertical midpoint of the container's box. */
  function Guideline(cbox: Box): (g: real)
    ensures g - cbox.top == cbox.bottom - g
  {
    (cbox.top + cbox.bottom) / 2.0
  }

  /** A scene is active unless its top is below the guideline or its bottom above it. */
  predicate Overlaps(b: Box, guideline: real) {
    !(b.top > guideline || b.bottom < guideline)
  }

  /** How far the guideline is through the scene: 0 at its top, 1 at its bottom. */
  function Ratio(b: Box, guideline: real): (r: real)
    requires b.top < b.bottom
    ensures Overlaps(b, guideline) ==> 0.0 <= r <= 1.0
    ensures r == 0.0 <==> guideline == b.top
    ensures r == 1.0 <==> guideline == b.bottom
  {
    (guideline - b.top) / b.Height()
  }

  /**
   * The index of the first scene, in scene order, that overlaps the guideline,
   * or `NoScene` when none does. Later overlapping scenes are never chosen.
   */
  function FirstActive(boxes: seq<Box>, guideline: real): (r: int)
    ensures NoScene <= r < |boxes|
    ensures r == NoScene <==> forall j :: 0 <= j < |boxes| ==> !Overlaps(boxes[j], guideline)
    ensures r != NoScene ==> Overlaps(boxes[r], guideline)
    ensures forall j :: 0 <= j < r ==> !Overlaps(boxes[j], guideline)
  {
    if |boxes| == 0 then NoScene
    else if Overlaps(boxes[0], guideline) then 0
    else
      var rest := FirstActive(boxes[1..], guideline);
      assert forall j :: 1 <= j < |boxes| ==> boxes[j] == boxes[1..][j - 1];
      if rest == NoScene then NoScene else rest + 1
  }

  /** The progress value of a frame: the active scene's ratio, or -1 when no scene is active. */
  function ActiveProgress(boxes: seq<Box>, guideline: real): (p: real)
    requires PositiveHeights(boxes)
    ensures p == -1.0 <==> FirstActive(boxes, guideline) == NoScene
    ensures FirstActive(boxes, guideline) != NoScene ==> 0.0 <= p <= 1.0
  {
    var i := FirstActive(boxes, guideline);
    if i == NoScene then -1.0 else Ratio(boxes[i], guideline)
  }

  /**
   * The offset `isScrollingDown` compares: the stored offset when it is truthy
   * (neither `undefined` nor 0), otherwise the container's live offset.
   */
  function CurrentOffset(stored: Option<real>, live: real): (r: real)
    ensures r == live || stored == Some(r)
    ensures stored == Some(live) ==> r == live
  {
    if stored.Some? && stored.value != 0.0 then stored.value else live
  }

  /** Firing order within a frame: `exit`, then `enter`, then `progress`. */
  function Rank(k: Kind): nat {
    match k
    case Exit => 0
    case Enter => 1
    case Progress => 2
  }

  /** Some event of the given kind is among `events`. */
  predicate Fired<E>(events: seq<Event<E>>, kind: Kind) {
    exists i :: 0 <= i < |events| && events[i].kind == kind
  }

  /** A callback is only ever called for an index that names an existing scene. */
  predicate Exists<E>(scenes: seq<E>, index: int) {
    0 <= index < |scenes|
  }

  /**
   * The events one processed frame fires, given the active index and progress
   * of the previous frame and of this one. Every event carries the NEW
   * progress value, `exit` included.
   */
  function Dispatch<E>(scenes: seq<E>, callbacks: Callbacks, prevIndex: int, prevProgress: real,
                       index: int, progress: real, direction: Direction): (r: seq<Event<E>>)
    ensures forall i :: 0 <= i < |r| ==>
      && Exists(scenes, r[i].scene)
      && r[i].element == scenes[r[i].scene]
      && r[i].scene == (if r[i].kind == Exit then prevIndex else index)
      && r[i].progress == progress
      && r[i].direction == direction
    ensures forall i, j :: 0 <= i < j < |r| ==> Rank(r[i].kind) < Rank(r[j].kind)
    ensures Fired(r, Exit) <==> prevIndex != index && callbacks.exit && Exists(scenes, prevIndex)
    ensures Fired(r, Enter) <==> prevIndex != index && callbacks.enter && Exists(scenes, index)
    ensures Fired(r, Progress) <==>
      (prevIndex != index || prevProgress != progress) && callbacks.progress && Exists(scenes, index)
  {
    var sceneChanged := prevIndex != index;
    var progressChanged := prevProgress != progress;
    var exit := if sceneChanged && callbacks.exit && Exists(scenes, prevIndex)
      then [Event(Exit, prevIndex, scenes[prevIndex], progress, direction)] else [];
    var enter := if sceneChanged && callbacks.enter && Exists(scenes, index)
      then [Event(Enter, index, scenes[index], progress, direction)] else [];
    var prog := if (progressChanged || sceneChanged) && callbacks.progress && Exists(scenes, index)
      then [Event(Progress, index, scenes[index], progress, direction)] else [];
    FiredAtMostOnce(exit, Exit);
    FiredAtMostOnce(enter, Enter);
    FiredAtMostOnce(prog, Progress);
    FiredConcat(exit, enter, Exit);
    FiredConcat(exit, enter, Enter);
    FiredConcat(exit, enter, Progress);
    FiredConcat(exit + enter, prog, Exit);
    FiredConcat(exit + enter, prog, Enter);
    FiredConcat(exit + enter, prog, Progress);
    exit + enter + prog
  }

  /** At most one event, of kind `k`: an event of a kind fired exactly when that event is there and the kind is `k`. */
  lemma FiredAtMostOnce<E>(p: seq<Event<E>>, k: Kind)
    requires |p| <= 1 && forall i :: 0 <= i < |p| ==> p[i].kind == k
    ensures forall kind :: Fired(p, kind) <==> p != [] && kind == k
  {
    if p != [] {
      assert p[0].kind == k;
    }
  }

  /** An event of a kind is among a concatenation exactly when it is among one of the parts. */
  lemma FiredConcat<E>(a: seq<Event<E>>, b: seq<Event<E>>, kind: Kind)
    ensures Fired(a + b, kind) <==> Fired(a, kind) || Fired(b, kind)
  {
    if Fired(a + b, kind) {
      var i :| 0 <= i < |a + b| && (a + b)[i].kind == kind;
      if i < |a| {
        assert a[i].kind == kind;
      } else {
        assert b[i - |a|].kind == kind;
      }
    }
    if Fired(a, kind) {
      var i :| 0 <= i < |a| && a[i].kind == kind;
      assert (a + b)[i].kind == kind;
    }
    if Fired(b, kind) {
      var i :| 0 <= i < |b| && b[i].kind == kind;
      assert (a + b)[|a| + i].kind == kind;
    }
  }

  /** A frame whose scene and progress both match the previous frame fires nothing. */
  lemma UnchangedFrameFiresNothing<E>(scenes: seq<E>, callbacks: Callbacks, index: int, progress: real,
                                      direction: Direction)
    ensures Dispatch(scenes, callbacks, index, progress, index, progress, direction) == []
  {
  }

  /**
   * Leaving the last scene for no scene fires `exit` alone, for the scene left,
   * carrying the new progress value -1; nothing fires when `exit` is not configured.
   */
  lemma LeavingToNoScene<E>(scenes: seq<E>, callbacks: Callbacks, prevIndex: int, prevProgress: real,
                            direction: Direction)
    requires Exists(scenes, prevIndex)
    ensures Dispatch(scenes, callbacks, prevIndex, prevProgress, NoScene, -1.0, direction)
         == if callbacks.exit then [Event(Exit, prevIndex, scenes[prevIndex], -1.0, direction)] else []
  {
  }

  class ScrollStory<E> {
    const scenes: seq<E>
    const callbacks: Callbacks
    var activeSceneIndex: int
    var progressValue: real
    var frameCount: nat
    /** The baseline for the scroll direction, kept apart from `scrollTop`. */
    var prevScrollPos: real
    /** The offset of the last processed frame; `None` before the first one and after `Refresh`. */
    var scrollTop: Option<real>

    /** The tracker's invariant: the active index is a sentinel or a scene, and the progress fits it. */
    ghost predicate Valid()
      reads this
    {
      && (activeSceneIndex == NoScene || activeSceneIndex == RefreshPending || 0 <= activeSceneIndex < |scenes|)
      && (activeSceneIndex == NoScene ==> progressValue == -1.0)
      && (0 <= activeSceneIndex ==> 0.0 <= progressValue <= 1.0)
      && (progressValue == -1.0 || 0.0 <= progressValue <= 1.0)
    }

    constructor (scenes: seq<E>, callbacks: Callbacks)
      ensures Valid()
      ensures this.scenes == scenes && this.callbacks == callbacks
      ensures activeSceneIndex == NoScene && progressValue == -1.0 && frameCount == 0
      ensures prevScrollPos == 0.0 && scrollTop == None
    {
      this.scenes := scenes;
      this.callbacks := callbacks;
      activeSceneIndex := NoScene;
      progressValue := -1.0;
      frameCount := 0;
      prevScrollPos := 0.0;
      scrollTop := None;
    }

    /** The constructor with its two checks: a missing container, then missing scenes. */
    static method Create(config: Config<E>) returns (r: Result<ScrollStory<E>, ConstructError>)
      ensures config.container.None? ==> r.Failure? && r.error == ContainerNotFound
      ensures config.container.Some? && config.scenes.None? ==> r.Failure? && r.error == ScenesNotFound
      ensures config.container.Some? && config.scenes.Some? ==>
        && r.Success? && fresh(r.value) && r.value.Valid()
        && r.value.scenes == config.scenes.value && r.value.callbacks == config.callbacks
        && r.value.activeSceneIndex == NoScene && r.value.progressValue == -1.0
        && r.value.frameCount == 0 && r.value.prevScrollPos == 0.0 && r.value.scrollTop == None
    {
      if config.container.None? {
        return Failure(ContainerNotFound);
      }
      if config.scenes.None? {
        return Failure(ScenesNotFound);
      }
      var story := new ScrollStory(config.scenes.value, config.callbacks);
      r := Success(story);
    }

    /** Whether the page scrolls down; moves the direction baseline to the current offset. */
    method IsScrollingDown(liveScrollTop: real) returns (down: bool)
      modifies this`prevScrollPos
      ensures prevScrollPos == CurrentOffset(scrollTop, liveScrollTop)
      ensures down <==> prevScrollPos > old(prevScrollPos)
    {
      var currentOffset := CurrentOffset(scrollTop, liveScrollTop);
      down := currentOffset > prevScrollPos;
      prevScrollPos := currentOffset;
    }

    /**
     * One animation frame. `liveScrollTop` is the container's scroll offset,
     * `cbox` the container's box and `boxes[i]` the box of `scenes[i]`.
     * A frame whose offset equals the last processed one changes nothing.
     */
    method Render(liveScrollTop: real, cbox: Box, boxes: seq<Box>) returns (events: seq<Event<E>>)
      requires Valid()
      requires |boxes| == |scenes| && PositiveHeights(boxes)
      modifies this
      ensures Valid()
      ensures old(scrollTop) == Some(liveScrollTop) ==> events == [] && unchanged(this)
      ensures old(scrollTop) != Some(liveScrollTop) ==>
        var guideline := Guideline(cbox);
        var changed := old(activeSceneIndex) != activeSceneIndex || old(progressValue) != progressValue;
        && scrollTop == Some(liveScrollTop)
        && activeSceneIndex == FirstActive(boxes, guideline)
        && progressValue == ActiveProgress(boxes, guideline)
        && prevScrollPos == liveScrollTop
        && frameCount == old(frameCount) + (if changed then 1 else 0)
        && events == Dispatch(scenes, callbacks, old(activeSceneIndex), old(progressValue),
                              activeSceneIndex, progressValue,
                              if liveScrollTop > old(prevScrollPos) then Down else Up)
    {
      events := [];
      if scrollTop == Some(liveScrollTop) {
        return;
      }
      scrollTop := Some(liveScrollTop);
      var guideline := Guideline(cbox);
      var prevActiveScene := activeSceneIndex;
      var prevProgressValue := progressValue;
      activeSceneIndex := NoScene;
      progressValue := -1.0;
      var index := 0;
      while index < |scenes|
        invariant 0 <= index <= |scenes|
        invariant activeSceneIndex == NoScene && progressValue == -1.0
        invariant forall j :: 0 <= j < index ==> !Overlaps(boxes[j], guideline)
      {
        var pbox := boxes[index];
        var active := Overlaps(pbox, guideline);
        var ratio := Ratio(pbox, guideline);
        if active {
          activeSceneIndex := index;
          progressValue := ratio;
          break;
        }
        index := index + 1;
      }
      assert activeSceneIndex == FirstActive(boxes, guideline);
      var sceneChanged := prevActiveScene != activeSceneIndex;
      var progressChanged := prevProgressValue != progressValue;
      var down := IsScrollingDown(liveScrollTop);
      var scrollDirection := if down then Down else Up;

      if sceneChanged {
        if callbacks.exit && Exists(scenes, prevActiveScene) {
          events := events + [Event(Exit, prevActiveScene, scenes[prevActiveScene], progressValue, scrollDirection)];
        }
        if callbacks.enter && Exists(scenes, activeSceneIndex) {
          events := events + [Event(Enter, activeSceneIndex, scenes[activeSceneIndex], progressValue, scrollDirection)];
        }
      }
      if progressChanged || sceneChanged {
        frameCount := frameCount + 1;
        if callbacks.progress && Exists(scenes, activeSceneIndex) {
          events := events + [Event(Progress, activeSceneIndex, scenes[activeSceneIndex], progressValue, scrollDirection)];
        }
      }
    }

    /** The active scene's index, -1 when none is active, or -2 until the frame after `Refresh`. */
    function GetActiveSceneIndex(): (index: int)
      reads this
      requires Valid()
      ensures index == activeSceneIndex
      ensures index == NoScene || index == RefreshPending || Exists(scenes, index)
    {
      activeSceneIndex
    }

    /** The progress through the active scene, in [0, 1], or -1 when no scene is active. */
    function GetProgressValue(): (progress: real)
      reads this
      requires Valid()
      ensures progress == progressValue
      ensures activeSceneIndex == NoScene ==> progress == -1.0
      ensures 0 <= activeSceneIndex ==> 0.0 <= progress <= 1.0
    {
      progressValue
    }

    /** Forgets the last processed offset and forces the next frame to report a scene change. */
    method Refresh()
      requires Valid()
      modifies this`scrollTop, this`activeSceneIndex
      ensures Valid()
      ensures scrollTop == None && activeSceneIndex == RefreshPending
    {
      scrollTop := None;
      activeSceneIndex := RefreshPending;
    }
  }
}
