/**
 * Clients of the scene tracker: what a caller can conclude from the
 * contracts of `ScrollStory` alone, over several frames.
 */
module Scenarios {
  import opened Wrappers
  import opened SceneTracker

  /**
   * `refresh` followed by a frame: the frame is processed whatever the offset,
   * it counts as a scene change, no `exit` fires (the -2 sentinel names no
   * scene), and `enter` and `progress` fire exactly when a scene is active.
   */
  method RefreshThenRender<E>(story: ScrollStory<E>, liveScrollTop: real, cbox: Box, boxes: seq<Box>)
    returns (events: seq<Event<E>>)
    requires story.Valid()
    requires |boxes| == |story.scenes| && PositiveHeights(boxes)
    modifies story
    ensures story.Valid()
    ensures story.frameCount == old(story.frameCount) + 1
    ensures story.activeSceneIndex == FirstActive(boxes, Guideline(cbox))
    ensures !Fired(events, Exit)
    ensures Fired(events, Enter) <==> story.callbacks.enter && story.activeSceneIndex != NoScene
    ensures Fired(events, Progress) <==> story.callbacks.progress && story.activeSceneIndex != NoScene
  {
    story.Refresh();
    events := story.Render(liveScrollTop, cbox, boxes);
  }

  /**
   * A frame at the offset of the frame before it changes nothing and fires
   * nothing, however the geometry moved in between: the tracker keeps what
   * the first frame found.
   */
  method RenderTwice<E>(story: ScrollStory<E>, liveScrollTop: real, cbox: Box, boxes: seq<Box>,
                        cbox': Box, boxes': seq<Box>)
    returns (events: seq<Event<E>>)
    requires story.Valid() && story.scrollTop != Some(liveScrollTop)
    requires |boxes| == |story.scenes| && PositiveHeights(boxes)
    requires |boxes'| == |story.scenes| && PositiveHeights(boxes')
    modifies story
    ensures story.Valid()
    ensures events == []
    ensures story.activeSceneIndex == FirstActive(boxes, Guideline(cbox))
    ensures story.progressValue == ActiveProgress(boxes, Guideline(cbox))
    ensures story.frameCount <= old(story.frameCount) + 1
  {
    var first := story.Render(liveScrollTop, cbox, boxes);
    events := story.Render(liveScrollTop, cbox', boxes');
  }

  /*
   * Three scenes 100 units tall, in a container whose box spans [0, 100], so
   * the guideline sits at 50. Each method below is one step of the story:
   * the guideline starts 30% into scene 0, crosses into scene 1, moves within
   * it, and finally passes the bottom of the last scene.
   */

  const Names: seq<string> := ["intro", "middle", "outro"]
  const Container: Box := Box(0.0, 100.0)

  /** The scene boxes at a scroll offset: scene `i` starts at `30 + 100 * i` in the content. */
  function BoxesAt(offset: real): seq<Box> {
    [Box(30.0 - offset, 130.0 - offset), Box(130.0 - offset, 230.0 - offset), Box(230.0 - offset, 330.0 - offset)]
  }

  /** Offset 10: the first frame enters scene 0, 30% in. */
  method EnterFirstScene() returns (story: ScrollStory<string>, events: seq<Event<string>>)
    ensures events == [Event(Enter, 0, "intro", 0.3, Down), Event(Progress, 0, "intro", 0.3, Down)]
    ensures fresh(story) && story.Valid() && story.scenes == Names && story.callbacks == Callbacks(true, true, true)
    ensures story.activeSceneIndex == 0 && story.progressValue == 0.3
    ensures story.scrollTop == Some(10.0) && story.prevScrollPos == 10.0 && story.frameCount == 1
  {
    story := new ScrollStory(Names, Callbacks(true, true, true));
    events := story.Render(10.0, Container, BoxesAt(10.0));
  }

  /** Offset 90: the guideline crosses into scene 1: exit 0, enter 1, progress 1, counted once. */
  method CrossIntoNextScene(story: ScrollStory<string>) returns (events: seq<Event<string>>)
    requires story.Valid() && story.scenes == Names && story.callbacks == Callbacks(true, true, true)
    requires story.activeSceneIndex == 0 && story.progressValue == 0.3
    requires story.scrollTop == Some(10.0) && story.prevScrollPos == 10.0
    modifies story
    ensures events == [Event(Exit, 0, "intro", 0.1, Down), Event(Enter, 1, "middle", 0.1, Down),
                       Event(Progress, 1, "middle", 0.1, Down)]
    ensures story.Valid() && story.activeSceneIndex == 1 && story.progressValue == 0.1
    ensures story.scrollTop == Some(90.0) && story.prevScrollPos == 90.0
    ensures story.frameCount == old(story.frameCount) + 1
  {
    events := story.Render(90.0, Container, BoxesAt(90.0));
  }

  /** Offset 90 again is skipped; offset 85 moves back within scene 1: only progress, upwards. */
  method MoveWithinScene(story: ScrollStory<string>) returns (repeated: seq<Event<string>>, moved: seq<Event<string>>)
    requires story.Valid() && story.scenes == Names && story.callbacks == Callbacks(true, true, true)
    requires story.activeSceneIndex == 1 && story.progressValue == 0.1
    requires story.scrollTop == Some(90.0) && story.prevScrollPos == 90.0
    modifies story
    ensures repeated == [] && moved == [Event(Progress, 1, "middle", 0.05, Up)]
    ensures story.Valid() && story.activeSceneIndex == 1 && story.progressValue == 0.05
    ensures story.scrollTop == Some(85.0) && story.prevScrollPos == 85.0
    ensures story.frameCount == old(story.frameCount) + 1
  {
    repeated := story.Render(90.0, Container, BoxesAt(90.0));
    moved := story.Render(85.0, Container, BoxesAt(85.0));
  }

  /** Offset 400 passes the last scene: only `exit`, for scene 1, with progress -1; counted once. */
  method PassLastScene(story: ScrollStory<string>) returns (events: seq<Event<string>>)
    requires story.Valid() && story.scenes == Names && story.callbacks == Callbacks(true, true, true)
    requires story.activeSceneIndex == 1 && story.progressValue == 0.05
    requires story.scrollTop == Some(85.0) && story.prevScrollPos == 85.0
    modifies story
    ensures events == [Event(Exit, 1, "middle", -1.0, Down)]
    ensures story.Valid() && story.activeSceneIndex == NoScene && story.progressValue == -1.0
    ensures story.scrollTop == Some(400.0) && story.prevScrollPos == 400.0
    ensures story.frameCount == old(story.frameCount) + 1
  {
    events := story.Render(400.0, Container, BoxesAt(400.0));
  }

  /** Offset 410, still past the last scene: processed, but nothing changed, fired or counted. */
  method StayPastLastScene(story: ScrollStory<string>) returns (events: seq<Event<string>>)
    requires story.Valid() && story.scenes == Names && story.callbacks == Callbacks(true, true, true)
    requires story.activeSceneIndex == NoScene && story.progressValue == -1.0
    requires story.scrollTop == Some(400.0) && story.prevScrollPos == 400.0
    modifies story
    ensures events == []
    ensures story.Valid() && story.activeSceneIndex == NoScene && story.progressValue == -1.0
    ensures story.scrollTop == Some(410.0) && story.prevScrollPos == 410.0
    ensures story.frameCount == old(story.frameCount)
  {
    events := story.Render(410.0, Container, BoxesAt(410.0));
  }

  /** `Refresh`, then offset 410 again: processed and counted once, but there is no scene to report. */
  method RefreshPastLastScene(story: ScrollStory<string>) returns (events: seq<Event<string>>)
    requires story.Valid() && story.scenes == Names && story.callbacks == Callbacks(true, true, true)
    requires story.activeSceneIndex == NoScene && story.progressValue == -1.0
    requires story.scrollTop == Some(410.0) && story.prevScrollPos == 410.0
    modifies story
    ensures events == []
    ensures story.Valid() && story.activeSceneIndex == NoScene && story.progressValue == -1.0
    ensures story.scrollTop == Some(410.0) && story.prevScrollPos == 410.0
    ensures story.frameCount == old(story.frameCount) + 1
  {
    story.Refresh();
    events := story.Render(410.0, Container, BoxesAt(410.0));
  }

  /** The whole story, step by step. */
  method ThreeScenes() {
    var story, entered := EnterFirstScene();
    var crossed := CrossIntoNextScene(story);
    var repeated, moved := MoveWithinScene(story);
    var past := PassLastScene(story);
    var further := StayPastLastScene(story);
    var refreshed := RefreshPastLastScene(story);
    assert story.frameCount == 5;
  }
}
