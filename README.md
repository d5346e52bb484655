# ScrollStory scene tracker, in Dafny

ScrollStory drives "scrollytelling" pages. A scrollable container holds an
ordered list of scenes. Once per animation frame the tracker does the following:

- it reads the container's scroll offset and skips the frame when that offset has not moved;
- it finds the first scene, in scene order, whose box reaches the guideline, the vertical midpoint of the container;
- it computes how far through that scene the guideline is, from 0 at the top to 1 at the bottom;
- it reports `exit`, `enter` and `progress` events to optional user callbacks for what changed since the last processed frame, together with the scroll direction.

`refresh()` forces the next frame to be processed and reported as a scene change.

The model has three modules:

- `Wrappers` (`wrappers.dfy`): `Option` (absent, i.e. JavaScript's `undefined`) and `Result` (a thrown error).
- `SceneTracker` (`scene_tracker.dfy`): the tracker.
  - The class `ScrollStory<E>` has the fields the source mutates: `activeSceneIndex`, `progressValue`, `frameCount`, `prevScrollPos` and `scrollTop`. `E` is the type of scene elements.
  - `Render` is the per-frame routine. The layout engine's reads are its parameters: the container's `scrollTop`, the container's box, and one box per scene. The callbacks become the list of events `Render` returns, in firing order.
  - `Render` is proved against pure functions. `FirstActive` is the first-match scan, `ActiveProgress` the progress value and `Dispatch` the events of a frame. Their contracts state what the source promises.
  - `Valid()` is the tracker's invariant. It says the active index is -1, -2 or a scene index, and that the progress value fits the index.
- `Scenarios` (`scenarios.dfy`): clients that call the class over several frames. `RefreshThenRender` and `RenderTwice` state the multi-call properties. The step methods from `EnterFirstScene` to `PassLastScene` walk three concrete scenes through entering, crossing, moving within and leaving them. Their events are checked statically.

Where the code and its prose disagree, the model follows the code:

- `getActiveSceneIndex`'s comment promises -1 or a scene index. Between `refresh()` and the next processed frame it returns -2.
- "The progress value is -1 exactly when the active index is -1" holds only while the index is not -2. `refresh()` sets the index to -2 and keeps the old progress value. `Valid()` states this weaker form, and `ActiveProgress` states the strong form for every processed frame.

## Model

| member | source | states |
|---|---|---|
| `SceneTracker.Guideline` | src/scrollstory.js:75-76 | the guideline lies exactly halfway between the container box's top and bottom |
| `SceneTracker.Ratio` | src/scrollstory.js:86 | for a scene that overlaps the guideline the ratio lies in [0, 1]; it is 0 exactly when the guideline is at the scene's top and 1 exactly when it is at the bottom, as the comment at src/scrollstory.js:143-148 promises |
| `SceneTracker.FirstActive` | src/scrollstory.js:80-92 | with `Overlaps` as the `outside`/`active` test of src/scrollstory.js:84-85, the scan's index is the LOWEST index whose box has `top <= guideline <= bottom`; it is -1 exactly when no box does; later overlapping scenes are never chosen |
| `SceneTracker.ActiveProgress` | src/scrollstory.js:81-89 | after a processed frame the progress value is -1 exactly when no scene is active, and lies in [0, 1] when one is |
| `SceneTracker.CurrentOffset` | src/scrollstory.js:59 | the offset `isScrollingDown` compares (the stored offset when truthy, else the live one) is one of the two offsets, and is the live offset once the frame has stored it |
| `SceneTracker.Dispatch` | src/scrollstory.js:93-128 | every event names an existing scene and its element; `exit` carries the previous index, `enter` and `progress` the new one, and all three carry the NEW progress value and the frame's direction; events come in the order exit, enter, progress, each at most once; `exit` fires iff the scene changed and the old index is a scene; `enter` fires iff the scene changed and the new index is a scene; `progress` fires iff the scene or the progress changed and the new index is a scene; each fires only if its callback is configured |
| `SceneTracker.UnchangedFrameFiresNothing` | src/scrollstory.js:93-94 | a processed frame with the same scene and progress as the previous one fires no event |
| `SceneTracker.LeavingToNoScene` | src/scrollstory.js:98-128 | leaving a scene for no scene fires only `exit`, for the scene left, with progress -1; neither `enter` nor `progress` fires |
| `SceneTracker.ScrollStory.constructor` | src/scrollstory.js:37-41 | a new tracker has no active scene, progress -1, frame count 0, direction baseline 0 and no stored offset, and satisfies the invariant |
| `SceneTracker.ScrollStory.Create` | src/scrollstory.js:42-52 | a missing container fails with "container not found" before the scenes are checked; otherwise missing scenes fail with "scenes not found"; otherwise a fresh tracker in its initial state is returned |
| `SceneTracker.ScrollStory.IsScrollingDown` | src/scrollstory.js:58-63 | the result is "down" iff the current offset exceeds the direction baseline, and the baseline becomes the current offset |
| `SceneTracker.ScrollStory.Render` | src/scrollstory.js:65-130 | a frame at the stored offset changes no field and fires nothing; any other frame stores the offset, sets the active index to `FirstActive` and the progress to `ActiveProgress`, moves the direction baseline to the offset, adds 1 to the frame count iff the scene or progress changed, and returns exactly the events of `Dispatch` with direction "down" iff the offset exceeds the old baseline; the invariant is preserved |
| `SceneTracker.ScrollStory.GetActiveSceneIndex` | src/scrollstory.js:135-141 | returns the active index, which is -1, the refresh sentinel -2, or an existing scene's index |
| `SceneTracker.ScrollStory.GetProgressValue` | src/scrollstory.js:143-151 | returns the progress value, which is -1 when no scene is active and in [0, 1] when one is |
| `SceneTracker.ScrollStory.Refresh` | src/scrollstory.js:153-160 | forgets the stored offset and sets the active index to the sentinel -2, keeping the invariant |
| `Scenarios.RefreshThenRender` | src/scrollstory.js:157-160 | after `refresh` the next frame is processed even at the same offset, always counts as a scene change (frame count + 1), fires no `exit`, and fires `enter` and `progress` exactly when a scene is active and the callback is configured |
| `Scenarios.RenderTwice` | src/scrollstory.js:66-72 | a second frame at the same offset fires nothing and keeps what the first frame found, even if the geometry moved in between |
| `Scenarios.EnterFirstScene` | src/scrollstory.js:65-128 | the first frame with the guideline 30% into scene 0 fires `enter` then `progress` for scene 0 and counts one frame |
| `Scenarios.CrossIntoNextScene` | src/scrollstory.js:93-128 | crossing from scene 0 into scene 1 fires exit 0, enter 1, progress 1, in that order, and counts exactly one frame |
| `Scenarios.MoveWithinScene` | src/scrollstory.js:68-72 | a repeated offset fires nothing; moving back up within scene 1 fires only `progress`, with direction "up" |
| `Scenarios.PassLastScene` | src/scrollstory.js:98-128 | passing the last scene fires only `exit`, for scene 1, with progress -1, and counts exactly one frame |
| `Scenarios.StayPastLastScene` | src/scrollstory.js:93-94 | a further move with no scene active is processed but fires nothing and leaves the frame count unchanged |
| `Scenarios.RefreshPastLastScene` | src/scrollstory.js:157-160 | after `refresh`, the same offset and geometry are processed again and counted once, but with no scene active nothing fires |

## Left out

- Frame scheduling is not modelled: `requestAnimationFrame` and the `tick` binding (src/scrollstory.js:70, 129, 132-133) only re-invoke `render`, so each call of `Render` is one frame.
- The style changes on the container and the unused `getComputedStyle` call (src/scrollstory.js:46-48) are side effects on the page, not tracker state.
- The `debug` option is never read by the code, and rollup.config.js is build configuration only.
- The layout engine is not modelled. `container.scrollTop`, `container.getBoundingClientRect()` and each scene's `getBoundingClientRect()` are the parameters of `Render`, with one box per scene. The model assumes `container.scrollTop` reads the same value twice within a frame (src/scrollstory.js:59, 68).
- Callback bodies are outside the model. A callback that calls back into the tracker during a frame is not modelled.
- Callbacks are recorded as presence flags. Their events are returned rather than delivered.
- The callback configuration is fixed at construction (`callbacks` is a constant). The source keeps the caller's `config` object by reference and reads `config.exit`, `config.enter` and `config.progress` again on every frame (src/scrollstory.js:37, 99, 107, 120), so a caller who edits that object later changes which callbacks fire; the model does not capture that.
- A callback that throws is not modelled. In the source it leaves the frame half done: the fields are already updated, `frameCount` may not be bumped, later events do not fire, and src/scrollstory.js:129 is never reached, so the frame loop stops.
- Element existence (`this.scenes[i]` being truthy) is modelled as `0 <= i < |scenes|`. A NodeList holds no falsy entries.
- SceneTracker.ScrollStory.Render: requires every scene box to have a positive height. With a zero-height scene the source divides by zero and gets NaN or Infinity. A NaN progress would also make `progressChanged` true on every frame. Geometry and offsets are exact reals, so floating-point rounding is not modelled.
- SceneTracker.CurrentOffset: models the JavaScript falsiness of `undefined` and 0 only. NaN offsets are not modelled.
