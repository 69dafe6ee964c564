# Stories widget: a Dafny model

A web page shows a row of round avatars, one per story (an image or a video with an
author and a display duration). Clicking an avatar opens a full-screen viewer that
plays the stories one after another. A progress bar per story fills over the story's
duration. The viewer can be stepped with chevrons, swipes and the arrow keys. It can
be paused with a button, the space bar or by holding a finger on an image. It closes
with its X, the Escape key, or by running past the last story. An "add story" button
opens a drag-and-drop uploader. The uploader accepts a file of an allowed MIME type
that is within the size limit, shows a preview and hands the file to the page. The
page puts the new story at the head of its list.

The project has four modules:

- `StoryModel` (`story.dfy`): the story record, an `Option` type and `StartsWith`.
- `Carousel` (`carousel.dfy`): the viewer. Each handler is first a function on a
  `Session` value (index, paused, progress, closed). `Apply` dispatches one `Event`
  and `Run` plays a series of them. The class `StoriesCarousel` keeps the same four
  values in fields (`closed` records the call to `onClose`). Each of its methods
  is proved to change the fields exactly as the matching function says. `Play` is
  the autoplay interval firing a given number of times; it is a loop with an invariant.
- `Uploader` (`uploader.dfy`): `Validate` (type check first, then size) and the class
  `StoryUploader` with the fields `isDragging`, `preview`, `error` and `uploaded`.
  `uploaded` records the calls to `onUpload`, in order.
- `Shell` (`app.dfy`): the class `App` with the story list, the two overlay flags,
  the selected index and the mounted viewer and uploader objects. An overlay object
  is created when its flag goes up and dropped when it goes down. That is what
  conditional rendering does: each opening starts from fresh component state.
  `FourStoriesWalkthrough` and `OversizedUploadWalkthrough` are client methods. They
  drive an `App` through the two example sessions, using only the contracts.

Some details of the code's behaviour differ from the widget's intended design. The model follows the code:

- Progress is not kept within [0, 100]. A tick adds a step while the progress is below
  100, so the progress can pass 100 by less than one step. The next tick then sets it
  to 0. `Inv` states this bound: 0 <= progress < 100 + step.
- A story therefore ends one tick after its bar is full. A 5000 ms story with 100 ms
  ticks moves on at the 51st tick (`FiveSecondStoryAdvances`).
- The size message reads "File size must be less than 10MB", but a file of exactly
  10 MB is accepted, because the test is `size > limit` (`LimitIsInclusive`).
- Releasing a press on an image always resumes play, even if the pause button had
  paused it before the press (`Release`).
- Videos have no press handlers, so a press on a video changes nothing (`Press`).
- In the page, an accepted upload closes the uploader in the same handler. The
  uploader's preview is therefore never visible there, even though the uploader
  sets it (`HandleUpload`, `PickFile`).

## Model

| member | source | states |
|---|---|---|
| `Carousel.Open` | src/components/StoriesCarousel.tsx:30-32 | a freshly mounted viewer is at the initial index, not paused, at progress 0 and not closed |
| `Carousel.Step` | src/components/StoriesCarousel.tsx:68 | one tick adds a positive amount, and `duration/100` ticks (one story's duration at 100 ms per tick) add exactly 100 percent |
| `Carousel.Advance` | src/components/StoriesCarousel.tsx:44-51 | before the last story, the index grows by exactly 1 and progress is 0; on the last story, the index and progress stay and the viewer closes; the index stays in range |
| `Carousel.Retreat` | src/components/StoriesCarousel.tsx:53-58 | on the first story nothing changes; otherwise the index drops by exactly 1 and progress is 0; pause and closed are kept |
| `Carousel.Close` | src/components/StoriesCarousel.tsx:125-131 | closing changes only the closed flag |
| `Carousel.TogglePause` | src/components/StoriesCarousel.tsx:205 | the pause button flips the paused flag and keeps index, progress and closed |
| `Carousel.Tick` | src/components/StoriesCarousel.tsx:62-69 | at progress >= 100 a tick gives progress 0 and does what "next" does to the index and closed flag; below 100 it adds exactly one step and changes nothing else |
| `Carousel.Swipe` | src/components/StoriesCarousel.tsx:36-42 | a negative swipe goes forward only when not on the last story; a positive swipe goes back only when not on the first; otherwise nothing changes; a swipe never closes the viewer |
| `Carousel.Key` | src/components/StoriesCarousel.tsx:81-92 | ArrowLeft goes back, ArrowRight goes forward, Escape closes from any state; any other key with the Space code toggles pause; other keys do nothing |
| `Carousel.Press` | src/components/StoriesCarousel.tsx:158-168 | pressing an image pauses it; a press on a video changes nothing; index, progress and closed are kept |
| `Carousel.Release` | src/components/StoriesCarousel.tsx:158-168 | releasing an image resumes it, however it was paused; a release on a video changes nothing |
| `Carousel.Apply` | src/components/StoriesCarousel.tsx:36-96 | every event keeps the index in range; whenever the index changes, it moves by exactly one and progress is 0; a closed viewer stays closed; a tick while paused does nothing, because no interval exists |
| `Carousel.Run` | src/components/StoriesCarousel.tsx:36-96 | any series of events keeps the index in range |
| `Carousel.ApplyKeepsInv` | src/components/StoriesCarousel.tsx:44-69 | every event keeps the index in range and keeps progress non-negative and below 100 plus one step of the current story |
| `Carousel.RunKeepsInv` | src/components/StoriesCarousel.tsx:44-69 | any series of events keeps that invariant |
| `Carousel.RunStaysClosed` | src/components/StoriesCarousel.tsx:44-51 | once `onClose` has been called, no series of events reopens the viewer |
| `Carousel.NextClicksThenArrowRightClose` | src/components/StoriesCarousel.tsx:44-51 | with four stories opened at index 0, three clicks on the right chevron, each rendered when clicked, reach index 3 still open; there the chevron is hidden, and the right-arrow key closes the viewer at index 3 |
| `Carousel.PausedTicksFreeze` | src/components/StoriesCarousel.tsx:60-78 | any number of ticks leaves a paused viewer exactly as it was |
| `Carousel.PauseThenResume` | src/components/StoriesCarousel.tsx:205 | pause, any number of ticks, then resume gives back the same story at the same progress |
| `Carousel.SpaceTwiceRestores` | src/components/StoriesCarousel.tsx:88-91 | the space bar flips pause, and pressing it twice restores the state |
| `Carousel.TicksNeverGoBack` | src/components/StoriesCarousel.tsx:62-69 | ticks never move to an earlier story |
| `Carousel.TicksReachNextStory` | src/components/StoriesCarousel.tsx:62-69 | if `k` steps bring progress to 100, then `k+1` ticks of a playing viewer, not on the last story, show a later story |
| `Carousel.TicksStayWhileFilling` | src/components/StoriesCarousel.tsx:62-69 | while the bar is below 100 before each tick, `k` ticks add exactly `k` steps and change nothing else |
| `Carousel.FiveSecondStoryAdvances` | src/components/StoriesCarousel.tsx:62-70 | a 5000 ms story playing from progress 0 is still shown with a full bar after 50 ticks, and has moved on after 51 |
| `Carousel.BarWidth` | src/components/StoriesCarousel.tsx:115-116 | a bar other than the current one is full iff its story comes earlier and empty iff it comes later; with progress in [0, 100] every width is in [0, 100] |
| `Carousel.Bars` | src/components/StoriesCarousel.tsx:106-117 | one bar per story; with progress in [0, 100] the widths never grow from left to right |
| `Carousel.ShowPrevious` | src/components/StoriesCarousel.tsx:184 | the left chevron is shown iff going back changes the state |
| `Carousel.ShowNext` | src/components/StoriesCarousel.tsx:193 | the right chevron is shown iff "next" moves to the following story |
| `Carousel.BarsShowElapsed` | src/components/StoriesCarousel.tsx:106-117 | there is one bar per story: earlier stories show 100, the current story shows its progress, later stories show 0; the widths add up to 100 x index + progress |
| `Carousel.ChevronsMatchMoves` | src/components/StoriesCarousel.tsx:184-201 | the left chevron is shown iff going back moves; the right one is shown iff "next" moves; where it is hidden, "next" would close |
| `Carousel.StoriesCarousel.constructor` | src/components/StoriesCarousel.tsx:25-32 | the mounted viewer holds the list and is in the `Open` state at the initial index |
| `Carousel.StoriesCarousel.NextStory` | src/components/StoriesCarousel.tsx:44-51 | the fields move as `Advance` says, and the invariant is kept |
| `Carousel.StoriesCarousel.PreviousStory` | src/components/StoriesCarousel.tsx:53-58 | the fields move as `Retreat` says |
| `Carousel.StoriesCarousel.OnTick` | src/components/StoriesCarousel.tsx:62-69 | the interval body, callable only while not paused, moves the fields as `Tick` says |
| `Carousel.StoriesCarousel.OnSwipe` | src/components/StoriesCarousel.tsx:36-42 | the fields move as `Swipe` says |
| `Carousel.StoriesCarousel.HandleKeyDown` | src/components/StoriesCarousel.tsx:81-92 | the fields move as `Key` says |
| `Carousel.StoriesCarousel.OnCloseClick` | src/components/StoriesCarousel.tsx:126 | only the closed flag is set |
| `Carousel.StoriesCarousel.OnPauseClick` | src/components/StoriesCarousel.tsx:205 | only the paused flag flips |
| `Carousel.StoriesCarousel.OnPressDown` | src/components/StoriesCarousel.tsx:163-165 | the fields move as `Press` says |
| `Carousel.StoriesCarousel.OnPressUp` | src/components/StoriesCarousel.tsx:164-166 | the fields move as `Release` says |
| `Carousel.StoriesCarousel.Dispatch` | src/components/StoriesCarousel.tsx:36-96 | the fields move as `Apply` says |
| `Carousel.StoriesCarousel.Play` | src/components/StoriesCarousel.tsx:60-78 | the interval firing `k` times leaves the fields where `k` tick events would, and the invariant is kept |
| `Uploader.NatToString` | src/components/StoryUploader.tsx:40 | the limit is printed as a non-empty string of decimal digits that reads back as the limit, with no leading zero, and one digit exactly below 10 |
| `Uploader.SizeMessage` | src/components/StoryUploader.tsx:40 | the message is "File size must be less than ", then the limit's digits, which read back as the limit, then "MB" |
| `Uploader.Validate` | src/components/StoryUploader.tsx:31-45 | a file is accepted iff its type is literally in the allowed list and its size is at most maxSize x 1024 x 1024; a wrong type gets the type message; an allowed type that is too large gets the size message |
| `Uploader.ErrorAfter` | src/components/StoryUploader.tsx:32-44 | after validation no error is shown iff the file was accepted; a rejected file shows its own message |
| `Uploader.DataUrl` | src/components/StoryUploader.tsx:58-62 | the reader's result is "data:", then the file's type, then ";base64," and the payload |
| `Uploader.IsImagePreview` | src/components/StoryUploader.tsx:102 | a preview drawn as an image is a data URL whose type part starts with "image" |
| `Uploader.TypeCheckComesFirst` | src/components/StoryUploader.tsx:34-42 | a file that has a wrong type and is also too large gets the type message |
| `Uploader.LimitIsInclusive` | src/components/StoryUploader.tsx:39-42 | a size exactly at the limit is accepted; one byte more gets the size message |
| `Uploader.FifteenMegabyteVideoRejected` | src/components/StoryUploader.tsx:13-42 | with the defaults, a 15 MB `video/mp4` file is rejected with "File size must be less than 10MB" |
| `Uploader.TypeMatchIsExact` | src/components/StoryUploader.tsx:34-37 | `image/jpg` is not `image/jpeg`: membership is exact string equality |
| `Uploader.PreviewKindFollowsMime` | src/components/StoryUploader.tsx:102 | a data-URL preview is drawn as an image iff the file's type starts with `image` |
| `Uploader.StoryUploader.constructor` | src/components/StoryUploader.tsx:11-18 | a new uploader has the given limits, no drag, no preview, no error and no uploads |
| `Uploader.StoryUploader.HandleDrag` | src/components/StoryUploader.tsx:21-29 | dragenter and dragover raise the drag flag; dragleave lowers it |
| `Uploader.StoryUploader.ValidateFile` | src/components/StoryUploader.tsx:31-45 | returns whether `Validate` accepts; the error is cleared, then set to the reason for a rejection |
| `Uploader.StoryUploader.HandleFile` | src/components/StoryUploader.tsx:56-65 | an accepted file sets the preview to its data URL and is appended to the uploads exactly once; a rejected file leaves the preview and the uploads unchanged |
| `Uploader.StoryUploader.HandleDrop` | src/components/StoryUploader.tsx:47-54 | the drag flag is lowered, then the first dropped file is handled as in `HandleFile` |
| `Uploader.StoryUploader.HandleFileInput` | src/components/StoryUploader.tsx:67-72 | no chosen file changes nothing; otherwise the first file is handled as in `HandleFile` |
| `Uploader.StoryUploader.RemovePreview` | src/components/StoryUploader.tsx:118-123 | the preview is cleared |
| `Shell.KindOf` | src/App.tsx:65 | an upload is an image iff its MIME type starts with `image/`, otherwise a video |
| `Shell.NewStory` | src/App.tsx:62-72 | the new story carries the given id and URL, the kind from `KindOf`, the duration 5000 and the fixed uploader name and avatar |
| `Shell.UploadKeepsPlayable` | src/App.tsx:74 | the list with a prepended upload can still be shown, and every earlier story moves up one place unchanged |
| `Shell.PreviewMatchesStoryKind` | src/App.tsx:65 | for every type the default uploader accepts, its preview is drawn as an image iff the page files the story as an image |
| `Shell.App.constructor` | src/App.tsx:55-59 | the page starts with its list, no overlay open and the selected index 0 |
| `Shell.App.OpenUploader` | src/App.tsx:91 | "add story" mounts a fresh uploader with the default limits; when the uploader is already open, it and its state are kept; the list and the selected index are kept |
| `Shell.App.CloseUploader` | src/App.tsx:156 | the uploader's X closes it; the list, the selected index and the viewer are kept |
| `Shell.App.HandleUpload` | src/App.tsx:61-76 | the new story becomes the head of the list, which grows by one, and the rest is the old list; the uploader closes |
| `Shell.App.PickFile` | src/App.tsx:164 | a chosen file the defaults accept ends in `HandleUpload`; a rejected or missing file leaves the list, the open uploader, its preview, its uploads and its drag flag unchanged, and a rejected file shows the reason; with no file the uploader is not touched at all |
| `Shell.App.DropFile` | src/App.tsx:164 | as `PickFile`, for the first dropped file; the drag flag ends lowered |
| `Shell.App.HandleStoryClick` | src/App.tsx:78-81 | clicking avatar `i` selects `i` and mounts a viewer in the `Open` state at `i` (not paused, progress 0) |
| `Shell.App.CloseViewer` | src/App.tsx:135 | `onClose` closes the viewer and keeps the list, the selected index and the uploader |
| `Shell.App.ViewerEvent` | src/App.tsx:131-137 | a chevron is clicked only while it is rendered; an event the viewer answers by closing closes the overlay; otherwise the viewer moves as `Carousel.Apply` says; the list and the selected index are kept |

## Left out

- Rendering, CSS classes, framer-motion animations and icons. Only the bar widths
  and the chevron and button visibility are modelled.
- The timer plumbing (`setInterval`, `clearInterval`, effect teardown). A tick is an
  explicit event that happens only while the viewer is not paused.
- Floating-point arithmetic. Progress and the tick step are exact reals, so the
  rounding of `(100 / duration) * 100` is not modelled.
- Swipe recognition by react-use-gesture. Only the sign of the swipe is used.
- The asynchronous `FileReader`. Its output is the data URL of the file's type and
  an encoded `payload` parameter, and the preview is set at once rather than later.
- `URL.createObjectURL`, `Date.now()` ids and creation timestamps, and
  `formatDistanceToNow`. These are clock readings and browser calls; id and URL are
  parameters of `NewStory`, and stories carry no timestamp.
- Video autoplay, the hidden file input's `click()`, and the reset of its value when
  the preview is removed: these belong to the browser.
- The sample stories: the page is constructed on any list of playable stories.
- Empty story lists and drops with no file. The viewer requires a non-empty list,
  and `HandleDrop` requires at least one file, because the code would fail there.
- Events after `onClose` and overlapping overlays. The page drops the viewer as soon
  as it closes. `App` requires that only one overlay is open at a time, because each
  overlay covers the page's buttons.
- Stories with a zero or negative duration. The model requires positive durations
  because the page only creates 5000 ms stories (src/App.tsx:13-46 and :66). Two
  behaviours are therefore not modelled. With duration 0 the step is infinite, so
  a story moves on after two ticks. With a negative duration the step is negative,
  so progress runs down and the story never moves on by itself.
- Uploader.Validate: `maxSize` is a whole number of megabytes (`nat`), so fractional
  limits and their printing in the size message are not covered.
