/**
 * The page: the in-memory list of stories shown as a row of avatars, and the
 * two overlays it opens over that row, the story viewer and the uploader.
 * Each overlay is mounted (a fresh component with fresh state) when its flag is
 * raised and dropped when the flag is lowered.
 */
module Shell {
  import opened StoryModel
  import Carousel
  import Uploader

  /** Display duration of an uploaded story, in milliseconds. */
  const UploadDuration: int := 5000

  const UploaderName: string := "ENTY HETHA"

  const UploaderAvatar: string :=
    "https://www.teewinek.com/wp-content/uploads/2024/11/hoodie-avec-impression-en-tunisie-teewinek-tunisie.png"

  /** The media kind of an uploaded file, from its MIME type. */
  function KindOf(mime: string): (k: MediaKind)
    ensures k == Image <==> StartsWith(mime, "image/")
    ensures k == Video <==> !StartsWith(mime, "image/")
  {
    if StartsWith(mime, "image/") then Image else Video
  }

  /** The story built from an uploaded file. `id` (the clock reading) and `url` (the
   * object URL of the file) are supplied by the browser. */
  function NewStory(f: Uploader.File, id: string, url: string): (s: Story)
    ensures s.id == id && s.url == url
    ensures s.kind == Image <==> StartsWith(f.mime, "image/")
    ensures s.duration == UploadDuration
    ensures s.userName == UploaderName && s.userAvatar == UploaderAvatar
  {
    Story(id, url, KindOf(f.mime), UploadDuration, UploaderName, UploaderAvatar)
  }

  /** Prepending an upload keeps every story playable, so the viewer can be opened
   * on the grown list at any of its positions. */
  lemma UploadKeepsPlayable(stories: seq<Story>, f: Uploader.File, id: string, url: string)
    requires PositiveDurations(stories)
    ensures Carousel.Showable([NewStory(f, id, url)] + stories)
    ensures forall i :: 0 < i <= |stories| ==>
      ([NewStory(f, id, url)] + stories)[i] == stories[i - 1]
  {
  }

  /** For a file the default uploader accepts, its preview is drawn as an image
   * exactly when the page files the story as an image. */
  lemma PreviewMatchesStoryKind(f: Uploader.File, payload: string, id: string, url: string)
    requires f.mime in Uploader.DefaultAllowedTypes
    ensures Uploader.IsImagePreview(Uploader.DataUrl(f.mime, payload))
            <==> NewStory(f, id, url).kind == Image
  {
    Uploader.PreviewKindFollowsMime(f.mime, payload);
    var types := Uploader.DefaultAllowedTypes;
    assert f.mime == types[0] || f.mime == types[1] || f.mime == types[2] || f.mime == types[3];
    assert StartsWith(f.mime, "image") <==> StartsWith(f.mime, "image/");
  }

  class App {
    var stories: seq<Story>
    var isViewingStories: bool
    var isUploading: bool
    var selectedIndex: nat
    /** The mounted viewer, if any. */
    var viewer: Carousel.StoriesCarousel?
    /** The mounted uploader, if any. */
    var uploader: Uploader.StoryUploader?

    /** The overlays are mounted exactly while their flags are up; they cover the
     * page, so at most one is open; an open viewer shows the page's list. */
    ghost predicate Valid()
      reads this, viewer
    {
      PositiveDurations(stories)
      && (isViewingStories <==> viewer != null)
      && (isUploading <==> uploader != null)
      && (uploader != null ==>
            uploader.maxSize == Uploader.DefaultMaxSize
            && uploader.allowedTypes == Uploader.DefaultAllowedTypes)
      && !(isViewingStories && isUploading)
      && (viewer != null ==>
            viewer.Valid() && viewer.stories == stories && selectedIndex < |stories|)
    }

    /** The page on its initial list (the sample stories are not modelled). */
    constructor (initial: seq<Story>)
      requires PositiveDurations(initial)
      ensures Valid() && stories == initial && selectedIndex == 0
      ensures !isViewingStories && !isUploading
    {
      stories := initial;
      isViewingStories := false;
      isUploading := false;
      selectedIndex := 0;
      viewer := null;
      uploader := null;
    }

    /** The "add story" button mounts an uploader with the default limits; when the
     * uploader is already open, raising the flag again changes nothing. */
    method OpenUploader()
      requires Valid() && !isViewingStories
      modifies this
      ensures Valid() && isUploading && uploader != null
      ensures uploader.maxSize == Uploader.DefaultMaxSize
      ensures uploader.allowedTypes == Uploader.DefaultAllowedTypes
      ensures old(isUploading) ==> uploader == old(uploader) && unchanged(uploader)
      ensures !old(isUploading) ==>
        fresh(uploader) && !uploader.isDragging
        && uploader.preview == None && uploader.error == None && uploader.uploaded == []
      ensures stories == old(stories) && selectedIndex == old(selectedIndex)
      ensures !isViewingStories
    {
      if !isUploading {
        isUploading := true;
        uploader := new Uploader.StoryUploader(Uploader.DefaultMaxSize, Uploader.DefaultAllowedTypes);
      }
    }

    /** The X of the uploader overlay. */
    method CloseUploader()
      requires Valid()
      modifies this
      ensures Valid() && !isUploading
      ensures stories == old(stories) && selectedIndex == old(selectedIndex)
      ensures isViewingStories == old(isViewingStories) && viewer == old(viewer)
    {
      isUploading := false;
      uploader := null;
    }

    /** `handleUpload`, the uploader's `onUpload`: the new story goes to the head of
     * the list and the uploader closes. */
    method HandleUpload(f: Uploader.File, id: string, url: string)
      requires Valid() && isUploading
      modifies this
      ensures Valid()
      ensures stories == [NewStory(f, id, url)] + old(stories)
      ensures |stories| == |old(stories)| + 1 && stories[1..] == old(stories)
      ensures !isUploading && !isViewingStories && selectedIndex == old(selectedIndex)
    {
      UploadKeepsPlayable(stories, f, id, url);
      stories := [NewStory(f, id, url)] + stories;
      isUploading := false;
      uploader := null;
      assert stories[1..] == old(stories);
    }

    /** A file chosen in the uploader's file input: on acceptance the page gains the
     * story; on refusal the list and the overlay stay, and the uploader shows why. */
    method PickFile(files: seq<Uploader.File>, payload: string, id: string, url: string)
      returns (accepted: bool)
      requires Valid() && isUploading
      modifies this, uploader
      ensures Valid()
      ensures accepted ==> |files| > 0 && stories == [NewStory(files[0], id, url)] + old(stories)
                           && !isUploading
      ensures !accepted ==> stories == old(stories) && isUploading && uploader == old(uploader)
                            && uploader.preview == old(uploader.preview)
                            && uploader.uploaded == old(uploader.uploaded)
                            && uploader.isDragging == old(uploader.isDragging)
      ensures |files| == 0 ==> !accepted && uploader == old(uploader) && unchanged(uploader)
      ensures !accepted && |files| > 0 ==>
        uploader.error == Uploader.ErrorAfter(Uploader.Validate(files[0],
                            Uploader.DefaultMaxSize, Uploader.DefaultAllowedTypes))
      ensures accepted <==> |files| > 0 && Uploader.Validate(files[0], Uploader.DefaultMaxSize,
                                        Uploader.DefaultAllowedTypes) == Uploader.Accepted
      ensures selectedIndex == old(selectedIndex) && !isViewingStories
    {
      accepted := uploader.HandleFileInput(files, payload);
      if accepted {
        HandleUpload(files[0], id, url);
      }
    }

    /** A file dropped on the uploader: as `PickFile`, for the first dropped file. */
    method DropFile(files: seq<Uploader.File>, payload: string, id: string, url: string)
      returns (accepted: bool)
      requires Valid() && isUploading && |files| > 0
      modifies this, uploader
      ensures Valid()
      ensures accepted <==> Uploader.Validate(files[0], Uploader.DefaultMaxSize,
                                             Uploader.DefaultAllowedTypes) == Uploader.Accepted
      ensures accepted ==> stories == [NewStory(files[0], id, url)] + old(stories)
                           && !isUploading
      ensures !accepted ==> stories == old(stories) && isUploading && uploader == old(uploader)
                            && uploader.preview == old(uploader.preview) && !uploader.isDragging
                            && uploader.uploaded == old(uploader.uploaded)
                            && uploader.error == Uploader.ErrorAfter(Uploader.Validate(files[0],
                                 Uploader.DefaultMaxSize, Uploader.DefaultAllowedTypes))
      ensures selectedIndex == old(selectedIndex) && !isViewingStories
    {
      accepted := uploader.HandleDrop(files, payload);
      if accepted {
        HandleUpload(files[0], id, url);
      }
    }

    /** `handleStoryClick`: clicking the avatar at `index` opens the viewer there,
     * playing from the start of that story. */
    method HandleStoryClick(index: nat)
      requires Valid() && !isUploading && !isViewingStories && index < |stories|
      modifies this
      ensures Valid() && isViewingStories && selectedIndex == index
      ensures fresh(viewer) && viewer.State() == Carousel.Open(index)
      ensures stories == old(stories) && !isUploading
    {
      selectedIndex := index;
      isViewingStories := true;
      viewer := new Carousel.StoriesCarousel(stories, index);
    }

    /** The viewer's `onClose`. */
    method CloseViewer()
      requires Valid()
      modifies this
      ensures Valid() && !isViewingStories
      ensures stories == old(stories) && selectedIndex == old(selectedIndex)
      ensures isUploading == old(isUploading) && uploader == old(uploader)
    {
      isViewingStories := false;
      viewer := null;
    }

    /** An event delivered to the open viewer; when the viewer calls `onClose` the
     * page closes it, and otherwise the viewer moves as `Carousel.Apply` says. A
     * chevron can only be clicked while it is rendered. */
    method ViewerEvent(e: Carousel.Event)
      requires Valid() && isViewingStories
      requires e.NextClick? ==> Carousel.ShowNext(viewer.State(), |stories|)
      requires e.PreviousClick? ==> Carousel.ShowPrevious(viewer.State())
      modifies this, viewer
      ensures Valid()
      ensures stories == old(stories) && selectedIndex == old(selectedIndex) && !isUploading
      ensures Carousel.Apply(old(viewer.State()), stories, e).closed ==> !isViewingStories
      ensures !Carousel.Apply(old(viewer.State()), stories, e).closed ==>
        isViewingStories && viewer == old(viewer)
        && viewer.State() == Carousel.Apply(old(viewer.State()), stories, e)
    {
      viewer.Dispatch(e);
      if viewer.closed {
        CloseViewer();
      }
    }
  }

  /** A page with four stories: the avatar of the first opens the viewer, three
   * clicks on the right chevron reach the fourth story, where the chevron is hidden,
   * and the right-arrow key closes the viewer. */
  method FourStoriesWalkthrough(initial: seq<Story>)
    requires |initial| == 4 && PositiveDurations(initial)
  {
    var app := new App(initial);
    app.HandleStoryClick(0);
    app.ViewerEvent(Carousel.NextClick);
    app.ViewerEvent(Carousel.NextClick);
    app.ViewerEvent(Carousel.NextClick);
    assert app.isViewingStories && app.viewer.currentIndex == 3;
    assert !Carousel.ShowNext(app.viewer.State(), |app.stories|);
    app.ViewerEvent(Carousel.KeyDown(Carousel.ArrowRight));
    assert !app.isViewingStories && app.stories == initial;
  }

  /** An oversized video is refused with the size message; the list and the open
   * uploader stay as they were, also when "add story" is clicked again. */
  method OversizedUploadWalkthrough(initial: seq<Story>)
    requires PositiveDurations(initial)
  {
    var app := new App(initial);
    app.OpenUploader();
    var video := Uploader.File("video/mp4", 15 * 1024 * 1024);
    Uploader.FifteenMegabyteVideoRejected();
    var accepted := app.PickFile([video], "", "id", "blob:");
    assert !accepted && app.stories == initial && app.isUploading;
    assert app.uploader.error == Some("File size must be less than 10MB");
    assert app.uploader.preview == None && app.uploader.uploaded == [];
    // "add story" again leaves the open uploader and its message as they were
    app.OpenUploader();
    assert app.uploader.error == Some("File size must be less than 10MB");
  }
}
