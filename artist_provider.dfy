/**
 * The acquisition section of FanArtArtistProvider.FetchAsync as it runs on
 * the item: each category updates the item in place through SetImage or by
 * rebuilding its backdrop list, and each method is proved against the
 * specification functions of AcquisitionPolicy and FetchCycle.
 */
module FanArtArtistProvider {
  import opened FanArtTypes
  import opened AcquisitionPolicy
  import opened FetchCycle
  import BackdropNaming

  /** The parts of a music artist item the provider reads and updates. */
  class ArtistItem {
    var musicBrainzId: Option<string>
    var images: map<SingleImageType, string>
    var backdropImagePaths: seq<string>
    var lastRefreshStatus: Option<RefreshStatus>

    constructor (musicBrainzId: Option<string>, images: map<SingleImageType, string>, backdropImagePaths: seq<string>)
      ensures this.musicBrainzId == musicBrainzId && this.images == images
      ensures this.backdropImagePaths == backdropImagePaths && lastRefreshStatus == None
    {
      this.musicBrainzId := musicBrainzId;
      this.images := images;
      this.backdropImagePaths := backdropImagePaths;
      lastRefreshStatus := None;
    }

    /** The item's image attachments as a value. */
    function State(): ItemState
      reads this
    {
      ItemState(images, backdropImagePaths)
    }

    predicate HasImage(t: SingleImageType)
      reads this
    {
      t in images
    }

    method SetImage(t: SingleImageType, path: string)
      modifies this`images
      ensures images == old(images)[t := path]
    {
      images := images[t := path];
    }

    /** Records the outcome of a completed cycle (the clock is not modelled). */
    method SetLastRefreshed(status: RefreshStatus)
      modifies this`lastRefreshStatus
      ensures lastRefreshStatus == Some(status)
    {
      lastRefreshStatus := Some(status);
    }

    /** One of the Logo, Art, Banner or Primary blocks of FetchAsync. */
    method FetchSingleImage(t: SingleImageType, cfg: Config, doc: Manifest, store: AcquisitionTask -> string)
      returns (issued: seq<AcquisitionTask>)
      modifies this`images
      ensures State() == SingleStep(t, cfg, doc, old(State()), store).state
      ensures issued == SingleStep(t, cfg, doc, old(State()), store).tasks
    {
      issued := [];
      if cfg.images.Enabled(t) && !HasImage(t) {
        var node := NodeFor(t, cfg, doc);
        if node.Some? && node.value != "" {
          var task := AcquisitionTask(t, node.value, FixedFile(t));
          SetImage(t, store(task));
          issued := [task];
        }
      }
    }

    /**
     * The Backdrops block of FetchAsync: the list is replaced by a new one
     * and every non-empty url is downloaded in document order until the
     * counter reaches MaxBackdrops, the test coming after each download.
     */
    method FetchBackdrops(cfg: Config, doc: Manifest, store: AcquisitionTask -> string)
      returns (issued: seq<AcquisitionTask>)
      modifies this`backdropImagePaths
      ensures State() == BackdropStep(cfg, doc, old(State()), store).state
      ensures issued == BackdropStep(cfg, doc, old(State()), store).tasks
    {
      issued := [];
      if cfg.images.backdrops && |backdropImagePaths| == 0 {
        var urls := doc.backgrounds;
        ghost var cap := BackdropCap(cfg.maxBackdrops);
        var numBackdrops := 0;
        backdropImagePaths := [];
        var j := 0;
        while j < |urls|
          invariant 0 <= j <= |urls|
          invariant numBackdrops == |issued| == |NonEmptyUrls(urls[..j])| < cap
          invariant issued == Numbered(NonEmptyUrls(urls[..j]))
          invariant backdropImagePaths == StoredPaths(issued, store)
        {
          var path := urls[j];
          if path != "" {
            var file := "Backdrop" + (if numBackdrops > 0 then BackdropNaming.DecimalString(numBackdrops) else "") + ".jpg";
            var task := AcquisitionTask(Backdrop, path, Named(file));
            BackdropLoopTake(urls, j);
            StoredPathsAppend(issued, task, store);
            backdropImagePaths := backdropImagePaths + [store(task)];
            issued := issued + [task];
            numBackdrops := numBackdrops + 1;
            if numBackdrops >= cfg.maxBackdrops {
              BackdropLoopCapped(urls, j, cfg.maxBackdrops);
              break;
            }
          } else {
            BackdropLoopSkip(urls, j);
          }
          j := j + 1;
        }
        if j == |urls| {
          BackdropLoopExhausted(urls, cfg.maxBackdrops);
        }
      }
    }
  }

  /**
   * FetchAsync from the cancellation check after loading fanart.xml to its
   * return: `cancel` is the first checkpoint that observes the cancellation
   * token (None if none does). Returns the outcome and the downloads issued.
   */
  method FetchImages(item: ArtistItem, cfg: Config, doc: Manifest, store: AcquisitionTask -> string,
                     cancel: Option<nat>)
    returns (outcome: Outcome, issued: seq<AcquisitionTask>)
    modifies item
    ensures item.State() == Cycle(cfg, doc, old(item.State()), store, cancel).state
    ensures issued == Cycle(cfg, doc, old(item.State()), store, cancel).tasks
    ensures outcome == Cycle(cfg, doc, old(item.State()), store, cancel).outcome
    ensures item.lastRefreshStatus == if outcome.Completed? then Some(Success) else old(item.lastRefreshStatus)
    ensures item.musicBrainzId == old(item.musicBrainzId)
  {
    ghost var spec := Cycle(cfg, doc, item.State(), store, cancel);
    if Observed(cancel, 0) {
      return Cancelled, [];
    }
    issued := [];
    if doc.hasChildNodes {
      // k is the index in ORDER of the step about to run; it is kept symbolic
      // so that RunFrom is unfolded only through the lemmas below.
      ghost var k: nat := 0;
      ghost var s := item.State();
      assert spec == Prefixed(issued, RunFrom(k, cfg, doc, s, store, cancel));
      var logo := item.FetchSingleImage(Logo, cfg, doc, store);
      if Observed(cancel, 1) {
        RunFromStops(k, issued, cfg, doc, s, store, cancel, logo, item.State());
        return Cancelled, issued + logo;
      }
      RunFromContinues(k, issued, cfg, doc, s, store, cancel, logo, item.State());
      issued, k, s := issued + logo, k + 1, item.State();

      var backdrops := item.FetchBackdrops(cfg, doc, store);
      if Observed(cancel, 2) {
        RunFromStops(k, issued, cfg, doc, s, store, cancel, backdrops, item.State());
        return Cancelled, issued + backdrops;
      }
      RunFromContinues(k, issued, cfg, doc, s, store, cancel, backdrops, item.State());
      issued, k, s := issued + backdrops, k + 1, item.State();

      var art := item.FetchSingleImage(Art, cfg, doc, store);
      if Observed(cancel, 3) {
        RunFromStops(k, issued, cfg, doc, s, store, cancel, art, item.State());
        return Cancelled, issued + art;
      }
      RunFromContinues(k, issued, cfg, doc, s, store, cancel, art, item.State());
      issued, k, s := issued + art, k + 1, item.State();

      var banner := item.FetchSingleImage(Banner, cfg, doc, store);
      if Observed(cancel, 4) {
        RunFromStops(k, issued, cfg, doc, s, store, cancel, banner, item.State());
        return Cancelled, issued + banner;
      }
      RunFromContinues(k, issued, cfg, doc, s, store, cancel, banner, item.State());
      issued, k, s := issued + banner, k + 1, item.State();

      var primary := item.FetchSingleImage(Primary, cfg, doc, store);
      RunFromStops(k, issued, cfg, doc, s, store, cancel, primary, item.State());
      issued := issued + primary;
    }
    item.SetLastRefreshed(Success);
    outcome := Completed(Success, true);
  }
}
