/**
 * What one category step of FetchAsync downloads and how it changes the
 * item: node selection with the HD fallback, the per-category gate, and the
 * backdrop walk with its cap and its file naming.
 */
module AcquisitionPolicy {
  import opened FanArtTypes
  import opened BackdropNaming

  /**
   * `SelectSingleNode(hdPath) ?? SelectSingleNode(standardPath)`. With HD
   * off the "hd" prefix is empty, so both lookups are the standard path.
   */
  function SelectNode(nodes: NodePair, downloadHD: bool): (node: Option<string>)
    ensures downloadHD && nodes.hd.Some? ==> node == nodes.hd
    ensures downloadHD && nodes.hd.None? ==> node == nodes.standard
    ensures !downloadHD ==> node == nodes.standard
  {
    var first := if downloadHD then nodes.hd else nodes.standard;
    first.OrElse(nodes.standard)
  }

  /** The url node a single-valued category reads; Primary has no HD variant. */
  function NodeFor(t: SingleImageType, cfg: Config, doc: Manifest): Option<string> {
    match t
    case Logo => SelectNode(doc.logos, cfg.downloadHDFanArt)
    case Art => SelectNode(doc.arts, cfg.downloadHDFanArt)
    case Banner => SelectNode(doc.banners, cfg.downloadHDFanArt)
    case Primary => doc.artistThumb
  }

  function FixedFile(t: SingleImageType): FileName {
    match t
    case Logo => LogoFile
    case Art => ArtFile
    case Banner => BannerFile
    case Primary => PrimaryFile
  }

  /** The resolved node has a url: `!string.IsNullOrEmpty(node != null ? node.Value : null)`. */
  predicate HasUrl(node: Option<string>) {
    !IsNullOrEmpty(node)
  }

  /** The category's toggle is on and the item lacks that image. */
  predicate Wants(t: SingleImageType, cfg: Config, st: ItemState) {
    cfg.images.Enabled(t) && t !in st.images
  }

  datatype StepResult = StepResult(state: ItemState, tasks: seq<AcquisitionTask>)

  /** What one category contributes to an item's state. */
  datatype Slot = ImageSlot(path: Option<string>) | BackdropSlot(paths: seq<string>)

  function SlotOf(st: ItemState, t: ImageType): Slot {
    if t == Backdrop then BackdropSlot(st.backdrops)
    else
      var s: SingleImageType := t;
      ImageSlot(if s in st.images then Some(st.images[s]) else None)
  }

  /**
   * One single-valued category. A download is issued exactly when the
   * category is wanted and its node has a non-empty url; the download's
   * result becomes the item's image of that type, and nothing else changes.
   */
  function SingleStep(t: SingleImageType, cfg: Config, doc: Manifest, st: ItemState,
                      store: AcquisitionTask -> string): (r: StepResult)
    ensures |r.tasks| <= 1
    ensures r.tasks != [] <==> Wants(t, cfg, st) && HasUrl(NodeFor(t, cfg, doc))
    ensures r.tasks != [] ==> r.tasks[0] == AcquisitionTask(t, NodeFor(t, cfg, doc).value, FixedFile(t))
    ensures r.tasks != [] ==> r.state.images == st.images[t := store(r.tasks[0])]
    ensures r.tasks == [] ==> r.state == st
    ensures r.state.backdrops == st.backdrops
  {
    if Wants(t, cfg, st) && HasUrl(NodeFor(t, cfg, doc)) then
      var task := AcquisitionTask(t, NodeFor(t, cfg, doc).value, FixedFile(t));
      StepResult(st.(images := st.images[t := store(task)]), [task])
    else
      StepResult(st, [])
  }

  /** The url values of the backdrop nodes that are not empty, in document order. */
  function NonEmptyUrls(urls: seq<string>): (r: seq<string>)
    ensures |r| <= |urls|
    ensures forall i :: 0 <= i < |r| ==> r[i] != ""
    decreases |urls|
  {
    if urls == [] then []
    else
      var last := urls[|urls| - 1];
      NonEmptyUrls(urls[..|urls| - 1]) + (if last != "" then [last] else [])
  }

  /**
   * The number of backdrops after which the loop stops. The cap test runs
   * after each download, so even a MaxBackdrops below one lets one through.
   */
  function BackdropCap(maxBackdrops: int): (cap: nat)
    ensures cap >= 1 && cap >= maxBackdrops
    ensures maxBackdrops >= 1 ==> cap == maxBackdrops
  {
    if maxBackdrops >= 1 then maxBackdrops else 1
  }

  function Min(a: nat, b: nat): nat {
    if a <= b then a else b
  }

  /** The i-th backdrop download of a cycle. */
  function BackdropTask(url: string, i: nat): AcquisitionTask {
    AcquisitionTask(Backdrop, url, Named(BackdropName(i)))
  }

  /** Downloads for a run of backdrop urls, numbered from zero. */
  function Numbered(urls: seq<string>): (r: seq<AcquisitionTask>)
    ensures |r| == |urls|
    ensures forall i :: 0 <= i < |urls| ==> r[i] == BackdropTask(urls[i], i)
  {
    seq(|urls|, i requires 0 <= i < |urls| => BackdropTask(urls[i], i))
  }

  /**
   * Reference definition of the backdrop downloads: the first
   * min(#non-empty urls, cap) non-empty urls, numbered in document order.
   */
  function BackdropTasks(urls: seq<string>, maxBackdrops: int): seq<AcquisitionTask> {
    var wanted := NonEmptyUrls(urls);
    Numbered(wanted[..Min(|wanted|, BackdropCap(maxBackdrops))])
  }

  /** The paths the collaborator returns for a run of downloads, in order. */
  function StoredPaths(tasks: seq<AcquisitionTask>, store: AcquisitionTask -> string): (paths: seq<string>)
    ensures |paths| == |tasks|
    ensures forall i :: 0 <= i < |tasks| ==> paths[i] == store(tasks[i])
  {
    seq(|tasks|, i requires 0 <= i < |tasks| => store(tasks[i]))
  }

  /**
   * The backdrop category: attempted only when its toggle is on and the item
   * has no backdrops; the list then holds exactly the stored paths of the
   * downloads, and the single-valued images are untouched.
   */
  function BackdropStep(cfg: Config, doc: Manifest, st: ItemState, store: AcquisitionTask -> string): (r: StepResult)
    ensures r.state.images == st.images
    ensures cfg.images.backdrops && st.backdrops == [] ==>
              r.tasks == BackdropTasks(doc.backgrounds, cfg.maxBackdrops)
              && r.state.backdrops == StoredPaths(r.tasks, store)
    ensures !(cfg.images.backdrops && st.backdrops == []) ==> r == StepResult(st, [])
  {
    if cfg.images.backdrops && st.backdrops == [] then
      var tasks := BackdropTasks(doc.backgrounds, cfg.maxBackdrops);
      StepResult(st.(backdrops := StoredPaths(tasks, store)), tasks)
    else
      StepResult(st, [])
  }

  /** The step FetchAsync runs for a category. */
  function Step(t: ImageType, cfg: Config, doc: Manifest, st: ItemState, store: AcquisitionTask -> string): StepResult {
    if t == Backdrop then BackdropStep(cfg, doc, st, store) else SingleStep(t, cfg, doc, st, store)
  }

  // ---------------------------------------------------------------------
  // Node selection

  /** An hd node whose url is empty blocks the fallback: nothing is downloaded. */
  lemma EmptyHdNodeBlocksFallback(t: SingleImageType, cfg: Config, doc: Manifest, st: ItemState,
                                  store: AcquisitionTask -> string)
    requires t != Primary && cfg.downloadHDFanArt
    requires t == Logo ==> doc.logos.hd == Some("")
    requires t == Art ==> doc.arts.hd == Some("")
    requires t == Banner ==> doc.banners.hd == Some("")
    ensures SingleStep(t, cfg, doc, st, store).tasks == []
  {
  }

  /** With HD on and an hd node present, its url is what gets downloaded. */
  lemma HdNodePreferred(t: SingleImageType, cfg: Config, doc: Manifest, st: ItemState,
                        store: AcquisitionTask -> string, hdUrl: string)
    requires t != Primary && cfg.downloadHDFanArt && hdUrl != ""
    requires t == Logo ==> doc.logos.hd == Some(hdUrl)
    requires t == Art ==> doc.arts.hd == Some(hdUrl)
    requires t == Banner ==> doc.banners.hd == Some(hdUrl)
    requires Wants(t, cfg, st)
    ensures SingleStep(t, cfg, doc, st, store).tasks == [AcquisitionTask(t, hdUrl, FixedFile(t))]
  {
  }

  // ---------------------------------------------------------------------
  // Steps touch only their own slot

  /** A step changes no slot but its own. */
  lemma StepFrame(t: ImageType, u: ImageType, cfg: Config, doc: Manifest, st: ItemState,
                  store: AcquisitionTask -> string)
    requires u != t
    ensures SlotOf(Step(t, cfg, doc, st, store).state, u) == SlotOf(st, u)
  {
  }

  /** A step's downloads and its effect on its own slot depend on nothing but that slot. */
  lemma StepLocal(t: ImageType, cfg: Config, doc: Manifest, st: ItemState, st': ItemState,
                  store: AcquisitionTask -> string)
    requires SlotOf(st, t) == SlotOf(st', t)
    ensures Step(t, cfg, doc, st, store).tasks == Step(t, cfg, doc, st', store).tasks
    ensures SlotOf(Step(t, cfg, doc, st, store).state, t) == SlotOf(Step(t, cfg, doc, st', store).state, t)
  {
    if t != Backdrop {
      var s: SingleImageType := t;
      assert (s in st.images) == (s in st'.images);
    }
  }

  /** Every download a step issues is for that step's own category. */
  lemma StepTaskKinds(t: ImageType, cfg: Config, doc: Manifest, st: ItemState,
                      store: AcquisitionTask -> string)
    ensures forall k :: 0 <= k < |Step(t, cfg, doc, st, store).tasks| ==>
              Step(t, cfg, doc, st, store).tasks[k].kind == t
  {
  }

  // ---------------------------------------------------------------------
  // Backdrops

  lemma NonEmptyUrlsAppend(urls: seq<string>, url: string)
    ensures NonEmptyUrls(urls + [url]) == NonEmptyUrls(urls) + (if url != "" then [url] else [])
  {
    assert (urls + [url])[..|urls|] == urls;
  }

  /** The non-empty urls of a prefix of the document are a prefix of its non-empty urls. */
  lemma {:induction false} NonEmptyUrlsPrefix(urls: seq<string>, j: nat)
    requires j <= |urls|
    ensures |NonEmptyUrls(urls[..j])| <= |NonEmptyUrls(urls)|
    ensures NonEmptyUrls(urls[..j]) == NonEmptyUrls(urls)[..|NonEmptyUrls(urls[..j])|]
    decreases |urls|
  {
    if j == |urls| {
      assert urls[..j] == urls;
    } else {
      var init := urls[..|urls| - 1];
      assert urls[..j] == init[..j];
      NonEmptyUrlsPrefix(init, j);
    }
  }

  /** Every non-empty url of the document is kept, and nothing else. */
  lemma {:induction false} NonEmptyUrlsMembers(urls: seq<string>, x: string)
    ensures x in NonEmptyUrls(urls) <==> x in urls && x != ""
    decreases |urls|
  {
    if urls != [] {
      var init := urls[..|urls| - 1];
      assert urls == init + [urls[|urls| - 1]];
      NonEmptyUrlsMembers(init, x);
    }
  }

  /** Adding the next backdrop extends the numbered run by one task with the next index. */
  lemma NumberedAppend(urls: seq<string>, url: string)
    ensures Numbered(urls + [url]) == Numbered(urls) + [BackdropTask(url, |urls|)]
  {
  }

  /** One more url of the document, non-empty: one more numbered download. */
  lemma BackdropLoopTake(urls: seq<string>, j: nat)
    requires j < |urls| && urls[j] != ""
    ensures Numbered(NonEmptyUrls(urls[..j + 1]))
         == Numbered(NonEmptyUrls(urls[..j])) + [BackdropTask(urls[j], |NonEmptyUrls(urls[..j])|)]
  {
    assert urls[..j + 1] == urls[..j] + [urls[j]];
    NonEmptyUrlsAppend(urls[..j], urls[j]);
    NumberedAppend(NonEmptyUrls(urls[..j]), urls[j]);
  }

  /** One more url of the document, empty: no download and no index used. */
  lemma BackdropLoopSkip(urls: seq<string>, j: nat)
    requires j < |urls| && urls[j] == ""
    ensures NonEmptyUrls(urls[..j + 1]) == NonEmptyUrls(urls[..j])
  {
    assert urls[..j + 1] == urls[..j] + [urls[j]];
    NonEmptyUrlsAppend(urls[..j], urls[j]);
  }

  /** The loop stops at the cap after the url at index j: what it issued is BackdropTasks. */
  lemma BackdropLoopCapped(urls: seq<string>, j: nat, maxBackdrops: int)
    requires j < |urls|
    requires |NonEmptyUrls(urls[..j + 1])| == BackdropCap(maxBackdrops)
    ensures Numbered(NonEmptyUrls(urls[..j + 1])) == BackdropTasks(urls, maxBackdrops)
  {
    NonEmptyUrlsPrefix(urls, j + 1);
  }

  /** The loop ran to the end below the cap: what it issued is BackdropTasks. */
  lemma BackdropLoopExhausted(urls: seq<string>, maxBackdrops: int)
    requires |NonEmptyUrls(urls[..|urls|])| < BackdropCap(maxBackdrops)
    ensures Numbered(NonEmptyUrls(urls[..|urls|])) == BackdropTasks(urls, maxBackdrops)
  {
    assert urls[..|urls|] == urls;
  }

  lemma StoredPathsAppend(tasks: seq<AcquisitionTask>, task: AcquisitionTask, store: AcquisitionTask -> string)
    ensures StoredPaths(tasks + [task], store) == StoredPaths(tasks, store) + [store(task)]
  {
  }

  /**
   * The backdrop downloads of a step: as many as there are non-empty urls,
   * but no more than the cap; the i-th takes the i-th non-empty url in
   * document order and is saved as BackdropName(i), so no two share a file.
   */
  lemma BackdropTasksProperties(urls: seq<string>, maxBackdrops: int)
    ensures var ts := BackdropTasks(urls, maxBackdrops);
      && |ts| == Min(|NonEmptyUrls(urls)|, BackdropCap(maxBackdrops))
      && (forall i :: 0 <= i < |ts| ==>
            (ts[i].kind == Backdrop && ts[i].url != "" && ts[i].url == NonEmptyUrls(urls)[i]
             && ts[i].file == Named(BackdropName(i))))
      && (forall i, j :: 0 <= i < j < |ts| ==> ts[i].file != ts[j].file)
  {
    var ts := BackdropTasks(urls, maxBackdrops);
    forall i, j | 0 <= i < j < |ts| ensures ts[i].file != ts[j].file {
      if ts[i].file == ts[j].file {
        BackdropNameInjective(i, j);
      }
    }
  }

  /** With MaxBackdrops of at least one, no more backdrops are downloaded than it allows. */
  lemma BackdropTasksWithinMax(urls: seq<string>, maxBackdrops: int)
    requires maxBackdrops >= 1
    ensures |BackdropTasks(urls, maxBackdrops)| <= maxBackdrops
  {
  }

  /** With MaxBackdrops at zero or below, one backdrop is still downloaded when any url is non-empty. */
  lemma NonPositiveMaxStillTakesOne(urls: seq<string>, maxBackdrops: int)
    requires maxBackdrops <= 0
    requires exists i :: 0 <= i < |urls| && urls[i] != ""
    ensures |BackdropTasks(urls, maxBackdrops)| == 1
  {
    var i :| 0 <= i < |urls| && urls[i] != "";
    NonEmptyUrlsMembers(urls, urls[i]);
  }

  /** Five candidate backdrops and MaxBackdrops 3: exactly Backdrop.jpg, Backdrop1.jpg, Backdrop2.jpg. */
  lemma FiveCandidatesCapThree(a: string, b: string, c: string, d: string, e: string)
    requires a != "" && b != "" && c != "" && d != "" && e != ""
    ensures BackdropTasks([a, b, c, d, e], 3) == [
              AcquisitionTask(Backdrop, a, Named("Backdrop.jpg")),
              AcquisitionTask(Backdrop, b, Named("Backdrop1.jpg")),
              AcquisitionTask(Backdrop, c, Named("Backdrop2.jpg"))]
  {
    var urls := [a, b, c, d, e];
    NonEmptyUrlsAppend([], a);
    assert [] + [a] == [a];
    NonEmptyUrlsAppend([a], b);
    assert [a] + [b] == [a, b];
    NonEmptyUrlsAppend([a, b], c);
    assert [a, b] + [c] == [a, b, c];
    NonEmptyUrlsAppend([a, b, c], d);
    assert [a, b, c] + [d] == [a, b, c, d];
    NonEmptyUrlsAppend([a, b, c, d], e);
    assert [a, b, c, d] + [e] == urls;
    assert NonEmptyUrls(urls) == urls;
    FirstBackdropNames();
  }
}
