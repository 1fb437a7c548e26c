# Fan-art artist provider: image acquisition model

This project models the image-acquisition logic of the MediaBrowser
fan-art artist provider (`FanArtArtistProvider`). This provider attaches
fanart.tv artwork to music-artist items in the library. The model covers
five things:

- **Supports**: which items the provider applies to: items whose runtime
  class is MusicArtist or derives from it.
- **NeedsRefreshInternal**: whether an item needs a refresh. There must be
  a MusicBrainz id and at least one of the five `DownloadMusicArtistImages`
  toggles must be on. After that, the answer is the base class's own
  staleness check.
- **The request URL**: `FanArtBaseUrl` filled in by `string.Format` with
  the API key and the MusicBrainz id.
- **The acquisition section of FetchAsync**: what happens once fanart.xml
  has been parsed.
  - The categories run in the order Logo, Backdrops, Art, Banner, Primary.
  - A cancellation check comes before the `HasChildNodes` test and before
    each category after Logo.
  - Logo, Art and Banner use the hd node and fall back to the standard
    node only when the hd node is absent.
  - Primary reads `artistthumb`, which has no hd variant.
  - A category is attempted only when its toggle is on and the item lacks
    that image. For backdrops, the test is that the backdrop list is empty.
  - An empty or missing url means no download.
  - The backdrop walk goes through the urls in document order. It skips
    empty urls and names the files `Backdrop.jpg`, `Backdrop1.jpg`, ….
    It stops when the counter reaches `MaxBackdrops`, and that test comes
    after each download.
  - A cycle that completes records `Success` and returns `true`.

Modules:

- `FanArtTypes` (types.dfy): configuration, the parsed manifest, file
  names, download tasks and the item's image state.
- `Eligibility` (eligibility.dfy): `Supports` and `NeedsRefresh`.
- `UrlFormat` (url_format.dfy): the composite-format subset that the URL
  template needs, plus the shape and injectivity of the request URL.
- `BackdropNaming` (backdrop_naming.dfy): en-US decimal
  printing and the backdrop file names.
- `AcquisitionPolicy` (acquisition_policy.dfy): one category step as a
  specification function on values.
- `FetchCycle` (fetch_cycle.dfy): the whole cycle as a function of the
  configuration, the manifest, the item state, the download collaborator
  and the first checkpoint that observes cancellation, with its properties.
- `FanArtArtistProvider` (artist_provider.dfy): the imperative code.
  - `ArtistItem` is a class whose fields the provider updates in place.
  - `FetchSingleImage` and `FetchBackdrops` (a `while` loop with the
    counter and the `break`) are each proved equal to their step function.
  - `FetchImages` is the straight-line sequence of blocks from FetchAsync,
    proved equal to `FetchCycle.Cycle`.

Modelling choices:

- The download collaborator `DownloadAndSaveImage` is the parameter
  `store: AcquisitionTask -> string`. It maps a task (category, url,
  target file) to the path that ends up on the item.
- The base-class staleness check is the boolean parameter
  `baseNeedsRefresh`.
- Cancellation is a parameter `cancel: Option<nat>`: the index of the first
  checkpoint at which the token is seen as cancelled.
- The four fixed file names (`LogoFile`, `ArtFile`, `BannerFile`,
  `PrimaryFile`) are constants of the provider's base class, which is not
  part of this model. They are symbolic constructors of `FileName`.

## Model

| member | source | states |
|---|---|---|
| Eligibility.Supports | MediaBrowser.Controller/Providers/Music/FanArtArtistProvider.cs:54-57 | `item is MusicArtist`: the walk up the base-class chain succeeds exactly when MusicArtist occurs in the item's class ancestry, so subclasses of MusicArtist are supported too. |
| Eligibility.SupportsInherited | MediaBrowser.Controller/Providers/Music/FanArtArtistProvider.cs:54-57 | A class that derives, at any depth, from a supported class is itself supported. |
| Eligibility.AnyImageEnabledIff | MediaBrowser.Controller/Providers/Music/FanArtArtistProvider.cs:93-97 | The five-way disjunction of the toggles holds exactly when some image type's toggle is on. |
| Eligibility.NeedsRefresh | MediaBrowser.Controller/Providers/Music/FanArtArtistProvider.cs:86-103 | False whenever the MusicBrainz id is null or empty, whatever the configuration. False whenever every image toggle is off. With an id and some toggle on, it is exactly the base-class answer. |
| UrlFormat.FormatLiteralPrefix | MediaBrowser.Controller/Providers/Music/FanArtArtistProvider.cs:156 | string.Format copies brace-free text through unchanged, ahead of the formatted rest of the template. |
| UrlFormat.FormatPlaceholder | MediaBrowser.Controller/Providers/Music/FanArtArtistProvider.cs:156 | A placeholder `{d}` with d below the argument count is replaced by argument d. |
| UrlFormat.FormatLiteral | MediaBrowser.Controller/Providers/Music/FanArtArtistProvider.cs:156 | A brace-free template formats to itself. |
| UrlFormat.FormatTwoPlaceholders | MediaBrowser.Controller/Providers/Music/FanArtArtistProvider.cs:47 | A template made of brace-free texts around `{0}` and `{1}` formats without error to the texts with the two arguments in place. |
| UrlFormat.ArtistUrlShape | MediaBrowser.Controller/Providers/Music/FanArtArtistProvider.cs:47 | The request URL never hits a format error. It is `http://api.fanart.tv/webservice/artist/`, then the API key, `/`, the id (empty when null) and `/xml/all/1/1`. |
| UrlFormat.SplitAtFirstSlash | MediaBrowser.Controller/Providers/Music/FanArtArtistProvider.cs:47 | Two strings built as prefix, slash-free key, `/`, id, suffix are equal only when the keys and the ids are equal. |
| UrlFormat.ArtistUrlInjective | MediaBrowser.Controller/Providers/Music/FanArtArtistProvider.cs:156 | For slash-free API keys, two requests go to the same URL exactly when they use the same key and the same id (null and empty count as the same): different artists are requested at different URLs. |
| BackdropNaming.DecimalString | MediaBrowser.Controller/Providers/Music/FanArtArtistProvider.cs:212 | `numBackdrops.ToString(UsCulture)` is at least one decimal digit. It starts with '0' exactly when the number is zero. |
| BackdropNaming.DecimalRoundTrip | MediaBrowser.Controller/Providers/Music/FanArtArtistProvider.cs:212 | Reading the printed digits back gives the counter that was printed. |
| BackdropNaming.DecimalStringInjective | MediaBrowser.Controller/Providers/Music/FanArtArtistProvider.cs:212 | Distinct counters print as distinct strings. |
| BackdropNaming.CounterText | MediaBrowser.Controller/Providers/Music/FanArtArtistProvider.cs:212 | The text between `Backdrop` and `.jpg` is empty exactly for the first backdrop. |
| BackdropNaming.BackdropName | MediaBrowser.Controller/Providers/Music/FanArtArtistProvider.cs:212 | Every backdrop file name starts with `Backdrop`, ends with `.jpg` and has their lengths plus the counter text's. |
| BackdropNaming.FirstBackdropNames | MediaBrowser.Controller/Providers/Music/FanArtArtistProvider.cs:212 | The first three names are `Backdrop.jpg`, `Backdrop1.jpg` and `Backdrop2.jpg`. |
| BackdropNaming.BackdropNameInjective | MediaBrowser.Controller/Providers/Music/FanArtArtistProvider.cs:212-213 | Different counter values give different file names, so no backdrop of a cycle overwrites another. |
| AcquisitionPolicy.SelectNode | MediaBrowser.Controller/Providers/Music/FanArtArtistProvider.cs:184-189 | With HD on, the hd node is used when it exists, and the standard node only when it is absent. With HD off, the standard node is used. |
| AcquisitionPolicy.EmptyHdNodeBlocksFallback | MediaBrowser.Controller/Providers/Music/FanArtArtistProvider.cs:187-191 | With HD on, an hd node of Logo, Art or Banner whose url is empty means no download at all. The standard node is not consulted. |
| AcquisitionPolicy.HdNodePreferred | MediaBrowser.Controller/Providers/Music/FanArtArtistProvider.cs:226-233 | With HD on and a wanted category whose hd node has a url, that exact url is downloaded to the category's file, whatever the standard node holds. |
| AcquisitionPolicy.SingleStep | MediaBrowser.Controller/Providers/Music/FanArtArtistProvider.cs:185-196 | A single-valued category issues at most one download. It issues one exactly when its toggle is on, the item lacks that image and the resolved url is non-empty. The download is that url to the category's fixed file. The item's image of that type becomes the stored path. Otherwise the item is unchanged. Backdrops are never touched. |
| AcquisitionPolicy.NonEmptyUrls | MediaBrowser.Controller/Providers/Music/FanArtArtistProvider.cs:206-209 | The backdrop candidates are never more than the url nodes, and none of them is empty. |
| AcquisitionPolicy.NonEmptyUrlsMembers | MediaBrowser.Controller/Providers/Music/FanArtArtistProvider.cs:206-209 | A url is a candidate exactly when it occurs among the nodes and is non-empty. |
| AcquisitionPolicy.NonEmptyUrlsPrefix | MediaBrowser.Controller/Providers/Music/FanArtArtistProvider.cs:206-209 | The candidates seen after the first j nodes are a prefix of all candidates, so document order is kept. |
| AcquisitionPolicy.BackdropCap | MediaBrowser.Controller/Providers/Music/FanArtArtistProvider.cs:213-214 | The effective cap is at least 1 and at least MaxBackdrops. It equals MaxBackdrops when that is positive. |
| AcquisitionPolicy.BackdropStep | MediaBrowser.Controller/Providers/Music/FanArtArtistProvider.cs:199-220 | Backdrops are attempted only when the toggle is on and the list is empty. The downloads are then BackdropTasks and the new list is their stored paths. Otherwise nothing is issued and the item is unchanged. Single images are never touched. |
| AcquisitionPolicy.BackdropTasksProperties | MediaBrowser.Controller/Providers/Music/FanArtArtistProvider.cs:204-215 | The number of backdrops is min(non-empty urls, max(MaxBackdrops, 1)). Download i uses the i-th non-empty url in document order and BackdropName(i). No two downloads share a file name. |
| AcquisitionPolicy.BackdropTasksWithinMax | MediaBrowser.Controller/Providers/Music/FanArtArtistProvider.cs:213-214 | With MaxBackdrops of at least 1, no more backdrops than MaxBackdrops are downloaded. |
| AcquisitionPolicy.NonPositiveMaxStillTakesOne | MediaBrowser.Controller/Providers/Music/FanArtArtistProvider.cs:212-214 | With MaxBackdrops at 0 or below and some non-empty url, exactly one backdrop is downloaded, because the cap test follows the add. |
| AcquisitionPolicy.FiveCandidatesCapThree | MediaBrowser.Controller/Providers/Music/FanArtArtistProvider.cs:204-215 | Five non-empty urls and MaxBackdrops 3 give exactly the first three urls, as Backdrop.jpg, Backdrop1.jpg and Backdrop2.jpg. |
| AcquisitionPolicy.StepFrame | MediaBrowser.Controller/Providers/Music/FanArtArtistProvider.cs:185-262 | A category's step leaves every other category's slot (single image or backdrop list) unchanged. |
| AcquisitionPolicy.StepLocal | MediaBrowser.Controller/Providers/Music/FanArtArtistProvider.cs:185-262 | A step's downloads and its own slot afterwards depend only on its own slot beforehand. |
| AcquisitionPolicy.StepTaskKinds | MediaBrowser.Controller/Providers/Music/FanArtArtistProvider.cs:185-262 | Every download a step issues is for that step's own category. |
| FetchCycle.RunFromContinues | MediaBrowser.Controller/Providers/Music/FanArtArtistProvider.cs:197-250 | When a checkpoint passes, the rest of the cycle is this step's downloads followed by the cycle from the next step on the new state. |
| FetchCycle.RunFromStops | MediaBrowser.Controller/Providers/Music/FanArtArtistProvider.cs:197-266 | A cycle that stops after a step (cancelled at the next checkpoint, or finished after Primary) ends in that step's state, with the downloads so far. Its outcome is Cancelled, or Success/true after the last step. |
| FetchCycle.StepsRun | MediaBrowser.Controller/Providers/Music/FanArtArtistProvider.cs:197-250 | At most five category steps run. |
| FetchCycle.RunFromFrame | MediaBrowser.Controller/Providers/Music/FanArtArtistProvider.cs:185-262 | Later steps never change the slot of an earlier category. |
| FetchCycle.RunFromIndependent | MediaBrowser.Controller/Providers/Music/FanArtArtistProvider.cs:181-266 | Running the steps in sequence gives the same downloads and final slots as evaluating each step that runs on the initial state. No category's result affects another's gating. |
| FetchCycle.IndependentTasksInOrder | MediaBrowser.Controller/Providers/Music/FanArtArtistProvider.cs:185-262 | The independently evaluated downloads are Logo's, then Backdrops', Art's, Banner's and Primary's. |
| FetchCycle.CycleOutcome | MediaBrowser.Controller/Providers/Music/FanArtArtistProvider.cs:179-266 | A cycle is cancelled exactly when a checkpoint it reaches observes the token. Otherwise it records Success and returns true, whatever was downloaded. |
| FetchCycle.NoChildNodesCompletes | MediaBrowser.Controller/Providers/Music/FanArtArtistProvider.cs:181-266 | A manifest without child nodes downloads nothing and changes nothing, yet the cycle records Success and returns true. |
| FetchCycle.CycleIsIndependentSteps | MediaBrowser.Controller/Providers/Music/FanArtArtistProvider.cs:181-266 | An uncancelled cycle records Success and returns true. Its downloads are Logo's, Backdrops', Art's, Banner's and Primary's, in that order, each decided on the item as it was before the cycle. Each slot ends as its own step leaves it. |
| FetchCycle.HasKindAppend | MediaBrowser.Controller/Providers/Music/FanArtArtistProvider.cs:185-262 | Two runs of downloads together contain a download of a category exactly when one of them does. |
| FetchCycle.KindOccurs | MediaBrowser.Controller/Providers/Music/FanArtArtistProvider.cs:185-262 | A category has a download among a range of steps exactly when one of those steps is that category and issues a download. |
| FetchCycle.CycleSingleImageIssued | MediaBrowser.Controller/Providers/Music/FanArtArtistProvider.cs:185-262 | In an uncancelled cycle, a single-valued category is downloaded exactly when its toggle is on, the item lacked it and its resolved url is non-empty (both directions). |
| FetchCycle.CycleSingleImageStored | MediaBrowser.Controller/Providers/Music/FanArtArtistProvider.cs:185-262 | After an uncancelled cycle, the item's image of a single-valued type is the stored path of its download when one was issued. Otherwise it is the old image, or none. |
| FetchCycle.CycleBackdrops | MediaBrowser.Controller/Providers/Music/FanArtArtistProvider.cs:199-220 | After an uncancelled cycle, the backdrop list is the stored paths of BackdropTasks when the toggle was on and the list was empty. Otherwise it is unchanged. |
| FetchCycle.CancelledCycleStopsIssuing | MediaBrowser.Controller/Providers/Music/FanArtArtistProvider.cs:179-250 | A cycle whose token is observed at checkpoint k is cancelled and issues downloads only for the categories before k in the order. |
| FetchCycle.IndependentKinds | MediaBrowser.Controller/Providers/Music/FanArtArtistProvider.cs:185-262 | The downloads of a range of steps are all for the categories of that range. |
| FetchCycle.AllTogglesOffNothingToDo | MediaBrowser.Controller/Providers/Music/FanArtArtistProvider.cs:93-100 | With every image toggle off, a cycle issues no download. This is the work the refresh check avoids by returning false. |
| FanArtArtistProvider.ArtistItem.SetImage | MediaBrowser.Controller/Providers/Music/FanArtArtistProvider.cs:194 | Setting an image replaces the item's image of that type and nothing else. |
| FanArtArtistProvider.ArtistItem.FetchSingleImage | MediaBrowser.Controller/Providers/Music/FanArtArtistProvider.cs:185-196 | Running a single-image block in place leaves the item in SingleStep's state and issues SingleStep's downloads. |
| FanArtArtistProvider.ArtistItem.FetchBackdrops | MediaBrowser.Controller/Providers/Music/FanArtArtistProvider.cs:199-220 | The backdrop loop (counter, skip of empty urls, test after each add, break) leaves the list that BackdropStep specifies and issues BackdropTasks. |
| FanArtArtistProvider.ArtistItem.SetLastRefreshed | MediaBrowser.Controller/Providers/Music/FanArtArtistProvider.cs:265 | The recorded status is the one passed in. |
| FanArtArtistProvider.FetchImages | MediaBrowser.Controller/Providers/Music/FanArtArtistProvider.cs:179-266 | Running the acquisition section in place leaves the item in Cycle's state and issues Cycle's downloads in order, with Cycle's outcome. A completed cycle records Success; a cancelled one records nothing. The MusicBrainz id is untouched. |

## Left out

- Fetching fanart.xml over HTTP and writing it to disk is I/O and is not modelled (`HttpClient.Get`, `FileStream`, `CopyToAsync`). The code overwrites the file in place with `FileMode.Create`, so no atomic-replace guarantee is stated either.
- XML loading and XPath evaluation come from a foreign library. The manifest is already-parsed data.
  - For each single-valued category, `NodePair` records whether the hd and standard nodes exist and their urls.
  - `backgrounds` is the url of every node under `artistbackgrounds`, in document order.
  - The `nodes != null` test is not modelled, because `SelectNodes` returns an empty list rather than null.
- `DownloadAndSaveImage`, `SaveLocalMeta` and `FanArtResourcePool` are a foreign collaborator with its options and a concurrency limiter. The download is the total function `store`.
  - The code does not catch download failures, and one would abort the whole cycle, so per-image failure isolation is not modelled.
  - `SaveLocalMeta` is passed through to that collaborator, which is not part of this model, so it is folded into `store`.
  - The source passes the item itself to `DownloadAndSaveImage` (at lines 194, 212, 233, 246 and 260), but `store` sees only the task. The model assumes the collaborator neither reads nor changes the item's image map or backdrop list. The lemmas `AcquisitionPolicy.StepFrame`, `AcquisitionPolicy.StepLocal`, `FetchCycle.RunFromFrame`, `FetchCycle.RunFromIndependent` and `FetchCycle.CycleIsIndependentSteps` hold of the source only under this assumption.
- `BaseItem.HasImage`, `BaseItem.SetImage` and `BaseItem.BackdropImagePaths` are members of the item's base class, which is not part of this model. The model assumes the following:
  - `HasImage` is membership in a map from image type to path.
  - `SetImage` is an update of that map at one type. This includes storing an empty path, if `store` returns one.
  - `BackdropImagePaths` is a sequence that is never null.
  - `ArtistItem.HasImage`, `ArtistItem.SetImage`, `AcquisitionPolicy.Wants` and every image-state property rest on these assumptions.
- In `Supports`, C# type identity is modelled by the full type name, and the class hierarchy by a chain of base classes. Interfaces are not modelled, because MusicArtist is a class and `item is MusicArtist` is true only for it and its subclasses. A null item, for which `item is MusicArtist` is false, cannot be expressed as a `RuntimeClass`, so the model says nothing about it.
- Cancellation is reduced to the checkpoints. At each `ThrowIfCancellationRequested` after the document is loaded, the cycle either goes on or stops with `Cancelled`. The check at the start of FetchAsync and cancellation inside a download are part of the left-out I/O. async/await is not modelled.
- `GetArtistDataPath` creates directories on the filesystem and is not modelled.
- `SetLastRefreshed` is modelled only as the status it records. The clock value (`DateTime.UtcNow`) and the base class's bookkeeping are not modelled.
- Logging (`Logger.Debug`) is not modelled.
- The base class's `NeedsRefreshInternal`, `ProviderVersion` and `RefreshOnVersionChange` logic is not part of this model. Its answer is the parameter `baseNeedsRefresh`.
- The configuration is read once per cycle, as a value. The source re-reads the live configuration at each test, so a change during a cycle is not modelled.
- The base-class file name constants (`LogoFile`, `ArtFile`, `BannerFile`, `PrimaryFile`) are not part of this model. They are abstract, distinct `FileName` values.
- UrlFormat.Format covers only single-digit placeholders, `{{` and `}}`. It reports every other brace as a format error, which is where string.Format throws. Alignment, format strings and multi-digit indices are not modelled, because the template uses none of them.
- The source assigns a fresh empty list to `BackdropImagePaths` before the loop, and that list is then the item's list. The model keeps the list as a field that the method reassigns, so aliasing with other references to the old list is not modelled.
- AcquisitionPolicy.BackdropTasksWithinMax: the bound is stated for MaxBackdrops of at least 1 only. The code downloads one backdrop even when MaxBackdrops is 0 or below (NonPositiveMaxStillTakesOne), so the model follows the code: "never more backdrops than MaxBackdrops" does not hold for a non-positive setting.
