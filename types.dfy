/**
 * Values shared by the fan-art artist provider model: configuration, the
 * parsed fanart.tv manifest, the item's image state and the download tasks
 * the acquisition policy issues.
 */
module FanArtTypes {

  datatype Option<+T> = None | Some(value: T) {
    /** The `??` operator: this value if present, otherwise `other`. */
    function OrElse(other: Option<T>): Option<T> {
      if Some? then this else other
    }
  }

  /** string.IsNullOrEmpty on a string that may be null. */
  predicate IsNullOrEmpty(s: Option<string>) {
    s.None? || s.value == ""
  }

  predicate IsDigit(c: char) {
    '0' <= c <= '9'
  }

  /** The image types the provider touches; only Backdrop is multi-valued. */
  datatype ImageType = Primary | Art | Backdrop | Banner | Logo

  /** The image types stored as a single image per item. */
  type SingleImageType = t: ImageType | t != Backdrop witness Primary

  /** The five DownloadMusicArtistImages toggles of the server configuration. */
  datatype ImageToggles = ImageToggles(art: bool, backdrops: bool, banner: bool, logo: bool, primary: bool) {
    function Enabled(t: ImageType): bool {
      match t
      case Art => art
      case Backdrop => backdrops
      case Banner => banner
      case Logo => logo
      case Primary => primary
    }
  }

  /** The configuration values one fetch cycle reads. */
  datatype Config = Config(images: ImageToggles, downloadHDFanArt: bool, maxBackdrops: int)

  /**
   * The url attribute of the first node matched by the "hd" path and by the
   * standard path of one category. None means no such node; Some("") means a
   * node whose url is empty.
   */
  datatype NodePair = NodePair(hd: Option<string>, standard: Option<string>)

  /** The manifest as already parsed from fanart.xml. */
  datatype Manifest = Manifest(
    hasChildNodes: bool,
    logos: NodePair,           // musiclogos/hdmusiclogo, musiclogos/musiclogo
    arts: NodePair,            // musicarts/hdmusicart, musicarts/musicart
    banners: NodePair,         // musicbanners/hdmusicbanner, musicbanners/musicbanner
    artistThumb: Option<string>, // artistthumbs/artistthumb
    backgrounds: seq<string>   // every url under artistbackgrounds, in document order
  )

  /**
   * Target file names. The four fixed names are constants of the provider's
   * base class; backdrops are named by the provider itself.
   */
  datatype FileName = LogoFile | ArtFile | BannerFile | PrimaryFile | Named(name: string)

  /** One call into the download-and-save collaborator. */
  datatype AcquisitionTask = AcquisitionTask(kind: ImageType, url: string, file: FileName)

  /** The status recorded by SetLastRefreshed; this provider only ever records Success. */
  datatype RefreshStatus = Success | CompletedWithErrors | Failure

  /** The item's image attachments: one stored path per single type, and the backdrop list. */
  datatype ItemState = ItemState(images: map<SingleImageType, string>, backdrops: seq<string>)
}
