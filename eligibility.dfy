/**
 * Whether the provider applies to an item and whether the item needs a
 * refresh (FanArtArtistProvider.Supports and NeedsRefreshInternal).
 */
module Eligibility {
  import opened FanArtTypes

  /**
   * The runtime class of a library item: its full type name and the class
   * it derives from (None for the root of the hierarchy).
   */
  datatype RuntimeClass = RuntimeClass(name: string, baseClass: Option<RuntimeClass>)

  const MUSIC_ARTIST: string := "MediaBrowser.Controller.Entities.Audio.MusicArtist"

  /** The class followed by its base classes, nearest first. */
  function Ancestry(c: RuntimeClass): (chain: seq<string>)
    ensures |chain| >= 1 && chain[0] == c.name
  {
    [c.name] + (if c.baseClass.Some? then Ancestry(c.baseClass.value) else [])
  }

  /**
   * `item is MusicArtist`: the runtime class is MusicArtist or derives from
   * it, found by walking up the base-class chain.
   */
  function Supports(c: RuntimeClass): (r: bool)
    ensures r <==> MUSIC_ARTIST in Ancestry(c)
  {
    c.name == MUSIC_ARTIST || (c.baseClass.Some? && Supports(c.baseClass.value))
  }

  /** A class derived from a supported class is supported, at any depth of derivation. */
  lemma {:induction false} SupportsInherited(c: RuntimeClass, ancestor: RuntimeClass)
    requires IsAncestor(ancestor, c) && Supports(ancestor)
    ensures Supports(c)
  {
    if c != ancestor {
      SupportsInherited(c.baseClass.value, ancestor);
    }
  }

  /** `ancestor` is `c` itself or one of its base classes. */
  predicate IsAncestor(ancestor: RuntimeClass, c: RuntimeClass) {
    c == ancestor || (c.baseClass.Some? && IsAncestor(ancestor, c.baseClass.value))
  }

  /** At least one of the five image toggles is on. */
  predicate AnyImageEnabled(t: ImageToggles) {
    t.art || t.backdrops || t.banner || t.logo || t.primary
  }

  /** The disjunction over the five toggles means that some image type is enabled. */
  lemma AnyImageEnabledIff(t: ImageToggles)
    ensures AnyImageEnabled(t) <==> exists k: ImageType :: t.Enabled(k)
  {
    if AnyImageEnabled(t) {
      var k: ImageType :=
        if t.art then Art else if t.backdrops then Backdrop else if t.banner then Banner
        else if t.logo then Logo else Primary;
      assert t.Enabled(k);
    }
  }

  /**
   * NeedsRefreshInternal. `baseNeedsRefresh` is the answer of the base
   * class's own staleness check, which this provider defers to.
   */
  function NeedsRefresh(musicBrainzId: Option<string>, toggles: ImageToggles, baseNeedsRefresh: bool): (r: bool)
    ensures IsNullOrEmpty(musicBrainzId) ==> !r
    ensures (forall k: ImageType :: !toggles.Enabled(k)) ==> !r
    ensures !IsNullOrEmpty(musicBrainzId) && (exists k: ImageType :: toggles.Enabled(k)) ==> r == baseNeedsRefresh
  {
    AnyImageEnabledIff(toggles);
    if IsNullOrEmpty(musicBrainzId) then false
    else if !AnyImageEnabled(toggles) then false
    else baseNeedsRefresh
  }
}
