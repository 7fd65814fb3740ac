/**
  The overlay-image cache fed by `handleIncomingFrameImage`: one entry per
  streamed overlay frame, keyed by chunk, section, target base frame and
  frame ordinal, holding the image source string (the decoded image itself
  is opaque here).
*/
module OverlayCache {
  import opened Wrappers
  import opened Text
  import opened Overlays

  /** A streamed overlay frame image; absent fields are `None`, missing data is "". */
  datatype FrameImage = FrameImage(
    sectionIndex: Option<nat>,
    matchedSpriteFrameNumber: Option<nat>,
    frameIndex: Option<nat>,
    imageData: string)

  datatype KeyParts = KeyParts(chunkIndex: nat, sectionIndex: nat, matchedSpriteFrameNumber: nat, frameIndex: nat)

  const DataImagePrefix := "data:image/"
  const JpegPrefix := "data:image/jpeg;base64,"

  /** The key `${chunkIndex}-${section_index}-${matched_sprite_frame_number}-${frame_index}`. */
  function OverlayKey(k: KeyParts): string {
    NatToString(k.chunkIndex) + "-" + NatToString(k.sectionIndex) + "-"
      + NatToString(k.matchedSpriteFrameNumber) + "-" + NatToString(k.frameIndex)
  }

  /** Reads a key back; `None` unless it is four dash-separated decimal numbers. */
  function ParseOverlayKey(key: string): Option<KeyParts> {
    var parts := Split(key, '-');
    if |parts| == 4 && (forall i :: 0 <= i < 4 ==> parts[i] != "" && AllDigits(parts[i])) then
      Some(KeyParts(ParseNat(parts[0]), ParseNat(parts[1]), ParseNat(parts[2]), ParseNat(parts[3])))
    else
      None
  }

  lemma DigitsHaveNoDash(s: string)
    requires AllDigits(s)
    ensures '-' !in s
  {
  }

  /** A key splits on its dashes into the four rendered numbers. */
  lemma SplitOverlayKey(k: KeyParts)
    ensures Split(OverlayKey(k), '-') ==
      [NatToString(k.chunkIndex), NatToString(k.sectionIndex), NatToString(k.matchedSpriteFrameNumber), NatToString(k.frameIndex)]
  {
    var a, b, c, d := NatToString(k.chunkIndex), NatToString(k.sectionIndex),
                      NatToString(k.matchedSpriteFrameNumber), NatToString(k.frameIndex);
    DigitsHaveNoDash(a); DigitsHaveNoDash(b); DigitsHaveNoDash(c); DigitsHaveNoDash(d);
    assert OverlayKey(k) == a + ['-'] + (b + ['-'] + (c + ['-'] + d));
    SplitFirst(a, '-', b + ['-'] + (c + ['-'] + d));
    SplitFirst(b, '-', c + ['-'] + d);
    SplitFirst(c, '-', d);
    SplitNoSep(d, '-');
  }

  /** Building a key loses nothing: the four numbers can be read back from it. */
  lemma ParseOverlayKeyRoundTrip(k: KeyParts)
    ensures ParseOverlayKey(OverlayKey(k)) == Some(k)
  {
    SplitOverlayKey(k);
    ParseNatToString(k.chunkIndex);
    ParseNatToString(k.sectionIndex);
    ParseNatToString(k.matchedSpriteFrameNumber);
    ParseNatToString(k.frameIndex);
  }

  /** Distinct frames never share a cache slot. */
  lemma OverlayKeyInjective(k1: KeyParts, k2: KeyParts)
    requires OverlayKey(k1) == OverlayKey(k2)
    ensures k1 == k2
  {
    ParseOverlayKeyRoundTrip(k1);
    ParseOverlayKeyRoundTrip(k2);
  }

  /** The image source: raw base64 gets a JPEG data-URI prefix, a data URI is kept. */
  function ImageSource(imageData: string): (src: string)
    ensures StartsWith(src, DataImagePrefix)
    ensures StartsWith(imageData, DataImagePrefix) ==> src == imageData
    ensures !StartsWith(imageData, DataImagePrefix) ==> |imageData| < |src| && src[|src| - |imageData|..] == imageData
  {
    if StartsWith(imageData, DataImagePrefix) then imageData else JpegPrefix + imageData
  }

  /** Prefixing twice is prefixing once. */
  lemma ImageSourceIdempotent(imageData: string)
    ensures ImageSource(ImageSource(imageData)) == ImageSource(imageData)
  {
  }

  predicate IsComplete(f: FrameImage) {
    f.sectionIndex.Some? && f.matchedSpriteFrameNumber.Some? && f.frameIndex.Some? && f.imageData != ""
  }

  function KeyOf(f: FrameImage, chunkIndex: nat): KeyParts
    requires IsComplete(f)
  {
    KeyParts(chunkIndex, f.sectionIndex.value, f.matchedSpriteFrameNumber.value, f.frameIndex.value)
  }

  /**
    The cache after one `handleIncomingFrameImage`: an incomplete frame is
    ignored; a complete one sets (or overwrites) exactly its own key.
  */
  function CacheFrameImage(cache: map<string, string>, f: FrameImage, chunkIndex: nat): (r: map<string, string>)
    ensures !IsComplete(f) ==> r == cache
    ensures IsComplete(f) ==>
      var key := OverlayKey(KeyOf(f, chunkIndex));
      && r.Keys == cache.Keys + {key}
      && r[key] == ImageSource(f.imageData)
      && StartsWith(r[key], DataImagePrefix)
      && (forall other :: other in cache && other != key ==> r[other] == cache[other])
  {
    if !IsComplete(f) then cache
    else cache[OverlayKey(KeyOf(f, chunkIndex)) := ImageSource(f.imageData)]
  }

  /** The key the draw loop looks up while drawing frame `k` of overlay `o`. */
  function DrawKey(o: Overlay, k: nat): KeyParts
    requires k < |o.frames|
  {
    KeyParts(o.chunkIndex, o.sectionIndex, o.frames[k].matchedSpriteFrameNumber, o.frames[k].frameIndex)
  }

  /**
    The draw loop's lookup for frame `k` of `o` is affected by an incoming
    frame image exactly when that image was streamed for that frame (same
    chunk, section, base frame and frame ordinal): it then finds that
    image's source, and otherwise it finds what it found before.
  */
  lemma DrawLookupFindsOwnImage(cache: map<string, string>, f: FrameImage, chunkIndex: nat, o: Overlay, k: nat)
    requires k < |o.frames| && IsComplete(f)
    ensures var r := CacheFrameImage(cache, f, chunkIndex);
      var key := OverlayKey(DrawKey(o, k));
      && (KeyOf(f, chunkIndex) == DrawKey(o, k) ==> key in r && r[key] == ImageSource(f.imageData))
      && (KeyOf(f, chunkIndex) != DrawKey(o, k) ==> (key in r <==> key in cache) && (key in cache ==> r[key] == cache[key]))
  {
    if KeyOf(f, chunkIndex) != DrawKey(o, k) && OverlayKey(KeyOf(f, chunkIndex)) == OverlayKey(DrawKey(o, k)) {
      OverlayKeyInjective(KeyOf(f, chunkIndex), DrawKey(o, k));
      assert false;
    }
  }
}
