/** `AdCard`: the advertisement tile of the listings, its picture, its
    status badge and where it links to. */
module AdCard {
  import opened Common
  import opened Advertisements

  /** `xs?.[0]`: the first element, or `undefined` for a missing list or an
      empty one. */
  function FirstOf(xs: Option<seq<string>>): Option<string> {
    if xs.Some? && |xs.value| > 0 then Some(xs.value[0]) else None
  }

  /** `thumbnailUrls?.[0] || imageUrls?.[0]`. */
  function RawImage(ad: Advertisement): Option<string> {
    var thumbnail := FirstOf(ad.thumbnailUrls);
    if thumbnail.Some? && thumbnail.value != "" then thumbnail else FirstOf(ad.imageUrls)
  }

  /** The `src` of the card's picture, `null` when there is none. */
  function DisplayImage(ad: Advertisement): Option<string> {
    FixDockerUrl(RawImage(ad))
  }

  /** The "no picture" placeholder carries the `hidden` class. */
  predicate PlaceholderHidden(ad: Advertisement) {
    DisplayImage(ad).Some?
  }

  /** The status badge, also used on the advertisement page. */
  function Badge(active: bool): string {
    if active then "Aktywne" else "Zakończone"
  }

  /** The card's link target. */
  function Link(ad: Advertisement): string {
    "/advertisement/" + ad.advertisementId
  }

  /** The first thumbnail wins when it is a non-empty string; otherwise the
      first full-size image is used; the card has no picture exactly when
      neither gives a non-empty URL. */
  lemma ImageChoice(ad: Advertisement)
    ensures FirstOf(ad.thumbnailUrls).Some? && FirstOf(ad.thumbnailUrls).value != "" ==>
      DisplayImage(ad) == FixDockerUrl(Some(ad.thumbnailUrls.value[0]))
    ensures !(FirstOf(ad.thumbnailUrls).Some? && FirstOf(ad.thumbnailUrls).value != "") ==>
      DisplayImage(ad) == FixDockerUrl(FirstOf(ad.imageUrls))
    ensures DisplayImage(ad).None? <==>
      (ad.thumbnailUrls.None? || |ad.thumbnailUrls.value| == 0 || ad.thumbnailUrls.value[0] == "")
      && (ad.imageUrls.None? || |ad.imageUrls.value| == 0 || ad.imageUrls.value[0] == "")
  {
    FixDockerUrlCases(RawImage(ad));
  }

  /** Exactly one of the picture and the placeholder is visible. */
  lemma PictureOrPlaceholder(ad: Advertisement)
    ensures PlaceholderHidden(ad) <==> DisplayImage(ad).Some?
    ensures !PlaceholderHidden(ad) <==>
      (FirstOf(ad.thumbnailUrls).None? || FirstOf(ad.thumbnailUrls).value == "")
      && (FirstOf(ad.imageUrls).None? || FirstOf(ad.imageUrls).value == "")
  {
    FixDockerUrlCases(RawImage(ad));
  }

  /** The badge says "Aktywne" exactly for an active advertisement, and the
      two labels differ. */
  lemma BadgeCases(active: bool)
    ensures Badge(active) == "Aktywne" <==> active
    ensures Badge(active) == "Zakończone" <==> !active
  {
  }

  /** Different advertisements link to different pages, and the ID can be
      read back from the link. */
  lemma LinkIdentifiesAd(a: Advertisement, b: Advertisement)
    ensures Link(a)[|"/advertisement/"|..] == a.advertisementId
    ensures Link(a) == Link(b) <==> a.advertisementId == b.advertisementId
  {
    if Link(a) == Link(b) {
      assert Link(a)[|"/advertisement/"|..] == Link(b)[|"/advertisement/"|..];
    }
  }
}
