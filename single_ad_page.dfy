/** `SingleAdPage`: the advertisement page, with its image carousel and
    lightbox and the contact action offered to the visitor. */
module SingleAdPage {
  import opened Common
  import opened Advertisements
  import opened Cycle
  import Session

  /** `ad?.imageUrls?.map(fixDockerUrl) || []`. */
  function Images(ad: Advertisement): (r: seq<Option<string>>)
    ensures ad.imageUrls.None? ==> r == []
    ensures ad.imageUrls.Some? ==>
      |r| == |ad.imageUrls.value| && forall i :: 0 <= i < |r| ==> r[i] == FixDockerUrl(Some(ad.imageUrls.value[i]))
  {
    match ad.imageUrls
    case None => []
    case Some(urls) => seq(|urls|, i requires 0 <= i < |urls| => FixDockerUrl(Some(urls[i])))
  }

  /** The carousel: `currentImageIndex` over `n` images and whether the
      lightbox is open. Clicks and the timer-free handlers are its methods. */
  class Gallery {
    const n: nat
    var index: int
    var lightboxOpen: bool

    ghost predicate Valid()
      reads this
    {
      n > 0 ==> 0 <= index < n
    }

    constructor (n: nat)
      ensures this.n == n && index == 0 && !lightboxOpen && Valid()
    {
      this.n := n;
      index := 0;
      lightboxOpen := false;
    }

    /** The arrows exist only for more than one image. */
    predicate ArrowsShown()
      reads this
    {
      n > 1
    }

    /** `nextImage`, from the right arrow. */
    method Next()
      modifies this
      requires Valid() && ArrowsShown()
      ensures Valid() && index == Succ(old(index), n) && lightboxOpen == old(lightboxOpen)
    {
      index := (index + 1) % n;
    }

    /** `prevImage`, from the left arrow. */
    method Prev()
      modifies this
      requires Valid() && ArrowsShown()
      ensures Valid() && index == Pred(old(index), n) && lightboxOpen == old(lightboxOpen)
    {
      index := (index - 1 + n) % n;
    }

    /** A thumbnail click, or the lightbox reporting the slide it shows. */
    method Select(i: int)
      modifies this
      requires Valid() && 0 <= i < n
      ensures Valid() && index == i && lightboxOpen == old(lightboxOpen)
    {
      index := i;
    }

    /** A click on the main picture opens the lightbox only when there are
        images. */
    method ClickPicture()
      modifies this
      requires Valid()
      ensures Valid() && index == old(index)
      ensures lightboxOpen == (old(lightboxOpen) || n > 0)
    {
      if n > 0 {
        lightboxOpen := true;
      }
    }

    method CloseLightbox()
      modifies this
      requires Valid()
      ensures Valid() && index == old(index) && !lightboxOpen
    {
      lightboxOpen := false;
    }
  }

  /** `user?.email === ad.sellerEmail`, as written: a visitor who is not
      signed in has `undefined` as email, which equals a missing
      `sellerEmail`. */
  predicate IsOwner(user: Option<Session.Profile>, sellerEmail: JsonString) {
    match user
    case None => sellerEmail == Missing
    case Some(u) => sellerEmail == Text(u.email)
  }

  /** The ownership test as evidently intended: a signed-in user whose email
      is the seller's. */
  predicate IsOwnerIntended(user: Option<Session.Profile>, sellerEmail: JsonString) {
    user.Some? && sellerEmail == Text(user.value.email)
  }

  /** The contact card's action. */
  datatype Contact = OwnAdNotice | ChatButton | LoginLink

  /** The owner sees a disabled "To Twoje ogłoszenie" button, another signed-in
      user a button that opens the chat, and anyone else a link to the login
      page. */
  function ContactAction(isOwner: bool, user: Option<Session.Profile>): Contact {
    if isOwner then OwnAdNotice else if user.Some? then ChatButton else LoginLink
  }

  /** As written, a visitor who is not signed in, on an advertisement whose
      body has no `sellerEmail`, is taken for its owner and offered the
      disabled owner's button instead of the login link. */
  lemma AnonymousVisitorOwnsSellerlessAd()
    ensures IsOwner(None, Missing)
    ensures ContactAction(IsOwner(None, Missing), None) == OwnAdNotice
    ensures ContactAction(IsOwnerIntended(None, Missing), None) == LoginLink
  {
  }

  /** With the intended test, the owner's button goes only to the signed-in
      seller, a signed-in visitor who is not the seller gets the chat, and a
      visitor who is not signed in always gets the login link. The two tests
      agree whenever someone is signed in. */
  lemma IntendedContactCases(user: Option<Session.Profile>, sellerEmail: JsonString)
    ensures ContactAction(IsOwnerIntended(user, sellerEmail), user) == OwnAdNotice <==>
      user.Some? && sellerEmail == Text(user.value.email)
    ensures ContactAction(IsOwnerIntended(user, sellerEmail), user) == ChatButton <==>
      user.Some? && sellerEmail != Text(user.value.email)
    ensures ContactAction(IsOwnerIntended(user, sellerEmail), user) == LoginLink <==> user.None?
    ensures user.Some? ==> IsOwner(user, sellerEmail) == IsOwnerIntended(user, sellerEmail)
  {
  }

  /** As written, the only visitors taken for the owner without being the
      signed-in seller are anonymous visitors on an advertisement with no
      `sellerEmail`. */
  lemma OwnerTestDiffersOnlyWhenAnonymous(user: Option<Session.Profile>, sellerEmail: JsonString)
    ensures IsOwner(user, sellerEmail) != IsOwnerIntended(user, sellerEmail) <==>
      user.None? && sellerEmail == Missing
  {
  }
}
