/** The detail page of one listing (src/pages/ListingDetailPage.jsx): the
    listing looked up by its id, the image carousel's current index, the owner
    controls and the delete button. */
module ListingDetailPage {
  import opened Js
  import opened Records
  import ListingContext

  // ---------------------------------------------------------------------------
  // The carousel index

  /** `handlePrevImage`: the index before `i`, the last one before the first. */
  function PrevImageIndex(i: int, count: int): (r: int)
    ensures 0 <= i < count ==> 0 <= r < count && (r + 1) % count == i
  {
    if i == 0 then count - 1 else i - 1
  }

  /** `handleNextImage`: the index after `i`, the first one after the last. */
  function NextImageIndex(i: int, count: int): (r: int)
    ensures 0 <= i < count ==> 0 <= r < count && r == (i + 1) % count
  {
    if i == count - 1 then 0 else i + 1
  }

  /** Previous undoes Next and Next undoes Previous. */
  lemma PrevNextInverse(i: int, count: int)
    requires 0 <= i < count
    ensures PrevImageIndex(NextImageIndex(i, count), count) == i
    ensures NextImageIndex(PrevImageIndex(i, count), count) == i
  {
  }

  /** Next pressed `k` times. */
  function NextTimes(i: int, count: int, k: nat): int
  {
    if k == 0 then i else NextImageIndex(NextTimes(i, count, k - 1), count)
  }

  /** Euclidean remainder is determined by any quotient-remainder split. */
  lemma ModOfSplit(x: int, q: int, c: int, m: int)
    requires 0 <= m < c && x == q * c + m
    ensures x % c == m
  {
    var q', m' := x / c, x % c;
    assert q' * c + m' == x;
    if q' < q {
      assert (q - q') * c == q * c - q' * c;
      MulGrows(q - q', c);
    } else if q' > q {
      assert (q' - q) * c == q' * c - q * c;
      MulGrows(q' - q, c);
    }
  }

  lemma {:induction false} MulGrows(d: int, c: int)
    requires 1 <= d && 0 < c
    ensures d * c >= c
  {
    if d > 1 {
      MulGrows(d - 1, c);
      assert d * c == (d - 1) * c + c;
    }
  }

  /** One step from `x % c` lands on `(x + 1) % c`. */
  lemma NextOfRemainder(x: int, c: int)
    requires 0 < c
    ensures NextImageIndex(x % c, c) == (x + 1) % c
  {
    var q, m := x / c, x % c;
    if m == c - 1 {
      ModOfSplit(x + 1, q + 1, c, 0);
    } else {
      ModOfSplit(x + 1, q, c, m + 1);
    }
  }

  /** Pressing Next `k` times moves `k` places round the images: after as many
      presses as there are images the carousel is back where it started. */
  lemma {:induction false} NextTimesWraps(i: int, count: int, k: nat)
    requires 0 <= i < count
    ensures NextTimes(i, count, k) == (i + k) % count
    ensures k == count ==> NextTimes(i, count, k) == i
  {
    if k == 0 {
      ModOfSplit(i, 0, count, i);
    } else {
      NextTimesWraps(i, count, k - 1);
      NextOfRemainder(i + k - 1, count);
    }
    if k == count {
      ModOfSplit(i + k, 1, count, i);
    }
  }

  // ---------------------------------------------------------------------------
  // The owner controls

  /** `isOwner`: a session, a loaded listing, and the session's user owns it. */
  predicate Owns(user: Option<User>, listing: Option<Listing>)
  {
    user.Some? && listing.Some? && user.value.id == listing.value.ownerId
  }

  /** The page shows the edit and delete controls for the listing it looked up
      exactly when the store would let the session update or delete that id. */
  lemma OwnerControlsIffAuthorized(ls: seq<Listing>, user: Option<User>, id: string)
    ensures Owns(user, ListingContext.FindById(ls, id)) <==> ListingContext.Authorize(ls, user, id).Ok?
  {
    var found := ListingContext.FindById(ls, id);
    if found.Some? {
      var i :| 0 <= i < |ls| && ls[i] == found.value && found.value.id == id &&
               forall j :: 0 <= j < i ==> ls[j].id != id;
      if user.Some? && ListingContext.Authorize(ls, user, id).Ok? {
        var a := ListingContext.Authorize(ls, user, id).value;
        assert a == i;
      }
    }
  }

  // ---------------------------------------------------------------------------
  // The page

  /** What the page shows instead of the listing. */
  datatype PageError = ListingNotFound | DeleteFailed(reason: ListingContext.ListingError)

  class Page {
    const provider: ListingContext.ListingProvider
    const id: string
    var listing: Option<Listing>
    var error: Option<PageError>
    var currentImageIndex: int

    /** The carousel index is a position of the listing's images whenever
        there are any. */
    predicate Valid()
      reads this
    {
      0 <= currentImageIndex &&
      (listing.Some? && |listing.value.images| > 0 ==> currentImageIndex < |listing.value.images|)
    }

    /** `fetchListing`: the listing with the route's id, or "Listing not found";
        the carousel starts on the first image. */
    constructor (provider: ListingContext.ListingProvider, id: string)
      ensures this.provider == provider && this.id == id
      ensures listing == provider.GetListingById(id)
      ensures error == if listing.None? then Some(ListingNotFound) else None
      ensures currentImageIndex == 0
      ensures Valid()
    {
      this.provider := provider;
      this.id := id;
      var found := provider.GetListingById(id);
      listing := found;
      error := if found.None? then Some(ListingNotFound) else None;
      currentImageIndex := 0;
    }

    /** `isOwner` */
    predicate IsOwner()
      reads this, provider, provider.auth
    {
      Owns(provider.auth.currentUser, listing)
    }

    /** The previous-image button, shown when there is more than one image. */
    method PreviousImage()
      requires Valid() && listing.Some? && |listing.value.images| > 1
      modifies this
      ensures listing == old(listing) && error == old(error)
      ensures Valid()
      ensures currentImageIndex == PrevImageIndex(old(currentImageIndex), |listing.value.images|)
    {
      currentImageIndex := PrevImageIndex(currentImageIndex, |listing.value.images|);
    }

    /** The next-image button, shown when there is more than one image. */
    method NextImage()
      requires Valid() && listing.Some? && |listing.value.images| > 1
      modifies this
      ensures listing == old(listing) && error == old(error)
      ensures Valid()
      ensures currentImageIndex == NextImageIndex(old(currentImageIndex), |listing.value.images|)
    {
      currentImageIndex := NextImageIndex(currentImageIndex, |listing.value.images|);
    }

    /** A thumbnail, one per image, shown when there is more than one image. */
    method SelectImage(index: int)
      requires Valid() && listing.Some? && |listing.value.images| > 1
      requires 0 <= index < |listing.value.images|
      modifies this
      ensures Valid()
      ensures currentImageIndex == index
      ensures listing == old(listing) && error == old(error)
    {
      currentImageIndex := index;
    }

    /** `handleDelete`: the store deletes the listing or refuses, and a refusal
        is shown on the page. */
    method HandleDelete() returns (deleted: bool)
      modifies this, provider
      ensures var a := ListingContext.Authorize(old(provider.listings), provider.auth.currentUser, id);
        (a.Ok? ==> deleted && provider.listings == ListingContext.WithoutId(old(provider.listings), id) &&
                   error == old(error)) &&
        (a.Err? ==> !deleted && provider.listings == old(provider.listings) &&
                    error == Some(DeleteFailed(a.error)))
      ensures listing == old(listing) && currentImageIndex == old(currentImageIndex)
    {
      var r := provider.DeleteListing(id);
      deleted := r.Ok?;
      if r.Err? {
        error := Some(DeleteFailed(r.error));
      }
    }
  }
}
