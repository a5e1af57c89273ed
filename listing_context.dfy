/** The listing repository (src/context/ListingContext.jsx): the stored
    listings, the create / update / delete operations guarded by the current
    session, the lookups, and the multi-criteria search the search page uses too. */
module ListingContext {
  import opened Js
  import opened Sequences
  import opened Records
  import AuthContext

  /** The three errors the mutating operations throw. */
  datatype ListingError = NotLoggedIn | NotFound | NotOwner

  // ---------------------------------------------------------------------------
  // Search criteria

  /** The search page's filter object; the numeric filters hold '' when unset
      and a number (or NaN) once set. */
  datatype Filters = Filters(
    location: string, minSize: Value, maxSize: Value, propertyType: string,
    minPrice: Value, maxPrice: Value, purpose: string,
    floors: Value, rooms: Value, bedrooms: Value)

  /** Every filter unset. */
  const NoFilters: Filters := Filters("", Empty, Empty, "", Empty, Empty, "", Empty, Empty, Empty)

  /** `{ searchTerm, ...filters }`; a key the caller leaves out is falsy, like ''. */
  datatype Criteria = Criteria(searchTerm: string, filters: Filters)

  /** The search term occurs, ignoring ASCII case, in the title, the description or the address. */
  predicate TermOk(l: Listing, term: string)
  {
    term == "" ||
    Includes(Lower(l.title), Lower(term)) ||
    Includes(Lower(l.description), Lower(term)) ||
    Includes(Lower(l.address), Lower(term))
  }

  /** The location occurs, ignoring ASCII case, in the address. */
  predicate LocationOk(l: Listing, location: string)
  {
    location == "" || Includes(Lower(l.address), Lower(location))
  }

  /** `!(bound && x < bound)`: a falsy bound (unset, 0 or NaN) imposes nothing. */
  predicate MinOk(x: Value, bound: Value)
  {
    !Truthy(bound) || !Less(x, bound)
  }

  /** `!(bound && x > bound)` */
  predicate MaxOk(x: Value, bound: Value)
  {
    !Truthy(bound) || !Less(bound, x)
  }

  /** `!(want && x !== want)` for a string-valued criterion. */
  predicate SameText(x: string, want: string)
  {
    want == "" || x == want
  }

  /** `!(want && x !== want)` for a numeric criterion: strict equality, no coercion. */
  predicate CountOk(x: Value, want: Value)
  {
    !Truthy(want) || StrictEquals(x, want)
  }

  /** The floor-count criterion constrains apartments only. */
  predicate FloorsOk(l: Listing, floors: Value)
  {
    !Truthy(floors) || l.propertyType != "apartment" || StrictEquals(l.totalFloors, floors)
  }

  /** The predicate `searchListings` filters with: every criterion in turn. */
  predicate Matches(l: Listing, c: Criteria)
  {
    var f := c.filters;
    TermOk(l, c.searchTerm) &&
    LocationOk(l, f.location) &&
    MinOk(l.squareMeters, f.minSize) && MaxOk(l.squareMeters, f.maxSize) &&
    SameText(l.propertyType, f.propertyType) &&
    MinOk(l.price, f.minPrice) && MaxOk(l.price, f.maxPrice) &&
    SameText(l.listingType, f.purpose) &&
    FloorsOk(l, f.floors) &&
    CountOk(l.rooms, f.rooms) &&
    CountOk(l.bedrooms, f.bedrooms)
  }

  function MatchesCriteria(c: Criteria): Listing -> bool
  {
    (l: Listing) => Matches(l, c)
  }

  /** `listings.filter(...)` with the criteria: the matching listings, in
      their stored order. */
  function Search(ls: seq<Listing>, c: Criteria): (r: seq<Listing>)
    ensures forall l :: l in r <==> l in ls && Matches(l, c)
    ensures IsSubsequence(r, ls)
  {
    Filter(ls, MatchesCriteria(c))
  }

  /** With no criterion set every listing is found. */
  lemma SearchWithoutCriteria(ls: seq<Listing>)
    ensures Search(ls, Criteria("", NoFilters)) == ls
  {
    assert forall i :: 0 <= i < |ls| ==> MatchesCriteria(Criteria("", NoFilters))(ls[i]);
  }

  /** `c` asks for no more than `d`: each criterion of `c` is either unset or
      the same as in `d`. */
  predicate Looser(c: Criteria, d: Criteria)
  {
    var f, g := c.filters, d.filters;
    (c.searchTerm == "" || c.searchTerm == d.searchTerm) &&
    (f.location == "" || f.location == g.location) &&
    (!Truthy(f.minSize) || f.minSize == g.minSize) &&
    (!Truthy(f.maxSize) || f.maxSize == g.maxSize) &&
    (f.propertyType == "" || f.propertyType == g.propertyType) &&
    (!Truthy(f.minPrice) || f.minPrice == g.minPrice) &&
    (!Truthy(f.maxPrice) || f.maxPrice == g.maxPrice) &&
    (f.purpose == "" || f.purpose == g.purpose) &&
    (!Truthy(f.floors) || f.floors == g.floors) &&
    (!Truthy(f.rooms) || f.rooms == g.rooms) &&
    (!Truthy(f.bedrooms) || f.bedrooms == g.bedrooms)
  }

  /** Setting more criteria narrows the results: what a stricter search finds
      is a subsequence of what a looser one finds. */
  lemma SearchNarrows(ls: seq<Listing>, c: Criteria, d: Criteria)
    requires Looser(c, d)
    ensures IsSubsequence(Search(ls, d), Search(ls, c))
  {
    forall l ensures MatchesCriteria(d)(l) ==> MatchesCriteria(c)(l) {
    }
    FilterStronger(ls, MatchesCriteria(d), MatchesCriteria(c));
  }

  /** Size bounds are inclusive, and a bound of 0 is no bound at all. */
  lemma SizeBoundsInclusive(l: Listing, lo: nat, hi: nat, x: nat)
    requires l.squareMeters == Num(x)
    ensures MinOk(l.squareMeters, Num(lo)) && MaxOk(l.squareMeters, Num(hi))
        <==> lo <= x && (hi == 0 || x <= hi)
  {
  }

  /** A listing stored with an empty price is treated as costing 0: any
      minimum price excludes it and no maximum price does. */
  lemma EmptyPriceCountsAsZero(l: Listing, bound: nat)
    requires l.price == Empty && bound > 0
    ensures !MinOk(l.price, Num(bound))
    ensures MaxOk(l.price, Num(bound))
  {
    EmptyComparisons(bound);
  }

  /** The floor-count criterion never excludes a listing that is not an apartment. */
  lemma FloorsOnlyApartments(l: Listing, c: Criteria)
    requires l.propertyType != "apartment"
    ensures FloorsOk(l, c.filters.floors)
  {
  }

  /** The rooms and bedrooms criteria demand the exact count: a listing with
      more rooms than asked for is excluded. */
  lemma CountIsExact(x: nat, n: nat)
    requires n > 0
    ensures CountOk(Num(x), Num(n)) <==> x == n
    ensures !CountOk(Num(n + 1), Num(n))
  {
  }

  /** A count criterion held as a string never matches a numeric count. */
  lemma StringCountNeverMatches(x: nat, s: string)
    requires s != ""
    ensures !CountOk(Num(x), Str(s))
  {
  }

  // ---------------------------------------------------------------------------
  // Lookups and the mutating operations, as functions of the stored array

  function IdIs(id: string): Listing -> bool
  {
    (l: Listing) => l.id == id
  }

  function IdIsNot(id: string): Listing -> bool
  {
    (l: Listing) => l.id != id
  }

  function OwnerIs(ownerId: string): Listing -> bool
  {
    (l: Listing) => l.ownerId == ownerId
  }

  /** `listings.find(listing => listing.id === id)`: the first listing with that id. */
  function FindById(ls: seq<Listing>, id: string): (r: Option<Listing>)
    ensures r.None? <==> forall i :: 0 <= i < |ls| ==> ls[i].id != id
    ensures r.Some? ==> exists i :: 0 <= i < |ls| && ls[i] == r.value && r.value.id == id &&
                          forall j :: 0 <= j < i ==> ls[j].id != id
  {
    var found := Find(ls, IdIs(id));
    assert found.Some? ==> ls[FirstIndex(ls, IdIs(id)).value] == found.value;
    found
  }

  /** `listings.filter(listing => listing.ownerId === ownerId)` */
  function OwnedBy(ls: seq<Listing>, ownerId: string): (r: seq<Listing>)
    ensures forall l :: l in r <==> l in ls && l.ownerId == ownerId
    ensures IsSubsequence(r, ls)
  {
    Filter(ls, OwnerIs(ownerId))
  }

  /** `listings.filter(listing => listing.id !== id)` */
  function WithoutId(ls: seq<Listing>, id: string): (r: seq<Listing>)
    ensures forall l :: l in r <==> l in ls && l.id != id
    ensures IsSubsequence(r, ls)
  {
    Filter(ls, IdIsNot(id))
  }

  /** The checks `updateListing` and `deleteListing` make, in their order: a
      session, a listing with that id (the first one), owned by the session's
      user. On success, the position of that listing. */
  function Authorize(ls: seq<Listing>, user: Option<User>, id: string): (r: Result<nat, ListingError>)
    ensures r == Err(NotLoggedIn) <==> user.None?
    ensures r == Err(NotFound) <==> user.Some? && forall i :: 0 <= i < |ls| ==> ls[i].id != id
    ensures r == Err(NotOwner) <==> user.Some? && exists i :: 0 <= i < |ls| && ls[i].id == id && ls[i].ownerId != user.value.id &&
                                                   forall j :: 0 <= j < i ==> ls[j].id != id
    ensures r.Ok? <==> user.Some? && exists i :: 0 <= i < |ls| && ls[i].id == id && ls[i].ownerId == user.value.id &&
                                                   forall j :: 0 <= j < i ==> ls[j].id != id
    ensures r.Ok? ==> r.value < |ls| && ls[r.value].id == id && ls[r.value].ownerId == user.value.id &&
                      forall j :: 0 <= j < r.value ==> ls[j].id != id
  {
    if user.None? then Err(NotLoggedIn)
    else
      match FirstIndex(ls, IdIs(id))
      case None => Err(NotFound)
      case Some(i) =>
        if ls[i].ownerId != user.value.id then Err(NotOwner) else Ok(i)
  }

  /** Every key of a listing left blank: the value a key missing from the
      creation data stands for. */
  const Blank: Listing := Listing(
    "", "", "", "", "", "", "", "", "", Empty, Empty, Empty, Empty, Empty, Empty, "", [], "", "")

  /** The listing `createListing` builds: the generated id unless the data
      carries one, the data, then the owner taken from the session and both timestamps. */
  function NewListing(data: ListingData, u: User, newId: string, createdAt: string, updatedAt: string): Listing
  {
    Apply(Blank.(id := newId), data).(
      ownerId := u.id, ownerName := u.name, ownerEmail := u.email,
      createdAt := createdAt, updatedAt := updatedAt)
  }

  /** The new listing, key by key. */
  lemma NewListingGet(data: ListingData, u: User, newId: string, createdAt: string, updatedAt: string)
    ensures var n := NewListing(data, u, newId, createdAt, updatedAt);
      n.id == data.id.GetOr(newId) &&
      n.ownerId == u.id && n.ownerName == u.name && n.ownerEmail == u.email &&
      n.createdAt == createdAt && n.updatedAt == updatedAt &&
      forall k: Field :: !(k.Id? || k.OwnerId? || k.OwnerName? || k.OwnerEmail? || k.CreatedAt? || k.UpdatedAt?) ==>
        Get(n, k) == Lookup(data, k).GetOr(Get(Blank, k))
  {
    ApplyGet(Blank.(id := newId), data);
  }

  /** The listing `updateListing` stores: the old one, the data spread over it, a new timestamp. */
  function Updated(l: Listing, data: ListingData, now: string): Listing
  {
    Apply(l, data).(updatedAt := now)
  }

  /** The updated listing, key by key. */
  lemma UpdatedGet(l: Listing, data: ListingData, now: string)
    ensures forall k :: (Get(Updated(l, data, now), k) ==
                         if k.UpdatedAt? then Text(now) else Lookup(data, k).GetOr(Get(l, k)))
  {
    ApplyGet(l, data);
  }

  // ---------------------------------------------------------------------------
  // How the operations relate

  /** A created listing is found by its id when no older listing has that id;
      otherwise the older one shadows it. */
  lemma {:induction false} CreatedIsFound(ls: seq<Listing>, n: Listing)
    ensures FindById(ls + [n], n.id) == if FindById(ls, n.id).Some? then FindById(ls, n.id) else Some(n)
  {
    FirstIndexAppend(ls, n, IdIs(n.id));
  }

  /** Its creator may update and delete a listing created with a fresh id. */
  lemma {:induction false} CreatorIsOwner(ls: seq<Listing>, data: ListingData, u: User, newId: string, createdAt: string, updatedAt: string)
    requires FindById(ls, data.id.GetOr(newId)).None?
    ensures var n := NewListing(data, u, newId, createdAt, updatedAt);
      Authorize(ls + [n], Some(u), n.id) == Ok(|ls|)
  {
    var n := NewListing(data, u, newId, createdAt, updatedAt);
    FirstIndexAppend(ls, n, IdIs(n.id));
  }

  /** A created listing appears, last, among its creator's listings. */
  lemma CreatedIsMine(ls: seq<Listing>, data: ListingData, u: User, newId: string, createdAt: string, updatedAt: string)
    ensures var n := NewListing(data, u, newId, createdAt, updatedAt);
      OwnedBy(ls + [n], u.id) == OwnedBy(ls, u.id) + [n]
  {
    var n := NewListing(data, u, newId, createdAt, updatedAt);
    FilterAppend(ls, n, OwnerIs(u.id));
  }

  /** After a delete no listing with that id remains, so the same delete (or an
      update of that id) fails with NotFound. */
  lemma DeleteThenNotFound(ls: seq<Listing>, u: User, id: string)
    ensures FindById(WithoutId(ls, id), id).None?
    ensures Authorize(WithoutId(ls, id), Some(u), id) == Err(NotFound)
  {
    var r := WithoutId(ls, id);
    assert forall i :: 0 <= i < |r| ==> r[i] in r;
  }

  /** When ids are unique, a delete removes exactly the authorised listing. */
  lemma DeleteRemovesOne(ls: seq<Listing>, id: string, i: nat)
    requires i < |ls| && ls[i].id == id
    requires forall j :: 0 <= j < |ls| && j != i ==> ls[j].id != id
    ensures WithoutId(ls, id) == ls[..i] + ls[i + 1..]
  {
    FilterAllButOne(ls, IdIsNot(id), i);
  }

  /** The owner check looks at the stored owner only: an update whose data
      names another owner hands the listing over, and the next update by the
      same user is refused. */
  lemma UpdateCanTransferOwnership(ls: seq<Listing>, u: User, id: string, data: ListingData, now: string, other: string)
    requires Authorize(ls, Some(u), id).Ok?
    requires data.id.None? && data.ownerId == Some(other) && other != u.id
    ensures var i := Authorize(ls, Some(u), id).value;
      Authorize(ls[i := Updated(ls[i], data, now)], Some(u), id) == Err(NotOwner)
  {
    var i := Authorize(ls, Some(u), id).value;
    var n := Updated(ls[i], data, now);
    assert n.id == id && n.ownerId == other;
    var ls' := ls[i := n];
    assert IdIs(id)(ls'[i]);
    var k := FirstIndex(ls', IdIs(id));
    assert forall j :: 0 <= j < i ==> !IdIs(id)(ls'[j]);
    assert k == Some(i);
  }

  // ---------------------------------------------------------------------------
  // The provider

  class ListingProvider {
    var listings: seq<Listing>
    const auth: AuthContext.AuthProvider

    /** Start-up: the stored listings, or none. */
    constructor (auth: AuthContext.AuthProvider, stored: Option<seq<Listing>>)
      ensures this.auth == auth
      ensures listings == stored.GetOr([])
    {
      this.auth := auth;
      listings := stored.GetOr([]);
    }

    /** `createListing`: refused without a session; otherwise the new listing
        is appended and returned. */
    method CreateListing(data: ListingData, newId: string, createdAt: string, updatedAt: string)
      returns (r: Result<Listing, ListingError>)
      modifies this
      ensures auth.currentUser.None? ==> r == Err(NotLoggedIn) && listings == old(listings)
      ensures auth.currentUser.Some? ==>
        r == Ok(NewListing(data, auth.currentUser.value, newId, createdAt, updatedAt)) &&
        listings == old(listings) + [r.value]
    {
      if auth.currentUser.None? {
        return Err(NotLoggedIn);
      }
      var n := NewListing(data, auth.currentUser.value, newId, createdAt, updatedAt);
      listings := listings + [n];
      r := Ok(n);
    }

    /** `updateListing`: after the checks, the listing at the found position is
        replaced by the updated one; nothing else changes. */
    method UpdateListing(id: string, data: ListingData, now: string)
      returns (r: Result<Listing, ListingError>)
      modifies this
      ensures var a := Authorize(old(listings), auth.currentUser, id);
        (a.Err? ==> r == Err(a.error) && listings == old(listings)) &&
        (a.Ok? ==> r == Ok(Updated(old(listings)[a.value], data, now)) &&
                   listings == old(listings)[a.value := r.value])
    {
      var a := Authorize(listings, auth.currentUser, id);
      if a.Err? {
        return Err(a.error);
      }
      var updated := Updated(listings[a.value], data, now);
      listings := listings[a.value := updated];
      r := Ok(updated);
    }

    /** `deleteListing`: after the checks, every listing with that id is removed. */
    method DeleteListing(id: string) returns (r: Result<(), ListingError>)
      modifies this
      ensures var a := Authorize(old(listings), auth.currentUser, id);
        (a.Err? ==> r == Err(a.error) && listings == old(listings)) &&
        (a.Ok? ==> r == Ok(()) && listings == WithoutId(old(listings), id))
    {
      var a := Authorize(listings, auth.currentUser, id);
      if a.Err? {
        return Err(a.error);
      }
      listings := WithoutId(listings, id);
      r := Ok(());
    }

    /** `getAllListings` */
    function GetAllListings(): (r: seq<Listing>)
      reads this
      ensures r == listings
    {
      listings
    }

    /** `getListingById` */
    function GetListingById(id: string): (r: Option<Listing>)
      reads this
      ensures r.None? <==> forall i :: 0 <= i < |listings| ==> listings[i].id != id
      ensures r.Some? ==> exists i :: 0 <= i < |listings| && listings[i] == r.value && r.value.id == id &&
                            forall j :: 0 <= j < i ==> listings[j].id != id
    {
      FindById(listings, id)
    }

    /** `getListingsByOwnerId` */
    function GetListingsByOwnerId(ownerId: string): (r: seq<Listing>)
      reads this
      ensures forall l :: l in r <==> l in listings && l.ownerId == ownerId
      ensures IsSubsequence(r, listings)
    {
      OwnedBy(listings, ownerId)
    }

    /** `getMyListings`: nothing without a session, else the session user's listings. */
    function GetMyListings(): (r: seq<Listing>)
      reads this, auth
      ensures auth.currentUser.None? ==> r == []
      ensures auth.currentUser.Some? ==>
        (forall l :: l in r <==> l in listings && l.ownerId == auth.currentUser.value.id) &&
        IsSubsequence(r, listings)
    {
      if auth.currentUser.None? then [] else OwnedBy(listings, auth.currentUser.value.id)
    }

    /** `searchListings` */
    function SearchListings(c: Criteria): (r: seq<Listing>)
      reads this
      ensures forall l :: l in r <==> l in listings && Matches(l, c)
      ensures IsSubsequence(r, listings)
    {
      Search(listings, c)
    }
  }
}
