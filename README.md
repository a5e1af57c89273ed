# hennohome — a Dafny model of the listing store, search, sign-in, listing form and detail page

hennohome is a single-page real-estate application. Users sign up and sign in.
A signed-in user can publish property listings (apartments, houses, cottages,
commercial space, land; for sale or for rent), edit them and delete them.
Anyone can search the listings by a free-text term and ten filters, page
through the results, and open a listing's detail page with its image carousel.

The model covers:

- the identity store (`AuthContext`): registered users, the current session, `signup`, `login` and `logout`;
- the listing store (`ListingContext`): `createListing`, `updateListing` and `deleteListing` with their three checks, the lookups, and `searchListings`;
- the search page (`SearchPage`): the term and filters kept in the URL's query string and read back from it, the filter-change and reset handlers, the search, and pagination;
- the listing form (`ListingForm`): its initial data, the change handlers, the image list, validation, and the data handed over on submit;
- the detail page (`ListingDetailPage`): the carousel index, the owner test that shows the edit and delete controls, and the delete button.

The JavaScript semantics the code relies on are made explicit in `Js`:

- truthiness (`''`, `0` and `NaN` are falsy);
- `===`;
- the `<` operator between strings and numbers;
- `Number(string)`, `String(value)`, `trim`, `toLowerCase` and `includes`.

A listing is a record of nineteen keys. A partial object whose keys may be
missing (`listingData`, `formData`) is `Records.ListingData`. The spread
`{...a, ...b}` is `Records.Apply` (onto a listing) or `Records.Merge` (between
two partial objects).

State that the source updates in place is a class:

- `AuthProvider` with its users and session;
- `ListingProvider` with its listings;
- the search `Page`;
- the `Form`;
- the detail `Page`.

Each of their methods states the whole new state. Each neighbours a pure,
specifying function; the lemmas are proved about those functions.

Clock readings (`Date.now()` ids, ISO timestamps) and the URL a page is opened
with are parameters.

## Model

| member | source | states |
|---|---|---|
| Js.Truthy | src/context/ListingContext.jsx:141 | a value is truthy unless it is `''`, 0 or NaN; `SizeBoundsInclusive`, `EmptyPriceCountsAsZero` and `ZeroRefusedAsWritten` state what the guards built on it do |
| Js.StrictEquals | src/context/ListingContext.jsx:172 | `===` with no coercion, and never true for NaN; `CountIsExact` and `StringCountNeverMatches` state what the count criteria built on it do |
| Js.TrimStart | src/components/ListingForm.jsx:147-153 | `trim` drops exactly the leading whitespace: the result is a suffix, begins with a non-whitespace character or is empty, and everything dropped is whitespace |
| Js.TrimEnd | src/components/ListingForm.jsx:147-153 | the same for the trailing whitespace, at the other end |
| Js.Trim | src/components/ListingForm.jsx:146 | `trim`: leading, then trailing whitespace dropped; `TrimStart`, `TrimEnd`, `BlankIffAllWhitespace` and `TrimKeepsUnpadded` state its properties |
| Js.BlankIffAllWhitespace | src/components/ListingForm.jsx:147-153 | a string is empty once trimmed exactly when it is all whitespace |
| Js.TrimKeepsUnpadded | src/components/ListingForm.jsx:75 | a string with no whitespace at either end is unchanged by `trim` |
| Js.DecimalString | src/pages/SearchPage.jsx:55 | `String(n)` is a non-empty string of digits with no leading zero |
| Js.DecimalRoundTrip | src/pages/SearchPage.jsx:14 | reading back the digits `String(n)` writes gives `n` |
| Js.StringToNumber | src/pages/SearchPage.jsx:14-22 | `Number(s)` of a string is never a string: it is a number or NaN |
| Js.NumberOfString | src/pages/SearchPage.jsx:14-22 | `Number(String(v))` is `v` for every number and for NaN |
| Js.DecimalNumberRoundTrip | src/pages/SearchPage.jsx:14-22 | `Number(String(n))` is `n` for every natural `n` |
| Js.NaNRoundTrip | src/pages/SearchPage.jsx:14-22 | `Number("NaN")` is NaN |
| Js.NumberInputValue | src/pages/SearchPage.jsx:166 | a number input stores `''` exactly when it is empty, and otherwise `Number` of its text |
| Js.Less | src/context/ListingContext.jsx:141-158 | `<`: two strings compare by code point, otherwise both sides are converted with `Number` and NaN compares false; `EmptyComparisons` and `SizeBoundsInclusive` state its effect on the bounds |
| Js.Lower | src/context/ListingContext.jsx:129 | `toLowerCase` keeps the length |
| Sequences.Filter | src/context/ListingContext.jsx:127 | `filter` keeps exactly the elements that pass, in their order; it keeps all of them when all pass |
| Sequences.FilterMultiplicity | src/context/ListingContext.jsx:127 | `filter` keeps every passing element as often as it occurs, and none of the others |
| Sequences.FirstIndex | src/context/ListingContext.jsx:60 | `findIndex` finds the first position that passes, or none when none does |
| Sequences.Find | src/context/ListingContext.jsx:91 | `find` gives the element at the position `findIndex` gives |
| Sequences.FirstIndexAppend | src/context/ListingContext.jsx:50 | after an append, `findIndex` finds the old match if there was one, else the new element if it passes |
| Sequences.FilterOutIndex | src/components/ListingForm.jsx:135 | `filter((_, i) => i !== index)` removes exactly the element at `index`, and nothing when `index` is out of range |
| Sequences.FilterAppend | src/context/ListingContext.jsx:50 | filtering after an append is filtering before it, plus the new element if it passes |
| Sequences.FilterStronger | src/context/ListingContext.jsx:127-182 | a stricter test keeps a subsequence of what a looser test keeps |
| Sequences.FilterAllButOne | src/context/ListingContext.jsx:101 | when a single element fails the test, filtering removes just that one |
| Records.Get | src/context/ListingContext.jsx:40-48 | every key of a listing holds a value of its kind (text, number or image list) |
| Records.Lookup | src/components/ListingForm.jsx:9-24 | a key present in a partial object holds a value of its kind |
| Records.Apply | src/context/ListingContext.jsx:72-76 | `{...l, ...d}` of a listing and a partial object; `ApplyGet`, `ApplyMerge` and `ApplyLaws` state its properties |
| Records.ApplyGet | src/context/ListingContext.jsx:72-76 | `{...l, ...d}`: every key present in `d` takes `d`'s value, every other key keeps `l`'s |
| Records.Merge | src/components/ListingForm.jsx:9-24 | `{...a, ...b}` of two partial objects; `MergeLookup` states it key by key |
| Records.MergeLookup | src/components/ListingForm.jsx:9-24 | `{...a, ...b}` of two partial objects: a key present in `b` is `b`'s, otherwise `a`'s or missing |
| Records.ToData | src/components/ListingForm.jsx:23 | a listing spread as an object has every key present, with the listing's values |
| Records.ApplyMerge | src/context/ListingContext.jsx:72-76 | spreading two objects in turn is spreading their merge |
| Records.ApplyLaws | src/context/ListingContext.jsx:72-76 | spreading `{}` changes nothing; spreading a whole listing gives that listing; spreading the same object twice is spreading it once |
| Records.With | src/components/ListingForm.jsx:43-57 | `{...d, [k]: v}`; `WithLookup` states that it sets `k` and keeps every other key |
| Records.WithLookup | src/components/ListingForm.jsx:48-56 | `{...d, [name]: v}` sets that key to `v` and keeps every other key |
| AuthContext.EmailTaken | src/context/AuthContext.jsx:42 | `users.some(user => user.email === email)`; `SignupKeepsEmailsUnique` and `AuthProvider.Signup` state what its guard gives |
| AuthContext.FindByCredentials | src/context/AuthContext.jsx:62 | a user is found exactly when one has that email and that password, and then it is the first such user |
| AuthContext.SignupKeepsEmailsUnique | src/context/AuthContext.jsx:42-47 | appending a user whose email is not taken keeps the emails unique |
| AuthContext.LoginFindsNewUser | src/context/AuthContext.jsx:47-62 | right after a signup, logging in with the new email and password finds the new user |
| AuthContext.AuthProvider.constructor | src/context/AuthContext.jsx:17-23 | the session at start-up is the stored user if there is one, none otherwise |
| AuthContext.AuthProvider.Signup | src/context/AuthContext.jsx:26-55 | a taken email fails with EmailAlreadyExists and changes nothing; otherwise exactly the new user is appended, becomes the session and is returned; unique emails stay unique |
| AuthContext.AuthProvider.Login | src/context/AuthContext.jsx:58-73 | it fails with InvalidCredentials and leaves the session alone when no user matches both email and password; otherwise the first match becomes the session and is returned; the users never change |
| AuthContext.AuthProvider.Logout | src/context/AuthContext.jsx:76-79 | the session is none afterwards, whatever it was, and the users are unchanged |
| ListingContext.Matches | src/context/ListingContext.jsx:127-182 | the filter callback: the term and every set criterion hold; `Search`, `SearchNarrows`, `SizeBoundsInclusive`, `EmptyPriceCountsAsZero`, `FloorsOnlyApartments`, `CountIsExact` and `StringCountNeverMatches` state its properties |
| ListingContext.Search | src/context/ListingContext.jsx:126-183 | the found listings are an order-keeping subsequence of the listings, and a listing is found exactly when it meets every criterion that is set |
| ListingContext.SearchWithoutCriteria | src/context/ListingContext.jsx:126-183 | with no term and no filter, every listing is found, in order |
| ListingContext.SearchNarrows | src/context/ListingContext.jsx:126-183 | setting more criteria finds a subsequence of what fewer criteria find |
| ListingContext.SizeBoundsInclusive | src/context/ListingContext.jsx:141-146 | a size is within the bounds exactly when `min <= size` and `size <= max`, and a bound of 0 imposes nothing |
| ListingContext.EmptyPriceCountsAsZero | src/context/ListingContext.jsx:154-159 | a listing stored with an empty price fails every minimum price and passes every maximum price |
| Js.EmptyComparisons | src/context/ListingContext.jsx:154-159 | an empty string compared with a number behaves as 0: it is below every positive number and above none |
| ListingContext.FloorsOnlyApartments | src/context/ListingContext.jsx:167-169 | the floor-count criterion never excludes a listing that is not an apartment |
| ListingContext.CountIsExact | src/context/ListingContext.jsx:172-179 | the room and bedroom criteria demand the exact count, so a listing with one room more is excluded |
| ListingContext.StringCountNeverMatches | src/context/ListingContext.jsx:172-179 | a count criterion held as a non-empty string never equals a numeric count |
| ListingContext.FindById | src/context/ListingContext.jsx:110-112 | `getListingById` finds nothing exactly when no listing has the id, and otherwise the first listing with it |
| ListingContext.OwnedBy | src/context/ListingContext.jsx:115-117 | the listings of an owner are exactly those whose `ownerId` is that owner, in their order |
| ListingContext.WithoutId | src/context/ListingContext.jsx:101 | the delete filter keeps exactly the listings with another id, in their order |
| ListingContext.Authorize | src/context/ListingContext.jsx:56-70 | the checks run in order, each stated both ways: NotLoggedIn exactly when there is no session; NotFound exactly when there is a session and no listing has the id; NotOwner exactly when there is a session and the first listing with the id belongs to someone else; otherwise Ok with the position of that listing |
| ListingContext.NewListing | src/context/ListingContext.jsx:40-48 | the listing `createListing` builds; `NewListingGet` states it key by key |
| ListingContext.NewListingGet | src/context/ListingContext.jsx:40-48 | a new listing takes its id from the data if given, else the new id; owner, name, email and both timestamps from the session and the clock; every other key from the data, blank where missing |
| ListingContext.Updated | src/context/ListingContext.jsx:72-76 | the listing `updateListing` stores; `UpdatedGet` states it key by key |
| ListingContext.UpdatedGet | src/context/ListingContext.jsx:72-76 | an updated listing takes every key in the data from the data, `updatedAt` from the clock, and keeps every other key |
| ListingContext.CreatedIsFound | src/context/ListingContext.jsx:50-111 | after a create, looking up the new id gives the new listing unless an older listing already had that id |
| ListingContext.CreatorIsOwner | src/context/ListingContext.jsx:40-70 | the creator of a listing with a fresh id is authorised to update and delete it, at its position at the end |
| ListingContext.CreatedIsMine | src/context/ListingContext.jsx:50-123 | after a create, the creator's listings are the ones before plus the new listing at the end |
| ListingContext.DeleteThenNotFound | src/context/ListingContext.jsx:91-101 | after a delete no listing has the id, so a second delete or an update of it fails with NotFound |
| ListingContext.DeleteRemovesOne | src/context/ListingContext.jsx:101 | when only one listing has the id, the delete removes exactly that listing |
| ListingContext.UpdateCanTransferOwnership | src/context/ListingContext.jsx:68-76 | an update whose data names another owner hands the listing over, and the same user's next update is refused with NotOwner |
| ListingContext.ListingProvider.constructor | src/context/ListingContext.jsx:19-25 | the listings at start-up are the stored ones, or none |
| ListingContext.ListingProvider.CreateListing | src/context/ListingContext.jsx:35-52 | without a session it fails with NotLoggedIn and changes nothing; otherwise exactly the new listing is appended and returned |
| ListingContext.ListingProvider.UpdateListing | src/context/ListingContext.jsx:55-83 | a failed check changes nothing and gives its error; otherwise only the listing at the authorised position is replaced, by the updated listing, which is returned |
| ListingContext.ListingProvider.DeleteListing | src/context/ListingContext.jsx:86-102 | a failed check changes nothing and gives its error; otherwise every listing with the id is removed and all others keep their order |
| ListingContext.ListingProvider.GetAllListings | src/context/ListingContext.jsx:105-107 | the stored listings themselves |
| ListingContext.ListingProvider.GetListingById | src/context/ListingContext.jsx:110-112 | nothing exactly when no stored listing has the id, otherwise the first stored listing with that id |
| ListingContext.ListingProvider.GetListingsByOwnerId | src/context/ListingContext.jsx:115-117 | exactly the stored listings with that owner, in their order |
| ListingContext.ListingProvider.GetMyListings | src/context/ListingContext.jsx:120-123 | nothing without a session, otherwise exactly the session user's listings, in their order |
| ListingContext.ListingProvider.SearchListings | src/context/ListingContext.jsx:126-183 | exactly the stored listings meeting every set criterion, in their order |
| SearchPage.QueryGet | src/pages/SearchPage.jsx:11-22 | `searchParams.get` is null exactly when the name is absent, else the value of its first pair |
| SearchPage.RemoveKey | src/pages/SearchPage.jsx:55 | removing a name leaves exactly the pairs with other names |
| SearchPage.QuerySet | src/pages/SearchPage.jsx:51-55 | `URLSearchParams.set`; `QuerySetGet`, `QuerySetOther` and `QuerySetAppends` state its properties |
| SearchPage.QuerySetGet | src/pages/SearchPage.jsx:51-55 | after `set`, `get` gives the value set |
| SearchPage.QuerySetOther | src/pages/SearchPage.jsx:51-55 | `set` leaves the value of every other name as it was |
| SearchPage.QuerySetAppends | src/pages/SearchPage.jsx:51-55 | `set` of a name not yet present appends its pair at the end, leaving the earlier pairs in order |
| SearchPage.RemoveKeyOther | src/pages/SearchPage.jsx:55 | dropping the later pairs of one name leaves the value of every other name as it was |
| SearchPage.QueryGetAppend | src/pages/SearchPage.jsx:51-57 | `get` on two pair lists joined finds the first list's pair if it has the name, else the second's |
| SearchPage.ToQuery | src/pages/SearchPage.jsx:48-60 | the query string the effect writes for a state; `BuildSearchParams`, `EmittedGet` and `RoundTrip` state its properties |
| SearchPage.FromQuery | src/pages/SearchPage.jsx:11-23 | the state the page reads from a query string; `FromQueryWellFormed`, `FromQueryOf`, `RoundTrip` and `NormalisedQueryIsStable` state its properties |
| SearchPage.Entries | src/pages/SearchPage.jsx:51-57 | the state gives eleven candidate pairs, `q` and the ten filters |
| SearchPage.EntriesDistinct | src/pages/SearchPage.jsx:51-57 | the eleven names are distinct |
| SearchPage.ParseNumber | src/pages/SearchPage.jsx:14-22 | a numeric filter read from the query string is `''`, a number or NaN |
| SearchPage.FromQueryWellFormed | src/pages/SearchPage.jsx:11-23 | the state read from any query string has every numeric filter `''`, a number or NaN |
| SearchPage.EmittedNames | src/pages/SearchPage.jsx:51-57 | a name none of the pairs carries is absent from the query string |
| SearchPage.EmittedGet | src/pages/SearchPage.jsx:51-57 | in the query string, a filter's name is absent when its value is `''`, and otherwise maps to the value written out |
| SearchPage.ParseNumberOfParam | src/pages/SearchPage.jsx:14-55 | a numeric filter written to the query string reads back as the same value |
| SearchPage.RoundTrip | src/pages/SearchPage.jsx:11-60 | the state read back from the query string written for it is that state, for every well-formed state |
| SearchPage.FromQueryOf | src/pages/SearchPage.jsx:11-22 | the state read from a query string is determined by what `get` gives for its eleven names |
| SearchPage.TextRoundTrip | src/pages/SearchPage.jsx:11-19 | a text filter reads back from the query string as written, `''` when absent |
| SearchPage.NumberRoundTrip | src/pages/SearchPage.jsx:14-22 | a numeric filter reads back from the query string as written |
| SearchPage.NormalisedQueryIsStable | src/pages/SearchPage.jsx:11-60 | a state read from any URL survives writing it out and reading it back |
| SearchPage.BuildSearchParams | src/pages/SearchPage.jsx:48-60 | the loop builds exactly the query string of the state: `q` when the term is non-empty, each filter whose value is not `''`, in key order |
| SearchPage.EmitStep | src/pages/SearchPage.jsx:53-57 | each step of the loop appends the next filter's pair, whose name is not yet present |
| SearchPage.WithFilterGet | src/pages/SearchPage.jsx:164-172 | `{...filters, [name]: v}` sets that filter and keeps every other |
| SearchPage.ChangeFilterAsWritten | src/pages/SearchPage.jsx:159-176 | `handleFilterChange` as written; `ChangeFilterAsWrittenWellFormed`, `SelectPickIllFormed`, `RoomsSelectExcludesAll`, `BedroomsSelectExcludesAll`, `FloorsSelectExcludesApartments` and `RoomsSelectLostOnReload` state its properties |
| SearchPage.ChangeFilter | src/pages/SearchPage.jsx:159-176 | corrected, `handleFilterChange` converting every numeric filter; `ChangeFilterWellFormed`, `SelectedCountMatches` and `ChangeFilterRoundTrip` state its properties |
| SearchPage.RoomsSelectExcludesAll | src/pages/SearchPage.jsx:115-172 | as written, picking a room count excludes every listing that has a numeric room count |
| SearchPage.BedroomsSelectExcludesAll | src/pages/SearchPage.jsx:120-172 | as written, picking a bedroom count excludes every listing that has a numeric bedroom count |
| SearchPage.FloorsSelectExcludesApartments | src/pages/SearchPage.jsx:110-172 | as written, picking a floor count excludes every apartment that has a numeric floor count |
| SearchPage.RoomsSelectLostOnReload | src/pages/SearchPage.jsx:21-172 | as written, the room count picked is the string "3" in the page's state, but the number 3 once read back from the page's own query string |
| SearchPage.SelectedCountMatches | src/pages/SearchPage.jsx:110-122 | corrected, picking a count `n` stores the number `n`, and the count criterion then holds exactly for the listings whose count is `n` |
| SearchPage.ChangeFilterRoundTrip | src/pages/SearchPage.jsx:11-176 | corrected, a filter change keeps the state well formed, so the state survives writing to the query string and reading it back |
| SearchPage.ChangeFilterWellFormed | src/pages/SearchPage.jsx:159-176 | corrected, a filter change on a well-formed state leaves it well formed |
| SearchPage.ChangeFilterAsWrittenWellFormed | src/pages/SearchPage.jsx:159-176 | as written, a change of the location, the purpose, the property type or a size or price bound keeps the state well formed |
| SearchPage.SelectPickIllFormed | src/pages/SearchPage.jsx:159-176 | as written, a non-empty pick in the floors, rooms or bedrooms select leaves the filters ill formed, with the count held as a string |
| SearchPage.TotalPages | src/pages/SearchPage.jsx:205 | `Math.ceil(n / 9)`: the pages hold all the results, and one page fewer would not |
| SearchPage.SliceIndex | src/pages/SearchPage.jsx:204 | a `slice` bound is normalised into the sequence, and an in-range bound is kept |
| SearchPage.Slice | src/pages/SearchPage.jsx:204 | `Array.prototype.slice` with both bounds normalised; `SliceIndex` and `PageContents` state its properties |
| SearchPage.PageItems | src/pages/SearchPage.jsx:202-204 | the results of one page; `PageContents`, `PageNonEmptyIffInRange`, `AllPagesPrefix` and `PagesPartitionResults` state its properties |
| SearchPage.PageContents | src/pages/SearchPage.jsx:202-204 | page `k` is exactly `results[9(k-1) .. 9k)`, cut at the end, and holds at most nine |
| SearchPage.PageNonEmptyIffInRange | src/pages/SearchPage.jsx:202-205 | a page has results exactly when its number is at most the page count |
| SearchPage.AllPagesPrefix | src/pages/SearchPage.jsx:202-204 | pages 1 to `k` joined are the first `9k` results |
| SearchPage.PagesPartitionResults | src/pages/SearchPage.jsx:202-205 | all the pages joined are all the results, in order |
| SearchPage.ShowPagination | src/pages/SearchPage.jsx:463 | the pagination bar is shown for more than nine results; `NarrowedResultsStrandPage` shows a narrowed search hiding it |
| SearchPage.PreviousPage | src/pages/SearchPage.jsx:467 | the page the Previous button goes to; `PreviousNextInverse` states that from a page in range it stays in range and that Next undoes it |
| SearchPage.NextPage | src/pages/SearchPage.jsx:491 | the page the Next button goes to; `PreviousNextInverse` states that from a page in range it stays in range and that Previous undoes it, `NextWalksPages` that pressing it k times from page 1 lands on page 1 + k, or on the last page once that is passed |
| SearchPage.PreviousNextInverse | src/pages/SearchPage.jsx:467-491 | Previous and Next stay within 1 and the page count, and each undoes the other away from the ends |
| SearchPage.NextWalksPages | src/pages/SearchPage.jsx:491 | pressing Next `k` times from page 1 reaches page `min(1 + k, total)` |
| SearchPage.NarrowedResultsStrandPage | src/pages/SearchPage.jsx:148-205 | typing a term keeps the page number: on page 3 of 20 results, narrowing to 5 leaves an empty page with no pagination to leave it |
| SearchPage.Page.constructor | src/pages/SearchPage.jsx:11-29 | the page opens on the state read from the URL, whose filters are well formed, on page 1, with no results |
| SearchPage.Page.SyncSearchParams | src/pages/SearchPage.jsx:48-60 | the query string becomes the one written for the state, and reads back as the state whenever the filters are well formed |
| SearchPage.Page.PerformSearch | src/pages/SearchPage.jsx:63-145 | the results are the search of the stored listings by the current term and filters, the same predicate as `searchListings` |
| SearchPage.Page.HandleSearchChange | src/pages/SearchPage.jsx:148-150 | only the term changes |
| SearchPage.Page.HandleSearchSubmit | src/pages/SearchPage.jsx:153-156 | back to page 1, nothing else changes |
| SearchPage.Page.HandleFilterChange | src/pages/SearchPage.jsx:159-176 | as written, only the number inputs convert their value, so a pick in a count select is held as a string; the page goes back to 1; a change of any other filter keeps the state well formed |
| SearchPage.Page.HandleResetFilters | src/pages/SearchPage.jsx:179-194 | no term, all ten filters `''`, page 1 |
| SearchPage.Page.CurrentResults | src/pages/SearchPage.jsx:202-204 | at most nine results are shown, and some exactly when the page is within the page count |
| SearchPage.Page.Paginate | src/pages/SearchPage.jsx:208 | a page button sets that page and changes nothing else |
| SearchPage.Page.Previous | src/pages/SearchPage.jsx:466-468 | the Previous button goes one page back |
| SearchPage.Page.Next | src/pages/SearchPage.jsx:490-492 | the Next button goes one page on, or to the last page when the current one is past it |
| ListingForm.InitialFormData | src/components/ListingForm.jsx:9-24 | every form key is present: the edited listing's value when editing, the default otherwise |
| ListingForm.InitialImageUrls | src/components/ListingForm.jsx:29 | `initialData?.images || []`; `Form.constructor` states that the image list starts from it |
| ListingForm.ChangeField | src/components/ListingForm.jsx:43-57 | only the input's key changes: a number input stores `''` or `Number` of its text, any other input its text |
| ListingForm.ChangeFieldKeepsFormKeys | src/components/ListingForm.jsx:43-57 | a change keeps every key the form renders and validates |
| ListingForm.Fails | src/components/ListingForm.jsx:146-170 | one check of `validateForm`, with 0 read either way; `ValidationErrors` records a message exactly where it fails |
| ListingForm.ValidationErrors | src/components/ListingForm.jsx:144-173 | an error is recorded for a checked key exactly when its check fails, with that key's message |
| ListingForm.FormErrorsAsWritten | src/components/ListingForm.jsx:144-173 | `validateForm` as written; `ZeroRefusedAsWritten`, `SameCheckElsewhere` and `PassedChecks` state its properties |
| ListingForm.FormErrors | src/components/ListingForm.jsx:144-173 | corrected, `validateForm` accepting 0 for the floor and bedrooms; `ZeroAccepted`, `ZeroCountAccepted`, `LandSkipsRoomChecks` and `PassedChecks` state its properties |
| ListingForm.BlankTextIsEmptyTrimmed | src/components/ListingForm.jsx:147 | a text counts as blank exactly when it is empty once trimmed |
| ListingForm.ZeroRefusedAsWritten | src/components/ListingForm.jsx:156-164 | as written, an apartment on floor 0 is refused for its floor, and a non-land listing with 0 bedrooms for its bedrooms |
| ListingForm.ZeroAccepted | src/components/ListingForm.jsx:156-164 | corrected, floor 0 and 0 bedrooms are accepted, an empty floor is still refused, and every other check is unchanged |
| ListingForm.ZeroCountAccepted | src/components/ListingForm.jsx:156-164 | corrected, a floor or bedroom count of 0 raises no error |
| ListingForm.SameCheckElsewhere | src/components/ListingForm.jsx:146-170 | every check other than the floor and the number of bedrooms is the same whichever way 0 is read |
| ListingForm.LandSkipsRoomChecks | src/components/ListingForm.jsx:156-164 | land is never refused for rooms, bedrooms, floor or total floors |
| ListingForm.NoErrorsNoFailure | src/components/ListingForm.jsx:146-172 | whichever way 0 is read, a form with no errors passes every check |
| ListingForm.PassedChecks | src/components/ListingForm.jsx:146-172 | whichever way 0 is read, a form with no errors has a title, address, description and phone that are not blank, a property type, a truthy size and price and at least one image. It also has truthy rooms and a bedroom count unless it is land, and truthy total floors and a floor if it is an apartment. As written, the bedroom count and the floor are truthy too; corrected, they may be 0 but not empty |
| ListingForm.SubmittedListingIsComplete | src/components/ListingForm.jsx:146-197 | a form that passes `validateForm` as written and is created gives a listing owned by the session user. The listing has a title, address, type, size, price, description, phone and at least one image. Unless it is land, it has truthy rooms and bedrooms; if it is an apartment, a truthy floor and total floors |
| ListingForm.AsErrorState | src/components/ListingForm.jsx:171 | the error state holds a message for exactly the keys that failed |
| ListingForm.Form.constructor | src/components/ListingForm.jsx:9-30 | the form opens on the initial data, with the listing's images or none, no errors and an empty URL field |
| ListingForm.Form.HandleChange | src/components/ListingForm.jsx:43-66 | the key takes its new value, its shown error is cleared, and nothing else changes |
| ListingForm.Form.HandleImageUrlChange | src/components/ListingForm.jsx:69-71 | only the URL field changes |
| ListingForm.Form.AddImageUrl | src/components/ListingForm.jsx:74-83 | a blank URL changes nothing; otherwise it is appended to the images and the form data, and the field is emptied |
| ListingForm.Form.RemoveImageUrl | src/components/ListingForm.jsx:134-141 | exactly the image at the index leaves the list and the form data |
| ListingForm.Form.ValidateForm | src/components/ListingForm.jsx:144-173 | as written, the errors become exactly the failed checks, with a floor or bedroom count of 0 failing, and the form is valid exactly when there are none |
| ListingForm.Form.HandleSubmit | src/components/ListingForm.jsx:176-197 | nothing is submitted unless the form passes the checks as written; then the data submitted is the form data with the image list as its images |
| ListingForm.Form.SubmitFailed | src/components/ListingForm.jsx:201-202 | a failed submission's message becomes the only error |
| ListingDetailPage.PrevImageIndex | src/pages/ListingDetailPage.jsx:41-45 | the previous index is within the images, and the next one after it is the index started from |
| ListingDetailPage.NextImageIndex | src/pages/ListingDetailPage.jsx:47-51 | the next index is `(i + 1) mod count`, within the images |
| ListingDetailPage.PrevNextInverse | src/pages/ListingDetailPage.jsx:41-51 | Previous undoes Next and Next undoes Previous |
| ListingDetailPage.NextTimesWraps | src/pages/ListingDetailPage.jsx:47-51 | pressing Next `k` times moves `k` places round the images, and as many presses as images come back to the start |
| ListingDetailPage.Owns | src/pages/ListingDetailPage.jsx:62 | `isOwner`: a session, a listing, and the same user; `OwnerControlsIffAuthorized` states that it holds exactly when the store would authorise an update or delete |
| ListingDetailPage.OwnerControlsIffAuthorized | src/pages/ListingDetailPage.jsx:62 | the page shows the owner controls for the listing it looked up exactly when the store would let the session update or delete that id |
| ListingDetailPage.Page.constructor | src/pages/ListingDetailPage.jsx:20-39 | the page shows the listing with the route's id, or "Listing not found", starting on the first image |
| ListingDetailPage.Page.IsOwner | src/pages/ListingDetailPage.jsx:62 | `isOwner` of the page's session and loaded listing; `OwnerControlsIffAuthorized` relates it to `Authorize` |
| ListingDetailPage.Page.PreviousImage | src/pages/ListingDetailPage.jsx:41-45 | the previous-image button moves the index back, within the images |
| ListingDetailPage.Page.NextImage | src/pages/ListingDetailPage.jsx:47-51 | the next-image button moves the index on, within the images |
| ListingDetailPage.Page.SelectImage | src/pages/ListingDetailPage.jsx:187-196 | a thumbnail makes its image the current one |
| ListingDetailPage.Page.HandleDelete | src/pages/ListingDetailPage.jsx:53-60 | the store's delete runs; on refusal the page shows the reason and the listings are unchanged |

## Left out

- Persistence: `localStorage` and the JSON round trip are I/O. The stores are in-memory state, fixed at start-up from the stored values.
- Loading flags and spinners, navigation after submit or delete, scrolling to the first error, the image modal, the delete confirmation dialog and `toggleFilters` are presentation only.
- Clock and id generation: `Date.now()` ids and `toISOString` stamps are method parameters. The two stamps of a create are separate parameters, because they come from separate clock reads.
- `handleFileUpload` and `handlePaste` (src/components/ListingForm.jsx:86-131) add images through asynchronous `FileReader` callbacks, and are not modelled.
- Display formatting: the results' `map` to display records, with `toLocaleString` prices (src/pages/SearchPage.jsx:128-138), and the detail page's price formatting are not modelled. The search results are the matching listings themselves.
- Js.Lower: only ASCII letters are lower-cased; Unicode case mapping is not modelled.
- Js.StringToNumber: only blank strings and decimal digit strings are read as numbers. Signs, fractions, exponents, hexadecimal and `Infinity` are read as NaN, and numbers are unbounded naturals rather than doubles. Negative or fractional inputs are therefore not modelled.
- Strings are sequences of code points, not of UTF-16 code units.
- ListingContext.NewListing: a key missing from the creation data is stored as blank (`''`, or no images) rather than as `undefined`.
- ListingContext.Authorize: the thrown error messages are reduced to the three error kinds (not logged in, not found, not owner). `signup` and `login` errors are reduced in the same way.
- ListingContext.ListingProvider.DeleteListing: the owner check looks only at the first listing with the id, but every listing with the id is removed. The model states exactly that; it does not assume ids are unique.
- ListingDetailPage.Page.HandleDelete: the `await`, and the navigation after a successful delete, are not modelled.
- ListingForm.Form.HandleSubmit: `onSubmit` itself belongs to the create and edit pages. A failure it throws is the separate `SubmitFailed` step. Its `loading` flag is not modelled.
- SearchPage.Page and ListingForm.Form run the handlers as written (`ChangeFilterAsWritten`, `FormErrorsAsWritten`). The corrected definitions (`ChangeFilter`, `FormErrors`) and their properties are stated beside them, but neither class uses them.
- ListingForm.Fails: the checks on `propertyType`, `squareMeters` and `price` use the same truthiness as the source. The text checks use "whitespace only", which `BlankTextIsEmptyTrimmed` proves equal to `!s.trim()`.
- Password storage in plain text is not modelled as a behaviour; credentials are opaque strings compared for equality.
- The other pages and components (routing, navigation bar, cards, landing, sign-in and sign-up forms, my-listings and profile pages, the create and edit wrappers, and mock data) are not part of this model.

## Findings

| source | as written | input that shows it | evidently intended | confidence | as-written member | corrected member |
|---|---|---|---|---|---|---|
| src/pages/SearchPage.jsx:163-172,110-122,373-422 | the rooms, bedrooms and floors filters are `<select>`s, whose `type` is not `'number'`. `handleFilterChange` stores the picked option as a string, and the strict `!==` against a listing's numeric count is then always true | pick "3" in the rooms select: the filter is `"3"` and every listing with rooms `3` is dropped; reloading the URL turns the filter into the number 3 | a picked count is stored as a number, and keeps the listings with that count | high, not executed | SearchPage.ChangeFilterAsWritten, SearchPage.RoomsSelectExcludesAll, SearchPage.BedroomsSelectExcludesAll, SearchPage.FloorsSelectExcludesApartments, SearchPage.RoomsSelectLostOnReload | SearchPage.ChangeFilter, SearchPage.SelectedCountMatches, SearchPage.ChangeFilterRoundTrip |
| src/components/ListingForm.jsx:157,163,374,393 | the floor and bedrooms inputs allow 0 (`min="0"`), but `validateForm` refuses a falsy floor or bedroom count, and 0 is falsy | an apartment on floor 0, or a studio with 0 bedrooms: "Floor is required for apartments" or "Number of bedrooms is required" | 0 is accepted where the input allows it, and only an empty input is refused | medium, not executed | ListingForm.FormErrorsAsWritten, ListingForm.ZeroRefusedAsWritten | ListingForm.FormErrors, ListingForm.ZeroAccepted |
