/** The search page (src/pages/SearchPage.jsx): the search term and filters it
    keeps in the URL's query string, the filter-change handler, the search it
    runs over the repository's listings, and the pagination of the results. */
module SearchPage {
  import opened Js
  import opened Sequences
  import opened Records
  import opened ListingContext

  // ---------------------------------------------------------------------------
  // The query string

  /** A `URLSearchParams`: its name/value pairs in order. */
  type Query = seq<(string, string)>

  predicate HasKey(q: Query, k: string)
  {
    exists i :: 0 <= i < |q| && q[i].0 == k
  }

  /** `params.get(k)`: the value of the first pair named `k`, None for null. */
  function QueryGet(q: Query, k: string): (r: Option<string>)
    ensures r.None? <==> !HasKey(q, k)
    ensures r.Some? ==> exists i :: 0 <= i < |q| && q[i] == (k, r.value) &&
                          forall j :: 0 <= j < i ==> q[j].0 != k
  {
    if q == [] then None
    else if q[0].0 == k then Some(q[0].1)
    else
      var r := QueryGet(q[1..], k);
      assert forall j :: 1 <= j < |q| ==> q[j] == q[1..][j - 1];
      r
  }

  /** The pairs not named `k`. */
  function RemoveKey(q: Query, k: string): (r: Query)
    ensures !HasKey(r, k)
    ensures forall p :: p in r <==> p in q && p.0 != k
  {
    if q == [] then []
    else (if q[0].0 == k then [] else [q[0]]) + RemoveKey(q[1..], k)
  }

  /** `params.set(k, v)`: the first pair named `k` takes the value `v` and any
      later ones are dropped; with no such pair, `(k, v)` is appended. */
  function QuerySet(q: Query, k: string, v: string): Query
  {
    if q == [] then [(k, v)]
    else if q[0].0 == k then [(k, v)] + RemoveKey(q[1..], k)
    else [q[0]] + QuerySet(q[1..], k, v)
  }

  /** After `set`, `get` gives the value set. */
  lemma {:induction false} QuerySetGet(q: Query, k: string, v: string)
    ensures QueryGet(QuerySet(q, k, v), k) == Some(v)
  {
    if q != [] && q[0].0 != k {
      var r := QuerySet(q, k, v);
      assert r[1..] == QuerySet(q[1..], k, v);
      QuerySetGet(q[1..], k, v);
    }
  }

  /** `get` on the tail of a query whose first pair has another name. */
  lemma QueryGetTail(q: Query, k: string)
    requires q != [] && q[0].0 != k
    ensures QueryGet(q, k) == QueryGet(q[1..], k)
  {
  }

  /** `set` leaves the value of every other name as it was. */
  lemma {:induction false} QuerySetOther(q: Query, k: string, v: string, k': string)
    requires k' != k
    ensures QueryGet(QuerySet(q, k, v), k') == QueryGet(q, k')
  {
    var r := QuerySet(q, k, v);
    if q == [] {
      QueryGetTail(r, k');
    } else if q[0].0 == k {
      QueryGetTail(r, k');
      assert r[1..] == RemoveKey(q[1..], k);
      RemoveKeyOther(q[1..], k, k');
      QueryGetTail(q, k');
    } else if q[0].0 != k' {
      QueryGetTail(r, k');
      assert r[1..] == QuerySet(q[1..], k, v);
      QuerySetOther(q[1..], k, v, k');
      QueryGetTail(q, k');
    }
  }

  /** Removing a name leaves the value of every other name as it was. */
  lemma {:induction false} RemoveKeyOther(q: Query, k: string, k': string)
    requires k' != k
    ensures QueryGet(RemoveKey(q, k), k') == QueryGet(q, k')
  {
    if q != [] {
      var r := RemoveKey(q, k);
      RemoveKeyOther(q[1..], k, k');
      if q[0].0 == k {
        assert r == RemoveKey(q[1..], k);
        QueryGetTail(q, k');
      } else {
        assert r[0] == q[0] && r[1..] == RemoveKey(q[1..], k);
        if q[0].0 != k' {
          QueryGetTail(r, k');
          QueryGetTail(q, k');
        }
      }
    }
  }

  /** A name not yet in the query is appended at the end. */
  lemma {:induction false} QuerySetAppends(q: Query, k: string, v: string)
    requires !HasKey(q, k)
    ensures QuerySet(q, k, v) == q + [(k, v)]
  {
    if q != [] {
      assert q[0].0 != k;
      assert !HasKey(q[1..], k) by {
        assert forall j :: 0 <= j < |q[1..]| ==> q[1..][j] == q[j + 1];
      }
      QuerySetAppends(q[1..], k, v);
      assert q == [q[0]] + q[1..];
    }
  }

  /** `get` on a concatenation looks in the first part first. */
  lemma {:induction false} QueryGetAppend(a: Query, b: Query, k: string)
    ensures QueryGet(a + b, k) == if HasKey(a, k) then QueryGet(a, k) else QueryGet(b, k)
  {
    if a == [] {
      assert a + b == b;
    } else {
      assert (a + b)[0] == a[0];
      if a[0].0 == k {
        assert HasKey(a, k);
      } else {
        assert (a + b)[1..] == a[1..] + b;
        QueryGetAppend(a[1..], b, k);
        assert QueryGet(a + b, k) == QueryGet(a[1..] + b, k);
        assert QueryGet(a, k) == QueryGet(a[1..], k);
        assert HasKey(a, k) <==> HasKey(a[1..], k) by {
          assert forall j :: 1 <= j < |a| ==> a[j] == a[1..][j - 1];
        }
      }
    }
  }

  // ---------------------------------------------------------------------------
  // From the page's state to the query string and back

  /** One key of the state: its query name and its value. */
  type Entry = (string, Value)

  /** The query pair for one key: none when the value is '' (`if (searchTerm)`
      and `value !== ''`; null and undefined cannot occur), else `String(value)`. */
  function Param(e: Entry): Query
  {
    if e.1 == Empty then [] else [(e.0, ToString(e.1))]
  }

  /** The pairs of `es`, in order. */
  function Emitted(es: seq<Entry>): Query
  {
    if es == [] then [] else Emitted(es[..|es| - 1]) + Param(es[|es| - 1])
  }

  predicate DistinctNames(es: seq<Entry>)
  {
    forall i, j :: 0 <= i < j < |es| ==> es[i].0 != es[j].0
  }

  /** The filter object's entries, in its key order. */
  function FilterEntries(f: Filters): (es: seq<Entry>)
    ensures |es| == 10
  {
    [("location", Str(f.location)), ("minSize", f.minSize), ("maxSize", f.maxSize),
     ("propertyType", Str(f.propertyType)), ("minPrice", f.minPrice), ("maxPrice", f.maxPrice),
     ("purpose", Str(f.purpose)), ("floors", f.floors), ("rooms", f.rooms), ("bedrooms", f.bedrooms)]
  }

  /** The search term under `q`, then the filters. */
  function Entries(c: Criteria): (es: seq<Entry>)
    ensures |es| == 11
  {
    [("q", Str(c.searchTerm))] + FilterEntries(c.filters)
  }

  /** The entries one by one. */
  lemma EntriesAt(c: Criteria)
    ensures var f, es := c.filters, Entries(c);
      es[0] == ("q", Str(c.searchTerm)) && es[1] == ("location", Str(f.location)) &&
      es[2] == ("minSize", f.minSize) && es[3] == ("maxSize", f.maxSize) &&
      es[4] == ("propertyType", Str(f.propertyType)) && es[5] == ("minPrice", f.minPrice) &&
      es[6] == ("maxPrice", f.maxPrice) && es[7] == ("purpose", Str(f.purpose)) &&
      es[8] == ("floors", f.floors) && es[9] == ("rooms", f.rooms) && es[10] == ("bedrooms", f.bedrooms)
  {
    var es, fs := Entries(c), FilterEntries(c.filters);
    assert forall i :: 1 <= i < 11 ==> es[i] == fs[i - 1];
  }

  /** No two keys of the state share a query name. */
  lemma EntriesDistinct(c: Criteria)
    ensures DistinctNames(Entries(c))
  {
  }

  /** The query string the page writes for its state. */
  function ToQuery(c: Criteria): Query
  {
    Emitted(Entries(c))
  }

  /** `get(k) ? Number(get(k)) : ''` */
  function ParseNumber(o: Option<string>): (v: Value)
    ensures v == Empty || v.Num? || v.NaN?
  {
    if o.Some? && o.value != "" then StringToNumber(o.value) else Empty
  }

  /** The state the page starts from: `get(k) || ''` for the text keys,
      `ParseNumber` for the numeric ones. */
  function FromQuery(q: Query): Criteria
  {
    Criteria(
      QueryGet(q, "q").GetOr(""),
      Filters(
        QueryGet(q, "location").GetOr(""),
        ParseNumber(QueryGet(q, "minSize")), ParseNumber(QueryGet(q, "maxSize")),
        QueryGet(q, "propertyType").GetOr(""),
        ParseNumber(QueryGet(q, "minPrice")), ParseNumber(QueryGet(q, "maxPrice")),
        QueryGet(q, "purpose").GetOr(""),
        ParseNumber(QueryGet(q, "floors")), ParseNumber(QueryGet(q, "rooms")),
        ParseNumber(QueryGet(q, "bedrooms"))))
  }

  predicate NumberLike(v: Value)
  {
    v == Empty || v.Num? || v.NaN?
  }

  /** Every numeric filter holds '', a number or NaN: what a number input and
      the query-string parse produce. */
  predicate WellFormed(f: Filters)
  {
    NumberLike(f.minSize) && NumberLike(f.maxSize) && NumberLike(f.minPrice) &&
    NumberLike(f.maxPrice) && NumberLike(f.floors) && NumberLike(f.rooms) && NumberLike(f.bedrooms)
  }

  /** Every state read back from a query string is well formed. */
  lemma FromQueryWellFormed(q: Query)
    ensures WellFormed(FromQuery(q).filters)
  {
  }

  /** The names occurring in `Emitted(es)` are names of `es`. */
  lemma {:induction false} EmittedNames(es: seq<Entry>, k: string)
    requires forall i :: 0 <= i < |es| ==> es[i].0 != k
    ensures !HasKey(Emitted(es), k)
  {
    if es != [] {
      EmittedNames(es[..|es| - 1], k);
      var a, b := Emitted(es[..|es| - 1]), Param(es[|es| - 1]);
      assert forall i :: 0 <= i < |a + b| ==> (a + b)[i] == if i < |a| then a[i] else b[i - |a|];
    }
  }

  /** Reading back one key of the written query string gives its pair's value. */
  lemma {:induction false} EmittedGet(es: seq<Entry>, i: nat)
    requires DistinctNames(es) && i < |es|
    ensures QueryGet(Emitted(es), es[i].0) == if es[i].1 == Empty then None else Some(ToString(es[i].1))
  {
    var init, last := es[..|es| - 1], es[|es| - 1];
    QueryGetAppend(Emitted(init), Param(last), es[i].0);
    if i == |es| - 1 {
      EmittedNames(init, es[i].0);
    } else {
      assert init[i] == es[i];
      EmittedGet(init, i);
    }
  }

  lemma ParseNumberOfParam(v: Value)
    requires NumberLike(v)
    ensures ParseNumber(if v == Empty then None else Some(ToString(v))) == v
  {
    if v != Empty {
      NumberOfString(v);
    }
  }

  /** Writing a well-formed state to the query string and reading it back gives
      the same state: a reload or a shared link reproduces the search. */
  lemma RoundTrip(c: Criteria)
    requires WellFormed(c.filters)
    ensures FromQuery(ToQuery(c)) == c
  {
    var f, es := c.filters, Entries(c);
    EntriesAt(c);
    EntriesDistinct(c);
    TextRoundTrip(es, 0, "q", c.searchTerm);
    TextRoundTrip(es, 1, "location", f.location);
    NumberRoundTrip(es, 2, "minSize", f.minSize);
    NumberRoundTrip(es, 3, "maxSize", f.maxSize);
    TextRoundTrip(es, 4, "propertyType", f.propertyType);
    NumberRoundTrip(es, 5, "minPrice", f.minPrice);
    NumberRoundTrip(es, 6, "maxPrice", f.maxPrice);
    TextRoundTrip(es, 7, "purpose", f.purpose);
    NumberRoundTrip(es, 8, "floors", f.floors);
    NumberRoundTrip(es, 9, "rooms", f.rooms);
    NumberRoundTrip(es, 10, "bedrooms", f.bedrooms);
    FromQueryOf(Emitted(es), c);
  }

  /** The state read from a query string whose every key reads back as the
      state's own value is that state. */
  lemma FromQueryOf(q: Query, c: Criteria)
    requires QueryGet(q, "q").GetOr("") == c.searchTerm
    requires QueryGet(q, "location").GetOr("") == c.filters.location
    requires ParseNumber(QueryGet(q, "minSize")) == c.filters.minSize
    requires ParseNumber(QueryGet(q, "maxSize")) == c.filters.maxSize
    requires QueryGet(q, "propertyType").GetOr("") == c.filters.propertyType
    requires ParseNumber(QueryGet(q, "minPrice")) == c.filters.minPrice
    requires ParseNumber(QueryGet(q, "maxPrice")) == c.filters.maxPrice
    requires QueryGet(q, "purpose").GetOr("") == c.filters.purpose
    requires ParseNumber(QueryGet(q, "floors")) == c.filters.floors
    requires ParseNumber(QueryGet(q, "rooms")) == c.filters.rooms
    requires ParseNumber(QueryGet(q, "bedrooms")) == c.filters.bedrooms
    ensures FromQuery(q) == c
  {
  }

  /** A text key reads back as it was written. */
  lemma TextRoundTrip(es: seq<Entry>, i: nat, name: string, s: string)
    requires DistinctNames(es) && i < |es| && es[i] == (name, Str(s))
    ensures QueryGet(Emitted(es), name).GetOr("") == s
  {
    EmittedGet(es, i);
  }

  /** A numeric key holding '', a number or NaN reads back as it was written. */
  lemma NumberRoundTrip(es: seq<Entry>, i: nat, name: string, v: Value)
    requires DistinctNames(es) && i < |es| && es[i] == (name, v) && NumberLike(v)
    ensures ParseNumber(QueryGet(Emitted(es), name)) == v
  {
    EmittedGet(es, i);
    ParseNumberOfParam(v);
  }

  /** The query string written for a well-formed state reads back as it. */
  lemma ReadsBack(q: Query, c: Criteria)
    requires WellFormed(c.filters) && q == ToQuery(c)
    ensures FromQuery(q) == c
  {
    RoundTrip(c);
  }

  /** The page rewrites the query string it was opened with into a normal form
      that it reads back as the same state. */
  lemma NormalisedQueryIsStable(q: Query)
    ensures FromQuery(ToQuery(FromQuery(q))) == FromQuery(q)
  {
    FromQueryWellFormed(q);
    RoundTrip(FromQuery(q));
  }

  /** The effect that writes the query string: a fresh `URLSearchParams`, `q`
      when there is a search term, then each filter that is not ''. */
  method BuildSearchParams(c: Criteria) returns (q: Query)
    ensures q == ToQuery(c)
  {
    var entries := Entries(c);
    EntriesDistinct(c);
    q := [];
    if c.searchTerm != "" {
      QuerySetAppends(q, "q", c.searchTerm);
      q := QuerySet(q, "q", c.searchTerm);
    }
    assert entries[..1] == [entries[0]];
    var i := 1;
    while i < |entries|
      invariant 1 <= i <= |entries|
      invariant q == Emitted(entries[..i])
    {
      var (key, value) := entries[i];
      EmitStep(entries, i);
      if value != Empty {
        QuerySetAppends(q, key, ToString(value));
        q := QuerySet(q, key, ToString(value));
      }
      i := i + 1;
    }
    assert entries[..i] == entries;
  }

  /** One more entry adds its pair, under a name not yet in the query. */
  lemma EmitStep(es: seq<Entry>, i: nat)
    requires DistinctNames(es) && i < |es|
    ensures Emitted(es[..i + 1]) == Emitted(es[..i]) + Param(es[i])
    ensures !HasKey(Emitted(es[..i]), es[i].0)
  {
    assert es[..i + 1][..i] == es[..i];
    EmittedNames(es[..i], es[i].0);
  }

  // ---------------------------------------------------------------------------
  // Changing a filter

  /** The filter inputs, by their `name`. */
  datatype FilterKey =
    | Location | MinSize | MaxSize | PropertyType | MinPrice | MaxPrice
    | Purpose | Floors | Rooms | Bedrooms

  /** The filters that hold numbers. */
  predicate IsNumericFilter(k: FilterKey)
  {
    !(k.Location? || k.PropertyType? || k.Purpose?)
  }

  /** The inputs rendered as `type="number"`: the size and price bounds. The
      other inputs are a text field (location) and `<select>`s. */
  predicate IsNumberInput(k: FilterKey)
  {
    k.MinSize? || k.MaxSize? || k.MinPrice? || k.MaxPrice?
  }

  /** `filters[k]`, the string-valued filters as `Str`. */
  function FilterGet(f: Filters, k: FilterKey): Value
  {
    match k
    case Location => Str(f.location)
    case MinSize => f.minSize
    case MaxSize => f.maxSize
    case PropertyType => Str(f.propertyType)
    case MinPrice => f.minPrice
    case MaxPrice => f.maxPrice
    case Purpose => Str(f.purpose)
    case Floors => f.floors
    case Rooms => f.rooms
    case Bedrooms => f.bedrooms
  }

  /** `{...filters, [name]: v}`; a string-valued filter holds `String(v)`. */
  function WithFilter(f: Filters, k: FilterKey, v: Value): Filters
  {
    match k
    case Location => f.(location := ToString(v))
    case MinSize => f.(minSize := v)
    case MaxSize => f.(maxSize := v)
    case PropertyType => f.(propertyType := ToString(v))
    case MinPrice => f.(minPrice := v)
    case MaxPrice => f.(maxPrice := v)
    case Purpose => f.(purpose := ToString(v))
    case Floors => f.(floors := v)
    case Rooms => f.(rooms := v)
    case Bedrooms => f.(bedrooms := v)
  }

  /** The filter set takes the new value and no other filter changes. */
  lemma WithFilterGet(f: Filters, k: FilterKey, v: Value)
    requires IsNumericFilter(k) || v.Str?
    ensures FilterGet(WithFilter(f, k, v), k) == v
    ensures forall k' :: k' != k ==> FilterGet(WithFilter(f, k, v), k') == FilterGet(f, k')
  {
  }

  /** `handleFilterChange` as written: a number input stores
      `value === '' ? '' : Number(value)`, every other input its raw string. */
  function ChangeFilterAsWritten(f: Filters, k: FilterKey, raw: string): Filters
  {
    WithFilter(f, k, if IsNumberInput(k) then NumberInputValue(raw) else Str(raw))
  }

  /** `handleFilterChange` with every numeric filter converted, the select
      boxes for floors, rooms and bedrooms included. */
  function ChangeFilter(f: Filters, k: FilterKey, raw: string): Filters
  {
    WithFilter(f, k, if IsNumericFilter(k) then NumberInputValue(raw) else Str(raw))
  }

  /** As written, picking a number of rooms stores it as a string, which the
      strict comparison never equals to a listing's numeric room count: every
      listing with a room count is dropped. */
  lemma RoomsSelectExcludesAll(c: Criteria, raw: string, l: Listing)
    requires raw != "" && l.rooms.Num?
    ensures !Matches(l, Criteria(c.searchTerm, ChangeFilterAsWritten(c.filters, FilterKey.Rooms, raw)))
  {
  }

  /** The same for bedrooms. */
  lemma BedroomsSelectExcludesAll(c: Criteria, raw: string, l: Listing)
    requires raw != "" && l.bedrooms.Num?
    ensures !Matches(l, Criteria(c.searchTerm, ChangeFilterAsWritten(c.filters, FilterKey.Bedrooms, raw)))
  {
  }

  /** As written, picking a floor count drops every apartment with a numeric floor count. */
  lemma FloorsSelectExcludesApartments(c: Criteria, raw: string, l: Listing)
    requires raw != "" && l.propertyType == "apartment" && l.totalFloors.Num?
    ensures !Matches(l, Criteria(c.searchTerm, ChangeFilterAsWritten(c.filters, FilterKey.Floors, raw)))
  {
  }

  /** As written, the state after picking "3 rooms" is not the state the page
      reads back from its own query string, which holds the number 3. */
  lemma RoomsSelectLostOnReload(c: Criteria)
    ensures var f := ChangeFilterAsWritten(c.filters, FilterKey.Rooms, "3");
      f.rooms == Str("3") && FromQuery(ToQuery(Criteria(c.searchTerm, f))).filters.rooms == Num(3)
  {
    var d := Criteria(c.searchTerm, ChangeFilterAsWritten(c.filters, FilterKey.Rooms, "3"));
    assert Entries(d)[9] == ("rooms", Str("3"));
    EntriesDistinct(d);
    EmittedGet(Entries(d), 9);
    assert DecimalString(3) == "3";
    DecimalNumberRoundTrip(3);
  }

  /** Corrected, picking a count `n` keeps exactly the listings with `n`
      rooms (or bedrooms, or, for apartments, total floors). */
  lemma SelectedCountMatches(f: Filters, k: FilterKey, n: nat, x: Value)
    requires n > 0 && (k.Rooms? || k.Bedrooms? || k.Floors?)
    ensures var g := ChangeFilter(f, k, DecimalString(n));
      FilterGet(g, k) == Num(n) && (CountOk(x, FilterGet(g, k)) <==> x == Num(n))
  {
    DecimalNumberRoundTrip(n);
  }

  /** Corrected, a filter change keeps every numeric filter '', a number or NaN. */
  lemma ChangeFilterWellFormed(f: Filters, k: FilterKey, raw: string)
    requires WellFormed(f)
    ensures WellFormed(ChangeFilter(f, k, raw))
  {
    var v := if IsNumericFilter(k) then NumberInputValue(raw) else Str(raw);
    WithFilterGet(f, k, v);
  }

  /** As written, a change of the location, the purpose, the property type or
      a size or price bound keeps the state well formed; only the floors, rooms
      and bedrooms selects can store a string count. */
  lemma ChangeFilterAsWrittenWellFormed(f: Filters, k: FilterKey, raw: string)
    requires WellFormed(f) && !(k.Floors? || k.Rooms? || k.Bedrooms?)
    ensures WellFormed(ChangeFilterAsWritten(f, k, raw))
  {
    var v := if IsNumberInput(k) then NumberInputValue(raw) else Str(raw);
    WithFilterGet(f, k, v);
  }

  /** As written, a non-empty pick in a floors, rooms or bedrooms select leaves
      the filters ill formed: the count is held as a string. */
  lemma SelectPickIllFormed(f: Filters, k: FilterKey, raw: string)
    requires (k.Floors? || k.Rooms? || k.Bedrooms?) && raw != ""
    ensures !WellFormed(ChangeFilterAsWritten(f, k, raw))
  {
    WithFilterGet(f, k, Str(raw));
  }

  /** Corrected, a filter change keeps the state well formed, so the query
      string written for it reads back as the same state. */
  lemma ChangeFilterRoundTrip(c: Criteria, k: FilterKey, raw: string)
    requires WellFormed(c.filters)
    ensures WellFormed(ChangeFilter(c.filters, k, raw))
    ensures var d := Criteria(c.searchTerm, ChangeFilter(c.filters, k, raw));
      FromQuery(ToQuery(d)) == d
  {
    ChangeFilterWellFormed(c.filters, k, raw);
    RoundTrip(Criteria(c.searchTerm, ChangeFilter(c.filters, k, raw)));
  }

  // ---------------------------------------------------------------------------
  // Pagination

  const ResultsPerPage: nat := 9

  /** `Math.ceil(n / resultsPerPage)` */
  function TotalPages(n: nat): (t: nat)
    ensures t * ResultsPerPage >= n
    ensures t > 0 ==> (t - 1) * ResultsPerPage < n
  {
    (n + ResultsPerPage - 1) / ResultsPerPage
  }

  /** A `slice` argument resolved against the length: negative counts from the end. */
  function SliceIndex(i: int, len: nat): (r: nat)
    ensures r <= len
    ensures 0 <= i <= len ==> r == i
  {
    if i < 0 then (if len + i < 0 then 0 else len + i)
    else if i > len then len
    else i
  }

  /** `s.slice(start, end)` */
  function Slice<T>(s: seq<T>, start: int, end: int): seq<T>
  {
    var a, b := SliceIndex(start, |s|), SliceIndex(end, |s|);
    if a < b then s[a..b] else []
  }

  function Min(a: int, b: int): int
  {
    if a < b then a else b
  }

  /** `results.slice(indexOfFirstResult, indexOfLastResult)` */
  function PageItems<T>(results: seq<T>, page: int): seq<T>
  {
    Slice(results, page * ResultsPerPage - ResultsPerPage, page * ResultsPerPage)
  }

  /** Page `p` holds the up to nine results from position `9 * (p - 1)` on. */
  lemma PageContents<T>(results: seq<T>, page: int)
    requires page >= 1
    ensures var lo, hi := Min((page - 1) * ResultsPerPage, |results|), Min(page * ResultsPerPage, |results|);
      PageItems(results, page) == results[lo..hi]
    ensures |PageItems(results, page)| <= ResultsPerPage
  {
  }

  /** A page shows something exactly when it is one of the `totalPages` pages. */
  lemma PageNonEmptyIffInRange<T>(results: seq<T>, page: int)
    requires page >= 1
    ensures PageItems(results, page) != [] <==> page <= TotalPages(|results|)
  {
    PageContents(results, page);
  }

  /** The first `k` pages, one after the other. */
  function AllPages<T>(results: seq<T>, k: nat): seq<T>
  {
    if k == 0 then [] else AllPages(results, k - 1) + PageItems(results, k)
  }

  /** The first `k` pages are the first `9 * k` results. */
  lemma {:induction false} AllPagesPrefix<T>(results: seq<T>, k: nat)
    ensures AllPages(results, k) == results[..Min(k * ResultsPerPage, |results|)]
  {
    if k > 0 {
      AllPagesPrefix(results, k - 1);
      PageContents(results, k);
    }
  }

  /** The pages together show every result once, in order. */
  lemma PagesPartitionResults<T>(results: seq<T>)
    ensures AllPages(results, TotalPages(|results|)) == results
  {
    AllPagesPrefix(results, TotalPages(|results|));
  }

  /** The pagination bar appears once the results do not fit on one page. */
  predicate ShowPagination(n: nat)
  {
    n > ResultsPerPage
  }

  /** The page the Previous button goes to. */
  function PreviousPage(current: int): int
  {
    if current > 1 then current - 1 else 1
  }

  /** The page the Next button goes to. */
  function NextPage(current: int, total: nat): int
  {
    if current < total then current + 1 else total
  }

  /** From a page in range, Previous and Next stay in range and undo each other. */
  lemma PreviousNextInverse(p: int, total: nat)
    requires 1 <= p <= total
    ensures 1 <= PreviousPage(p) <= total && 1 <= NextPage(p, total) <= total
    ensures p > 1 ==> NextPage(PreviousPage(p), total) == p
    ensures p < total ==> PreviousPage(NextPage(p, total)) == p
  {
  }

  /** Pressing Next `k` times. */
  function NextTimes(p: int, total: nat, k: nat): int
  {
    if k == 0 then p else NextPage(NextTimes(p, total, k - 1), total)
  }

  /** Starting at page 1, Next walks the pages one by one and stops at the last. */
  lemma {:induction false} NextWalksPages(total: nat, k: nat)
    requires total >= 1
    ensures NextTimes(1, total, k) == Min(1 + k, total)
  {
    if k > 0 {
      NextWalksPages(total, k - 1);
    }
  }

  /** Typing in the search box does not go back to page 1: once the results
      shrink, the page that was current can be past the last one and show nothing. */
  lemma NarrowedResultsStrandPage<T>(before: seq<T>, after: seq<T>)
    requires |before| == 20 && |after| == 5
    ensures PageItems(before, 3) != [] && PageItems(after, 3) == []
    ensures !ShowPagination(|after|)
  {
    PageNonEmptyIffInRange(before, 3);
    PageNonEmptyIffInRange(after, 3);
  }

  // ---------------------------------------------------------------------------
  // The page

  class Page {
    var searchTerm: string
    var filters: Filters
    var currentPage: int
    var results: seq<Listing>
    var searchParams: Query
    const provider: ListingProvider

    /** The page number is at least 1. */
    predicate Valid()
      reads this
    {
      currentPage >= 1
    }

    function State(): Criteria
      reads this
    {
      Criteria(searchTerm, filters)
    }

    /** Opening the page: the state is read from the query string, no results yet. */
    constructor (provider: ListingProvider, url: Query)
      ensures this.provider == provider
      ensures State() == FromQuery(url)
      ensures currentPage == 1 && results == [] && searchParams == url
      ensures Valid() && WellFormed(filters)
    {
      this.provider := provider;
      var c := FromQuery(url);
      FromQueryWellFormed(url);
      searchTerm := c.searchTerm;
      filters := c.filters;
      currentPage := 1;
      results := [];
      searchParams := url;
    }

    /** The effect on the term and filters: the query string is rewritten, and
        reads back as the current state when the filters are well formed. */
    method SyncSearchParams()
      modifies this
      ensures searchParams == ToQuery(State())
      ensures WellFormed(filters) ==> FromQuery(searchParams) == State()
      ensures searchTerm == old(searchTerm) && filters == old(filters)
      ensures currentPage == old(currentPage) && results == old(results)
    {
      var c := State();
      var q := BuildSearchParams(c);
      if WellFormed(c.filters) {
        ReadsBack(q, c);
      }
      searchParams := q;
    }

    /** The effect on the query string: the results are the listings the
        repository's search finds for the current term and filters. */
    method PerformSearch()
      modifies this
      ensures results == provider.SearchListings(State())
      ensures forall l :: l in results <==> l in provider.listings && Matches(l, State())
      ensures searchTerm == old(searchTerm) && filters == old(filters)
      ensures currentPage == old(currentPage) && searchParams == old(searchParams)
    {
      var all := provider.GetAllListings();
      results := Filter(all, MatchesCriteria(State()));
    }

    /** `handleSearchChange`: only the term changes; the page number stays. */
    method HandleSearchChange(value: string)
      modifies this
      ensures searchTerm == value
      ensures filters == old(filters) && currentPage == old(currentPage)
      ensures results == old(results) && searchParams == old(searchParams)
    {
      searchTerm := value;
    }

    /** `handleSearchSubmit`: back to page 1. */
    method HandleSearchSubmit()
      modifies this
      ensures currentPage == 1
      ensures searchTerm == old(searchTerm) && filters == old(filters)
      ensures results == old(results) && searchParams == old(searchParams)
    {
      currentPage := 1;
    }

    /** `handleFilterChange` and back to page 1: only the number inputs convert
        their value, so a pick in the floors, rooms or bedrooms select is held
        as a string. */
    method HandleFilterChange(k: FilterKey, raw: string)
      modifies this
      ensures filters == ChangeFilterAsWritten(old(filters), k, raw)
      ensures currentPage == 1 && Valid()
      ensures WellFormed(old(filters)) && !(k.Floors? || k.Rooms? || k.Bedrooms?) ==> WellFormed(filters)
      ensures searchTerm == old(searchTerm)
      ensures results == old(results) && searchParams == old(searchParams)
    {
      if WellFormed(filters) && !(k.Floors? || k.Rooms? || k.Bedrooms?) {
        ChangeFilterAsWrittenWellFormed(filters, k, raw);
      }
      filters := ChangeFilterAsWritten(filters, k, raw);
      currentPage := 1;
    }

    /** `handleResetFilters`: no term, no filters, page 1. */
    method HandleResetFilters()
      modifies this
      ensures State() == Criteria("", NoFilters) && currentPage == 1 && Valid() && WellFormed(filters)
      ensures results == old(results) && searchParams == old(searchParams)
    {
      searchTerm := "";
      filters := NoFilters;
      currentPage := 1;
    }

    /** The results shown on the current page. */
    function CurrentResults(): (r: seq<Listing>)
      reads this
      requires Valid()
      ensures |r| <= ResultsPerPage
      ensures r != [] <==> currentPage <= TotalPages(|results|)
    {
      PageContents(results, currentPage);
      PageNonEmptyIffInRange(results, currentPage);
      PageItems(results, currentPage)
    }

    /** A page number button. */
    method Paginate(pageNumber: int)
      requires Valid() && ShowPagination(|results|)
      requires 1 <= pageNumber <= TotalPages(|results|)
      modifies this
      ensures currentPage == pageNumber && Valid()
      ensures State() == old(State()) && results == old(results) && searchParams == old(searchParams)
    {
      currentPage := pageNumber;
    }

    /** The Previous button (disabled on page 1). */
    method Previous()
      requires Valid() && ShowPagination(|results|) && currentPage != 1
      modifies this
      ensures currentPage == PreviousPage(old(currentPage)) && Valid()
      ensures State() == old(State()) && results == old(results) && searchParams == old(searchParams)
    {
      currentPage := PreviousPage(currentPage);
    }

    /** The Next button (disabled on the last page). */
    method Next()
      requires Valid() && ShowPagination(|results|) && currentPage != TotalPages(|results|)
      modifies this
      ensures currentPage == NextPage(old(currentPage), TotalPages(|results|)) && Valid()
      ensures State() == old(State()) && results == old(results) && searchParams == old(searchParams)
    {
      currentPage := NextPage(currentPage, TotalPages(|results|));
    }
  }
}
