/** The records the application stores: users and property listings, and the
    partial listing objects (`listingData`, `formData`) whose keys a caller may
    leave out. Object spread `{...a, ...b}` is `Apply` onto a listing and
    `Merge` between two partial objects. */
module Records {
  import opened Js

  datatype User = User(id: string, email: string, name: string, password: string)

  /** A stored listing. The numeric fields hold what the form stored: a number,
      or '' for an input left empty. */
  datatype Listing = Listing(
    id: string, ownerId: string, ownerName: string, ownerEmail: string,
    title: string, address: string, description: string,
    propertyType: string, listingType: string,
    squareMeters: Value, price: Value, rooms: Value, bedrooms: Value,
    floor: Value, totalFloors: Value,
    contactPhone: string, images: seq<string>,
    createdAt: string, updatedAt: string)

  /** A listing object some of whose keys may be missing (None). */
  datatype ListingData = ListingData(
    id: Option<string>, ownerId: Option<string>, ownerName: Option<string>, ownerEmail: Option<string>,
    title: Option<string>, address: Option<string>, description: Option<string>,
    propertyType: Option<string>, listingType: Option<string>,
    squareMeters: Option<Value>, price: Option<Value>, rooms: Option<Value>, bedrooms: Option<Value>,
    floor: Option<Value>, totalFloors: Option<Value>,
    contactPhone: Option<string>, images: Option<seq<string>>,
    createdAt: Option<string>, updatedAt: Option<string>)

  /** The keys of a listing object. */
  datatype Field =
    | Id | OwnerId | OwnerName | OwnerEmail
    | Title | Address | Description | PropertyType | ListingType
    | SquareMeters | Price | Rooms | Bedrooms | Floor | TotalFloors
    | ContactPhone | Images | CreatedAt | UpdatedAt

  /** What a key of a listing object holds. */
  datatype FieldValue = Text(text: string) | Number(number: Value) | Urls(urls: seq<string>)

  /** The JavaScript property name of a key. */
  function FieldName(k: Field): string
  {
    match k
    case Id => "id"
    case OwnerId => "ownerId"
    case OwnerName => "ownerName"
    case OwnerEmail => "ownerEmail"
    case Title => "title"
    case Address => "address"
    case Description => "description"
    case PropertyType => "propertyType"
    case ListingType => "listingType"
    case SquareMeters => "squareMeters"
    case Price => "price"
    case Rooms => "rooms"
    case Bedrooms => "bedrooms"
    case Floor => "floor"
    case TotalFloors => "totalFloors"
    case ContactPhone => "contactPhone"
    case Images => "images"
    case CreatedAt => "createdAt"
    case UpdatedAt => "updatedAt"
  }

  predicate IsNumericField(k: Field)
  {
    k.SquareMeters? || k.Price? || k.Rooms? || k.Bedrooms? || k.Floor? || k.TotalFloors?
  }

  /** `v` is of the kind key `k` holds. */
  predicate FitsField(k: Field, v: FieldValue)
  {
    if k.Images? then v.Urls? else if IsNumericField(k) then v.Number? else v.Text?
  }

  /** `listing[k]` */
  function Get(l: Listing, k: Field): (v: FieldValue)
    ensures FitsField(k, v)
  {
    match k
    case Id => Text(l.id)
    case OwnerId => Text(l.ownerId)
    case OwnerName => Text(l.ownerName)
    case OwnerEmail => Text(l.ownerEmail)
    case Title => Text(l.title)
    case Address => Text(l.address)
    case Description => Text(l.description)
    case PropertyType => Text(l.propertyType)
    case ListingType => Text(l.listingType)
    case SquareMeters => Number(l.squareMeters)
    case Price => Number(l.price)
    case Rooms => Number(l.rooms)
    case Bedrooms => Number(l.bedrooms)
    case Floor => Number(l.floor)
    case TotalFloors => Number(l.totalFloors)
    case ContactPhone => Text(l.contactPhone)
    case Images => Urls(l.images)
    case CreatedAt => Text(l.createdAt)
    case UpdatedAt => Text(l.updatedAt)
  }

  function TextOf(o: Option<string>): Option<FieldValue>
  {
    match o
    case Some(s) => Some(Text(s))
    case None => None
  }

  function NumberOf(o: Option<Value>): Option<FieldValue>
  {
    match o
    case Some(v) => Some(Number(v))
    case None => None
  }

  /** `data[k]`, None when the key is missing. */
  function Lookup(d: ListingData, k: Field): (v: Option<FieldValue>)
    ensures v.Some? ==> FitsField(k, v.value)
  {
    match k
    case Id => TextOf(d.id)
    case OwnerId => TextOf(d.ownerId)
    case OwnerName => TextOf(d.ownerName)
    case OwnerEmail => TextOf(d.ownerEmail)
    case Title => TextOf(d.title)
    case Address => TextOf(d.address)
    case Description => TextOf(d.description)
    case PropertyType => TextOf(d.propertyType)
    case ListingType => TextOf(d.listingType)
    case SquareMeters => NumberOf(d.squareMeters)
    case Price => NumberOf(d.price)
    case Rooms => NumberOf(d.rooms)
    case Bedrooms => NumberOf(d.bedrooms)
    case Floor => NumberOf(d.floor)
    case TotalFloors => NumberOf(d.totalFloors)
    case ContactPhone => TextOf(d.contactPhone)
    case Images => if d.images.Some? then Some(Urls(d.images.value)) else None
    case CreatedAt => TextOf(d.createdAt)
    case UpdatedAt => TextOf(d.updatedAt)
  }

  /** The object with no keys. */
  const NoData: ListingData := ListingData(
    None, None, None, None, None, None, None, None, None, None,
    None, None, None, None, None, None, None, None, None)

  /** `{...l, ...d}`: every key present in `d` takes its value from `d`, every
      other key keeps the value it has in `l`. */
  function Apply(l: Listing, d: ListingData): Listing
  {
    Listing(
      d.id.GetOr(l.id), d.ownerId.GetOr(l.ownerId), d.ownerName.GetOr(l.ownerName),
      d.ownerEmail.GetOr(l.ownerEmail), d.title.GetOr(l.title), d.address.GetOr(l.address),
      d.description.GetOr(l.description), d.propertyType.GetOr(l.propertyType),
      d.listingType.GetOr(l.listingType), d.squareMeters.GetOr(l.squareMeters),
      d.price.GetOr(l.price), d.rooms.GetOr(l.rooms), d.bedrooms.GetOr(l.bedrooms),
      d.floor.GetOr(l.floor), d.totalFloors.GetOr(l.totalFloors),
      d.contactPhone.GetOr(l.contactPhone), d.images.GetOr(l.images),
      d.createdAt.GetOr(l.createdAt), d.updatedAt.GetOr(l.updatedAt))
  }

  /** The spread, key by key. */
  lemma ApplyGet(l: Listing, d: ListingData)
    ensures forall k :: Get(Apply(l, d), k) == Lookup(d, k).GetOr(Get(l, k))
  {
    forall k ensures Get(Apply(l, d), k) == Lookup(d, k).GetOr(Get(l, k)) {
      match k
      case Id =>
      case OwnerId =>
      case OwnerName =>
      case OwnerEmail =>
      case Title =>
      case Address =>
      case Description =>
      case PropertyType =>
      case ListingType =>
      case SquareMeters =>
      case Price =>
      case Rooms =>
      case Bedrooms =>
      case Floor =>
      case TotalFloors =>
      case ContactPhone =>
      case Images =>
      case CreatedAt =>
      case UpdatedAt =>
    }
  }

  function Or<T>(b: Option<T>, a: Option<T>): Option<T>
  {
    if b.Some? then b else a
  }

  /** `{...a, ...b}` for two partial objects: a key present in `b` takes its
      value from `b`, otherwise it is whatever `a` has (possibly missing). */
  function Merge(a: ListingData, b: ListingData): ListingData
  {
    ListingData(
      Or(b.id, a.id), Or(b.ownerId, a.ownerId), Or(b.ownerName, a.ownerName),
      Or(b.ownerEmail, a.ownerEmail), Or(b.title, a.title), Or(b.address, a.address),
      Or(b.description, a.description), Or(b.propertyType, a.propertyType),
      Or(b.listingType, a.listingType), Or(b.squareMeters, a.squareMeters),
      Or(b.price, a.price), Or(b.rooms, a.rooms), Or(b.bedrooms, a.bedrooms),
      Or(b.floor, a.floor), Or(b.totalFloors, a.totalFloors),
      Or(b.contactPhone, a.contactPhone), Or(b.images, a.images),
      Or(b.createdAt, a.createdAt), Or(b.updatedAt, a.updatedAt))
  }

  /** The merge, key by key. */
  lemma MergeLookup(a: ListingData, b: ListingData)
    ensures forall k :: Lookup(Merge(a, b), k) == if Lookup(b, k).Some? then Lookup(b, k) else Lookup(a, k)
  {
    forall k ensures Lookup(Merge(a, b), k) == if Lookup(b, k).Some? then Lookup(b, k) else Lookup(a, k) {
      match k
      case Id =>
      case OwnerId =>
      case OwnerName =>
      case OwnerEmail =>
      case Title =>
      case Address =>
      case Description =>
      case PropertyType =>
      case ListingType =>
      case SquareMeters =>
      case Price =>
      case Rooms =>
      case Bedrooms =>
      case Floor =>
      case TotalFloors =>
      case ContactPhone =>
      case Images =>
      case CreatedAt =>
      case UpdatedAt =>
    }
  }

  /** The listing seen as an object with every key present. */
  function ToData(l: Listing): (d: ListingData)
    ensures forall k :: Lookup(d, k) == Some(Get(l, k))
  {
    ListingData(
      Some(l.id), Some(l.ownerId), Some(l.ownerName), Some(l.ownerEmail),
      Some(l.title), Some(l.address), Some(l.description), Some(l.propertyType),
      Some(l.listingType), Some(l.squareMeters), Some(l.price), Some(l.rooms),
      Some(l.bedrooms), Some(l.floor), Some(l.totalFloors), Some(l.contactPhone),
      Some(l.images), Some(l.createdAt), Some(l.updatedAt))
  }

  /** Spreading two objects one after the other is spreading their merge. */
  lemma ApplyMerge(l: Listing, a: ListingData, b: ListingData)
    ensures Apply(Apply(l, a), b) == Apply(l, Merge(a, b))
  {
  }

  /** Spreading the empty object changes nothing; spreading a whole listing
      replaces the target by it; spreading the same object twice is spreading it once. */
  lemma ApplyLaws(l: Listing, m: Listing, d: ListingData)
    ensures Apply(l, NoData) == l
    ensures Apply(l, ToData(m)) == m
    ensures Apply(Apply(l, d), d) == Apply(l, d)
  {
  }

  /** `{...d, [k]: v}` */
  function With(d: ListingData, k: Field, v: FieldValue): ListingData
    requires FitsField(k, v)
  {
    match k
    case Id => d.(id := Some(v.text))
    case OwnerId => d.(ownerId := Some(v.text))
    case OwnerName => d.(ownerName := Some(v.text))
    case OwnerEmail => d.(ownerEmail := Some(v.text))
    case Title => d.(title := Some(v.text))
    case Address => d.(address := Some(v.text))
    case Description => d.(description := Some(v.text))
    case PropertyType => d.(propertyType := Some(v.text))
    case ListingType => d.(listingType := Some(v.text))
    case SquareMeters => d.(squareMeters := Some(v.number))
    case Price => d.(price := Some(v.number))
    case Rooms => d.(rooms := Some(v.number))
    case Bedrooms => d.(bedrooms := Some(v.number))
    case Floor => d.(floor := Some(v.number))
    case TotalFloors => d.(totalFloors := Some(v.number))
    case ContactPhone => d.(contactPhone := Some(v.text))
    case Images => d.(images := Some(v.urls))
    case CreatedAt => d.(createdAt := Some(v.text))
    case UpdatedAt => d.(updatedAt := Some(v.text))
  }

  /** The key set takes the value, every other key keeps its own. */
  lemma WithLookup(d: ListingData, k: Field, v: FieldValue)
    requires FitsField(k, v)
    ensures Lookup(With(d, k, v), k) == Some(v)
    ensures forall j :: j != k ==> Lookup(With(d, k, v), j) == Lookup(d, j)
  {
    forall j | j != k ensures Lookup(With(d, k, v), j) == Lookup(d, j) {
      match j
      case Id =>
      case OwnerId =>
      case OwnerName =>
      case OwnerEmail =>
      case Title =>
      case Address =>
      case Description =>
      case PropertyType =>
      case ListingType =>
      case SquareMeters =>
      case Price =>
      case Rooms =>
      case Bedrooms =>
      case Floor =>
      case TotalFloors =>
      case ContactPhone =>
      case Images =>
      case CreatedAt =>
      case UpdatedAt =>
    }
  }
}
