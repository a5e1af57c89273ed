/** The listing form (src/components/ListingForm.jsx) shared by the create and
    edit pages: its form data, started from defaults and the listing being
    edited, the change handlers, the image list, and the validation that gates
    submission. */
module ListingForm {
  import opened Js
  import opened Sequences
  import opened Records
  import ListingContext

  /** The defaults the form starts from: every input empty, "sale" selected,
      no images. The keys left out (id, owner, timestamps) are missing. */
  const DefaultForm: ListingData := ListingData(
    None, None, None, None,
    Some(""), Some(""), Some(""), Some(""), Some("sale"),
    Some(Empty), Some(Empty), Some(Empty), Some(Empty), Some(Empty), Some(Empty),
    Some(""), Some([]), None, None)

  /** Every key the form renders or validates is present. */
  predicate HasFormKeys(d: ListingData)
  {
    d.title.Some? && d.address.Some? && d.description.Some? && d.propertyType.Some? &&
    d.listingType.Some? && d.squareMeters.Some? && d.price.Some? && d.rooms.Some? &&
    d.bedrooms.Some? && d.floor.Some? && d.totalFloors.Some? && d.contactPhone.Some? &&
    d.images.Some?
  }

  /** `{ ...defaults, ...initialData }`: the edited listing's keys win, the
      defaults fill the rest. */
  function InitialFormData(initialData: Option<Listing>): (r: ListingData)
    ensures HasFormKeys(r)
    ensures forall k :: Lookup(r, k) ==
                        (if initialData.Some? then Some(Get(initialData.value, k)) else Lookup(DefaultForm, k))
  {
    var overrides := if initialData.Some? then ToData(initialData.value) else NoData;
    MergeLookup(DefaultForm, overrides);
    Merge(DefaultForm, overrides)
  }

  /** `initialData?.images || []` */
  function InitialImageUrls(initialData: Option<Listing>): seq<string>
  {
    if initialData.Some? then initialData.value.images else []
  }

  /** The inputs `handleChange` serves: every key except the generated and
      owner ones, and the images, which have their own handlers. */
  predicate IsFormInput(k: Field)
  {
    !(k.Id? || k.OwnerId? || k.OwnerName? || k.OwnerEmail? || k.Images? || k.CreatedAt? || k.UpdatedAt?)
  }

  /** `handleChange`: a number input (the six numeric keys) stores
      `value === '' ? '' : Number(value)`, any other input its raw string. */
  function ChangeField(d: ListingData, k: Field, raw: string): (r: ListingData)
    requires IsFormInput(k)
    ensures Lookup(r, k) == Some(if IsNumericField(k) then Number(NumberInputValue(raw)) else Text(raw))
    ensures forall j :: j != k ==> Lookup(r, j) == Lookup(d, j)
  {
    var v := if IsNumericField(k) then Number(NumberInputValue(raw)) else Text(raw);
    WithLookup(d, k, v);
    With(d, k, v)
  }

  /** A change keeps every key the form needs. */
  lemma ChangeFieldKeepsFormKeys(d: ListingData, k: Field, raw: string)
    requires IsFormInput(k) && HasFormKeys(d)
    ensures HasFormKeys(ChangeField(d, k, raw))
  {
    var r := ChangeField(d, k, raw);
    assert Lookup(r, k).Some?;
  }

  // ---------------------------------------------------------------------------
  // Validation

  /** `!s.trim()`: the text is empty once trimmed, that is, made of whitespace
      only (`Js.BlankIffAllWhitespace`). */
  predicate BlankText(s: string)
  {
    AllWhitespace(s)
  }

  lemma BlankTextIsEmptyTrimmed(s: string)
    ensures BlankText(s) <==> Trim(s) == ""
  {
    BlankIffAllWhitespace(s);
  }

  /** A numeric input counts as missing when falsy, except that 0 is accepted
      where `zeroAllowed` holds. */
  predicate MissingNumber(v: Value, zeroAllowed: bool)
  {
    !Truthy(v) && !(zeroAllowed && v == Num(0))
  }

  /** The keys `validateForm` checks. */
  const CheckedKeys: set<Field> := {
    Title, Address, PropertyType, SquareMeters, Price, Description,
    ContactPhone, Floor, TotalFloors, Rooms, Bedrooms, Images}

  /** The check of `validateForm` for one key fails. With `zeroAllowed` false
      these are the checks as written; with it true the floor and the number of
      bedrooms, whose inputs accept 0, may be 0. */
  predicate Fails(d: ListingData, imageUrls: seq<string>, zeroAllowed: bool, k: Field)
    requires HasFormKeys(d)
  {
    var apartment, notLand := d.propertyType.value == "apartment", d.propertyType.value != "land";
    match k
    case Title => BlankText(d.title.value)
    case Address => BlankText(d.address.value)
    case PropertyType => d.propertyType.value == ""
    case SquareMeters => !Truthy(d.squareMeters.value)
    case Price => !Truthy(d.price.value)
    case Description => BlankText(d.description.value)
    case ContactPhone => BlankText(d.contactPhone.value)
    case Floor => apartment && MissingNumber(d.floor.value, zeroAllowed)
    case TotalFloors => apartment && !Truthy(d.totalFloors.value)
    case Rooms => notLand && !Truthy(d.rooms.value)
    case Bedrooms => notLand && MissingNumber(d.bedrooms.value, zeroAllowed)
    case Images => |imageUrls| == 0
    case _ => false
  }

  /** The message shown under each input. */
  function ErrorMessage(k: Field): string
  {
    match k
    case Title => "Title is required"
    case Address => "Address is required"
    case PropertyType => "Property type is required"
    case SquareMeters => "Square meters is required"
    case Price => "Price is required"
    case Description => "Description is required"
    case ContactPhone => "Contact phone is required"
    case Floor => "Floor is required for apartments"
    case TotalFloors => "Total floors is required for apartments"
    case Rooms => "Number of rooms is required"
    case Bedrooms => "Number of bedrooms is required"
    case Images => "At least one image is required"
    case _ => ""
  }

  /** The errors `validateForm` collects: a message for each failed check. */
  function ValidationErrors(d: ListingData, imageUrls: seq<string>, zeroAllowed: bool): (r: map<Field, string>)
    requires HasFormKeys(d)
    ensures forall k :: k in r <==> k in CheckedKeys && Fails(d, imageUrls, zeroAllowed, k)
    ensures forall k :: k in r ==> r[k] == ErrorMessage(k)
  {
    map k | k in CheckedKeys && Fails(d, imageUrls, zeroAllowed, k) :: ErrorMessage(k)
  }

  /** `validateForm` as written: every falsy number is missing, 0 included. */
  function FormErrorsAsWritten(d: ListingData, imageUrls: seq<string>): map<Field, string>
    requires HasFormKeys(d)
  {
    ValidationErrors(d, imageUrls, false)
  }

  /** `validateForm` with a floor of 0 and 0 bedrooms accepted, as their
      inputs' minimum of 0 allows. */
  function FormErrors(d: ListingData, imageUrls: seq<string>): map<Field, string>
    requires HasFormKeys(d)
  {
    ValidationErrors(d, imageUrls, true)
  }

  /** As written, a ground-floor apartment (floor 0) is refused with "Floor is
      required for apartments", and a studio (0 bedrooms) with "Number of
      bedrooms is required", although both inputs accept 0. */
  lemma ZeroRefusedAsWritten(d: ListingData, imageUrls: seq<string>)
    requires HasFormKeys(d)
    ensures d.propertyType.value == "apartment" && d.floor.value == Num(0) ==>
      Floor in FormErrorsAsWritten(d, imageUrls)
    ensures d.propertyType.value != "land" && d.bedrooms.value == Num(0) ==>
      Bedrooms in FormErrorsAsWritten(d, imageUrls)
  {
    assert Floor in CheckedKeys && Bedrooms in CheckedKeys;
    if d.propertyType.value == "apartment" && d.floor.value == Num(0) {
      assert Fails(d, imageUrls, false, Floor);
    }
    if d.propertyType.value != "land" && d.bedrooms.value == Num(0) {
      assert Fails(d, imageUrls, false, Bedrooms);
    }
  }

  /** Corrected, a floor or bedroom count of 0 is accepted, an empty one still
      refused, and every other check is the one written. */
  lemma ZeroAccepted(d: ListingData, imageUrls: seq<string>)
    requires HasFormKeys(d)
    ensures d.floor.value == Num(0) ==> Floor !in FormErrors(d, imageUrls)
    ensures d.bedrooms.value == Num(0) ==> Bedrooms !in FormErrors(d, imageUrls)
    ensures d.propertyType.value == "apartment" && d.floor.value == Empty ==> Floor in FormErrors(d, imageUrls)
    ensures forall k :: k != Floor && k != Bedrooms ==>
      (k in FormErrors(d, imageUrls) <==> k in FormErrorsAsWritten(d, imageUrls))
  {
    if d.floor.value == Num(0) {
      ZeroCountAccepted(d, imageUrls, Floor);
    }
    if d.bedrooms.value == Num(0) {
      ZeroCountAccepted(d, imageUrls, Bedrooms);
    }
    if d.propertyType.value == "apartment" && d.floor.value == Empty {
      assert Fails(d, imageUrls, true, Floor);
    }
    forall k | k != Floor && k != Bedrooms
      ensures k in FormErrors(d, imageUrls) <==> k in FormErrorsAsWritten(d, imageUrls)
    {
      SameCheckElsewhere(d, imageUrls, k);
    }
  }

  /** A floor or bedroom count of 0 raises no error. */
  lemma ZeroCountAccepted(d: ListingData, imageUrls: seq<string>, k: Field)
    requires HasFormKeys(d)
    requires (k == Floor && d.floor.value == Num(0)) || (k == Bedrooms && d.bedrooms.value == Num(0))
    ensures k !in FormErrors(d, imageUrls)
  {
    assert !Fails(d, imageUrls, true, k);
  }

  /** The two readings differ on the floor and the number of bedrooms only. */
  lemma SameCheckElsewhere(d: ListingData, imageUrls: seq<string>, k: Field)
    requires HasFormKeys(d) && k != Floor && k != Bedrooms
    ensures k in FormErrors(d, imageUrls) <==> k in FormErrorsAsWritten(d, imageUrls)
  {
    assert Fails(d, imageUrls, true, k) == Fails(d, imageUrls, false, k);
  }

  /** Land has no rooms, bedrooms or floors to fill in; only an apartment has floors. */
  lemma LandSkipsRoomChecks(d: ListingData, imageUrls: seq<string>)
    requires HasFormKeys(d) && d.propertyType.value == "land"
    ensures Rooms !in FormErrors(d, imageUrls) && Bedrooms !in FormErrors(d, imageUrls)
    ensures Floor !in FormErrors(d, imageUrls) && TotalFloors !in FormErrors(d, imageUrls)
  {
    assert !Fails(d, imageUrls, true, Rooms) && !Fails(d, imageUrls, true, Bedrooms);
    assert !Fails(d, imageUrls, true, Floor) && !Fails(d, imageUrls, true, TotalFloors);
  }

  /** Every check passes on a form with no errors. */
  lemma NoErrorsNoFailure(d: ListingData, imageUrls: seq<string>, zeroAllowed: bool, k: Field)
    requires HasFormKeys(d) && ValidationErrors(d, imageUrls, zeroAllowed) == map[] && k in CheckedKeys
    ensures !Fails(d, imageUrls, zeroAllowed, k)
  {
  }

  /** A form that passes validation has every required input filled in: for
      an apartment the floor and the total floors, for anything but land the
      rooms and bedrooms. The floor and bedrooms are truthy as written, and
      may be 0 but not empty when 0 is allowed. */
  lemma PassedChecks(d: ListingData, imageUrls: seq<string>, zeroAllowed: bool)
    requires HasFormKeys(d) && ValidationErrors(d, imageUrls, zeroAllowed) == map[]
    ensures !BlankText(d.title.value) && !BlankText(d.address.value) && d.propertyType.value != "" &&
      Truthy(d.squareMeters.value) && Truthy(d.price.value) && !BlankText(d.description.value) &&
      !BlankText(d.contactPhone.value) && imageUrls != []
    ensures d.propertyType.value != "land" ==>
      Truthy(d.rooms.value) && !MissingNumber(d.bedrooms.value, zeroAllowed)
    ensures d.propertyType.value == "apartment" ==>
      Truthy(d.totalFloors.value) && !MissingNumber(d.floor.value, zeroAllowed)
    ensures !zeroAllowed ==>
      (d.propertyType.value != "land" ==> Truthy(d.bedrooms.value)) &&
      (d.propertyType.value == "apartment" ==> Truthy(d.floor.value))
  {
    NoErrorsNoFailure(d, imageUrls, zeroAllowed, Title);
    NoErrorsNoFailure(d, imageUrls, zeroAllowed, Address);
    NoErrorsNoFailure(d, imageUrls, zeroAllowed, PropertyType);
    NoErrorsNoFailure(d, imageUrls, zeroAllowed, SquareMeters);
    NoErrorsNoFailure(d, imageUrls, zeroAllowed, Price);
    NoErrorsNoFailure(d, imageUrls, zeroAllowed, Description);
    NoErrorsNoFailure(d, imageUrls, zeroAllowed, ContactPhone);
    NoErrorsNoFailure(d, imageUrls, zeroAllowed, Images);
    NoErrorsNoFailure(d, imageUrls, zeroAllowed, Rooms);
    NoErrorsNoFailure(d, imageUrls, zeroAllowed, Bedrooms);
    NoErrorsNoFailure(d, imageUrls, zeroAllowed, Floor);
    NoErrorsNoFailure(d, imageUrls, zeroAllowed, TotalFloors);
  }

  /** A form that passes `validateForm` as written and is submitted to
      `createListing` gives a listing with every required key filled in,
      owned by the session user. */
  lemma SubmittedListingIsComplete(d: ListingData, imageUrls: seq<string>, u: User,
                                   newId: string, createdAt: string, updatedAt: string)
    requires HasFormKeys(d) && d.images == Some(imageUrls) && FormErrorsAsWritten(d, imageUrls) == map[]
    ensures var n := ListingContext.NewListing(d, u, newId, createdAt, updatedAt);
      !BlankText(n.title) && !BlankText(n.address) && n.propertyType != "" &&
      Truthy(n.squareMeters) && Truthy(n.price) && !BlankText(n.description) &&
      !BlankText(n.contactPhone) && n.images != [] && n.ownerId == u.id &&
      (n.propertyType != "land" ==> Truthy(n.rooms) && Truthy(n.bedrooms)) &&
      (n.propertyType == "apartment" ==> Truthy(n.floor) && Truthy(n.totalFloors))
  {
    PassedChecks(d, imageUrls, false);
    var n := ListingContext.NewListing(d, u, newId, createdAt, updatedAt);
    assert n.title == d.title.value && n.address == d.address.value;
    assert n.propertyType == d.propertyType.value && n.description == d.description.value;
    assert n.squareMeters == d.squareMeters.value && n.price == d.price.value;
    assert n.contactPhone == d.contactPhone.value && n.images == imageUrls;
    assert n.rooms == d.rooms.value && n.bedrooms == d.bedrooms.value;
    assert n.floor == d.floor.value && n.totalFloors == d.totalFloors.value;
  }

  // ---------------------------------------------------------------------------
  // The form

  /** The error state of the inputs: a message per key, None once cleared.
      The message of a failed submission is kept beside it. */
  type Errors = map<Field, Option<string>>

  /** `errors[name]` is truthy. */
  predicate ErrorShown(errors: Errors, k: Field)
  {
    k in errors && errors[k].Some? && errors[k].value != ""
  }

  function AsErrorState(m: map<Field, string>): (e: Errors)
    ensures forall k :: k in e <==> k in m
    ensures forall k :: k in e ==> e[k] == Some(m[k])
  {
    map k | k in m :: Some(m[k])
  }

  class Form {
    var formData: ListingData
    var errors: Errors
    var submitError: Option<string>
    var imageUrls: seq<string>
    var currentImageUrl: string

    /** Every form key is present and the form data's images are the image list. */
    predicate Valid()
      reads this
    {
      HasFormKeys(formData) && formData.images == Some(imageUrls)
    }

    /** The form opened on the listing being edited, or empty for a new one. */
    constructor (initialData: Option<Listing>)
      ensures formData == InitialFormData(initialData)
      ensures imageUrls == InitialImageUrls(initialData)
      ensures errors == map[] && submitError == None && currentImageUrl == ""
      ensures Valid()
    {
      var d, urls := InitialFormData(initialData), InitialImageUrls(initialData);
      assert Lookup(d, Images) == Some(Urls(urls));
      formData := d;
      imageUrls := urls;
      errors := map[];
      submitError := None;
      currentImageUrl := "";
    }

    /** `handleChange`: the input's key takes its value, and a message shown
        for that key is cleared. */
    method HandleChange(k: Field, raw: string)
      requires Valid() && IsFormInput(k)
      modifies this
      ensures Valid()
      ensures formData == ChangeField(old(formData), k, raw)
      ensures errors == if ErrorShown(old(errors), k) then old(errors)[k := None] else old(errors)
      ensures !ErrorShown(errors, k)
      ensures submitError == old(submitError)
      ensures imageUrls == old(imageUrls) && currentImageUrl == old(currentImageUrl)
    {
      var before := formData;
      ChangeFieldKeepsFormKeys(formData, k, raw);
      formData := ChangeField(formData, k, raw);
      assert Lookup(formData, Images) == Lookup(before, Images);
      if ErrorShown(errors, k) {
        errors := errors[k := None];
      }
    }

    /** `handleImageUrlChange` */
    method HandleImageUrlChange(value: string)
      modifies this
      ensures currentImageUrl == value
      ensures formData == old(formData) && imageUrls == old(imageUrls)
      ensures errors == old(errors) && submitError == old(submitError)
    {
      currentImageUrl := value;
    }

    /** `addImageUrl`: a blank URL is ignored; otherwise it is appended (as
        typed, untrimmed) to the list and to the form data, and the field cleared. */
    method AddImageUrl()
      requires Valid()
      modifies this
      ensures Valid()
      ensures BlankText(old(currentImageUrl)) ==>
        imageUrls == old(imageUrls) && currentImageUrl == old(currentImageUrl) && formData == old(formData)
      ensures !BlankText(old(currentImageUrl)) ==>
        imageUrls == old(imageUrls) + [old(currentImageUrl)] && currentImageUrl == "" &&
        formData == old(formData).(images := Some(imageUrls))
      ensures errors == old(errors) && submitError == old(submitError)
    {
      if BlankText(currentImageUrl) {
        return;
      }
      imageUrls := imageUrls + [currentImageUrl];
      formData := formData.(images := Some(imageUrls));
      currentImageUrl := "";
    }

    /** `removeImageUrl`: the image at `index` leaves the list and the form data. */
    method RemoveImageUrl(index: int)
      requires Valid()
      modifies this
      ensures Valid()
      ensures 0 <= index < |old(imageUrls)| ==> imageUrls == old(imageUrls)[..index] + old(imageUrls)[index + 1..]
      ensures !(0 <= index < |old(imageUrls)|) ==> imageUrls == old(imageUrls)
      ensures formData == old(formData).(images := Some(imageUrls))
      ensures errors == old(errors) && submitError == old(submitError) && currentImageUrl == old(currentImageUrl)
    {
      imageUrls := FilterOutIndex(imageUrls, index);
      formData := formData.(images := Some(imageUrls));
    }

    /** `validateForm`: the error state becomes exactly the failed checks, as
        written (a floor or bedroom count of 0 fails); the form is valid when
        there are none. */
    method ValidateForm() returns (ok: bool)
      requires Valid()
      modifies this
      ensures Valid()
      ensures errors == AsErrorState(FormErrorsAsWritten(formData, imageUrls)) && submitError == None
      ensures ok <==> FormErrorsAsWritten(formData, imageUrls) == map[]
      ensures formData == old(formData) && imageUrls == old(imageUrls)
      ensures currentImageUrl == old(currentImageUrl)
    {
      var newErrors := FormErrorsAsWritten(formData, imageUrls);
      errors := AsErrorState(newErrors);
      submitError := None;
      ok := |newErrors| == 0;
    }

    /** `handleSubmit`: nothing is submitted unless the form is valid; then the
        data handed to the page is the form data with the image list, which the
        invariant makes the form data itself. */
    method HandleSubmit() returns (finalData: Option<ListingData>)
      requires Valid()
      modifies this
      ensures Valid()
      ensures errors == AsErrorState(FormErrorsAsWritten(formData, imageUrls)) && submitError == None
      ensures finalData.Some? <==> FormErrorsAsWritten(formData, imageUrls) == map[]
      ensures finalData.Some? ==> finalData.value == formData.(images := Some(imageUrls)) &&
                                  finalData.value == formData
      ensures formData == old(formData) && imageUrls == old(imageUrls)
      ensures currentImageUrl == old(currentImageUrl)
    {
      var ok := ValidateForm();
      if !ok {
        return None;
      }
      finalData := Some(formData.(images := Some(imageUrls)));
    }

    /** The page's `onSubmit` threw: its message becomes the only error. */
    method SubmitFailed(message: string)
      modifies this
      ensures errors == map[] && submitError == Some(message)
      ensures formData == old(formData) && imageUrls == old(imageUrls) && currentImageUrl == old(currentImageUrl)
    {
      errors := map[];
      submitError := Some(message);
    }
  }
}
