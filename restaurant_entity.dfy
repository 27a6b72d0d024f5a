/**
 * The Restaurant entity: listing data, tags, social links and the cached
 * like counter, which never drops below zero.
 */
module RestaurantEntity {
  import opened Outcomes
  import Text
  import PhoneValue

  /**
   * The Url value object. It trims its input and hands it to the platform's
   * URL parser, which is not part of this model: a parser is a parameter
   * that yields the normalised link, or None where the constructor throws.
   */
  type UrlParser = string -> Option<string>

  const InvalidUrl := "URL inválida"

  /** The persisted fields of a restaurant; the timestamps are not modelled. */
  datatype RestaurantData = RestaurantData(
    id: int,
    name: string,
    schedule: string,
    phone: PhoneValue.Phone,
    tags: seq<string>,
    address: string,
    ownerId: int,
    applicationId: int,
    facebook: Option<string>,
    instagram: Option<string>,
    likesCount: int)

  /** The input of `Restaurant.create`; an absent social link is None. */
  datatype NewRestaurant = NewRestaurant(
    name: string,
    schedule: string,
    phone: string,
    tags: seq<string>,
    address: string,
    facebook: Option<string>,
    instagram: Option<string>,
    ownerId: int,
    applicationId: int)

  /** The input of `updateInfo`: every field is optional. */
  datatype InfoUpdate = InfoUpdate(
    name: Option<string>,
    schedule: Option<string>,
    phone: Option<string>,
    tags: Option<seq<string>>,
    address: Option<string>,
    facebook: Option<string>,
    instagram: Option<string>)

  const NameTooShort := "El nombre del restaurante debe tener al menos 3 caracteres"
  const ScheduleRequired := "El horario es obligatorio"
  const AddressTooShort := "La dirección debe tener al menos 5 caracteres"
  const InvalidOwnerId := "El ID del restaurantero es inválido"
  const InvalidApplicationId := "El ID de solicitud es inválido"
  const NewNameTooShort := "El nombre debe tener al menos 3 caracteres"

  /** A JavaScript string that is present and non-empty, so truthy. */
  predicate Supplied(s: Option<string>)
  {
    s.Some? && s.value != ""
  }

  /** An optional link as `create` treats it: an absent or empty one stays unset. */
  function Link(raw: Option<string>, parse: UrlParser): (r: Result<Option<string>>)
    ensures !Supplied(raw) ==> r == Ok(None)
    ensures Supplied(raw) ==> (r.Ok? <==> parse(raw.value).Some?)
    ensures r.Ok? && Supplied(raw) ==> r.value == parse(raw.value)
    ensures r.Err? ==> r.failure == Failed(InvalidUrl)
  {
    if !Supplied(raw) then Ok(None)
    else if parse(raw.value).None? then Err(Failed(InvalidUrl))
    else Ok(parse(raw.value))
  }

  /** The field rules of `Restaurant.create`, before any value object is built. */
  predicate FieldsValid(n: NewRestaurant)
  {
    3 <= Text.Utf16Length(Text.Trim(n.name)) && Text.Trim(n.schedule) != [] && 5 <= Text.Utf16Length(Text.Trim(n.address))
    && n.ownerId > 0 && n.applicationId > 0
  }

  /**
   * `Restaurant.create`: field rules, then the Phone and Url values. The new
   * restaurant has id 0, trimmed text and no likes.
   */
  function Create(n: NewRestaurant, parse: UrlParser): (r: Result<RestaurantData>)
    ensures r.Ok? <==> FieldsValid(n) && PhoneValue.NewPhone(n.phone).Ok?
                       && Link(n.facebook, parse).Ok? && Link(n.instagram, parse).Ok?
    ensures r.Ok? ==> r.value == RestaurantData(0, Text.Trim(n.name), Text.Trim(n.schedule),
                                                PhoneValue.NewPhone(n.phone).value, n.tags, Text.Trim(n.address),
                                                n.ownerId, n.applicationId,
                                                Link(n.facebook, parse).value, Link(n.instagram, parse).value, 0)
    ensures Text.Utf16Length(Text.Trim(n.name)) < 3 ==> r == Err(Failed(NameTooShort))
    ensures !FieldsValid(n) ==> r.Err? && r.failure.Failed?
  {
    if Text.Utf16Length(Text.Trim(n.name)) < 3 then Err(Failed(NameTooShort))
    else if Text.Trim(n.schedule) == [] then Err(Failed(ScheduleRequired))
    else if Text.Utf16Length(Text.Trim(n.address)) < 5 then Err(Failed(AddressTooShort))
    else if n.ownerId <= 0 then Err(Failed(InvalidOwnerId))
    else if n.applicationId <= 0 then Err(Failed(InvalidApplicationId))
    else
      match PhoneValue.NewPhone(n.phone)
      case Err(f) => Err(f)
      case Ok(phone) =>
        match Link(n.facebook, parse)
        case Err(f) => Err(f)
        case Ok(facebook) =>
          match Link(n.instagram, parse)
          case Err(f) => Err(f)
          case Ok(instagram) =>
            Ok(RestaurantData(0, Text.Trim(n.name), Text.Trim(n.schedule), phone, n.tags,
                              Text.Trim(n.address), n.ownerId, n.applicationId, facebook, instagram, 0))
  }

  /** The counter after `decrementLikes`: one less, but never below zero. */
  function Decremented(likes: int): (r: int)
    ensures likes > 0 ==> r == likes - 1
    ensures likes <= 0 ==> r == likes
    ensures likes >= 0 ==> r >= 0
  {
    if likes > 0 then likes - 1 else likes
  }

  /** `removeTag`'s filter: every occurrence of the tag dropped, the rest kept in order. */
  function Without(tags: seq<string>, tag: string): (r: seq<string>)
    ensures tag !in r
    ensures forall t :: t in r <==> t in tags && t != tag
    ensures |r| <= |tags|
  {
    if tags == [] then []
    else if tags[0] == tag then Without(tags[1..], tag)
    else [tags[0]] + Without(tags[1..], tag)
  }

  /** `addTag`'s result: the tag appended when absent, otherwise no change. */
  function WithTag(tags: seq<string>, tag: string): (r: seq<string>)
    ensures tag in r
    ensures forall t :: t in r <==> t in tags || t == tag
  {
    if tag in tags then tags else tags + [tag]
  }

  /** No tag appears twice. */
  predicate Distinct(tags: seq<string>)
  {
    forall i, j :: 0 <= i < j < |tags| ==> tags[i] != tags[j]
  }

  /** The name and schedule assignments of `updateInfo`, made once the name passed its check. */
  function AssignText(d: RestaurantData, u: InfoUpdate): (r: RestaurantData)
    ensures r == d.(name := r.name, schedule := r.schedule)
    ensures r.name == if Supplied(u.name) then Text.Trim(u.name.value) else d.name
    ensures r.schedule == if Supplied(u.schedule) then Text.Trim(u.schedule.value) else d.schedule
  {
    var d1 := if Supplied(u.name) then d.(name := Text.Trim(u.name.value)) else d;
    if Supplied(u.schedule) then d1.(schedule := Text.Trim(u.schedule.value)) else d1
  }

  /** The tags and address assignments of `updateInfo`, made once the phone was accepted. */
  function AssignListing(d: RestaurantData, u: InfoUpdate): (r: RestaurantData)
    ensures r == d.(tags := r.tags, address := r.address)
    ensures r.tags == if u.tags.Some? then u.tags.value else d.tags
    ensures r.address == if Supplied(u.address) then Text.Trim(u.address.value) else d.address
  {
    var d4 := if u.tags.Some? then d.(tags := u.tags.value) else d;
    if Supplied(u.address) then d4.(address := Text.Trim(u.address.value)) else d4
  }

  /** The social-link steps of `updateInfo`: Facebook first, then Instagram. */
  function ApplyLinks(d: RestaurantData, u: InfoUpdate, parse: UrlParser): (r: (Result<()>, RestaurantData))
    ensures r.1 == d.(facebook := r.1.facebook, instagram := r.1.instagram)
    ensures !Supplied(u.facebook) ==> r.1.facebook == d.facebook
    ensures !Supplied(u.instagram) ==> r.1.instagram == d.instagram
  {
    if Supplied(u.facebook) && parse(u.facebook.value).None? then (Err(Failed(InvalidUrl)), d)
    else
      var d6 := if Supplied(u.facebook) then d.(facebook := parse(u.facebook.value)) else d;
      if Supplied(u.instagram) && parse(u.instagram.value).None? then (Err(Failed(InvalidUrl)), d6)
      else (Ok(()), if Supplied(u.instagram) then d6.(instagram := parse(u.instagram.value)) else d6)
  }

  /** The phone step of `updateInfo` and everything after it. */
  function ApplyFromPhone(d: RestaurantData, u: InfoUpdate, parse: UrlParser): (r: (Result<()>, RestaurantData))
    ensures r.1.id == d.id && r.1.ownerId == d.ownerId && r.1.applicationId == d.applicationId
    ensures r.1.likesCount == d.likesCount && r.1.name == d.name && r.1.schedule == d.schedule
    ensures !Supplied(u.phone) ==> r.1.phone == d.phone
    ensures u.tags.None? ==> r.1.tags == d.tags
    ensures !Supplied(u.address) ==> r.1.address == d.address
    ensures !Supplied(u.facebook) ==> r.1.facebook == d.facebook
    ensures !Supplied(u.instagram) ==> r.1.instagram == d.instagram
  {
    if Supplied(u.phone) && PhoneValue.NewPhone(u.phone.value).Err? then
      (Err(PhoneValue.NewPhone(u.phone.value).failure), d)
    else
      var d3 := if Supplied(u.phone) then d.(phone := PhoneValue.NewPhone(u.phone.value).value) else d;
      ApplyLinks(AssignListing(d3, u), u, parse)
  }

  /**
   * What `updateInfo` leaves in the object and whether it threw. Fields are
   * assigned one after the other, so a Phone or Url that fails after an
   * earlier field was assigned leaves that earlier assignment in place.
   */
  function ApplyInfo(d: RestaurantData, u: InfoUpdate, parse: UrlParser): (r: (Result<()>, RestaurantData))
    ensures r.1.id == d.id && r.1.ownerId == d.ownerId && r.1.applicationId == d.applicationId
    ensures r.1.likesCount == d.likesCount
    ensures Supplied(u.name) && Text.Utf16Length(Text.Trim(u.name.value)) < 3 ==> r == (Err(Failed(NewNameTooShort)), d)
    ensures !Supplied(u.name) ==> r.1.name == d.name
    ensures !Supplied(u.schedule) ==> r.1.schedule == d.schedule
    ensures !Supplied(u.phone) ==> r.1.phone == d.phone
    ensures u.tags.None? ==> r.1.tags == d.tags
    ensures !Supplied(u.address) ==> r.1.address == d.address
    ensures !Supplied(u.facebook) ==> r.1.facebook == d.facebook
    ensures !Supplied(u.instagram) ==> r.1.instagram == d.instagram
  {
    if Supplied(u.name) && Text.Utf16Length(Text.Trim(u.name.value)) < 3 then (Err(Failed(NewNameTooShort)), d)
    else ApplyFromPhone(AssignText(d, u), u, parse)
  }

  /** The entity object, whose methods update its fields in place. */
  class Restaurant {
    const id: int
    var name: string
    var schedule: string
    var phone: PhoneValue.Phone
    var tags: seq<string>
    var address: string
    const ownerId: int
    const applicationId: int
    var facebook: Option<string>
    var instagram: Option<string>
    var likesCount: int

    /** Loads a stored restaurant. */
    constructor (d: RestaurantData)
      ensures Data() == d
    {
      id := d.id;
      name := d.name;
      schedule := d.schedule;
      phone := d.phone;
      tags := d.tags;
      address := d.address;
      ownerId := d.ownerId;
      applicationId := d.applicationId;
      facebook := d.facebook;
      instagram := d.instagram;
      likesCount := d.likesCount;
    }

    function Data(): RestaurantData
      reads this
    {
      RestaurantData(id, name, schedule, phone, tags, address, ownerId, applicationId, facebook, instagram, likesCount)
    }

    /** `incrementLikes`: exactly one more like. */
    method IncrementLikes()
      modifies this
      ensures Data() == old(Data()).(likesCount := old(likesCount) + 1)
    {
      likesCount := likesCount + 1;
    }

    /** `decrementLikes`: one less like, but zero stays zero. */
    method DecrementLikes()
      modifies this
      ensures Data() == old(Data()).(likesCount := Decremented(old(likesCount)))
    {
      if likesCount > 0 {
        likesCount := likesCount - 1;
      }
    }

    /** `updateInfo`: assigns each supplied field in turn, as `ApplyInfo` describes. */
    method UpdateInfo(u: InfoUpdate, parse: UrlParser) returns (r: Result<()>)
      modifies this
      ensures (r, Data()) == ApplyInfo(old(Data()), u, parse)
    {
      if Supplied(u.name) && Text.Utf16Length(Text.Trim(u.name.value)) < 3 {
        return Err(Failed(NewNameTooShort));
      }
      AssignTextFields(u);
      r := UpdateFromPhone(u, parse);
    }

    method AssignTextFields(u: InfoUpdate)
      modifies this
      ensures Data() == AssignText(old(Data()), u)
    {
      if Supplied(u.name) {
        name := Text.Trim(u.name.value);
      }
      if Supplied(u.schedule) {
        schedule := Text.Trim(u.schedule.value);
      }
    }

    method UpdateFromPhone(u: InfoUpdate, parse: UrlParser) returns (r: Result<()>)
      modifies this
      ensures (r, Data()) == ApplyFromPhone(old(Data()), u, parse)
    {
      if Supplied(u.phone) {
        var p := PhoneValue.NewPhone(u.phone.value);
        if p.Err? {
          return Err(p.failure);
        }
        phone := p.value;
      }
      if u.tags.Some? {
        tags := u.tags.value;
      }
      if Supplied(u.address) {
        address := Text.Trim(u.address.value);
      }
      r := UpdateLinks(u, parse);
    }

    method UpdateLinks(u: InfoUpdate, parse: UrlParser) returns (r: Result<()>)
      modifies this
      ensures (r, Data()) == ApplyLinks(old(Data()), u, parse)
    {
      if Supplied(u.facebook) {
        var link := parse(u.facebook.value);
        if link.None? {
          return Err(Failed(InvalidUrl));
        }
        facebook := link;
      }
      if Supplied(u.instagram) {
        var link := parse(u.instagram.value);
        if link.None? {
          return Err(Failed(InvalidUrl));
        }
        instagram := link;
      }
      return Ok(());
    }

    /** `addTag`: appends the tag only when it is not there yet. */
    method AddTag(tag: string)
      modifies this
      ensures Data() == old(Data()).(tags := WithTag(old(tags), tag))
    {
      if tag !in tags {
        tags := tags + [tag];
      }
    }

    /** `removeTag`: keeps every other tag, in order. */
    method RemoveTag(tag: string)
      modifies this
      ensures Data() == old(Data()).(tags := Without(old(tags), tag))
    {
      tags := Without(tags, tag);
    }
  }

  /** A like followed by an unlike restores a non-negative counter. */
  lemma IncrementThenDecrement(likes: int)
    requires likes >= 0
    ensures Decremented(likes + 1) == likes
  {
  }

  /** `addTag` never creates a duplicate. */
  lemma WithTagKeepsDistinct(tags: seq<string>, tag: string)
    requires Distinct(tags)
    ensures Distinct(WithTag(tags, tag))
  {
  }

  /** Filtering distributes over concatenation, so the kept tags stay in their order. */
  lemma {:induction false} WithoutAppend(a: seq<string>, b: seq<string>, tag: string)
    ensures Without(a + b, tag) == Without(a, tag) + Without(b, tag)
  {
    if a == [] {
      assert a + b == b;
    } else {
      assert (a + b)[1..] == a[1..] + b;
      WithoutAppend(a[1..], b, tag);
    }
  }

  /** Removing an absent tag changes nothing. */
  lemma {:induction false} WithoutAbsent(tags: seq<string>, tag: string)
    requires tag !in tags
    ensures Without(tags, tag) == tags
  {
    if tags != [] {
      assert tags[1..] + [] == tags[1..];
      assert tag !in tags[1..];
      WithoutAbsent(tags[1..], tag);
      assert [tags[0]] + tags[1..] == tags;
    }
  }

  /** Every other tag keeps its number of occurrences. */
  lemma {:induction false} WithoutCounts(tags: seq<string>, tag: string, other: string)
    requires other != tag
    ensures multiset(Without(tags, tag))[other] == multiset(tags)[other]
    ensures multiset(Without(tags, tag))[tag] == 0
  {
    if tags != [] {
      WithoutCounts(tags[1..], tag, other);
      assert tags == [tags[0]] + tags[1..];
    }
  }

  /** Removing a tag after adding it leaves the other tags, in their order. */
  lemma AddThenRemove(tags: seq<string>, tag: string)
    ensures Without(WithTag(tags, tag), tag) == Without(tags, tag)
  {
    if tag !in tags {
      WithoutAppend(tags, [tag], tag);
      assert Without([tag], tag) == [];
    }
  }

  /** A failed name check in `updateInfo` leaves every field as it was. */
  lemma ShortNameChangesNothing(d: RestaurantData, u: InfoUpdate, parse: UrlParser)
    requires Supplied(u.name) && Text.Utf16Length(Text.Trim(u.name.value)) < 3
    ensures ApplyInfo(d, u, parse).1 == d
    ensures ApplyInfo(d, u, parse).0.Err?
  {
  }
}
