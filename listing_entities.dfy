/**
 * The favorite record: a client's like of a restaurant. All its fields are
 * fixed at construction.
 */
module FavoriteEntity {
  import opened Outcomes

  datatype Favorite = Favorite(id: int, clientId: int, restaurantId: int)

  const InvalidClientId := "El ID del cliente es inválido"
  const InvalidRestaurantId := "El ID del restaurante es inválido"

  /** `Favorite.create`: both ids must be positive; the client is checked first. */
  function Create(clientId: int, restaurantId: int): (r: Result<Favorite>)
    ensures r.Ok? <==> clientId > 0 && restaurantId > 0
    ensures r.Ok? ==> r.value == Favorite(0, clientId, restaurantId)
    ensures clientId <= 0 ==> r == Err(Failed(InvalidClientId))
    ensures clientId > 0 && restaurantId <= 0 ==> r == Err(Failed(InvalidRestaurantId))
  {
    if clientId <= 0 then Err(Failed(InvalidClientId))
    else if restaurantId <= 0 then Err(Failed(InvalidRestaurantId))
    else Ok(Favorite(0, clientId, restaurantId))
  }
}

/**
 * The Menu entity: two file links, a status and a download counter that
 * the status setters leave alone.
 */
module MenuEntity {
  import opened Outcomes
  import FileUrlValue
  import MS = MenuStatusEnum

  /** The persisted fields of a menu; the timestamps are not modelled. */
  datatype MenuData = MenuData(
    id: int,
    fileUrl: FileUrlValue.FileUrl,
    menuUrl: FileUrlValue.FileUrl,
    status: MS.MenuStatus,
    restaurantId: int,
    downloadCount: int)

  const InvalidRestaurantId := "El ID del restaurante es inválido"

  /** `Menu.create`: a positive restaurant id, then the file link, then the menu link. */
  function Create(fileUrl: string, menuUrl: string, status: MS.MenuStatus, restaurantId: int): (r: Result<MenuData>)
    ensures r.Ok? <==> restaurantId > 0 && FileUrlValue.NewFileUrl(fileUrl).Ok? && FileUrlValue.NewFileUrl(menuUrl).Ok?
    ensures r.Ok? ==> r.value == MenuData(0, FileUrlValue.NewFileUrl(fileUrl).value, FileUrlValue.NewFileUrl(menuUrl).value,
                                          status, restaurantId, 0)
    ensures restaurantId <= 0 ==> r == Err(Failed(InvalidRestaurantId))
    ensures restaurantId > 0 && r.Err? ==> r.failure == Failed(FileUrlValue.EmptyUrl)
  {
    if restaurantId <= 0 then Err(Failed(InvalidRestaurantId))
    else
      match FileUrlValue.NewFileUrl(fileUrl)
      case Err(f) => Err(f)
      case Ok(file) =>
        match FileUrlValue.NewFileUrl(menuUrl)
        case Err(f) => Err(f)
        case Ok(menu) => Ok(MenuData(0, file, menu, status, restaurantId, 0))
  }

  /** The entity object, whose setters assign `status` and `downloadCount` in place. */
  class Menu {
    const id: int
    var fileUrl: FileUrlValue.FileUrl
    var menuUrl: FileUrlValue.FileUrl
    var status: MS.MenuStatus
    const restaurantId: int
    var downloadCount: int

    /** Loads a stored menu. */
    constructor (d: MenuData)
      ensures Data() == d
    {
      id := d.id;
      fileUrl := d.fileUrl;
      menuUrl := d.menuUrl;
      status := d.status;
      restaurantId := d.restaurantId;
      downloadCount := d.downloadCount;
    }

    function Data(): MenuData
      reads this
    {
      MenuData(id, fileUrl, menuUrl, status, restaurantId, downloadCount)
    }

    /** `activate`: ACTIVE from any status; nothing else changes. */
    method Activate()
      modifies this
      ensures Data() == old(Data()).(status := MS.Active)
    {
      status := MS.Active;
    }

    /** `deactivate`: INACTIVE from any status; nothing else changes. */
    method Deactivate()
      modifies this
      ensures Data() == old(Data()).(status := MS.Inactive)
    {
      status := MS.Inactive;
    }

    /** `setToPending`: PENDING from any status; nothing else changes. */
    method SetToPending()
      modifies this
      ensures Data() == old(Data()).(status := MS.Pending)
    {
      status := MS.Pending;
    }

    /** `setToRevision`: REVISION from any status; nothing else changes. */
    method SetToRevision()
      modifies this
      ensures Data() == old(Data()).(status := MS.Revision)
    {
      status := MS.Revision;
    }

    /** `incrementDownloadCount`: exactly one more download. */
    method IncrementDownloadCount()
      modifies this
      ensures Data() == old(Data()).(downloadCount := old(downloadCount) + 1)
    {
      downloadCount := downloadCount + 1;
    }

    predicate IsActive() reads this { status == MS.Active }

    predicate IsInactive() reads this { status == MS.Inactive }

    predicate IsPending() reads this { status == MS.Pending }
  }
}

/** A photo a client uploaded for a restaurant. */
module UserPhotoEntity {
  import opened Outcomes
  import FileUrlValue

  datatype UserPhoto = UserPhoto(id: int, photoUrl: FileUrlValue.FileUrl, clientId: int, restaurantId: int)

  const InvalidClientId := "El ID del cliente es inválido"
  const InvalidRestaurantId := "El ID del restaurante es inválido"

  /** `UserPhoto.create`: client id, restaurant id, then the photo link. */
  function Create(photoUrl: string, clientId: int, restaurantId: int): (r: Result<UserPhoto>)
    ensures r.Ok? <==> clientId > 0 && restaurantId > 0 && FileUrlValue.NewFileUrl(photoUrl).Ok?
    ensures r.Ok? ==> r.value == UserPhoto(0, FileUrlValue.NewFileUrl(photoUrl).value, clientId, restaurantId)
    ensures clientId <= 0 ==> r == Err(Failed(InvalidClientId))
    ensures clientId > 0 && restaurantId <= 0 ==> r == Err(Failed(InvalidRestaurantId))
  {
    if clientId <= 0 then Err(Failed(InvalidClientId))
    else if restaurantId <= 0 then Err(Failed(InvalidRestaurantId))
    else
      match FileUrlValue.NewFileUrl(photoUrl)
      case Err(f) => Err(f)
      case Ok(url) => Ok(UserPhoto(0, url, clientId, restaurantId))
  }
}

/** The id checks that documents and images share. */
module OwnedFileGuard {
  import opened Outcomes

  const InvalidRestaurantId := "El ID del restaurante es inválido"
  const InvalidApplicationId := "El ID de solicitud es inválido"
  const InvalidOwnerId := "El ID del propietario es inválido"

  /** The first of restaurant, application and owner id that is not positive, as a failure. */
  function FirstInvalidId(restaurantId: int, applicationId: int, ownerId: int): (r: Option<Failure>)
    ensures r.None? <==> restaurantId > 0 && applicationId > 0 && ownerId > 0
    ensures restaurantId <= 0 ==> r == Some(Failed(InvalidRestaurantId))
    ensures restaurantId > 0 && applicationId <= 0 ==> r == Some(Failed(InvalidApplicationId))
    ensures restaurantId > 0 && applicationId > 0 && ownerId <= 0 ==> r == Some(Failed(InvalidOwnerId))
  {
    if restaurantId <= 0 then Some(Failed(InvalidRestaurantId))
    else if applicationId <= 0 then Some(Failed(InvalidApplicationId))
    else if ownerId <= 0 then Some(Failed(InvalidOwnerId))
    else None
  }
}

/** A legal document of a restaurant; only its type changes after creation. */
module DocumentEntity {
  import opened Outcomes
  import FileUrlValue
  import DocumentTypeEnum
  import OwnedFileGuard

  datatype DocumentData = DocumentData(
    id: int,
    docType: DocumentTypeEnum.DocumentType,
    fileUrl: FileUrlValue.FileUrl,
    restaurantId: int,
    applicationId: int,
    ownerId: int)

  /** `Document.create`: the three id checks, then the file link. */
  function Create(docType: DocumentTypeEnum.DocumentType, fileUrl: string, restaurantId: int, applicationId: int, ownerId: int)
    : (r: Result<DocumentData>)
    ensures r.Ok? <==> restaurantId > 0 && applicationId > 0 && ownerId > 0 && FileUrlValue.NewFileUrl(fileUrl).Ok?
    ensures r.Ok? ==> r.value == DocumentData(0, docType, FileUrlValue.NewFileUrl(fileUrl).value,
                                              restaurantId, applicationId, ownerId)
    ensures OwnedFileGuard.FirstInvalidId(restaurantId, applicationId, ownerId).Some? ==>
              r == Err(OwnedFileGuard.FirstInvalidId(restaurantId, applicationId, ownerId).value)
  {
    match OwnedFileGuard.FirstInvalidId(restaurantId, applicationId, ownerId)
    case Some(f) => Err(f)
    case None =>
      match FileUrlValue.NewFileUrl(fileUrl)
      case Err(f) => Err(f)
      case Ok(url) => Ok(DocumentData(0, docType, url, restaurantId, applicationId, ownerId))
  }

  /** The entity object; `updateType` assigns its type in place. */
  class Document {
    const id: int
    var docType: DocumentTypeEnum.DocumentType
    var fileUrl: FileUrlValue.FileUrl
    const restaurantId: int
    const applicationId: int
    const ownerId: int

    /** Loads a stored document. */
    constructor (d: DocumentData)
      ensures Data() == d
    {
      id := d.id;
      docType := d.docType;
      fileUrl := d.fileUrl;
      restaurantId := d.restaurantId;
      applicationId := d.applicationId;
      ownerId := d.ownerId;
    }

    function Data(): DocumentData
      reads this
    {
      DocumentData(id, docType, fileUrl, restaurantId, applicationId, ownerId)
    }

    /** `updateType`: only the type changes. */
    method UpdateType(newType: DocumentTypeEnum.DocumentType)
      modifies this
      ensures Data() == old(Data()).(docType := newType)
    {
      docType := newType;
    }
  }
}

/** An image of a restaurant; all its fields are fixed at construction. */
module ImageEntity {
  import opened Outcomes
  import FileUrlValue
  import OwnedFileGuard

  datatype Image = Image(id: int, imageUrl: FileUrlValue.FileUrl, restaurantId: int, applicationId: int, ownerId: int)

  /** `Image.create`: the three id checks, then the image link. */
  function Create(imageUrl: string, restaurantId: int, applicationId: int, ownerId: int): (r: Result<Image>)
    ensures r.Ok? <==> restaurantId > 0 && applicationId > 0 && ownerId > 0 && FileUrlValue.NewFileUrl(imageUrl).Ok?
    ensures r.Ok? ==> r.value == Image(0, FileUrlValue.NewFileUrl(imageUrl).value, restaurantId, applicationId, ownerId)
    ensures OwnedFileGuard.FirstInvalidId(restaurantId, applicationId, ownerId).Some? ==>
              r == Err(OwnedFileGuard.FirstInvalidId(restaurantId, applicationId, ownerId).value)
  {
    match OwnedFileGuard.FirstInvalidId(restaurantId, applicationId, ownerId)
    case Some(f) => Err(f)
    case None =>
      match FileUrlValue.NewFileUrl(imageUrl)
      case Err(f) => Err(f)
      case Ok(url) => Ok(Image(0, url, restaurantId, applicationId, ownerId))
  }
}

/** A zone that groups restaurants; its name can be changed. */
module ZoneEntity {
  import opened Outcomes
  import Text

  datatype ZoneData = ZoneData(id: int, name: string, ownerId: int)

  const NameTooShort := "El nombre de la zona debe tener al menos 3 caracteres"
  const InvalidOwnerId := "El ID del propietario es inválido"

  /** `Zone.create`: a trimmed name of at least 3 code units, then a positive owner. */
  function Create(name: string, ownerId: int): (r: Result<ZoneData>)
    ensures r.Ok? <==> 3 <= Text.Utf16Length(Text.Trim(name)) && ownerId > 0
    ensures r.Ok? ==> r.value == ZoneData(0, Text.Trim(name), ownerId)
    ensures Text.Utf16Length(Text.Trim(name)) < 3 ==> r == Err(Failed(NameTooShort))
    ensures 3 <= Text.Utf16Length(Text.Trim(name)) && ownerId <= 0 ==> r == Err(Failed(InvalidOwnerId))
  {
    if Text.Utf16Length(Text.Trim(name)) < 3 then Err(Failed(NameTooShort))
    else if ownerId <= 0 then Err(Failed(InvalidOwnerId))
    else Ok(ZoneData(0, Text.Trim(name), ownerId))
  }

  /** The entity object; `updateName` assigns its name in place. */
  class Zone {
    const id: int
    var name: string
    const ownerId: int

    /** Loads a stored zone. */
    constructor (d: ZoneData)
      ensures Data() == d
    {
      id := d.id;
      name := d.name;
      ownerId := d.ownerId;
    }

    function Data(): ZoneData
      reads this
    {
      ZoneData(id, name, ownerId)
    }

    /** `updateName`: a short name fails and changes nothing; otherwise the trimmed name is stored. */
    method UpdateName(newName: string) returns (r: Result<()>)
      modifies this
      ensures r.Err? <==> Text.Utf16Length(Text.Trim(newName)) < 3
      ensures r.Err? ==> r.failure == Failed(NameTooShort) && Data() == old(Data())
      ensures r.Ok? ==> Data() == old(Data()).(name := Text.Trim(newName))
    {
      if Text.Utf16Length(Text.Trim(newName)) < 3 {
        return Err(Failed(NameTooShort));
      }
      name := Text.Trim(newName);
      return Ok(());
    }
  }

  /** A name `updateName` accepts is also one `create` accepts, and the stored text is the same. */
  lemma RenameAgreesWithCreate(newName: string, ownerId: int)
    requires ownerId > 0
    ensures Create(newName, ownerId).Ok? <==> 3 <= Text.Utf16Length(Text.Trim(newName))
    ensures Create(newName, ownerId).Ok? ==> Create(newName, ownerId).value.name == Text.Trim(newName)
  {
  }
}
