/**
 * The legal documents a restaurant files: uploaded to the file storage and
 * recorded, or deleted from both, by an administrator or the restaurant's
 * owner.
 */
module Documents {
  import opened Outcomes
  import opened Persistence
  import Text
  import Access
  import UT = UserTypeEnum
  import DocumentTypeEnum
  import DocumentEntity

  /** The resource name `deleteDocument` reports when the document is missing. */
  const DocumentResource := "Document"

  /** What `UploadDocument` reports. */
  datatype DocumentUploaded = DocumentUploaded(documentId: int, fileUrl: string, docType: DocumentTypeEnum.DocumentType)

  /**
   * `UploadDocumentUseCase.execute`: the restaurant must exist and the
   * requester may act on it; then the file is uploaded (`upload` is the link
   * the storage returned or the failure it threw) and the record created.
   * The application and owner ids are the request's, not compared with the
   * restaurant's.
   */
  function UploadDocument(db: Db, docType: DocumentTypeEnum.DocumentType, restaurantId: int, applicationId: int,
                          ownerId: int, requesterId: int, requesterType: UT.UserType, upload: Result<string>)
    : (r: (Result<DocumentUploaded>, Db))
    ensures restaurantId !in db.restaurants ==> r == (Err(NotFound(RestaurantResource)), db)
    ensures restaurantId in db.restaurants
            && !Access.CanActOn(requesterType, requesterId, db.restaurants[restaurantId].ownerId)
            ==> r == (Err(Forbidden(NotOwner("restaurante"))), db)
    ensures (restaurantId in db.restaurants
             && Access.CanActOn(requesterType, requesterId, db.restaurants[restaurantId].ownerId) && upload.Err?)
            ==> r == (Err(upload.failure), db)
    ensures r.0.Err? ==> r.1 == db
    ensures r.0.Ok? <==> restaurantId in db.restaurants
                         && Access.CanActOn(requesterType, requesterId, db.restaurants[restaurantId].ownerId)
                         && upload.Ok?
                         && DocumentEntity.Create(docType, upload.value, restaurantId, applicationId, ownerId).Ok?
    ensures r.0.Ok? ==>
              r.1 == InsertDocument(db, DocumentEntity.Create(docType, upload.value, restaurantId, applicationId, ownerId).value)
              && r.0.value == DocumentUploaded(db.nextId, Text.Trim(upload.value), docType)
  {
    if restaurantId !in db.restaurants then (Err(NotFound(RestaurantResource)), db)
    else if !Access.CanActOn(requesterType, requesterId, db.restaurants[restaurantId].ownerId) then
      (Err(Forbidden(NotOwner("restaurante"))), db)
    else if upload.Err? then (Err(upload.failure), db)
    else StoredDocument(db, docType, upload.value, restaurantId, applicationId, ownerId)
  }

  /** The last step of an upload: `Document.create` on the uploaded link, then `save`. */
  function StoredDocument(db: Db, docType: DocumentTypeEnum.DocumentType, url: string, restaurantId: int,
                          applicationId: int, ownerId: int): (r: (Result<DocumentUploaded>, Db))
  {
    match DocumentEntity.Create(docType, url, restaurantId, applicationId, ownerId)
    case Err(f) => (Err(f), db)
    case Ok(d) => (Ok(DocumentUploaded(db.nextId, d.fileUrl.value, d.docType)), InsertDocument(db, d))
  }

  /** The statement form of `StoredDocument`. */
  method StoreDocument(store: Store, docType: DocumentTypeEnum.DocumentType, url: string, restaurantId: int,
                       applicationId: int, ownerId: int) returns (r: Result<DocumentUploaded>)
    modifies store
    ensures (r, store.Snap()) == StoredDocument(old(store.Snap()), docType, url, restaurantId, applicationId, ownerId)
  {
    var document := DocumentEntity.Create(docType, url, restaurantId, applicationId, ownerId);
    if document.Err? {
      return Err(document.failure);
    }
    var id := store.SaveDocument(document.value);
    return Ok(DocumentUploaded(id, document.value.fileUrl.value, document.value.docType));
  }

  /**
   * `DeleteDocumentUseCase.execute`: the document and its restaurant must
   * exist and the requester may act on the restaurant; a failed file
   * deletion (`deleteErrors`, by link) propagates and keeps the record.
   */
  function DeleteDocument(db: Db, documentId: int, requesterId: int, requesterType: UT.UserType,
                          deleteErrors: map<string, Failure>): (r: (Result<()>, Db))
    ensures documentId !in db.documents ==> r == (Err(NotFound(DocumentResource)), db)
    ensures documentId in db.documents && db.documents[documentId].restaurantId !in db.restaurants
            ==> r == (Err(NotFound(RestaurantResource)), db)
    ensures (documentId in db.documents && db.documents[documentId].restaurantId in db.restaurants
             && !Access.CanActOn(requesterType, requesterId, db.restaurants[db.documents[documentId].restaurantId].ownerId))
            ==> r == (Err(Forbidden(NotOwner("documento"))), db)
    ensures r.0.Err? ==> r.1 == db
    ensures r.0.Ok? <==> documentId in db.documents && db.documents[documentId].restaurantId in db.restaurants
                         && Access.CanActOn(requesterType, requesterId, db.restaurants[db.documents[documentId].restaurantId].ownerId)
                         && db.documents[documentId].fileUrl.value !in deleteErrors
    ensures r.0.Ok? ==> r.1 == RemoveDocument(db, documentId) && documentId !in r.1.documents
  {
    if documentId !in db.documents then (Err(NotFound(DocumentResource)), db)
    else
      var d := db.documents[documentId];
      if d.restaurantId !in db.restaurants then (Err(NotFound(RestaurantResource)), db)
      else if !Access.CanActOn(requesterType, requesterId, db.restaurants[d.restaurantId].ownerId) then
        (Err(Forbidden(NotOwner("documento"))), db)
      else if d.fileUrl.value in deleteErrors then (Err(deleteErrors[d.fileUrl.value]), db)
      else (Ok(()), RemoveDocument(db, documentId))
  }

  class UploadDocumentUseCase {
    const store: Store

    constructor (store: Store)
      ensures this.store == store
    {
      this.store := store;
    }

    method Execute(docType: DocumentTypeEnum.DocumentType, restaurantId: int, applicationId: int, ownerId: int,
                   requesterId: int, requesterType: UT.UserType, upload: Result<string>) returns (r: Result<DocumentUploaded>)
      modifies store
      ensures (r, store.Snap()) == UploadDocument(old(store.Snap()), docType, restaurantId, applicationId, ownerId,
                                                  requesterId, requesterType, upload)
    {
      if restaurantId !in store.restaurants {
        return Err(NotFound(RestaurantResource));
      }
      var restaurant := store.restaurants[restaurantId];
      if requesterType != UT.Admin && restaurant.ownerId != requesterId {
        return Err(Forbidden(NotOwner("restaurante")));
      }
      if upload.Err? {
        return Err(upload.failure);
      }
      r := StoreDocument(store, docType, upload.value, restaurantId, applicationId, ownerId);
    }
  }

  class DeleteDocumentUseCase {
    const store: Store

    constructor (store: Store)
      ensures this.store == store
    {
      this.store := store;
    }

    method Execute(documentId: int, requesterId: int, requesterType: UT.UserType, deleteErrors: map<string, Failure>)
      returns (r: Result<()>)
      modifies store
      ensures (r, store.Snap()) == DeleteDocument(old(store.Snap()), documentId, requesterId, requesterType, deleteErrors)
    {
      if documentId !in store.documents {
        return Err(NotFound(DocumentResource));
      }
      var document := store.documents[documentId];
      if document.restaurantId !in store.restaurants {
        return Err(NotFound(RestaurantResource));
      }
      var restaurant := store.restaurants[document.restaurantId];
      if requesterType != UT.Admin && restaurant.ownerId != requesterId {
        return Err(Forbidden(NotOwner("documento")));
      }
      if document.fileUrl.value in deleteErrors {
        return Err(deleteErrors[document.fileUrl.value]);
      }
      store.DeleteDocument(documentId);
      return Ok(());
    }
  }

  /**
   * Deleting a document just uploaded, by the same requester and with the
   * storage working, leaves the store as it was except for the used-up id.
   */
  lemma {:induction false} UploadThenDeleteRestores(db: Db, docType: DocumentTypeEnum.DocumentType, restaurantId: int,
                                                    applicationId: int, ownerId: int, requesterId: int,
                                                    requesterType: UT.UserType, upload: Result<string>)
    requires IdsBelowNext(db)
    requires UploadDocument(db, docType, restaurantId, applicationId, ownerId, requesterId, requesterType, upload).0.Ok?
    ensures var up := UploadDocument(db, docType, restaurantId, applicationId, ownerId, requesterId, requesterType, upload);
            DeleteDocument(up.1, up.0.value.documentId, requesterId, requesterType, map[])
            == (Ok(()), db.(nextId := db.nextId + 1))
  {
    var up := UploadDocument(db, docType, restaurantId, applicationId, ownerId, requesterId, requesterType, upload);
    var d := DocumentEntity.Create(docType, upload.value, restaurantId, applicationId, ownerId).value;
    assert up.1 == InsertDocument(db, d);
    assert up.0.value.documentId == db.nextId;
    InsertThenRemove(db, d);
  }

  /** Removing the record just inserted undoes the insertion, but not the id it used up. */
  lemma InsertThenRemove(db: Db, d: DocumentEntity.DocumentData)
    requires IdsBelowNext(db)
    ensures RemoveDocument(InsertDocument(db, d), db.nextId) == db.(nextId := db.nextId + 1)
  {
    assert db.nextId !in db.documents;
    assert db.documents[db.nextId := d.(id := db.nextId)] - {db.nextId} == db.documents;
  }
}

/**
 * The pictures of a restaurant: uploaded and deleted like documents, by an
 * administrator or the restaurant's owner.
 */
module Images {
  import opened Outcomes
  import opened Persistence
  import Text
  import Access
  import UT = UserTypeEnum
  import ImageEntity

  /** The resource name `deleteImage` reports when the image is missing. */
  const ImageResource := "Image"

  /** What `UploadImage` reports. */
  datatype ImageUploaded = ImageUploaded(imageId: int, imageUrl: string)

  /**
   * `UploadImageUseCase.execute`: the same checks as a document upload,
   * then the uploaded link becomes an image record.
   */
  function UploadImage(db: Db, restaurantId: int, applicationId: int, ownerId: int, requesterId: int,
                       requesterType: UT.UserType, upload: Result<string>): (r: (Result<ImageUploaded>, Db))
    ensures restaurantId !in db.restaurants ==> r == (Err(NotFound(RestaurantResource)), db)
    ensures restaurantId in db.restaurants
            && !Access.CanActOn(requesterType, requesterId, db.restaurants[restaurantId].ownerId)
            ==> r == (Err(Forbidden(NotOwner("restaurante"))), db)
    ensures (restaurantId in db.restaurants
             && Access.CanActOn(requesterType, requesterId, db.restaurants[restaurantId].ownerId) && upload.Err?)
            ==> r == (Err(upload.failure), db)
    ensures r.0.Err? ==> r.1 == db
    ensures r.0.Ok? <==> restaurantId in db.restaurants
                         && Access.CanActOn(requesterType, requesterId, db.restaurants[restaurantId].ownerId)
                         && upload.Ok?
                         && ImageEntity.Create(upload.value, restaurantId, applicationId, ownerId).Ok?
    ensures r.0.Ok? ==>
              r.1 == InsertImage(db, ImageEntity.Create(upload.value, restaurantId, applicationId, ownerId).value)
              && r.0.value == ImageUploaded(db.nextId, Text.Trim(upload.value))
  {
    if restaurantId !in db.restaurants then (Err(NotFound(RestaurantResource)), db)
    else if !Access.CanActOn(requesterType, requesterId, db.restaurants[restaurantId].ownerId) then
      (Err(Forbidden(NotOwner("restaurante"))), db)
    else if upload.Err? then (Err(upload.failure), db)
    else
      match ImageEntity.Create(upload.value, restaurantId, applicationId, ownerId)
      case Err(f) => (Err(f), db)
      case Ok(i) => (Ok(ImageUploaded(db.nextId, i.imageUrl.value)), InsertImage(db, i))
  }

  /**
   * `DeleteImageUseCase.execute`: the image and its restaurant must exist
   * and the requester may act on the restaurant; a failed file deletion
   * propagates and keeps the record.
   */
  function DeleteImage(db: Db, imageId: int, requesterId: int, requesterType: UT.UserType,
                       deleteErrors: map<string, Failure>): (r: (Result<()>, Db))
    ensures imageId !in db.images ==> r == (Err(NotFound(ImageResource)), db)
    ensures imageId in db.images && db.images[imageId].restaurantId !in db.restaurants
            ==> r == (Err(NotFound(RestaurantResource)), db)
    ensures (imageId in db.images && db.images[imageId].restaurantId in db.restaurants
             && !Access.CanActOn(requesterType, requesterId, db.restaurants[db.images[imageId].restaurantId].ownerId))
            ==> r == (Err(Forbidden(NotOwner("imagen"))), db)
    ensures r.0.Err? ==> r.1 == db
    ensures r.0.Ok? <==> imageId in db.images && db.images[imageId].restaurantId in db.restaurants
                         && Access.CanActOn(requesterType, requesterId, db.restaurants[db.images[imageId].restaurantId].ownerId)
                         && db.images[imageId].imageUrl.value !in deleteErrors
    ensures r.0.Ok? ==> r.1 == RemoveImage(db, imageId) && imageId !in r.1.images
  {
    if imageId !in db.images then (Err(NotFound(ImageResource)), db)
    else
      var i := db.images[imageId];
      if i.restaurantId !in db.restaurants then (Err(NotFound(RestaurantResource)), db)
      else if !Access.CanActOn(requesterType, requesterId, db.restaurants[i.restaurantId].ownerId) then
        (Err(Forbidden(NotOwner("imagen"))), db)
      else if i.imageUrl.value in deleteErrors then (Err(deleteErrors[i.imageUrl.value]), db)
      else (Ok(()), RemoveImage(db, imageId))
  }

  class UploadImageUseCase {
    const store: Store

    constructor (store: Store)
      ensures this.store == store
    {
      this.store := store;
    }

    method Execute(restaurantId: int, applicationId: int, ownerId: int, requesterId: int, requesterType: UT.UserType,
                   upload: Result<string>) returns (r: Result<ImageUploaded>)
      modifies store
      ensures (r, store.Snap())
              == UploadImage(old(store.Snap()), restaurantId, applicationId, ownerId, requesterId, requesterType, upload)
    {
      if restaurantId !in store.restaurants {
        return Err(NotFound(RestaurantResource));
      }
      var restaurant := store.restaurants[restaurantId];
      if requesterType != UT.Admin && restaurant.ownerId != requesterId {
        return Err(Forbidden(NotOwner("restaurante")));
      }
      if upload.Err? {
        return Err(upload.failure);
      }
      var image := ImageEntity.Create(upload.value, restaurantId, applicationId, ownerId);
      if image.Err? {
        return Err(image.failure);
      }
      var id := store.SaveImage(image.value);
      return Ok(ImageUploaded(id, image.value.imageUrl.value));
    }
  }

  class DeleteImageUseCase {
    const store: Store

    constructor (store: Store)
      ensures this.store == store
    {
      this.store := store;
    }

    method Execute(imageId: int, requesterId: int, requesterType: UT.UserType, deleteErrors: map<string, Failure>)
      returns (r: Result<()>)
      modifies store
      ensures (r, store.Snap()) == DeleteImage(old(store.Snap()), imageId, requesterId, requesterType, deleteErrors)
    {
      if imageId !in store.images {
        return Err(NotFound(ImageResource));
      }
      var image := store.images[imageId];
      if image.restaurantId !in store.restaurants {
        return Err(NotFound(RestaurantResource));
      }
      var restaurant := store.restaurants[image.restaurantId];
      if requesterType != UT.Admin && restaurant.ownerId != requesterId {
        return Err(Forbidden(NotOwner("imagen")));
      }
      if image.imageUrl.value in deleteErrors {
        return Err(deleteErrors[image.imageUrl.value]);
      }
      store.DeleteImage(imageId);
      return Ok(());
    }
  }

  /**
   * Deleting an image just uploaded, by the same requester and with the
   * storage working, leaves the store as it was except for the used-up id.
   */
  lemma {:induction false} UploadThenDeleteRestores(db: Db, restaurantId: int, applicationId: int, ownerId: int,
                                                    requesterId: int, requesterType: UT.UserType, upload: Result<string>)
    requires IdsBelowNext(db)
    requires UploadImage(db, restaurantId, applicationId, ownerId, requesterId, requesterType, upload).0.Ok?
    ensures var up := UploadImage(db, restaurantId, applicationId, ownerId, requesterId, requesterType, upload);
            DeleteImage(up.1, up.0.value.imageId, requesterId, requesterType, map[])
            == (Ok(()), db.(nextId := db.nextId + 1))
  {
    var up := UploadImage(db, restaurantId, applicationId, ownerId, requesterId, requesterType, upload);
    var i := ImageEntity.Create(upload.value, restaurantId, applicationId, ownerId).value;
    assert up.1 == InsertImage(db, i);
    assert up.0.value.imageId == db.nextId;
    InsertThenRemove(db, i);
  }

  /** Removing the record just inserted undoes the insertion, but not the id it used up. */
  lemma InsertThenRemove(db: Db, i: ImageEntity.Image)
    requires IdsBelowNext(db)
    ensures RemoveImage(InsertImage(db, i), db.nextId) == db.(nextId := db.nextId + 1)
  {
    assert db.nextId !in db.images;
    assert db.images[db.nextId := i.(id := db.nextId)] - {db.nextId} == db.images;
  }
}
