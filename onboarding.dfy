/**
 * The onboarding workflow: an owner files an application (directly or
 * through restaurant registration), an administrator approves or rejects
 * it, and an approved application yields at most one restaurant.
 *
 * Each use case is specified by a function from the store before the call
 * to the outcome and the store after it, and is run by the `Execute`
 * method of a class named after the source's use case, which loads the
 * entity objects, changes them in place and writes them back.
 */
module Onboarding {
  import opened Outcomes
  import opened Persistence
  import Text
  import AS = ApplicationStatusEnum
  import ApplicationEntity
  import RestaurantEntity

  const OwnerNotFound := "Restaurantero no encontrado"
  const RegisterNameTooShort := "El nombre del restaurante debe tener al menos 3 caracteres"
  const Registered := "Solicitud creada exitosamente. Espera la aprobación del administrador."
  const ApproveOnlyOpen := "Solo se pueden aprobar solicitudes pendientes o en revisión"
  const RejectOnlyOpen := "Solo se pueden rechazar solicitudes pendientes o en revisión"
  const MustBeApproved := "La solicitud debe estar aprobada para crear el restaurante"

  /** What `CreateApplication` reports: the new id and its status code. */
  datatype Submitted = Submitted(applicationId: int, status: string)

  /** What `RegisterRestaurant` reports. */
  datatype Registration = Registration(applicationId: int, status: string, message: string)

  /** Some PENDING application belongs to the owner (`findByStatus(PENDING)` then `some`). */
  predicate HasPendingApplication(db: Db, ownerId: int)
  {
    exists id :: id in db.applications && db.applications[id].status == AS.Pending
                 && db.applications[id].ownerId == ownerId
  }

  /** Some PENDING or IN_REVIEW application belongs to the owner (`findByOwnerId` then `some`). */
  predicate HasOpenApplication(db: Db, ownerId: int)
  {
    exists id :: id in db.applications && db.applications[id].ownerId == ownerId
                 && ApplicationEntity.IsOpen(db.applications[id])
  }

  /** The ids of the owner's open applications. */
  function OpenApplicationsOf(db: Db, ownerId: int): set<int>
  {
    set id | id in db.applications && db.applications[id].ownerId == ownerId
             && ApplicationEntity.IsOpen(db.applications[id])
  }

  /**
   * `CreateApplicationUseCase.execute`. The owner must exist; only a PENDING
   * application of the same owner blocks, an IN_REVIEW one does not; then
   * `Application.create` validates the fields.
   */
  function CreateApplication(db: Db, proposedRestaurantName: string, ownerName: string, email: string,
                             schedule: string, ownerId: int): (r: (Result<Submitted>, Db))
    ensures ownerId !in db.owners ==> r == (Err(NotFound(OwnerNotFound)), db)
    ensures ownerId in db.owners && HasPendingApplication(db, ownerId)
            ==> r == (Err(Conflict(DuplicateApplication)), db)
    ensures ownerId in db.owners && !HasPendingApplication(db, ownerId)
            && ApplicationEntity.Create(proposedRestaurantName, ownerName, email, schedule, ownerId).Err?
            ==> r == (Err(ApplicationEntity.Create(proposedRestaurantName, ownerName, email, schedule, ownerId).failure), db)
    ensures r.0.Err? ==> r.1 == db
    ensures r.0.Ok? <==> ownerId in db.owners && !HasPendingApplication(db, ownerId)
                         && ApplicationEntity.Create(proposedRestaurantName, ownerName, email, schedule, ownerId).Ok?
    ensures r.0.Ok? ==> r.0.value == Submitted(db.nextId, AS.Code(AS.Pending))
                        && r.1 == InsertApplication(db, ApplicationEntity.Create(proposedRestaurantName, ownerName, email, schedule, ownerId).value)
                        && r.1.applications[db.nextId].status == AS.Pending
                        && r.1.applications[db.nextId].ownerId == ownerId
  {
    if ownerId !in db.owners then (Err(NotFound(OwnerNotFound)), db)
    else if HasPendingApplication(db, ownerId) then (Err(Conflict(DuplicateApplication)), db)
    else
      match ApplicationEntity.Create(proposedRestaurantName, ownerName, email, schedule, ownerId)
      case Err(f) => (Err(f), db)
      case Ok(a) => (Ok(Submitted(db.nextId, AS.Code(a.status))), InsertApplication(db, a))
  }

  /**
   * `RegisterRestaurantUseCase.execute`. The owner must exist and have no
   * PENDING or IN_REVIEW application; the proposed name is checked before
   * `Application.create` runs. No restaurant is created.
   */
  function RegisterRestaurant(db: Db, proposedRestaurantName: string, ownerName: string, email: string,
                              schedule: string, ownerId: int): (r: (Result<Registration>, Db))
    ensures ownerId !in db.owners ==> r == (Err(NotFound(OwnerNotFound)), db)
    ensures ownerId in db.owners && HasOpenApplication(db, ownerId)
            ==> r == (Err(Conflict(DuplicateApplication)), db)
    ensures ownerId in db.owners && !HasOpenApplication(db, ownerId) && Text.Utf16Length(Text.Trim(proposedRestaurantName)) < 3
            ==> r == (Err(Validation(RegisterNameTooShort, [])), db)
    ensures r.0.Err? ==> r.1 == db
    ensures r.0.Ok? <==> ownerId in db.owners && !HasOpenApplication(db, ownerId)
                         && ApplicationEntity.Create(proposedRestaurantName, ownerName, email, schedule, ownerId).Ok?
    ensures r.0.Ok? ==> r.0.value == Registration(db.nextId, AS.Code(AS.Pending), Registered)
                        && r.1 == InsertApplication(db, ApplicationEntity.Create(proposedRestaurantName, ownerName, email, schedule, ownerId).value)
                        && r.1.restaurants == db.restaurants
  {
    if ownerId !in db.owners then (Err(NotFound(OwnerNotFound)), db)
    else if HasOpenApplication(db, ownerId) then (Err(Conflict(DuplicateApplication)), db)
    else if Text.Utf16Length(Text.Trim(proposedRestaurantName)) < 3 then (Err(Validation(RegisterNameTooShort, [])), db)
    else
      match ApplicationEntity.Create(proposedRestaurantName, ownerName, email, schedule, ownerId)
      case Err(f) => (Err(f), db)
      case Ok(a) => (Ok(Registration(db.nextId, AS.Code(a.status), Registered)), InsertApplication(db, a))
  }

  /**
   * `ApproveApplicationUseCase.execute`: only a PENDING or IN_REVIEW
   * application is approved; nothing but its status changes.
   */
  function ApproveApplication(db: Db, applicationId: int): (r: (Result<()>, Db))
    ensures applicationId !in db.applications ==> r == (Err(NotFound(ApplicationResource)), db)
    ensures applicationId in db.applications && !ApplicationEntity.IsOpen(db.applications[applicationId])
            ==> r == (Err(Validation(ApproveOnlyOpen, [])), db)
    ensures r.0.Ok? <==> applicationId in db.applications && ApplicationEntity.IsOpen(db.applications[applicationId])
    ensures r.0.Ok? ==> r.1 == ReplaceApplication(db, db.applications[applicationId].(status := AS.Approved))
    ensures r.0.Ok? && Identified(db)
            ==> r.1.applications == db.applications[applicationId := db.applications[applicationId].(status := AS.Approved)]
    ensures r.0.Err? ==> r.1 == db
  {
    if applicationId !in db.applications then (Err(NotFound(ApplicationResource)), db)
    else if !ApplicationEntity.IsOpen(db.applications[applicationId]) then (Err(Validation(ApproveOnlyOpen, [])), db)
    else (Ok(()), ReplaceApplication(db, db.applications[applicationId].(status := AS.Approved)))
  }

  /**
   * `RejectApplicationUseCase.execute`: only a PENDING or IN_REVIEW
   * application is rejected; nothing but its status changes.
   */
  function RejectApplication(db: Db, applicationId: int): (r: (Result<()>, Db))
    ensures applicationId !in db.applications ==> r == (Err(NotFound(ApplicationResource)), db)
    ensures applicationId in db.applications && !ApplicationEntity.IsOpen(db.applications[applicationId])
            ==> r == (Err(Validation(RejectOnlyOpen, [])), db)
    ensures r.0.Ok? <==> applicationId in db.applications && ApplicationEntity.IsOpen(db.applications[applicationId])
    ensures r.0.Ok? ==> r.1 == ReplaceApplication(db, db.applications[applicationId].(status := AS.Rejected))
    ensures r.0.Ok? && Identified(db)
            ==> r.1.applications == db.applications[applicationId := db.applications[applicationId].(status := AS.Rejected)]
    ensures r.0.Err? ==> r.1 == db
  {
    if applicationId !in db.applications then (Err(NotFound(ApplicationResource)), db)
    else if !ApplicationEntity.IsOpen(db.applications[applicationId]) then (Err(Validation(RejectOnlyOpen, [])), db)
    else (Ok(()), ReplaceApplication(db, db.applications[applicationId].(status := AS.Rejected)))
  }

  /**
   * `CreateRestaurantUseCase.execute`: the application must exist and be
   * APPROVED, no restaurant may carry its id yet, and `Restaurant.create`
   * validates the fields. The owner id is the request's; it is not compared
   * with the application's.
   */
  function CreateRestaurant(db: Db, n: RestaurantEntity.NewRestaurant, parse: RestaurantEntity.UrlParser)
    : (r: (Result<RestaurantEntity.RestaurantData>, Db))
    ensures n.applicationId !in db.applications ==> r == (Err(NotFound(ApplicationResource)), db)
    ensures n.applicationId in db.applications && db.applications[n.applicationId].status != AS.Approved
            ==> r == (Err(Validation(MustBeApproved, [])), db)
    ensures n.applicationId in db.applications && db.applications[n.applicationId].status == AS.Approved
            && HasRestaurantFor(db, n.applicationId)
            ==> r == (Err(Conflict(RestaurantAlreadyExists)), db)
    ensures r.0.Err? ==> r.1 == db
    ensures r.0.Ok? <==> n.applicationId in db.applications && db.applications[n.applicationId].status == AS.Approved
                         && !HasRestaurantFor(db, n.applicationId) && RestaurantEntity.Create(n, parse).Ok?
    ensures r.0.Ok? ==> r.0.value == RestaurantEntity.Create(n, parse).value.(id := db.nextId)
                        && r.1 == InsertRestaurant(db, RestaurantEntity.Create(n, parse).value)
                        && r.0.value.likesCount == 0 && r.0.value.applicationId == n.applicationId
                        && r.0.value.ownerId == n.ownerId
  {
    if n.applicationId !in db.applications then (Err(NotFound(ApplicationResource)), db)
    else if db.applications[n.applicationId].status != AS.Approved then (Err(Validation(MustBeApproved, [])), db)
    else if HasRestaurantFor(db, n.applicationId) then (Err(Conflict(RestaurantAlreadyExists)), db)
    else
      match RestaurantEntity.Create(n, parse)
      case Err(f) => (Err(f), db)
      case Ok(d) => (Ok(d.(id := db.nextId)), InsertRestaurant(db, d))
  }

  class CreateApplicationUseCase {
    const store: Store

    constructor (store: Store)
      ensures this.store == store
    {
      this.store := store;
    }

    method Execute(proposedRestaurantName: string, ownerName: string, email: string, schedule: string, ownerId: int)
      returns (r: Result<Submitted>)
      modifies store
      ensures (r, store.Snap()) == CreateApplication(old(store.Snap()), proposedRestaurantName, ownerName, email, schedule, ownerId)
    {
      if ownerId !in store.owners {
        return Err(NotFound(OwnerNotFound));
      }
      if HasPendingApplication(store.Snap(), ownerId) {
        return Err(Conflict(DuplicateApplication));
      }
      var created := ApplicationEntity.Create(proposedRestaurantName, ownerName, email, schedule, ownerId);
      if created.Err? {
        return Err(created.failure);
      }
      var id := store.SaveApplication(created.value);
      return Ok(Submitted(id, AS.Code(created.value.status)));
    }
  }

  class RegisterRestaurantUseCase {
    const store: Store

    constructor (store: Store)
      ensures this.store == store
    {
      this.store := store;
    }

    method Execute(proposedRestaurantName: string, ownerName: string, email: string, schedule: string, ownerId: int)
      returns (r: Result<Registration>)
      modifies store
      ensures (r, store.Snap()) == RegisterRestaurant(old(store.Snap()), proposedRestaurantName, ownerName, email, schedule, ownerId)
    {
      if ownerId !in store.owners {
        return Err(NotFound(OwnerNotFound));
      }
      if HasOpenApplication(store.Snap(), ownerId) {
        return Err(Conflict(DuplicateApplication));
      }
      if Text.Utf16Length(Text.Trim(proposedRestaurantName)) < 3 {
        return Err(Validation(RegisterNameTooShort, []));
      }
      var created := ApplicationEntity.Create(proposedRestaurantName, ownerName, email, schedule, ownerId);
      if created.Err? {
        return Err(created.failure);
      }
      var id := store.SaveApplication(created.value);
      return Ok(Registration(id, AS.Code(created.value.status), Registered));
    }
  }

  class ApproveApplicationUseCase {
    const store: Store

    constructor (store: Store)
      ensures this.store == store
    {
      this.store := store;
    }

    method Execute(applicationId: int) returns (r: Result<()>)
      modifies store
      ensures (r, store.Snap()) == ApproveApplication(old(store.Snap()), applicationId)
    {
      if applicationId !in store.applications {
        return Err(NotFound(ApplicationResource));
      }
      var application := new ApplicationEntity.Application(store.applications[applicationId]);
      if !application.IsPending() && !application.IsInReview() {
        return Err(Validation(ApproveOnlyOpen, []));
      }
      var _ := application.Approve();
      store.UpdateApplication(application.Data());
      return Ok(());
    }
  }

  class RejectApplicationUseCase {
    const store: Store

    constructor (store: Store)
      ensures this.store == store
    {
      this.store := store;
    }

    method Execute(applicationId: int) returns (r: Result<()>)
      modifies store
      ensures (r, store.Snap()) == RejectApplication(old(store.Snap()), applicationId)
    {
      if applicationId !in store.applications {
        return Err(NotFound(ApplicationResource));
      }
      var application := new ApplicationEntity.Application(store.applications[applicationId]);
      if !application.IsPending() && !application.IsInReview() {
        return Err(Validation(RejectOnlyOpen, []));
      }
      var _ := application.Reject();
      store.UpdateApplication(application.Data());
      return Ok(());
    }
  }

  class CreateRestaurantUseCase {
    const store: Store

    constructor (store: Store)
      ensures this.store == store
    {
      this.store := store;
    }

    method Execute(n: RestaurantEntity.NewRestaurant, parse: RestaurantEntity.UrlParser)
      returns (r: Result<RestaurantEntity.RestaurantData>)
      modifies store
      ensures (r, store.Snap()) == CreateRestaurant(old(store.Snap()), n, parse)
    {
      if n.applicationId !in store.applications {
        return Err(NotFound(ApplicationResource));
      }
      var application := new ApplicationEntity.Application(store.applications[n.applicationId]);
      if !application.IsApproved() {
        return Err(Validation(MustBeApproved, []));
      }
      if HasRestaurantFor(store.Snap(), n.applicationId) {
        return Err(Conflict(RestaurantAlreadyExists));
      }
      var created := RestaurantEntity.Create(n, parse);
      if created.Err? {
        return Err(created.failure);
      }
      var id := store.SaveRestaurant(created.value);
      return Ok(created.value.(id := id));
    }
  }

  /**
   * Through the use cases, APPROVED and REJECTED are final: neither use case
   * moves an application out of them, although the entity's own `approve`
   * would turn a REJECTED application into an APPROVED one.
   */
  lemma ClosedApplicationsAreFinal(db: Db, applicationId: int)
    requires applicationId in db.applications
    requires db.applications[applicationId].status in {AS.Approved, AS.Rejected}
    ensures ApproveApplication(db, applicationId) == (Err(Validation(ApproveOnlyOpen, [])), db)
    ensures RejectApplication(db, applicationId) == (Err(Validation(RejectOnlyOpen, [])), db)
  {
  }

  /** Approving or rejecting changes no other application and keeps the owner. */
  lemma DecisionKeepsOthers(db: Db, applicationId: int, other: int)
    requires Identified(db)
    requires other != applicationId && other in db.applications
    ensures ApproveApplication(db, applicationId).1.applications[other] == db.applications[other]
    ensures RejectApplication(db, applicationId).1.applications[other] == db.applications[other]
  {
  }

  /**
   * An owner whose only open application is IN_REVIEW may still file one
   * through `CreateApplication`, which looks at PENDING ones only, but is
   * turned away by `RegisterRestaurant`.
   */
  lemma InReviewBlocksOnlyRegistration(db: Db, inReview: int, proposedRestaurantName: string, ownerName: string,
                                       email: string, schedule: string, ownerId: int)
    requires ownerId in db.owners && !HasPendingApplication(db, ownerId)
    requires inReview in db.applications && db.applications[inReview].ownerId == ownerId
    requires db.applications[inReview].status == AS.InReview
    requires ApplicationEntity.Create(proposedRestaurantName, ownerName, email, schedule, ownerId).Ok?
    ensures CreateApplication(db, proposedRestaurantName, ownerName, email, schedule, ownerId).0.Ok?
    ensures RegisterRestaurant(db, proposedRestaurantName, ownerName, email, schedule, ownerId).0
            == Err(Conflict(DuplicateApplication))
  {
    assert ApplicationEntity.IsOpen(db.applications[inReview]);
  }

  /**
   * A successful registration by an owner with no open application leaves
   * that owner exactly one open application: the new one.
   */
  lemma RegistrationLeavesOneOpen(db: Db, proposedRestaurantName: string, ownerName: string,
                                  email: string, schedule: string, ownerId: int)
    requires IdsBelowNext(db)
    requires RegisterRestaurant(db, proposedRestaurantName, ownerName, email, schedule, ownerId).0.Ok?
    ensures OpenApplicationsOf(RegisterRestaurant(db, proposedRestaurantName, ownerName, email, schedule, ownerId).1, ownerId)
            == {db.nextId}
  {
    var a := ApplicationEntity.Create(proposedRestaurantName, ownerName, email, schedule, ownerId).value;
    ApplicationEntity.CreatedIsOpen(proposedRestaurantName, ownerName, email, schedule, ownerId);
    NoneOpen(db, ownerId);
    InsertOpen(db, a, ownerId);
  }

  /** With no open application, the set of open ones is empty. */
  lemma NoneOpen(db: Db, ownerId: int)
    requires !HasOpenApplication(db, ownerId)
    ensures OpenApplicationsOf(db, ownerId) == {}
  {
    assert forall id :: id !in OpenApplicationsOf(db, ownerId);
  }

  /** Saving an open application of the owner adds exactly its new id to the owner's open ones. */
  lemma InsertOpen(db: Db, a: ApplicationEntity.ApplicationData, ownerId: int)
    requires IdsBelowNext(db)
    requires ApplicationEntity.IsOpen(a) && a.ownerId == ownerId
    ensures OpenApplicationsOf(InsertApplication(db, a), ownerId) == OpenApplicationsOf(db, ownerId) + {db.nextId}
  {
    var after := InsertApplication(db, a);
    assert db.nextId !in db.applications;
    forall id ensures id in OpenApplicationsOf(after, ownerId) <==> id in OpenApplicationsOf(db, ownerId) + {db.nextId} {
      if id != db.nextId {
        assert id in after.applications <==> id in db.applications;
        assert id in db.applications ==> after.applications[id] == db.applications[id];
      }
    }
  }

  /**
   * Once `CreateRestaurant` succeeds for an application, every later call
   * for the same application fails with RESTAURANT_ALREADY_EXISTS, whatever
   * the rest of the request.
   */
  lemma SecondRestaurantRefused(db: Db, n: RestaurantEntity.NewRestaurant, parse: RestaurantEntity.UrlParser,
                                n2: RestaurantEntity.NewRestaurant, parse2: RestaurantEntity.UrlParser)
    requires CreateRestaurant(db, n, parse).0.Ok?
    requires n2.applicationId == n.applicationId
    ensures CreateRestaurant(CreateRestaurant(db, n, parse).1, n2, parse2)
            == (Err(Conflict(RestaurantAlreadyExists)), CreateRestaurant(db, n, parse).1)
  {
    var after := CreateRestaurant(db, n, parse).1;
    assert after.restaurants[db.nextId].applicationId == n.applicationId;
    assert HasRestaurantFor(after, n.applicationId);
  }
}
