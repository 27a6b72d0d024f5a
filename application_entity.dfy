/**
 * The Application entity: a restaurant owner's request to list a
 * restaurant, moving through PENDING, IN_REVIEW, APPROVED and REJECTED.
 */
module ApplicationEntity {
  import opened Outcomes
  import Text
  import EmailValue
  import AS = ApplicationStatusEnum

  /** The persisted fields of an application; the timestamps are not modelled. */
  datatype ApplicationData = ApplicationData(
    id: int,
    proposedRestaurantName: string,
    ownerName: string,
    email: EmailValue.Email,
    schedule: string,
    status: AS.ApplicationStatus,
    ownerId: int)

  const RestaurantNameTooShort := "El nombre del restaurante debe tener al menos 3 caracteres"
  const OwnerNameTooShort := "El nombre del propietario debe tener al menos 3 caracteres"
  const ScheduleRequired := "El horario es obligatorio"
  const InvalidOwnerId := "El ID del propietario es inválido"
  const AlreadyApproved := "La solicitud ya está aprobada"
  const AlreadyRejected := "La solicitud ya está rechazada"

  /** The field rules of `Application.create`, in the order it checks them. */
  predicate FieldsValid(proposedRestaurantName: string, ownerName: string, schedule: string, ownerId: int)
  {
    3 <= Text.Utf16Length(Text.Trim(proposedRestaurantName)) && 3 <= Text.Utf16Length(Text.Trim(ownerName))
    && Text.Trim(schedule) != [] && ownerId > 0
  }

  /**
   * `Application.create`: checks the fields, then builds the Email value;
   * the new application has id 0, trimmed text and status PENDING.
   */
  function Create(proposedRestaurantName: string, ownerName: string, email: string, schedule: string, ownerId: int)
    : (r: Result<ApplicationData>)
    ensures r.Ok? <==> FieldsValid(proposedRestaurantName, ownerName, schedule, ownerId) && EmailValue.NewEmail(email).Ok?
    ensures r.Ok? ==> r.value == ApplicationData(0, Text.Trim(proposedRestaurantName), Text.Trim(ownerName),
                                                 EmailValue.NewEmail(email).value, Text.Trim(schedule), AS.Pending, ownerId)
    ensures Text.Utf16Length(Text.Trim(proposedRestaurantName)) < 3 ==> r == Err(Failed(RestaurantNameTooShort))
    ensures 3 <= Text.Utf16Length(Text.Trim(proposedRestaurantName)) && Text.Utf16Length(Text.Trim(ownerName)) < 3 ==> r == Err(Failed(OwnerNameTooShort))
    ensures FieldsValid(proposedRestaurantName, ownerName, schedule, ownerId) && r.Err? ==> r.failure == Failed(EmailValue.InvalidEmail)
  {
    if Text.Utf16Length(Text.Trim(proposedRestaurantName)) < 3 then Err(Failed(RestaurantNameTooShort))
    else if Text.Utf16Length(Text.Trim(ownerName)) < 3 then Err(Failed(OwnerNameTooShort))
    else if Text.Trim(schedule) == [] then Err(Failed(ScheduleRequired))
    else if ownerId <= 0 then Err(Failed(InvalidOwnerId))
    else
      match EmailValue.NewEmail(email)
      case Err(f) => Err(f)
      case Ok(e) => Ok(ApplicationData(0, Text.Trim(proposedRestaurantName), Text.Trim(ownerName), e,
                                       Text.Trim(schedule), AS.Pending, ownerId))
  }

  /** An application the owner may still be waiting on. */
  predicate IsOpen(a: ApplicationData)
  {
    a.status == AS.Pending || a.status == AS.InReview
  }

  /** The entity object whose transitions assign `status` in place. */
  class Application {
    const id: int
    var proposedRestaurantName: string
    var ownerName: string
    var email: EmailValue.Email
    var schedule: string
    var status: AS.ApplicationStatus
    const ownerId: int

    /** Loads a stored application. */
    constructor (d: ApplicationData)
      ensures Data() == d
    {
      id := d.id;
      proposedRestaurantName := d.proposedRestaurantName;
      ownerName := d.ownerName;
      email := d.email;
      schedule := d.schedule;
      status := d.status;
      ownerId := d.ownerId;
    }

    function Data(): ApplicationData
      reads this
    {
      ApplicationData(id, proposedRestaurantName, ownerName, email, schedule, status, ownerId)
    }

    /**
     * `approve`: refuses only a repeated approval, so a REJECTED application
     * becomes APPROVED too. Nothing but the status changes.
     */
    method Approve() returns (r: Result<()>)
      modifies this
      ensures r.Err? <==> old(status) == AS.Approved
      ensures r.Err? ==> r.failure == Failed(AlreadyApproved)
      ensures status == AS.Approved
      ensures Data() == old(Data()).(status := AS.Approved)
    {
      if status == AS.Approved {
        return Err(Failed(AlreadyApproved));
      }
      status := AS.Approved;
      return Ok(());
    }

    /**
     * `reject`: refuses only a repeated rejection, so an APPROVED application
     * becomes REJECTED too. Nothing but the status changes.
     */
    method Reject() returns (r: Result<()>)
      modifies this
      ensures r.Err? <==> old(status) == AS.Rejected
      ensures r.Err? ==> r.failure == Failed(AlreadyRejected)
      ensures status == AS.Rejected
      ensures Data() == old(Data()).(status := AS.Rejected)
    {
      if status == AS.Rejected {
        return Err(Failed(AlreadyRejected));
      }
      status := AS.Rejected;
      return Ok(());
    }

    /** `setInReview`: IN_REVIEW from any status; calling it again changes nothing. */
    method SetInReview()
      modifies this
      ensures Data() == old(Data()).(status := AS.InReview)
    {
      status := AS.InReview;
    }

    predicate IsPending() reads this { status == AS.Pending }

    predicate IsApproved() reads this { status == AS.Approved }

    predicate IsRejected() reads this { status == AS.Rejected }

    predicate IsInReview() reads this { status == AS.InReview }
  }

  /** A created application is open, so its owner has a request waiting. */
  lemma CreatedIsOpen(p: string, o: string, e: string, s: string, ownerId: int)
    requires Create(p, o, e, s, ownerId).Ok?
    ensures IsOpen(Create(p, o, e, s, ownerId).value)
    ensures Create(p, o, e, s, ownerId).value.ownerId == ownerId > 0
  {
  }
}
