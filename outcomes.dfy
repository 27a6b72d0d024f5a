/**
 * Results and failures shared by every operation of the model.
 *
 * The backend reports failures by throwing. The domain exception classes
 * (ValidationException, NotFoundException, ConflictException,
 * ForbiddenException, UnauthorizedException) each carry a code; a plain
 * `Error` thrown by an entity or a value object carries only a message.
 */
module Outcomes {
  datatype Option<T> = None | Some(value: T)

  /** One entry of a ValidationException's error list. */
  datatype FieldError = FieldError(field: string, message: string)

  /** Reason codes of ConflictException used by the use cases. */
  datatype ConflictCode =
    | DuplicateEmail
    | DuplicateApplication
    | DuplicateSurvey
    | DuplicateZone
    | ResourceInUse
    | RestaurantAlreadyExists
    | AlreadyOwner
    | AlreadyAdmin

  /** Reason codes of ForbiddenException used by the use cases. */
  datatype ForbiddenReason =
    | NotOwner(resource: string)
    | InsufficientRole
    | CannotDeleteSelf
    | LikeRequired
    | FavoriteRequired

  /** Reason codes of UnauthorizedException used by the use cases. */
  datatype UnauthorizedReason =
    | InvalidCredentials
    | WrongCredentials
    | WrongUserType
    | WrongCurrentPassword

  datatype Failure =
    | Validation(message: string, errors: seq<FieldError>)
    | NotFound(resource: string)
    | Conflict(code: ConflictCode)
    | Forbidden(reason: ForbiddenReason)
    | Unauthorized(cause: UnauthorizedReason)
      /** A plain `Error`, thrown by entity factories and value objects. */
    | Failed(message: string)

  datatype Result<T> = Ok(value: T) | Err(failure: Failure)

  // The resource names that NotFoundException's factories report.
  const UserResource := "Usuario"
  const RestaurantResource := "Restaurante"
  const ClientResource := "Cliente"
  const MenuResource := "Menú"
  const PhotoResource := "Foto"
  const ApplicationResource := "Solicitud"
  const ZoneResource := "Zona"
}
