/**
 * The access rule the use cases share: an administrator may act on any
 * resource, anyone else only on a resource whose owner id is their own.
 */
module Access {
  import UT = UserTypeEnum

  /** Admin, or the requester owns the resource; every NOT_OWNER guard is the negation of this. */
  predicate CanActOn(requesterType: UT.UserType, requesterId: int, ownerId: int)
  {
    requesterType == UT.Admin || requesterId == ownerId
  }
}
