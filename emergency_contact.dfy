// The emergency-contact entity: its columns, the `isPrimary` default and the persistence hooks
// that stamp the creation and update times.
module EmergencyContactEntity {
  import opened Wrappers

  /** A stored contact: the not-null columns (owner, name, phone) are plain values, the others may
    * be null. Times are seconds. */
  datatype ContactRow = ContactRow(id: int, userId: int, contactName: string, contactPhone: string,
                                   contactEmail: Option<string>, relationship: Option<string>,
                                   isPrimary: Option<bool>, createdAt: int, updatedAt: int)

  class EmergencyContact {
    var userId: Option<int>
    var contactName: Option<string>
    var contactPhone: Option<string>
    var contactEmail: Option<string>
    var relationship: Option<string>
    var isPrimary: Option<bool>
    var createdAt: Option<int>
    var updatedAt: Option<int>

    /** The no-argument constructor: every field null except `isPrimary`, which starts false. */
    constructor ()
      ensures userId == None && contactName == None && contactPhone == None
      ensures contactEmail == None && relationship == None
      ensures isPrimary == Some(false) && createdAt == None && updatedAt == None
    {
      userId := None;
      contactName := None;
      contactPhone := None;
      contactEmail := None;
      relationship := None;
      isPrimary := Some(false);
      createdAt := None;
      updatedAt := None;
    }

    /** The entity loaded from a stored row. */
    constructor Load(r: ContactRow)
      ensures userId == Some(r.userId) && contactName == Some(r.contactName) && contactPhone == Some(r.contactPhone)
      ensures contactEmail == r.contactEmail && relationship == r.relationship && isPrimary == r.isPrimary
      ensures createdAt == Some(r.createdAt) && updatedAt == Some(r.updatedAt)
    {
      userId := Some(r.userId);
      contactName := Some(r.contactName);
      contactPhone := Some(r.contactPhone);
      contactEmail := r.contactEmail;
      relationship := r.relationship;
      isPrimary := r.isPrimary;
      createdAt := Some(r.createdAt);
      updatedAt := Some(r.updatedAt);
    }

    /** `@PrePersist onCreate` at time `now`. */
    method OnCreate(now: int)
      modifies this`createdAt, this`updatedAt, this`isPrimary
      ensures createdAt == Some(now) && updatedAt == Some(now)
      ensures isPrimary == if old(isPrimary).None? then Some(false) else old(isPrimary)
    {
      createdAt := Some(now);
      updatedAt := Some(now);
      if isPrimary.None? {
        isPrimary := Some(false);
      }
    }

    /** `@PreUpdate onUpdate` at time `now`. */
    method OnUpdate(now: int)
      modifies this`updatedAt
      ensures updatedAt == Some(now)
    {
      updatedAt := Some(now);
    }

    /** The not-null columns hold values (and the hooks have stamped the times). */
    predicate Storable()
      reads this
    {
      userId.Some? && contactName.Some? && contactPhone.Some? && createdAt.Some? && updatedAt.Some?
    }

    /** The row stored for this entity under `id`. */
    function Row(id: int): (r: ContactRow)
      requires Storable()
      reads this
      ensures r.id == id && Some(r.userId) == userId && Some(r.contactName) == contactName
      ensures Some(r.contactPhone) == contactPhone && r.isPrimary == isPrimary
    {
      ContactRow(id, userId.value, contactName.value, contactPhone.value, contactEmail, relationship,
                 isPrimary, createdAt.value, updatedAt.value)
    }
  }

}
