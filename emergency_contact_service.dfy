// The emergency-contact service over an in-memory contact table: add, the owner's list and
// primary contacts, owner-scoped delete, and the ownership-checked update.
module EmergencyContactService {
  import opened Wrappers
  import opened EmergencyContactEntity
  import Seqs

  datatype ContactDto = ContactDto(id: Option<int>, userId: Option<int>, contactName: Option<string>,
                                   contactPhone: Option<string>, contactEmail: Option<string>,
                                   relationship: Option<string>, isPrimary: Option<bool>)

  const UserNotFound := "User not found"
  const ContactNotFound := "Emergency contact not found"
  const Unauthorized := "Unauthorized access"
  /** What saving a contact without a name or phone reports; the text comes from the persistence
    * layer and is not fixed here. */
  const NotNullViolation := "not-null property references a null value"

  /** `toDTO`: a field-for-field copy. */
  function ToDto(r: ContactRow): ContactDto
  {
    ContactDto(Some(r.id), Some(r.userId), Some(r.contactName), Some(r.contactPhone), r.contactEmail,
               r.relationship, r.isPrimary)
  }

  /** `findByUser` */
  function OwnedBy(rows: seq<ContactRow>, userId: int): seq<ContactRow>
  {
    Seqs.Filter(rows, (r: ContactRow) => r.userId == userId)
  }

  /** `findByUserAndIsPrimary(user, true)` */
  function PrimaryOf(rows: seq<ContactRow>, userId: int): seq<ContactRow>
  {
    Seqs.Filter(rows, (r: ContactRow) => r.userId == userId && r.isPrimary == Some(true))
  }

  /** `deleteByUserAndId` */
  function DeleteOwned(rows: seq<ContactRow>, userId: int, id: int): seq<ContactRow>
  {
    Seqs.Filter(rows, (r: ContactRow) => !(r.userId == userId && r.id == id))
  }

  /** `findById`: the index of the row with `id`, `|rows|` when there is none. */
  function IndexOfId(rows: seq<ContactRow>, id: int): nat
  {
    Seqs.FirstIndex(rows, (r: ContactRow) => r.id == id)
  }

  /** The row `addEmergencyContact` stores: owned by the caller, `isPrimary` false when not given. */
  function NewContact(id: int, userId: int, dto: ContactDto, now: int): ContactRow
    requires dto.contactName.Some? && dto.contactPhone.Some?
  {
    ContactRow(id, userId, dto.contactName.value, dto.contactPhone.value, dto.contactEmail,
               dto.relationship, Some(dto.isPrimary.GetOr(false)), now, now)
  }

  /** The row after `updateEmergencyContact` with `dto` at time `now`. */
  function UpdatedContact(r: ContactRow, dto: ContactDto, now: int): ContactRow
    requires dto.contactName.Some? && dto.contactPhone.Some?
  {
    r.(contactName := dto.contactName.value, contactPhone := dto.contactPhone.value,
       contactEmail := dto.contactEmail, relationship := dto.relationship,
       isPrimary := dto.isPrimary, updatedAt := now)
  }

  /** The answer of `addEmergencyContact` at time `now`, the table and the next identity value
    * after it. */
  function AddOutcome(users: set<int>, rows: seq<ContactRow>, nextId: int, userId: int, dto: ContactDto, now: int)
    : (Result<ContactDto>, seq<ContactRow>, int)
  {
    if userId !in users then (Err(UserNotFound), rows, nextId)
    else if dto.contactName.None? || dto.contactPhone.None? then (Err(NotNullViolation), rows, nextId)
    else
      var added := NewContact(nextId, userId, dto, now);
      (Ok(ToDto(added)), rows + [added], nextId + 1)
  }

  /** The answer of `deleteEmergencyContact` and the table after it. */
  function DeleteOutcome(users: set<int>, rows: seq<ContactRow>, userId: int, contactId: int): (Result<Unit>, seq<ContactRow>)
  {
    if userId !in users then (Err(UserNotFound), rows) else (Ok(Unit), DeleteOwned(rows, userId, contactId))
  }

  /** The answer of `updateEmergencyContact` at time `now` and the table after it; the checks run
    * in the order user, contact, owner, then the not-null columns on save. */
  function UpdateOutcome(users: set<int>, rows: seq<ContactRow>, userId: int, contactId: int, dto: ContactDto, now: int)
    : (Result<ContactDto>, seq<ContactRow>)
  {
    var i := IndexOfId(rows, contactId);
    if userId !in users then (Err(UserNotFound), rows)
    else if i == |rows| then (Err(ContactNotFound), rows)
    else if rows[i].userId != userId then (Err(Unauthorized), rows)
    else if dto.contactName.None? || dto.contactPhone.None? then (Err(NotNullViolation), rows)
    else
      var updated := UpdatedContact(rows[i], dto, now);
      (Ok(ToDto(updated)), rows[i := updated])
  }

  predicate UniqueIds(rows: seq<ContactRow>)
  {
    forall i, j :: 0 <= i < j < |rows| ==> rows[i].id != rows[j].id
  }

  class ContactService {
    /** The ids of the existing users. */
    const users: set<int>
    var rows: seq<ContactRow>
    /** The next identity value of the table. */
    var nextId: int

    /** Ids are unique and below the next identity value. */
    predicate Valid()
      reads this
    {
      UniqueIds(rows) && forall i :: 0 <= i < |rows| ==> rows[i].id < nextId
    }

    constructor (users: set<int>)
      ensures this.users == users && rows == [] && nextId == 1 && Valid()
    {
      this.users := users;
      rows := [];
      nextId := 1;
    }

    /** `addEmergencyContact` at time `now`. */
    method Add(userId: int, dto: ContactDto, now: int) returns (r: Result<ContactDto>)
      requires Valid()
      modifies this`rows, this`nextId
      ensures Valid()
      ensures (r, rows, nextId) == AddOutcome(users, old(rows), old(nextId), userId, dto, now)
    {
      if userId !in users {
        return Err(UserNotFound);
      }
      var saved := SaveNew(nextId, userId, dto, now);
      if saved.None? {
        return Err(NotNullViolation);
      }
      var row := saved.value;
      FreshContactAppended(rows, nextId, row);
      rows := rows + [row];
      nextId := nextId + 1;
      r := Ok(ToDto(row));
    }

    /** `getUserEmergencyContacts` */
    function ListFor(userId: int): Result<seq<ContactDto>>
      reads this
    {
      if userId !in users then Err(UserNotFound) else Ok(Seqs.MapSeq(OwnedBy(rows, userId), ToDto))
    }

    /** `deleteEmergencyContact`: removes the row with that id only when the caller owns it. */
    method Delete(userId: int, contactId: int) returns (r: Result<Unit>)
      requires Valid()
      modifies this`rows
      ensures Valid()
      ensures (r, rows) == DeleteOutcome(users, old(rows), userId, contactId)
    {
      if userId !in users {
        return Err(UserNotFound);
      }
      DeleteKeepsValid(rows, userId, contactId, nextId);
      rows := DeleteOwned(rows, userId, contactId);
      r := Ok(Unit);
    }

    /** `updateEmergencyContact` at time `now`: overwrites the five editable fields. */
    method Update(userId: int, contactId: int, dto: ContactDto, now: int) returns (r: Result<ContactDto>)
      requires Valid()
      modifies this`rows
      ensures Valid()
      ensures (r, rows) == UpdateOutcome(users, old(rows), userId, contactId, dto, now)
    {
      if userId !in users {
        return Err(UserNotFound);
      }
      var i := IndexOfId(rows, contactId);
      if i == |rows| {
        return Err(ContactNotFound);
      }
      if rows[i].userId != userId {
        return Err(Unauthorized);
      }
      var saved := SaveUpdated(rows[i], dto, now);
      if saved.None? {
        return Err(NotNullViolation);
      }
      var row := saved.value;
      SameContactIdReplaced(rows, i, row);
      rows := rows[i := row];
      r := Ok(ToDto(row));
    }

    /** The new entity filled from the form, persisted under identity `id`: the stored row, or none
      * when a not-null column is missing. */
    method SaveNew(id: int, userId: int, dto: ContactDto, now: int) returns (saved: Option<ContactRow>)
      ensures saved == if dto.contactName.Some? && dto.contactPhone.Some?
                       then Some(NewContact(id, userId, dto, now)) else None
    {
      var c := new EmergencyContact();
      c.userId := Some(userId);
      c.contactName := dto.contactName;
      c.contactPhone := dto.contactPhone;
      c.contactEmail := dto.contactEmail;
      c.relationship := dto.relationship;
      c.isPrimary := Some(if dto.isPrimary.Some? then dto.isPrimary.value else false);
      c.OnCreate(now);
      if !c.Storable() {
        return None;
      }
      saved := Some(c.Row(id));
    }

    /** The stored contact loaded, its five editable fields overwritten from the form and saved:
      * the stored row, or none when a not-null column is missing. */
    method SaveUpdated(stored: ContactRow, dto: ContactDto, now: int) returns (saved: Option<ContactRow>)
      ensures saved == if dto.contactName.Some? && dto.contactPhone.Some?
                       then Some(UpdatedContact(stored, dto, now)) else None
    {
      var c := new EmergencyContact.Load(stored);
      c.contactName := dto.contactName;
      c.contactPhone := dto.contactPhone;
      c.contactEmail := dto.contactEmail;
      c.relationship := dto.relationship;
      c.isPrimary := dto.isPrimary;
      c.OnUpdate(now);
      if !c.Storable() {
        return None;
      }
      saved := Some(c.Row(stored.id));
    }
  }

  /** `getPrimaryContacts`, applied to the service's table. */
  function PrimaryContacts(svc: ContactService, userId: int): seq<ContactRow>
    reads svc
  {
    PrimaryOf(svc.rows, userId)
  }

  // ---- properties ---------------------------------------------------------

  /** Appending a contact stored under the next identity value keeps the ids distinct and below
    * the advanced counter. */
  lemma FreshContactAppended(rows: seq<ContactRow>, nextId: int, row: ContactRow)
    requires UniqueIds(rows) && forall i :: 0 <= i < |rows| ==> rows[i].id < nextId
    requires row.id == nextId
    ensures UniqueIds(rows + [row])
    ensures forall i :: 0 <= i < |rows + [row]| ==> (rows + [row])[i].id < nextId + 1
  {
    var s := rows + [row];
    assert forall i :: 0 <= i < |rows| ==> s[i] == rows[i];
  }

  /** Replacing a contact by one with the same id leaves every id where it was. */
  lemma SameContactIdReplaced(rows: seq<ContactRow>, i: nat, row: ContactRow)
    requires i < |rows| && row.id == rows[i].id
    ensures |rows[i := row]| == |rows|
    ensures forall j :: 0 <= j < |rows| ==> rows[i := row][j].id == rows[j].id
  {
  }

  lemma DeleteKeepsValid(rows: seq<ContactRow>, userId: int, id: int, nextId: int)
    requires UniqueIds(rows) && forall i :: 0 <= i < |rows| ==> rows[i].id < nextId
    ensures var d := DeleteOwned(rows, userId, id);
      UniqueIds(d) && forall i :: 0 <= i < |d| ==> d[i].id < nextId
  {
    var d := DeleteOwned(rows, userId, id);
    Seqs.FilterIsSubsequence(rows, (r: ContactRow) => !(r.userId == userId && r.id == id));
    SubsequenceKeepsUnique(d, rows);
  }

  lemma {:induction false} SubsequenceKeepsUnique(a: seq<ContactRow>, b: seq<ContactRow>)
    requires Seqs.Subsequence(a, b) && UniqueIds(b)
    ensures UniqueIds(a)
    decreases |b|
  {
    if a != [] {
      assert b != [];
      if a[0] == b[0] && Seqs.Subsequence(a[1..], b[1..]) {
        SubsequenceKeepsUnique(a[1..], b[1..]);
        Seqs.SubsequenceMembers(a[1..], b[1..]);
        forall j | 0 < j < |a|
          ensures a[0].id != a[j].id
        {
          assert a[1..][j - 1] in b[1..];
        }
      } else {
        SubsequenceKeepsUnique(a, b[1..]);
      }
    }
  }

  /** The list holds exactly the caller's contacts, each copied field for field. */
  lemma ListIsOwnersContacts(rows: seq<ContactRow>, userId: int)
    ensures var l := Seqs.MapSeq(OwnedBy(rows, userId), ToDto);
      (forall i :: 0 <= i < |l| ==> l[i].userId == Some(userId))
      && (forall i :: 0 <= i < |rows| && rows[i].userId == userId ==> ToDto(rows[i]) in l)
      && (forall i :: 0 <= i < |l| ==> exists j :: 0 <= j < |rows| && l[i] == ToDto(rows[j]))
  {
    ListedOwnerOnly(rows, userId);
    ListedComplete(rows, userId);
    ListedFromTable(rows, userId);
  }

  lemma ListedOwnerOnly(rows: seq<ContactRow>, userId: int)
    ensures var l := Seqs.MapSeq(OwnedBy(rows, userId), ToDto);
      forall i :: 0 <= i < |l| ==> l[i].userId == Some(userId)
  {
  }

  lemma ListedComplete(rows: seq<ContactRow>, userId: int)
    ensures forall i :: 0 <= i < |rows| && rows[i].userId == userId ==> ToDto(rows[i]) in Seqs.MapSeq(OwnedBy(rows, userId), ToDto)
  {
    var owned := OwnedBy(rows, userId);
    var l := Seqs.MapSeq(owned, ToDto);
    forall i | 0 <= i < |rows| && rows[i].userId == userId
      ensures ToDto(rows[i]) in l
    {
      var k :| 0 <= k < |owned| && owned[k] == rows[i];
      assert l[k] == ToDto(rows[i]);
    }
  }

  lemma ListedFromTable(rows: seq<ContactRow>, userId: int)
    ensures var l := Seqs.MapSeq(OwnedBy(rows, userId), ToDto);
      forall i :: 0 <= i < |l| ==> exists j :: 0 <= j < |rows| && l[i] == ToDto(rows[j])
  {
    var owned := OwnedBy(rows, userId);
    var l := Seqs.MapSeq(owned, ToDto);
    forall i | 0 <= i < |l|
      ensures exists j :: 0 <= j < |rows| && l[i] == ToDto(rows[j])
    {
      var j :| 0 <= j < |rows| && rows[j] == owned[i];
      assert l[i] == ToDto(rows[j]);
    }
  }

  /** The primary contacts are the caller's contacts flagged primary, in table order. */
  lemma PrimaryIsSubset(rows: seq<ContactRow>, userId: int)
    ensures Seqs.Subsequence(PrimaryOf(rows, userId), rows)
    ensures forall i :: 0 <= i < |PrimaryOf(rows, userId)| ==>
      PrimaryOf(rows, userId)[i] in OwnedBy(rows, userId) && PrimaryOf(rows, userId)[i].isPrimary == Some(true)
  {
    Seqs.FilterIsSubsequence(rows, (r: ContactRow) => r.userId == userId && r.isPrimary == Some(true));
  }

  /** Delete removes only the row with that id, and only if the caller owns it: every other row,
    * including all of other users' rows, stays, in order. */
  lemma DeleteOnlyOwned(rows: seq<ContactRow>, userId: int, id: int)
    ensures Seqs.Subsequence(DeleteOwned(rows, userId, id), rows)
    ensures forall i :: 0 <= i < |rows| && (rows[i].userId != userId || rows[i].id != id) ==> rows[i] in DeleteOwned(rows, userId, id)
    ensures forall i :: 0 <= i < |DeleteOwned(rows, userId, id)| ==>
      !(DeleteOwned(rows, userId, id)[i].userId == userId && DeleteOwned(rows, userId, id)[i].id == id)
  {
    Seqs.FilterIsSubsequence(rows, (r: ContactRow) => !(r.userId == userId && r.id == id));
  }

  /** Another user's id in a delete request changes nothing. */
  lemma DeleteOfOthersContactIsNoOp(rows: seq<ContactRow>, userId: int, id: int)
    requires forall i :: 0 <= i < |rows| && rows[i].id == id ==> rows[i].userId != userId
    ensures DeleteOwned(rows, userId, id) == rows
  {
    Seqs.FilterAll(rows, (r: ContactRow) => !(r.userId == userId && r.id == id));
  }

  /** `add` fails for an unknown user or a missing name or phone and then stores nothing; otherwise
    * it appends one contact with a fresh id, owned by the caller, whose `isPrimary` is the given
    * value or false, never null. */
  lemma AddMeaning(users: set<int>, rows: seq<ContactRow>, nextId: int, userId: int, dto: ContactDto, now: int)
    ensures var (r, rows', nextId') := AddOutcome(users, rows, nextId, userId, dto, now);
      (r.Err? <==> userId !in users || dto.contactName.None? || dto.contactPhone.None?)
      && (userId !in users ==> r == Err(UserNotFound))
      && (r.Err? ==> rows' == rows && nextId' == nextId)
      && (r.Ok? ==>
            |rows'| == |rows| + 1 && rows'[..|rows|] == rows && nextId' == nextId + 1
            && var c := rows'[|rows|];
            c.id == nextId && c.userId == userId && Some(c.contactName) == dto.contactName
            && Some(c.contactPhone) == dto.contactPhone && c.contactEmail == dto.contactEmail
            && c.relationship == dto.relationship && c.isPrimary.Some?
            && (dto.isPrimary.Some? ==> c.isPrimary == dto.isPrimary)
            && (dto.isPrimary.None? ==> c.isPrimary == Some(false))
            && c.createdAt == now && c.updatedAt == now
            && r.value == ToDto(c))
  {
    var (r, rows', nextId') := AddOutcome(users, rows, nextId, userId, dto, now);
    if r.Ok? {
      assert rows'[..|rows|] == rows;
    }
  }

  /** `update` succeeds exactly when the user exists, the contact exists, the caller owns it and
    * the name and phone are given; then it overwrites the five editable fields of that row only
    * (`isPrimary` may become null) and keeps its id, owner and creation time. Every failure leaves
    * the table as it was. */
  lemma UpdateMeaning(users: set<int>, rows: seq<ContactRow>, userId: int, contactId: int, dto: ContactDto, now: int)
    ensures var (r, rows') := UpdateOutcome(users, rows, userId, contactId, dto, now);
      (r.Ok? <==> userId in users && dto.contactName.Some? && dto.contactPhone.Some?
                  && exists k :: 0 <= k < |rows| && rows[k].id == contactId && rows[k].userId == userId
                                 && forall j :: 0 <= j < k ==> rows[j].id != contactId)
      && (r.Err? ==> rows' == rows)
      && (userId in users && (forall k :: 0 <= k < |rows| ==> rows[k].id != contactId) ==> r == Err(ContactNotFound))
      && (r.Ok? ==>
            |rows'| == |rows|
            && (exists k :: 0 <= k < |rows| && rows[k].id == contactId
                  && rows'[k].id == rows[k].id && rows'[k].userId == userId && rows'[k].createdAt == rows[k].createdAt
                  && Some(rows'[k].contactName) == dto.contactName && Some(rows'[k].contactPhone) == dto.contactPhone
                  && rows'[k].contactEmail == dto.contactEmail && rows'[k].relationship == dto.relationship
                  && rows'[k].isPrimary == dto.isPrimary && rows'[k].updatedAt == now
                  && r.value == ToDto(rows'[k])
                  && forall j :: 0 <= j < |rows| && j != k ==> rows'[j] == rows[j]))
  {
    var (r, rows') := UpdateOutcome(users, rows, userId, contactId, dto, now);
    var i := IndexOfId(rows, contactId);
    if i < |rows| {
      assert rows[i].id == contactId;
    }
    if exists k :: 0 <= k < |rows| && rows[k].id == contactId && rows[k].userId == userId
                   && forall j :: 0 <= j < k ==> rows[j].id != contactId {
      var k :| 0 <= k < |rows| && rows[k].id == contactId && rows[k].userId == userId
               && forall j :: 0 <= j < k ==> rows[j].id != contactId;
      assert k == i;
    }
  }
}
