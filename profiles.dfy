/**
 * The profile service's controller: one row per user, created by a POST whose
 * owner comes from the bearer token, and read back by the caller's id.
 */
module Profiles {
  import opened Wrappers
  import opened Claims

  const MissingUserIdMessage: string := "UserId не найден в токене"
  const NotFoundMessage: string := "Профиль не найден"
  const ConflictMessage: string := "Профиль уже существует"
  const CreatedMessage: string := "Профиль создан"

  /** A row of the Profile table; `id` is the database-generated key, `createdAt` a time in seconds. */
  datatype Profile = Profile(id: int, userId: string, firstName: string, lastName: string,
                             phone: string, createdAt: int)

  datatype ProfileResponse =
    | OkProfile(profile: Profile)
    | OkMessage(message: string)
    | Unauthorized(message: string)
    | NotFound(message: string)
    | Conflict(message: string)

  /** `string.IsNullOrEmpty` applied to an optional claim value: the id, or None. */
  function NonEmpty(v: Option<string>): (r: Option<string>)
    ensures r.Some? <==> v.Some? && v.value != ""
    ensures r.Some? ==> r == v
  {
    if v.Some? && v.value != "" then v else None
  }

  /** The id GetProfile reads: the NameIdentifier claim. */
  function ReaderId(caller: Principal): (r: Option<string>)
    ensures r.Some? ==> r.value != "" && FindFirst(caller, NameIdentifier) == r
    ensures r.None? ==> FindFirst(caller, NameIdentifier) in {None, Some("")}
  {
    NonEmpty(FindFirst(caller, NameIdentifier))
  }

  /** The id CreateProfile reads: "sub" when present, otherwise NameIdentifier. */
  function OwnerId(caller: Principal): (r: Option<string>)
    ensures FindFirst(caller, Subject).Some? ==> r == NonEmpty(FindFirst(caller, Subject))
    ensures FindFirst(caller, Subject).None? ==> r == NonEmpty(FindFirst(caller, NameIdentifier))
    ensures r.Some? ==> r.value != ""
  {
    var sub := FindFirst(caller, Subject);
    NonEmpty(if sub.Some? then sub else FindFirst(caller, NameIdentifier))
  }

  /** `FirstOrDefault(x => x.UserId == userId)` over the rows in table order. */
  function FindProfile(rows: seq<Profile>, userId: string): (r: Option<Profile>)
    ensures r.Some? ==> r.value in rows && r.value.userId == userId
    ensures r.None? <==> forall i | 0 <= i < |rows| :: rows[i].userId != userId
  {
    if |rows| == 0 then None
    else if rows[0].userId == userId then Some(rows[0])
    else FindProfile(rows[1..], userId)
  }

  /** At most one row per user. */
  ghost predicate UniqueOwners(rows: seq<Profile>) {
    forall i, j | 0 <= i < j < |rows| :: rows[i].userId != rows[j].userId
  }

  /** Under UniqueOwners, the row FindProfile returns is the only row of that user. */
  lemma FindProfileIsTheOnlyRow(rows: seq<Profile>, userId: string, k: nat)
    requires UniqueOwners(rows)
    requires k < |rows| && rows[k].userId == userId
    ensures FindProfile(rows, userId) == Some(rows[k])
  {
  }

  /** Appending a row for a user with no row makes FindProfile return that row. */
  lemma {:induction false} FindProfileAfterInsert(rows: seq<Profile>, p: Profile)
    requires FindProfile(rows, p.userId).None?
    ensures FindProfile(rows + [p], p.userId) == Some(p)
  {
    if |rows| > 0 {
      assert (rows + [p])[1..] == rows[1..] + [p];
      FindProfileAfterInsert(rows[1..], p);
    }
  }

  /** The controller together with the Profile table of its database context. */
  class ProfileController {
    var rows: seq<Profile>
    /** The next value of the table's identity column. */
    var nextId: int

    ghost predicate Valid()
      reads this
    {
      && UniqueOwners(rows)
      && (forall i, j | 0 <= i < j < |rows| :: rows[i].id < rows[j].id)
      && (forall i | 0 <= i < |rows| :: rows[i].id < nextId)
    }

    constructor ()
      ensures Valid() && rows == [] && nextId == 1
    {
      rows := [];
      nextId := 1;
    }

    /** GET api/profiles/me: the caller's own row; reads the table and changes nothing. */
    function GetProfile(caller: Principal): (r: ProfileResponse)
      reads this
      ensures ReaderId(caller).None? <==> r == Unauthorized(MissingUserIdMessage)
      ensures ReaderId(caller).Some? ==>
                (r.OkProfile? <==> exists i | 0 <= i < |rows| :: rows[i].userId == ReaderId(caller).value)
      ensures r.OkProfile? ==> r.profile in rows && Some(r.profile.userId) == ReaderId(caller)
      ensures !r.OkProfile? && ReaderId(caller).Some? ==> r == NotFound(NotFoundMessage)
    {
      match ReaderId(caller)
      case None => Unauthorized(MissingUserIdMessage)
      case Some(userId) =>
        match FindProfile(rows, userId)
        case None => NotFound(NotFoundMessage)
        case Some(p) => OkProfile(p)
    }

    /**
     * POST api/profiles: inserts one row owned by the token's user, copying the
     * names and phone from the body; refuses a second row for the same user.
     */
    method CreateProfile(caller: Principal, body: Profile, now: int) returns (r: ProfileResponse)
      requires Valid()
      modifies this
      ensures Valid()
      ensures OwnerId(caller).None? ==>
                r == Unauthorized(MissingUserIdMessage) && rows == old(rows) && nextId == old(nextId)
      ensures OwnerId(caller).Some? && FindProfile(old(rows), OwnerId(caller).value).Some? ==>
                r == Conflict(ConflictMessage) && rows == old(rows) && nextId == old(nextId)
      ensures OwnerId(caller).Some? && FindProfile(old(rows), OwnerId(caller).value).None? ==>
                && r == OkMessage(CreatedMessage)
                && rows == old(rows) + [Profile(old(nextId), OwnerId(caller).value, body.firstName,
                                                body.lastName, body.phone, now)]
                && nextId == old(nextId) + 1
      ensures r.OkMessage? ==> FindProfile(rows, OwnerId(caller).value) == Some(rows[|rows| - 1])
    {
      var userId := OwnerId(caller);
      if userId.None? {
        return Unauthorized(MissingUserIdMessage);
      }
      if FindProfile(rows, userId.value).Some? {
        return Conflict(ConflictMessage);
      }
      var profile := Profile(nextId, userId.value, body.firstName, body.lastName, body.phone, now);
      FindProfileAfterInsert(rows, profile);
      rows := rows + [profile];
      nextId := nextId + 1;
      r := OkMessage(CreatedMessage);
    }
  }
}
