// The admin service: the login decision over the admin table (unique active e-mail, exact
// password, last-login stamp, token response) and the profile lookup.
module AdminService {
  import opened Wrappers
  import JavaNumbers
  import Seqs

  /** A stored admin; times are seconds. */
  datatype AdminRow = AdminRow(id: int, email: string, password: string, firstName: Option<string>,
                               lastName: Option<string>, isActive: Option<bool>,
                               createdAt: Option<int>, lastLogin: Option<int>)

  /** The login form; either field may be null. */
  datatype AdminLoginDto = AdminLoginDto(email: Option<string>, password: Option<string>)

  datatype AdminProfileDto = AdminProfileDto(id: int, email: string, firstName: Option<string>,
                                             lastName: Option<string>, isActive: Option<bool>,
                                             createdAt: Option<int>, lastLogin: Option<int>)

  datatype Payload = LoginData(accessToken: string, refreshToken: string, tokenType: string,
                               expiresIn: int, admin: AdminProfileDto)
                   | ProfileData(profile: AdminProfileDto)

  /** The `ApiResponse(status, message, data)` envelope. */
  datatype ApiResponse = ApiResponse(status: string, message: string, data: Option<Payload>)

  const InvalidCredentials := "Invalid admin credentials"
  const AdminNotFound := "Admin not found"
  const LoginSucceeded := "Admin login successful"
  const ProfileRetrieved := "Admin profile retrieved successfully"
  /** What a derived `Optional` query reports when several rows match; the text comes from the
    * persistence layer and is not fixed here. */
  const NonUniqueResult := "query did not return a unique result"

  predicate ActiveWith(a: AdminRow, email: Option<string>)
  {
    email.Some? && a.email == email.value && a.isActive == Some(true)
  }

  /** `findByEmailAndIsActiveTrue(email)`: no row, the one row, or a failure when several match. */
  function FindActive(admins: seq<AdminRow>, email: Option<string>): (r: Result<Option<AdminRow>>)
    ensures r == Ok(None) <==> forall i :: 0 <= i < |admins| ==> !ActiveWith(admins[i], email)
    ensures r.Ok? && r.value.Some? ==> r.value.value in admins && ActiveWith(r.value.value, email)
  {
    var m := Seqs.Filter(admins, a => ActiveWith(a, email));
    if |m| == 0 then Ok(None) else if |m| == 1 then Ok(Some(m[0])) else Err(NonUniqueResult)
  }

  /** `convertToDto`: the seven fields copied unchanged. */
  function ToDto(a: AdminRow): AdminProfileDto
  {
    AdminProfileDto(a.id, a.email, a.firstName, a.lastName, a.isActive, a.createdAt, a.lastLogin)
  }

  /** `updateLastLogin(id, now)` over the table. */
  function SetLastLogin(admins: seq<AdminRow>, id: int, now: int): (r: seq<AdminRow>)
    ensures |r| == |admins|
    ensures forall i :: 0 <= i < |admins| ==>
      r[i] == if admins[i].id == id then admins[i].(lastLogin := Some(now)) else admins[i]
  {
    Seqs.MapSeq(admins, (a: AdminRow) => if a.id == id then a.(lastLogin := Some(now)) else a)
  }

  /** The answer of `authenticateAdmin` and the table after it; `access` and `refresh` are the
    * token provider's results and `expirationMs` its configured lifetime. Every failure, token
    * creation included, is reported as invalid credentials and rolls the transaction back. The
    * admin in the response was read before the stamp, so it shows the previous last login. */
  function LoginOutcome(admins: seq<AdminRow>, dto: AdminLoginDto, access: Result<string>,
                        refresh: Result<string>, expirationMs: int, now: int)
    : (Result<ApiResponse>, seq<AdminRow>)
  {
    var found := FindActive(admins, dto.email);
    if found.Err? || found.value.None? then (Err(InvalidCredentials), admins)
    else
      var admin := found.value.value;
      if dto.password != Some(admin.password) || access.Err? || refresh.Err? then (Err(InvalidCredentials), admins)
      else
        var data := LoginData(access.value, refresh.value, "Bearer", JavaNumbers.JavaDiv(expirationMs, 1000), ToDto(admin));
        (Ok(ApiResponse("SUCCESS", LoginSucceeded, Some(data))), SetLastLogin(admins, admin.id, now))
  }

  /** `getAdminProfile(email)`. */
  function ProfileOutcome(admins: seq<AdminRow>, email: string): Result<ApiResponse>
  {
    var found := FindActive(admins, Some(email));
    if found.Err? then Err(found.msg)
    else if found.value.None? then Err(AdminNotFound)
    else Ok(ApiResponse("SUCCESS", ProfileRetrieved, Some(ProfileData(ToDto(found.value.value)))))
  }

  class AdminAccounts {
    var admins: seq<AdminRow>

    constructor (admins: seq<AdminRow>)
      ensures this.admins == admins
    {
      this.admins := admins;
    }

    /** `authenticateAdmin(loginDto)` at time `now`. */
    method AuthenticateAdmin(dto: AdminLoginDto, access: Result<string>, refresh: Result<string>,
                             expirationMs: int, now: int) returns (r: Result<ApiResponse>)
      modifies this`admins
      ensures (r, admins) == LoginOutcome(old(admins), dto, access, refresh, expirationMs, now)
    {
      var found := FindActive(admins, dto.email);
      if found.Err? || found.value.None? {
        return Err(InvalidCredentials);
      }
      var admin := found.value.value;
      if dto.password.None? || dto.password.value != admin.password {
        return Err(InvalidCredentials);
      }
      var committed := admins;
      admins := SetLastLogin(admins, admin.id, now);
      if access.Err? || refresh.Err? {
        // the exception is caught and rethrown; the transaction rolls the stamp back
        admins := committed;
        return Err(InvalidCredentials);
      }
      var expiresIn := JavaNumbers.JavaDiv(expirationMs, 1000);
      var data := LoginData(access.value, refresh.value, "Bearer", expiresIn, ToDto(admin));
      r := Ok(ApiResponse("SUCCESS", LoginSucceeded, Some(data)));
    }

    /** `getAdminProfile(email)` on the current table. */
    function GetAdminProfile(email: string): Result<ApiResponse>
      reads this
    {
      ProfileOutcome(admins, email)
    }
  }

  // ---- properties ---------------------------------------------------------

  /** Login succeeds exactly for the one active admin with that e-mail whose stored password equals
    * the given one, when both tokens are created; the response is SUCCESS with a Bearer token pair,
    * the lifetime in whole seconds and the admin's profile. */
  lemma LoginSucceedsIff(admins: seq<AdminRow>, dto: AdminLoginDto, access: Result<string>,
                         refresh: Result<string>, expirationMs: int, now: int)
    ensures var (r, _) := LoginOutcome(admins, dto, access, refresh, expirationMs, now);
      (r.Ok? <==> access.Ok? && refresh.Ok?
                  && exists k :: 0 <= k < |admins| && ActiveWith(admins[k], dto.email)
                                 && dto.password == Some(admins[k].password)
                                 && Seqs.Count(admins, a => ActiveWith(a, dto.email)) == 1)
      && (r.Err? ==> r.msg == InvalidCredentials)
      && (r.Ok? ==> r.value.status == "SUCCESS" && r.value.data.Some? && r.value.data.value.LoginData?
                    && r.value.data.value.tokenType == "Bearer"
                    && r.value.data.value.accessToken == access.value
                    && r.value.data.value.refreshToken == refresh.value
                    && r.value.data.value.expiresIn == JavaNumbers.JavaDiv(expirationMs, 1000)
                    && r.value.data.value.admin.email == dto.email.value)
  {
    var p := a => ActiveWith(a, dto.email);
    var m := Seqs.Filter(admins, p);
    if exists k :: 0 <= k < |admins| && ActiveWith(admins[k], dto.email)
                   && dto.password == Some(admins[k].password) && |m| == 1 {
      var k :| 0 <= k < |admins| && ActiveWith(admins[k], dto.email)
               && dto.password == Some(admins[k].password) && |m| == 1;
      assert admins[k] in m;
      assert m[0] == admins[k];
    }
    if |m| == 1 {
      assert m[0] in admins;
    }
  }

  /** The table changes only on a successful login, and then only the last-login stamp of the
    * admin who logged in. */
  lemma LastLoginOnlyOnSuccess(admins: seq<AdminRow>, dto: AdminLoginDto, access: Result<string>,
                               refresh: Result<string>, expirationMs: int, now: int)
    ensures var (r, admins') := LoginOutcome(admins, dto, access, refresh, expirationMs, now);
      (r.Err? ==> admins' == admins)
      && (r.Ok? ==> |admins'| == |admins|
                    && forall i :: 0 <= i < |admins| ==>
                         admins'[i] == if admins[i].id == r.value.data.value.admin.id
                                       then admins[i].(lastLogin := Some(now)) else admins[i])
  {
  }

  /** `expiresIn` is the configured lifetime in whole seconds, rounded down. */
  lemma ExpiresInWholeSeconds(expirationMs: int)
    requires expirationMs >= 0
    ensures JavaNumbers.JavaDiv(expirationMs, 1000) * 1000 <= expirationMs < JavaNumbers.JavaDiv(expirationMs, 1000) * 1000 + 1000
  {
    JavaNumbers.JavaDivNonNegative(expirationMs, 1000);
  }

  /** The profile is found only for an active admin: an unknown e-mail, or one whose admins are all
    * inactive, gives "Admin not found"; a found profile is the admin's seven fields. */
  lemma ProfileMeaning(admins: seq<AdminRow>, email: string)
    ensures (forall i :: 0 <= i < |admins| ==> admins[i].email != email || admins[i].isActive != Some(true))
            ==> ProfileOutcome(admins, email) == Err(AdminNotFound)
    ensures ProfileOutcome(admins, email).Ok? ==>
      exists k :: 0 <= k < |admins| && admins[k].email == email && admins[k].isActive == Some(true)
        && ProfileOutcome(admins, email).value.data == Some(ProfileData(ToDto(admins[k])))
  {
    var found := FindActive(admins, Some(email));
    if found.Ok? && found.value.Some? {
      var a := found.value.value;
      var k :| 0 <= k < |admins| && admins[k] == a;
    }
  }
}
