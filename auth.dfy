/** Bearer-token authentication of the backend (`auth.py`): the `Authorization`
    header is read as `Bearer <token>` (section 2.1 of RFC 6750), the token is
    checked against the identity service's profile endpoint, and the answer is
    mapped to a user, to guest mode (no user), or to a 401.

    The profile endpoint is the parameter `profile`, applied to the `Authorization`
    header the backend sends it. */
module Auth {
  import opened Common
  import Text

  const BearerPrefix: string := "Bearer "

  /** The `UserInfo` model. */
  datatype UserInfo = UserInfo(id: string, phone: string, organizationId: Option<string>, isInternal: bool)

  /** The fields of the profile document the handler reads; None when the key is absent. */
  datatype ProfileData = ProfileData(id: Option<string>, phone: Option<string>,
                                     organizationId: Option<string>, isInternal: Option<bool>)

  /** The profile endpoint's answer: a transport error, or a status code with a body. */
  datatype ProfileReply =
    | RequestError
    | ProfileResponse(statusCode: int, data: ProfileData)

  /** The token carried by a bearer header: the header without its 7-character prefix. */
  function BearerToken(header: string): (token: string)
    requires Text.StartsWith(header, BearerPrefix)
    ensures |token| == |header| - 7
  {
    header[7..]
  }

  /** Re-sending the token as `"Bearer " + token` reproduces the header it came from. */
  lemma ForwardedHeaderIsOriginal(header: string)
    requires Text.StartsWith(header, BearerPrefix)
    ensures BearerPrefix + BearerToken(header) == header
  {
    assert header == header[..7] + header[7..];
  }

  /** The user built from a 200 profile: `str(id)` (so an absent id reads "None"),
      the phone or "", the organisation, and the internal flag or false. */
  function UserFromProfile(data: ProfileData): (u: UserInfo)
    ensures data.phone.None? ==> u.phone == ""
    ensures data.phone.Some? ==> u.phone == data.phone.value
    ensures data.isInternal.None? ==> !u.isInternal
    ensures data.isInternal.Some? ==> u.isInternal == data.isInternal.value
    ensures u.organizationId == data.organizationId
  {
    UserInfo(if data.id.Some? then data.id.value else "None",
             if data.phone.Some? then data.phone.value else "",
             data.organizationId,
             if data.isInternal.Some? then data.isInternal.value else false)
  }

  /** How the profile endpoint's answer is mapped. */
  function VerifyOutcome(reply: ProfileReply): (r: Result<Option<UserInfo>, HttpError>)
    ensures reply.RequestError? ==> r == Ok(None)
    ensures reply.ProfileResponse? && reply.statusCode == 401 ==> r == Err(HttpError(401, "Invalid or expired token"))
    ensures reply.ProfileResponse? && reply.statusCode != 401 && reply.statusCode != 200 ==>
      r == Err(HttpError(401, "Authentication failed"))
    ensures reply.ProfileResponse? && reply.statusCode == 200 ==> r == Ok(Some(UserFromProfile(reply.data)))
  {
    match reply
    case RequestError => Ok(None)
    case ProfileResponse(code, data) =>
      if code == 401 then Err(HttpError(401, "Invalid or expired token"))
      else if code != 200 then Err(HttpError(401, "Authentication failed"))
      else Ok(Some(UserFromProfile(data)))
  }

  /** `get_current_user`: None (guest mode) without a usable bearer header; otherwise
      the verification outcome of the profile request sent with the same header. */
  function GetCurrentUser(header: Option<string>, profile: string -> ProfileReply): (r: Result<Option<UserInfo>, HttpError>)
    ensures header.None? || header.value == "" ==> r == Ok(None)
    ensures header.Some? && !Text.StartsWith(header.value, BearerPrefix) ==> r == Ok(None)
    ensures header.Some? && Text.StartsWith(header.value, BearerPrefix) ==> r == VerifyOutcome(profile(header.value))
  {
    if header.None? || header.value == "" then Ok(None)
    else if !Text.StartsWith(header.value, BearerPrefix) then Ok(None)
    else
      var token := BearerToken(header.value);
      ForwardedHeaderIsOriginal(header.value);
      VerifyOutcome(profile(BearerPrefix + token))
  }

  /** Every authentication error is a 401, and guest mode arises exactly when there is
      no usable bearer header or the identity service cannot be reached. */
  lemma GuestModeExactly(header: Option<string>, profile: string -> ProfileReply)
    ensures var r := GetCurrentUser(header, profile);
      && (r.Err? ==> r.error.status == 401)
      && (r == Ok(None) <==>
            header.None? || !Text.StartsWith(header.value, BearerPrefix) || profile(header.value).RequestError?)
  {
  }

  /** `require_auth`: the current user, or 401 "Authentication required" when there is none. */
  function RequireAuth(header: string, profile: string -> ProfileReply): (r: Result<UserInfo, HttpError>)
    ensures r == Err(HttpError(401, "Authentication required")) <==> GetCurrentUser(Some(header), profile) == Ok(None)
    ensures GetCurrentUser(Some(header), profile).Err? ==> r == Err(GetCurrentUser(Some(header), profile).error)
    ensures r.Ok? <==> GetCurrentUser(Some(header), profile).Ok? && GetCurrentUser(Some(header), profile).value.Some?
    ensures r.Ok? ==> GetCurrentUser(Some(header), profile) == Ok(Some(r.value))
  {
    match GetCurrentUser(Some(header), profile)
    case Err(e) =>
      assert e.detail != "Authentication required";
      Err(e)
    case Ok(None) => Err(HttpError(401, "Authentication required"))
    case Ok(Some(u)) => Ok(u)
  }
}
