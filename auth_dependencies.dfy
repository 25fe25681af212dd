/** The authentication dependencies of the API
    (back/app/api/dependencies/auth.py): parsing the `Authorization` header,
    resolving the optional user through the identity service, and the
    placeholder supervisor identity. */
module AuthDependencies {
  import opened Common
  import opened Firestore
  import opened Schemas
  import opened UsersRepository
  import opened Identity

  const Unauthorized: int := 401

  /** `s.partition(sep)`: before the first separator, the separator, after
      it; without a separator, `(s, "", "")`. */
  function Partition(s: string, sep: char): (r: (string, string, string))
    ensures r.0 + r.1 + r.2 == s
    ensures sep !in r.0
    ensures r.1 == [] <==> sep !in s
    ensures r.1 != [] ==> r.1 == [sep]
  {
    match FirstIndex(s, sep)
    case None => (s, "", "")
    case Some(i) =>
      assert s[..i] + [sep] + s[i + 1..] == s;
      (s[..i], [sep], s[i + 1..])
  }

  /** Partitioning a text that has its first separator right after `head`
      gives `head` and the rest back. */
  lemma PartitionAtFirstSeparator(head: string, sep: char, tail: string)
    requires sep !in head
    ensures Partition(head + [sep] + tail, sep) == (head, [sep], tail)
  {
    var s := head + [sep] + tail;
    var i := FirstIndex(s, sep).value;
    assert s[|head|] == sep;
    assert forall k :: 0 <= k < |head| ==> s[k] == head[k];
    assert s[..i] == head;
    assert s[i + 1..] == tail;
  }

  /** Lower-casing of the ASCII letters. */
  function LowerAscii(c: char): (r: char)
    ensures 'A' <= c <= 'Z' ==> r as int == c as int + 32
    ensures !('A' <= c <= 'Z') ==> r == c
  {
    if 'A' <= c <= 'Z' then (c as int + 32) as char else c
  }

  /** `scheme.lower() == "bearer"`. */
  predicate IsBearer(scheme: string) {
    |scheme| == 6 && forall i :: 0 <= i < 6 ==> LowerAscii(scheme[i]) == "bearer"[i]
  }

  lemma BearerSpellings()
    ensures IsBearer("Bearer") && IsBearer("bearer") && IsBearer("BEARER")
    ensures !IsBearer("Basic") && !IsBearer("Token") && !IsBearer("")
  {
    assert LowerAscii('B') == 'b' && LowerAscii('E') == 'e' && LowerAscii('A') == 'a' && LowerAscii('R') == 'r';
    assert LowerAscii("Token"[0]) != "bearer"[0];
  }

  const InvalidHeader: Failure := HttpError(Unauthorized, "Invalid authorization header")

  /** `_extract_bearer_token(authorization)`: no token for a missing or
      empty header; 401 unless the header is "bearer" (any case), a space and
      a non-empty rest; the rest stripped otherwise. */
  function ExtractBearerToken(authorization: Option<string>): (r: Result<Option<string>, Failure>)
    ensures authorization.None? || authorization == Some("") ==> r == Ok(None)
    ensures r.Err? ==> r.error == InvalidHeader
    ensures authorization.Some? && authorization.value != "" ==>
      var (scheme, _, rest) := Partition(authorization.value, ' ');
      (r.Err? <==> !IsBearer(scheme) || rest == "") && (r.Ok? ==> r.value == Some(Strip(rest, Spaces)))
  {
    match authorization
    case None => Ok(None)
    case Some(header) =>
      if header == "" then Ok(None)
      else
        var (scheme, _, token) := Partition(header, ' ');
        if !IsBearer(scheme) || token == "" then Err(InvalidHeader)
        else Ok(Some(Strip(token, Spaces)))
  }

  /** "Bearer <token>": the token comes back stripped, whatever the case of
      the scheme; a blank token comes back as "" rather than an error. */
  lemma BearerHeaderGivesToken(scheme: string, token: string)
    requires IsBearer(scheme) && token != ""
    ensures ExtractBearerToken(Some(scheme + " " + token)) == Ok(Some(Strip(token, Spaces)))
    ensures (forall k :: 0 <= k < |token| ==> token[k] in Spaces) ==> ExtractBearerToken(Some(scheme + " " + token)) == Ok(Some(""))
  {
    assert ' ' !in scheme by {
      assert forall i :: 0 <= i < |scheme| ==> LowerAscii(scheme[i]) != ' ';
    }
    PartitionAtFirstSeparator(scheme, ' ', token);
    assert scheme + " " + token == scheme + [' '] + token;
    StripEmptyIffBlank(token, Spaces);
  }

  /** A header with no space, another scheme, or nothing after the space is
      refused with 401. */
  lemma MalformedHeaderRefused(header: string)
    requires header != ""
    requires ' ' !in header || !IsBearer(Partition(header, ' ').0) || Partition(header, ' ').2 == ""
    ensures ExtractBearerToken(Some(header)) == Err(InvalidHeader)
  {
  }

  /** The `except TokenValidationError` of `get_optional_user`: 401
      "Invalid or expired token". */
  function AsUnauthorized(f: Failure): (r: Failure)
    ensures f.TokenValidation? ==> r == HttpError(Unauthorized, "Invalid or expired token")
    ensures !f.TokenValidation? ==> r == f
  {
    if f.TokenValidation? then HttpError(Unauthorized, "Invalid or expired token") else f
  }

  /** `get_optional_user`: no token gives no user; a token is verified and a
      TokenValidationError becomes 401. */
  method GetOptionalUser(authorization: Option<string>, service: IdentityService, now: Time)
    returns (r: Result<Option<AppUser>, Failure>)
    modifies service.users
    ensures ExtractBearerToken(authorization).Err? ==>
      r == Err(InvalidHeader) && service.users.documents == old(service.users.documents)
    ensures ExtractBearerToken(authorization) == Ok(None) ==>
      r == Ok(None) && service.users.documents == old(service.users.documents)
    ensures ExtractBearerToken(authorization).Ok? && ExtractBearerToken(authorization).value.Some? ==>
      && service.users.documents ==
           VerifiedStore(service.libs, service.settings, ExtractBearerToken(authorization).value.value,
                         old(service.users.documents), now)
      && match VerifyOutcome(service.libs, service.settings, ExtractBearerToken(authorization).value.value,
                             old(service.users.documents), now)
         case Ok(user) => r == Ok(Some(user))
         case Err(e) => r == Err(AsUnauthorized(e))
  {
    var token := ExtractBearerToken(authorization);
    if token.Err? {
      return Err(token.error);
    }
    if token.value.None? {
      return Ok(None);
    }
    var verified := service.VerifyToken(token.value.value, now);
    match verified
    case Ok(user) => r := Ok(Some(user));
    case Err(e) => r := Err(AsUnauthorized(e));
  }

  /** `get_optional_reporter_id`: the resolved user's id, or `None`. */
  method GetOptionalReporterId(authorization: Option<string>, service: IdentityService, now: Time)
    returns (r: Result<Option<string>, Failure>)
    modifies service.users
    ensures ExtractBearerToken(authorization).Err? ==>
      r == Err(InvalidHeader) && service.users.documents == old(service.users.documents)
    ensures ExtractBearerToken(authorization) == Ok(None) ==>
      r == Ok(None) && service.users.documents == old(service.users.documents)
    ensures ExtractBearerToken(authorization).Ok? && ExtractBearerToken(authorization).value.Some? ==>
      && service.users.documents ==
           VerifiedStore(service.libs, service.settings, ExtractBearerToken(authorization).value.value,
                         old(service.users.documents), now)
      && match VerifyOutcome(service.libs, service.settings, ExtractBearerToken(authorization).value.value,
                             old(service.users.documents), now)
         case Ok(user) => r == Ok(Some(user.id))
         case Err(e) => r == Err(AsUnauthorized(e))
  {
    var user := GetOptionalUser(authorization, service, now);
    match user
    case Err(e) => r := Err(e);
    case Ok(None) => r := Ok(None);
    case Ok(Some(u)) => r := Ok(Some(u.id));
  }

  /** `require_current_user`: like `get_optional_user`, with no user turned
      into 401 "Authentication required". */
  method RequireCurrentUser(authorization: Option<string>, service: IdentityService, now: Time)
    returns (r: Result<AppUser, Failure>)
    modifies service.users
    ensures ExtractBearerToken(authorization).Err? ==>
      r == Err(InvalidHeader) && service.users.documents == old(service.users.documents)
    ensures ExtractBearerToken(authorization) == Ok(None) ==>
      r == Err(HttpError(Unauthorized, "Authentication required")) && service.users.documents == old(service.users.documents)
    ensures ExtractBearerToken(authorization).Ok? && ExtractBearerToken(authorization).value.Some? ==>
      && service.users.documents ==
           VerifiedStore(service.libs, service.settings, ExtractBearerToken(authorization).value.value,
                         old(service.users.documents), now)
      && match VerifyOutcome(service.libs, service.settings, ExtractBearerToken(authorization).value.value,
                             old(service.users.documents), now)
         case Ok(user) => r == Ok(user)
         case Err(e) => r == Err(AsUnauthorized(e))
  {
    var user := GetOptionalUser(authorization, service, now);
    match user
    case Err(e) => r := Err(e);
    case Ok(None) => r := Err(HttpError(Unauthorized, "Authentication required"));
    case Ok(Some(u)) => r := Ok(u);
  }

  const AnonymousSupervisor: string := "anonymous-supervisor"

  /** `require_supervisor_identity`: the raw header when it is non-empty,
      else "anonymous-supervisor". */
  function RequireSupervisorIdentity(authorization: Option<string>): (r: string)
    ensures authorization.Some? && authorization.value != "" ==> r == authorization.value
    ensures authorization.None? || authorization == Some("") ==> r == AnonymousSupervisor
    ensures r != ""
  {
    match authorization
    case Some(header) => if header != "" then header else AnonymousSupervisor
    case None => AnonymousSupervisor
  }
}
