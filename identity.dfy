/** Phone-based identity and JWT issuance (back/app/services/identity.py).
    Phone parsing, HMAC-SHA256 and JWT encoding/decoding are foreign
    libraries: they are passed in as functions (`Libraries`), and the
    settings they read (`Settings`) are passed in as values. The service
    creates and refreshes users in the user store and checks tokens against
    the stored token version. */
module Identity {
  import opened Common
  import opened Firestore
  import opened Schemas
  import opened UsersRepository

  /** A parsed phone number. */
  datatype PhoneNumber = PhoneNumber(countryCode: int, nationalNumber: int)

  /** The claims of an issued token: `sub`, `iat`, `exp` (seconds) and `tv`. */
  datatype Claims = Claims(sub: string, iat: int, exp: int, tv: Option<int>)

  datatype Settings = Settings(
    phoneDefaultRegion: string,
    phoneHashSecret: string,
    jwtSecretKey: string,
    jwtAlgorithm: string,
    jwtExpiresDays: int)

  /** The foreign functions the service calls. `parsePhone` gives `None`
      where `phonenumbers.parse` raises; `jwtDecode` gives `None` where
      `jwt.decode` raises InvalidTokenError (bad signature, expired, a
      required claim missing), given the current time in seconds. */
  datatype Libraries = Libraries(
    parsePhone: (string, string) -> Option<PhoneNumber>,
    isPossibleNumber: PhoneNumber -> bool,
    formatE164: PhoneNumber -> string,
    hmacHex: (string, string) -> string,
    jwtEncode: (Claims, string, string) -> string,
    jwtDecode: (string, string, string, int) -> Option<Claims>)

  const DaySeconds: nat := 86400

  /** `normalize_phone(raw_phone)`. */
  function NormalizePhone(libs: Libraries, settings: Settings, raw: string): (r: Result<string, Failure>)
    ensures libs.parsePhone(raw, settings.phoneDefaultRegion).None? ==> r.Err? && r.error.PhoneNormalization?
    ensures var parsed := libs.parsePhone(raw, settings.phoneDefaultRegion);
      parsed.Some? && !libs.isPossibleNumber(parsed.value) ==>
        r == Err(PhoneNormalization("Phone number is not possible for the configured region"))
    ensures var parsed := libs.parsePhone(raw, settings.phoneDefaultRegion);
      (r.Ok? <==> parsed.Some? && libs.isPossibleNumber(parsed.value)) &&
      (r.Ok? ==> r.value == libs.formatE164(parsed.value))
  {
    match libs.parsePhone(raw, settings.phoneDefaultRegion)
    case None => Err(PhoneNormalization("The string supplied did not seem to be a phone number"))
    case Some(parsed) =>
      if !libs.isPossibleNumber(parsed) then Err(PhoneNormalization("Phone number is not possible for the configured region"))
      else Ok(libs.formatE164(parsed))
  }

  /** `hash_phone(normalized)`: the hex HMAC under the configured secret. */
  function HashPhone(libs: Libraries, settings: Settings, normalized: string): string {
    libs.hmacHex(settings.phoneHashSecret, normalized)
  }

  /** `issued_at + timedelta(days=jwt_expires_days)`. */
  function ExpiresAt(settings: Settings, issuedAt: Time): Time {
    issuedAt + settings.jwtExpiresDays * DaySeconds * MicrosPerSecond
  }

  /** The payload `_build_token` signs. */
  function TokenClaims(settings: Settings, user: AppUser, issuedAt: Time): (r: Claims)
    ensures r.sub == user.id && r.tv == Some(user.tokenVersion)
    ensures r.iat == Seconds(issuedAt) && r.exp == Seconds(ExpiresAt(settings, issuedAt))
  {
    Claims(user.id, Seconds(issuedAt), Seconds(ExpiresAt(settings, issuedAt)), Some(user.tokenVersion))
  }

  /** `_build_token(user, issued_at)`: the signed token and its expiry. */
  function BuildToken(libs: Libraries, settings: Settings, user: AppUser, issuedAt: Time): (r: (string, Time))
    ensures r.0 == libs.jwtEncode(TokenClaims(settings, user, issuedAt), settings.jwtSecretKey, settings.jwtAlgorithm)
    ensures r.1 == ExpiresAt(settings, issuedAt)
  {
    (libs.jwtEncode(TokenClaims(settings, user, issuedAt), settings.jwtSecretKey, settings.jwtAlgorithm),
     ExpiresAt(settings, issuedAt))
  }

  /** The token expires `jwt_expires_days` days after it was issued, and the
      returned expiry is the token's `exp`. */
  lemma TokenLifetime(libs: Libraries, settings: Settings, user: AppUser, issuedAt: Time)
    requires issuedAt >= 0 && settings.jwtExpiresDays >= 0
    ensures var claims := TokenClaims(settings, user, issuedAt);
      claims.exp == claims.iat + settings.jwtExpiresDays * DaySeconds &&
      claims.exp == Seconds(BuildToken(libs, settings, user, issuedAt).1)
  {
    SecondsAfter(issuedAt, settings.jwtExpiresDays * DaySeconds);
  }

  /** The checks `verify_token` makes before refreshing the user, in their
      order: the token must decode, name a subject, name a stored user, and
      carry that user's token version (1 when `tv` is absent). The user that
      passes is returned. */
  function TokenCheck(decoded: Option<Claims>, documents: Collection, now: Time): (r: Result<AppUser, Failure>)
    ensures decoded.None? ==> r == Err(TokenValidation("Token validation failed"))
    ensures decoded.Some? && decoded.value.sub == "" ==> r == Err(TokenValidation("Token missing subject claim"))
    ensures decoded.Some? && decoded.value.sub != "" && LookupUser(documents, decoded.value.sub, now) == Ok(None) ==>
              r == Err(TokenValidation("User not found for provided token"))
    ensures decoded.Some? && decoded.value.sub != "" && LookupUser(documents, decoded.value.sub, now).Err? ==>
              r == Err(LookupUser(documents, decoded.value.sub, now).error)
    ensures r.Ok? <==> && decoded.Some? && decoded.value.sub != ""
                       && LookupUser(documents, decoded.value.sub, now).Ok?
                       && LookupUser(documents, decoded.value.sub, now).value.Some?
                       && LookupUser(documents, decoded.value.sub, now).value.value.tokenVersion == decoded.value.tv.GetOr(1)
    ensures r.Ok? ==> decoded.value.sub in documents && r.value.id == decoded.value.sub &&
                      Ok(Some(r.value)) == LookupUser(documents, decoded.value.sub, now)
  {
    match decoded
    case None => Err(TokenValidation("Token validation failed"))
    case Some(claims) =>
      if claims.sub == "" then Err(TokenValidation("Token missing subject claim"))
      else
        var tokenVersion := claims.tv.GetOr(1);
        match LookupUser(documents, claims.sub, now)
        case Err(e) => Err(e)
        case Ok(None) => Err(TokenValidation("User not found for provided token"))
        case Ok(Some(user)) =>
          if user.tokenVersion != tokenVersion then Err(TokenValidation("Token version no longer valid"))
          else Ok(user)
  }

  /** What `verify_token` returns: the checked user refreshed at now. */
  function VerifyOutcome(libs: Libraries, settings: Settings, token: string, documents: Collection, now: Time)
    : (r: Result<AppUser, Failure>)
    ensures var check := TokenCheck(libs.jwtDecode(token, settings.jwtSecretKey, settings.jwtAlgorithm, Seconds(now)), documents, now);
      && (check.Err? ==> r == Err(check.error))
      && (check.Ok? ==> var touched := MergeSet(documents, check.value.id, map["last_seen_at" := Timestamp(now)]);
                        r == SnapshotToUser(check.value.id, touched[check.value.id], Some(now), now))
  {
    match TokenCheck(libs.jwtDecode(token, settings.jwtSecretKey, settings.jwtAlgorithm, Seconds(now)), documents, now)
    case Err(e) => Err(e)
    case Ok(user) =>
      var touched := MergeSet(documents, user.id, map["last_seen_at" := Timestamp(now)]);
      SnapshotToUser(user.id, touched[user.id], Some(now), now)
  }

  /** The user store after `verify_token`: `last_seen_at` merged into the
      checked user's document, or untouched when a check fails. */
  function VerifiedStore(libs: Libraries, settings: Settings, token: string, documents: Collection, now: Time): Collection {
    match TokenCheck(libs.jwtDecode(token, settings.jwtSecretKey, settings.jwtAlgorithm, Seconds(now)), documents, now)
    case Err(_) => documents
    case Ok(user) => MergeSet(documents, user.id, map["last_seen_at" := Timestamp(now)])
  }

  /** A token the service issued passes the checks as long as the user's
      stored version is still the one it carries. */
  lemma IssuedTokenAccepted(libs: Libraries, settings: Settings, user: AppUser, issuedAt: Time,
                            documents: Collection, now: Time)
    requires user.id != ""
    requires libs.jwtDecode(BuildToken(libs, settings, user, issuedAt).0, settings.jwtSecretKey, settings.jwtAlgorithm, Seconds(now)) ==
             Some(TokenClaims(settings, user, issuedAt))
    requires LookupUser(documents, user.id, now).Ok? && LookupUser(documents, user.id, now).value.Some?
    requires LookupUser(documents, user.id, now).value.value.tokenVersion == user.tokenVersion
    ensures TokenCheck(libs.jwtDecode(BuildToken(libs, settings, user, issuedAt).0, settings.jwtSecretKey,
                                      settings.jwtAlgorithm, Seconds(now)), documents, now) ==
            Ok(LookupUser(documents, user.id, now).value.value)
  {
  }

  /** Once the version is bumped, every token carrying the old version or an
      earlier one fails with "Token version no longer valid". */
  lemma BumpInvalidatesOlderTokens(documents: Collection, userId: string, claims: Claims, now: Time)
    requires userId in documents && HasStoredTimes(documents[userId])
    requires SnapshotToUser(userId, documents[userId], None, now).Ok?
    requires claims.sub == userId && userId != ""
    requires claims.tv.GetOr(1) <= SnapshotToUser(userId, documents[userId], None, now).value.tokenVersion
    ensures var version := SnapshotToUser(userId, documents[userId], None, now).value.tokenVersion;
      var bumped := WithTokenVersion(documents, userId, version + 1);
      TokenCheck(Some(claims), bumped, now) == Err(TokenValidation("Token version no longer valid"))
  {
    var version := SnapshotToUser(userId, documents[userId], None, now).value.tokenVersion;
    SetVersionOnlyMovesVersion(documents, userId, version + 1, now);
  }

  /** The version `bump_token_version` writes: one more than the stored one. */
  function NextVersion(user: AppUser): int {
    user.tokenVersion + 1
  }

  class IdentityService {
    const users: UserStore
    const settings: Settings
    const libs: Libraries

    constructor(users: UserStore, settings: Settings, libs: Libraries)
      ensures this.users == users && this.settings == settings && this.libs == libs
    {
      this.users := users;
      this.settings := settings;
      this.libs := libs;
    }

    /** `_ensure_user(user_id, phone_hash, timestamp)`: refresh an existing
        user, create a missing one with both times at the timestamp. */
    method EnsureUser(userId: string, phoneHash: string, timestamp: Time, now: Time) returns (r: Result<AppUser, Failure>)
      modifies users
      ensures var existing := LookupUser(old(users.documents), userId, now);
        && (existing.Err? ==> r == Err(existing.error) && users.documents == old(users.documents))
        && (existing == Ok(None) ==>
              users.documents == Overwrite(old(users.documents), userId, NewUserDocument(phoneHash, timestamp, timestamp)) &&
              r == Ok(AppUser(userId, phoneHash, 0, timestamp, timestamp, 1)))
        && (existing.Ok? && existing.value.Some? ==>
              users.documents == MergeSet(old(users.documents), userId, map["last_seen_at" := Timestamp(timestamp)]) &&
              r == SnapshotToUser(userId, users.documents[userId], Some(timestamp), timestamp))
    {
      var existing := users.Get(userId, now);
      match existing
      case Err(e) =>
        r := Err(e);
      case Ok(found) =>
        if found.Some? {
          r := users.TouchLastSeen(userId, timestamp);
        } else {
          r := users.Create(userId, phoneHash, timestamp, timestamp);
        }
    }

    /** `authenticate_phone(raw_phone)`: the HMAC of the normalised number is
        both the user id and the phone hash; the token is built for the
        ensured user at the issue time. */
    method AuthenticatePhone(raw: string, issuedAt: Time, now: Time) returns (r: Result<AuthPayload, Failure>)
      modifies users
      ensures NormalizePhone(libs, settings, raw).Err? ==>
        r == Err(NormalizePhone(libs, settings, raw).error) && users.documents == old(users.documents)
      ensures NormalizePhone(libs, settings, raw).Ok? ==>
        var hash := HashPhone(libs, settings, NormalizePhone(libs, settings, raw).value);
        var existing := LookupUser(old(users.documents), hash, now);
        && (existing.Err? ==> r == Err(existing.error) && users.documents == old(users.documents))
        && (existing == Ok(None) ==>
              users.documents == Overwrite(old(users.documents), hash, NewUserDocument(hash, issuedAt, issuedAt)) &&
              r.Ok? && r.value.user == AppUser(hash, hash, 0, issuedAt, issuedAt, 1))
        && (existing.Ok? && existing.value.Some? ==>
              users.documents == MergeSet(old(users.documents), hash, map["last_seen_at" := Timestamp(issuedAt)]) &&
              r.Ok? && r.value.user == SnapshotToUser(hash, users.documents[hash], Some(issuedAt), issuedAt).value &&
              r.value.user.tokenVersion == existing.value.value.tokenVersion)
      ensures r.Ok? ==>
        && r.value.accessToken == BuildToken(libs, settings, r.value.user, issuedAt).0
        && r.value.expiresAt == ExpiresAt(settings, issuedAt)
        && r.value.tokenType == DefaultTokenType
        && r.value.user.id == HashPhone(libs, settings, NormalizePhone(libs, settings, raw).value)
    {
      match NormalizePhone(libs, settings, raw)
      case Err(e) =>
        r := Err(e);
      case Ok(normalized) =>
        var phoneHash := HashPhone(libs, settings, normalized);
        ghost var before := users.documents;
        var ensured := EnsureUser(phoneHash, phoneHash, issuedAt, now);
        if LookupUser(before, phoneHash, now).Ok? && LookupUser(before, phoneHash, now).value.Some? {
          TouchKeepsIdentity(before, phoneHash, issuedAt, now);
        }
        match ensured
        case Err(e) =>
          r := Err(e);
        case Ok(user) =>
          var (token, expiresAt) := BuildToken(libs, settings, user, issuedAt);
          r := Ok(AuthPayload(token, DefaultTokenType, expiresAt, user));
    }

    /** `verify_token(token)`: the checks of `TokenCheck`, then a refresh of
        `last_seen_at`, returning the refreshed user. */
    method VerifyToken(token: string, now: Time) returns (r: Result<AppUser, Failure>)
      modifies users
      ensures var check := TokenCheck(libs.jwtDecode(token, settings.jwtSecretKey, settings.jwtAlgorithm, Seconds(now)),
                                      old(users.documents), now);
        && (check.Err? ==> r == Err(check.error) && users.documents == old(users.documents))
        && (check.Ok? ==>
              users.documents == MergeSet(old(users.documents), check.value.id, map["last_seen_at" := Timestamp(now)]) &&
              r == SnapshotToUser(check.value.id, users.documents[check.value.id], Some(now), now))
      ensures r == VerifyOutcome(libs, settings, token, old(users.documents), now)
      ensures users.documents == VerifiedStore(libs, settings, token, old(users.documents), now)
    {
      var decoded := libs.jwtDecode(token, settings.jwtSecretKey, settings.jwtAlgorithm, Seconds(now));
      if decoded.None? {
        return Err(TokenValidation("Token validation failed"));
      }
      var userId := decoded.value.sub;
      if userId == "" {
        return Err(TokenValidation("Token missing subject claim"));
      }
      var tokenVersion := decoded.value.tv.GetOr(1);
      var found := users.Get(userId, now);
      if found.Err? {
        return Err(found.error);
      }
      if found.value.None? {
        return Err(TokenValidation("User not found for provided token"));
      }
      if found.value.value.tokenVersion != tokenVersion {
        return Err(TokenValidation("Token version no longer valid"));
      }
      r := users.TouchLastSeen(userId, now);
    }

    /** `adjust_reputation(user_id, delta)`. */
    method AdjustReputation(userId: string, delta: int, now: Time) returns (r: Result<AppUser, Failure>)
      modifies users
      ensures users.documents == MergeIncrement(old(users.documents), userId, "reputation", delta)
      ensures r == SnapshotToUser(userId, users.documents[userId], None, now)
    {
      r := users.AdjustReputation(userId, delta, now);
    }

    /** `bump_token_version(user_id)`: an unknown user raises; otherwise
        the stored version becomes the old one plus one. */
    method BumpTokenVersion(userId: string, now: Time) returns (r: Result<AppUser, Failure>)
      modifies users
      ensures var existing := LookupUser(old(users.documents), userId, now);
        && (existing.Err? ==> r == Err(existing.error) && users.documents == old(users.documents))
        && (existing == Ok(None) ==>
              r == Err(TokenValidation("User not found for token rotation")) && users.documents == old(users.documents))
        && (existing.Ok? && existing.value.Some? ==>
              users.documents == WithTokenVersion(old(users.documents), userId, NextVersion(existing.value.value)) &&
              r == SnapshotToUser(userId, users.documents[userId], None, now))
    {
      var existing := users.Get(userId, now);
      match existing
      case Err(e) =>
        r := Err(e);
      case Ok(None) =>
        r := Err(TokenValidation("User not found for token rotation"));
      case Ok(Some(user)) =>
        var version := NextVersion(user);
        r := users.SetTokenVersion(userId, version, now);
    }
  }
}
