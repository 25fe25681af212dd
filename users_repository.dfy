/** The Firestore-backed store of application users
    (back/app/repositories/firebase_users.py): one document per user, keyed
    by the user id, holding `phone_hash`, `reputation`, `created_at`,
    `last_seen_at` and `token_version`. Every mutator is a merge write, so it
    creates the document when it is missing. */
module UsersRepository {
  import opened Common
  import opened Firestore
  import opened Schemas

  /** `_ensure_datetime(value, fallback)`. */
  function EnsureDatetime(value: Option<Value>, fallback: Time): (r: Time)
    ensures value.Some? && value.value.Timestamp? ==> r == value.value.instant
    ensures !(value.Some? && value.value.Timestamp?) ==> r == fallback
  {
    match value
    case Some(Timestamp(t)) => t
    case _ => fallback
  }

  /** `int(data.get(name, default))`. */
  function IntField(doc: Doc, name: string, default: int): (r: Result<int, Failure>)
    ensures name !in doc ==> r == Ok(default)
    ensures name in doc && doc[name].Int? ==> r == Ok(doc[name].intValue)
    ensures name in doc ==> (r.Ok? <==> PyInt(doc[name]).Some?)
  {
    match Field(doc, name)
    case None => Ok(default)
    case Some(v) =>
      match PyInt(v)
      case None => Err(ConversionError(name))
      case Some(i) => Ok(i)
  }

  /** `data.get("phone_hash", snapshot.id)` fed to the `str` field. */
  function PhoneHashField(id: string, doc: Doc): (r: Result<string, Failure>)
    ensures "phone_hash" !in doc ==> r == Ok(id)
    ensures "phone_hash" in doc ==> (r.Ok? <==> doc["phone_hash"].Str?)
    ensures "phone_hash" in doc && doc["phone_hash"].Str? ==> r == Ok(doc["phone_hash"].stringValue)
  {
    match Field(doc, "phone_hash")
    case None => Ok(id)
    case Some(Str(s)) => Ok(s)
    case Some(_) => Err(ValidationError("phone_hash"))
  }

  /** `_snapshot_to_user(snapshot, fallback)`: `int(reputation)` and
      `int(token_version)` are evaluated first, then pydantic checks the
      phone hash and the token version. */
  function SnapshotToUser(id: string, doc: Doc, fallback: Option<Time>, now: Time): (r: Result<AppUser, Failure>)
    ensures r.Ok? <==> IntField(doc, "reputation", 0).Ok? && IntField(doc, "token_version", 1).Ok? &&
                       PhoneHashField(id, doc).Ok? && IntField(doc, "token_version", 1).value >= 1
    ensures r.Ok? ==> ValidAppUser(r.value)
    ensures r.Ok? ==> && r.value.id == id
                      && r.value.phoneHash == PhoneHashField(id, doc).value
                      && r.value.reputation == IntField(doc, "reputation", 0).value
                      && r.value.tokenVersion == IntField(doc, "token_version", 1).value
                      && r.value.createdAt == EnsureDatetime(Field(doc, "created_at"), fallback.GetOr(now))
                      && r.value.lastSeenAt == EnsureDatetime(Field(doc, "last_seen_at"), fallback.GetOr(now))
  {
    var instant := fallback.GetOr(now);
    match IntField(doc, "reputation", 0)
    case Err(e) => Err(e)
    case Ok(reputation) =>
      match IntField(doc, "token_version", 1)
      case Err(e) => Err(e)
      case Ok(tokenVersion) =>
        match PhoneHashField(id, doc)
        case Err(e) => Err(e)
        case Ok(phoneHash) =>
          if tokenVersion < 1 then Err(ValidationError("token_version"))
          else Ok(AppUser(id, phoneHash, reputation, EnsureDatetime(Field(doc, "created_at"), instant),
                          EnsureDatetime(Field(doc, "last_seen_at"), instant), tokenVersion))
  }

  /** A document with nothing in it decodes with the defaults: the id as
      phone hash, reputation 0, token version 1, both times at the fallback
      or now. */
  lemma EmptyUserDefaults(id: string, fallback: Option<Time>, now: Time)
    ensures SnapshotToUser(id, map[], fallback, now) ==
            Ok(AppUser(id, id, 0, fallback.GetOr(now), fallback.GetOr(now), 1))
  {
  }

  /** The document `create` writes. */
  function NewUserDocument(phoneHash: string, createdAt: Time, lastSeenAt: Time): Doc {
    map["phone_hash" := Str(phoneHash), "reputation" := Int(0), "created_at" := Timestamp(createdAt),
        "last_seen_at" := Timestamp(lastSeenAt), "token_version" := Int(1)]
  }

  /** A created user reads back with reputation 0, token version 1 and the
      given times. */
  lemma CreatedUserRoundTrip(id: string, phoneHash: string, createdAt: Time, lastSeenAt: Time,
                             fallback: Option<Time>, now: Time)
    ensures SnapshotToUser(id, NewUserDocument(phoneHash, createdAt, lastSeenAt), fallback, now) ==
            Ok(AppUser(id, phoneHash, 0, createdAt, lastSeenAt, 1))
  {
  }

  /** `get` on a collection: `None` for a missing document. */
  function LookupUser(documents: Collection, id: string, now: Time): (r: Result<Option<AppUser>, Failure>)
    ensures id !in documents ==> r == Ok(None)
    ensures id in documents ==> (r.Ok? <==> SnapshotToUser(id, documents[id], None, now).Ok?)
    ensures id in documents && r.Ok? ==> r.value == Some(SnapshotToUser(id, documents[id], None, now).value)
    ensures id in documents && r.Err? ==> r.error == SnapshotToUser(id, documents[id], None, now).error
  {
    if id !in documents then Ok(None)
    else match SnapshotToUser(id, documents[id], None, now)
      case Err(e) => Err(e)
      case Ok(u) => Ok(Some(u))
  }

  /** A document whose times are stored datetimes: the clock plays no part
      in decoding it. */
  predicate HasStoredTimes(doc: Doc) {
    "created_at" in doc && doc["created_at"].Timestamp? && "last_seen_at" in doc && doc["last_seen_at"].Timestamp?
  }

  /** After `touch_last_seen`, an existing user reads back as before with only
      `last_seen_at` moved to the timestamp. */
  lemma TouchOnlyMovesLastSeen(documents: Collection, id: string, timestamp: Time, now: Time)
    requires id in documents && HasStoredTimes(documents[id])
    requires SnapshotToUser(id, documents[id], None, now).Ok?
    ensures var touched := MergeSet(documents, id, map["last_seen_at" := Timestamp(timestamp)]);
      SnapshotToUser(id, touched[id], Some(timestamp), now) ==
        Ok(SnapshotToUser(id, documents[id], None, now).value.(lastSeenAt := timestamp))
  {
    var touched := MergeSet(documents, id, map["last_seen_at" := Timestamp(timestamp)]);
    assert Field(touched[id], "created_at") == Field(documents[id], "created_at");
    assert Field(touched[id], "reputation") == Field(documents[id], "reputation");
    assert Field(touched[id], "token_version") == Field(documents[id], "token_version");
    assert Field(touched[id], "phone_hash") == Field(documents[id], "phone_hash");
  }

  /** Touching `last_seen_at` keeps a decodable user decodable, with the
      same id, phone hash, reputation and token version, whatever times are
      stored. */
  lemma TouchKeepsIdentity(documents: Collection, id: string, timestamp: Time, now: Time)
    requires id in documents && SnapshotToUser(id, documents[id], None, now).Ok?
    ensures var before := SnapshotToUser(id, documents[id], None, now).value;
      var touched := MergeSet(documents, id, map["last_seen_at" := Timestamp(timestamp)]);
      var after := SnapshotToUser(id, touched[id], Some(timestamp), timestamp);
      && after.Ok? && after.value.lastSeenAt == timestamp
      && after.value.phoneHash == before.phoneHash && after.value.reputation == before.reputation
      && after.value.tokenVersion == before.tokenVersion
  {
    var touched := MergeSet(documents, id, map["last_seen_at" := Timestamp(timestamp)]);
    assert Field(touched[id], "reputation") == Field(documents[id], "reputation");
    assert Field(touched[id], "token_version") == Field(documents[id], "token_version");
    assert Field(touched[id], "phone_hash") == Field(documents[id], "phone_hash");
  }

  /** After `adjust_reputation`, a user whose reputation is stored as an
      integer (or not at all) reads back with the reputation moved by delta
      and nothing else changed. */
  lemma AdjustOnlyMovesReputation(documents: Collection, id: string, delta: int, now: Time)
    requires id in documents && HasStoredTimes(documents[id])
    requires "reputation" !in documents[id] || documents[id]["reputation"].Int?
    requires SnapshotToUser(id, documents[id], None, now).Ok?
    ensures var before := SnapshotToUser(id, documents[id], None, now).value;
      SnapshotToUser(id, MergeIncrement(documents, id, "reputation", delta)[id], None, now) ==
        Ok(before.(reputation := before.reputation + delta))
  {
    var after := MergeIncrement(documents, id, "reputation", delta);
    assert Field(after[id], "created_at") == Field(documents[id], "created_at");
    assert Field(after[id], "last_seen_at") == Field(documents[id], "last_seen_at");
    assert Field(after[id], "token_version") == Field(documents[id], "token_version");
    assert Field(after[id], "phone_hash") == Field(documents[id], "phone_hash");
  }

  /** The collection after `set({"token_version": version}, merge=True)` on
      the document `id`. */
  function WithTokenVersion(documents: Collection, id: string, version: int): Collection {
    MergeSet(documents, id, map["token_version" := Int(version)])
  }

  /** After `set_token_version(version)`, a user reads back with that version
      and nothing else changed when the version is at least 1, and is
      refused by validation otherwise. */
  lemma SetVersionOnlyMovesVersion(documents: Collection, id: string, version: int, now: Time)
    requires id in documents && HasStoredTimes(documents[id])
    requires SnapshotToUser(id, documents[id], None, now).Ok?
    ensures var after := SnapshotToUser(id, WithTokenVersion(documents, id, version)[id], None, now);
      && (version >= 1 ==> after == Ok(SnapshotToUser(id, documents[id], None, now).value.(tokenVersion := version)))
      && (version < 1 ==> after == Err(ValidationError("token_version")))
  {
    var written := WithTokenVersion(documents, id, version);
    assert Field(written[id], "created_at") == Field(documents[id], "created_at");
    assert Field(written[id], "last_seen_at") == Field(documents[id], "last_seen_at");
    assert Field(written[id], "reputation") == Field(documents[id], "reputation");
    assert Field(written[id], "phone_hash") == Field(documents[id], "phone_hash");
  }

  /** The `users` collection. */
  class UserStore {
    var documents: Collection

    constructor(initial: Collection)
      ensures documents == initial
    {
      documents := initial;
    }

    /** `get(user_id)`. */
    method Get(userId: string, now: Time) returns (r: Result<Option<AppUser>, Failure>)
      ensures userId !in documents ==> r == Ok(None)
      ensures userId in documents ==> (r.Ok? <==> SnapshotToUser(userId, documents[userId], None, now).Ok?)
      ensures userId in documents && r.Ok? ==> r.value == Some(SnapshotToUser(userId, documents[userId], None, now).value)
      ensures r == LookupUser(documents, userId, now)
    {
      r := LookupUser(documents, userId, now);
    }

    /** `get_many(user_ids)`: the result holds exactly the requested ids
        whose documents exist, each decoded; a document that fails to decode
        raises. */
    method GetMany(userIds: seq<string>, now: Time) returns (r: Result<map<string, AppUser>, Failure>)
      ensures r.Ok? ==> r.value.Keys == set id | id in userIds && id in documents
      ensures r.Ok? ==> forall id :: id in r.value ==> SnapshotToUser(id, documents[id], None, now) == Ok(r.value[id])
      ensures r.Ok? <==> forall id :: id in userIds && id in documents ==> SnapshotToUser(id, documents[id], None, now).Ok?
    {
      var results: map<string, AppUser> := map[];
      for i := 0 to |userIds|
        invariant results.Keys == set id | id in userIds[..i] && id in documents
        invariant forall id :: id in results ==> SnapshotToUser(id, documents[id], None, now) == Ok(results[id])
        invariant forall id :: id in userIds[..i] && id in documents ==> SnapshotToUser(id, documents[id], None, now).Ok?
      {
        var userId := userIds[i];
        assert userIds[..i + 1] == userIds[..i] + [userId];
        if userId in documents {
          match SnapshotToUser(userId, documents[userId], None, now)
          case Err(e) =>
            return Err(e);
          case Ok(user) =>
            results := results[userId := user];
        }
      }
      assert userIds[..|userIds|] == userIds;
      r := Ok(results);
    }

    /** `create(user_id, phone_hash, created_at, last_seen_at)`: overwrite
        the document with a fresh user. */
    method Create(userId: string, phoneHash: string, createdAt: Time, lastSeenAt: Time) returns (r: Result<AppUser, Failure>)
      modifies this
      ensures documents == Overwrite(old(documents), userId, NewUserDocument(phoneHash, createdAt, lastSeenAt))
      ensures r == Ok(AppUser(userId, phoneHash, 0, createdAt, lastSeenAt, 1))
    {
      documents := Overwrite(documents, userId, NewUserDocument(phoneHash, createdAt, lastSeenAt));
      assert userId in documents;
      CreatedUserRoundTrip(userId, phoneHash, createdAt, lastSeenAt, Some(createdAt), createdAt);
      r := SnapshotToUser(userId, documents[userId], Some(createdAt), createdAt);
    }

    /** `touch_last_seen(user_id, timestamp)`: merge only `last_seen_at`. */
    method TouchLastSeen(userId: string, timestamp: Time) returns (r: Result<AppUser, Failure>)
      modifies this
      ensures documents == MergeSet(old(documents), userId, map["last_seen_at" := Timestamp(timestamp)])
      ensures r == SnapshotToUser(userId, documents[userId], Some(timestamp), timestamp)
    {
      documents := MergeSet(documents, userId, map["last_seen_at" := Timestamp(timestamp)]);
      assert userId in documents;
      r := SnapshotToUser(userId, documents[userId], Some(timestamp), timestamp);
    }

    /** `adjust_reputation(user_id, delta)`: merge `Increment(delta)`. */
    method AdjustReputation(userId: string, delta: int, now: Time) returns (r: Result<AppUser, Failure>)
      modifies this
      ensures documents == MergeIncrement(old(documents), userId, "reputation", delta)
      ensures r == SnapshotToUser(userId, documents[userId], None, now)
    {
      documents := MergeIncrement(documents, userId, "reputation", delta);
      assert userId in documents;
      r := SnapshotToUser(userId, documents[userId], None, now);
    }

    /** `set_token_version(user_id, version)`: merge only `token_version`. */
    method SetTokenVersion(userId: string, version: int, now: Time) returns (r: Result<AppUser, Failure>)
      modifies this
      ensures documents == WithTokenVersion(old(documents), userId, version)
      ensures r == SnapshotToUser(userId, documents[userId], None, now)
    {
      documents := WithTokenVersion(documents, userId, version);
      assert userId in documents;
      r := SnapshotToUser(userId, documents[userId], None, now);
    }
  }
}
