# War-room map, reporting back end and reporting app — a Dafny model

This project models the logic at the heart of three parts of one repository:

- **The war-room web map** (`front-web`). This covers the front-line geometry in `warMath.js`:
  - padding and interpolating front paths;
  - the ribbon band drawn around a front;
  - arc-length sampling along a path;
  - depth offsets;
  - the front and division view models.

  It also covers the simulation rules of the dashboard in `App.jsx`: the tick, attrition, the launch, pause, resupply and dig-in orders, division orders, the milestone dictionary and the bounded battle log.
- **The FastAPI back end** (`back`):
  - the pydantic schemas;
  - the Firestore repositories for users, reports and report statuses. Each collection is a map from document id to document, written with `set` or `set(merge=True)`;
  - the identity service (phone login, JWT issuance and token versioning);
  - the bearer-header dependencies;
  - the moderation service, which turns status changes into reputation changes.
- **The React Native reporting app** (`front-native`):
  - the shallow-merge form store;
  - the time, evidence and location steps;
  - the summary screen;
  - the export script that rewrites `/assets/node_modules/` references.

Pure code is modelled as functions and lemmas. Code that changes state is modelled as classes whose methods are proved against specification functions:
- the Firestore collections;
- the dashboard state;
- the React state cells of each screen;
- the exported file tree.

The loops of the source become `while` and `for` loops with invariants. They are proved equal to the specification functions:
- `ensurePathPair`, `computeVertexOffsets`, `computePathSegments` and `getPointAlongPath`;
- the tick's loops;
- `get_many`;
- the export script's `main`.

Foreign code enters as parameters, never as axioms. Each piece is a function-valued field of a datatype passed in:
- **`WarMath.Crs`:** Leaflet's EPSG:3857 `project`/`unproject`, `Math.hypot` and `Math.atan2`. The laws the proofs need (hypot is non-negative and zero exactly at the origin, atan2 lies in [-pi, pi], and project and unproject are inverse) are predicates that lemmas require.
- **`Identity.Libraries`:** JWT encoding and decoding, the HMAC and phone-number parsing.
- **Other parameters:**
  - the clock (`now`, `timestamp`);
  - `parseFloat`;
  - `toFixed(5)` and `JSON.stringify`;
  - the image picker's answer;
  - the outcome of the submission request.

Module layout: one module per source file, plus `Common` (Option/Result and small real helpers) and `Firestore` (document values, `set`, merge `set`, `Increment` and Python's `int(...)`).

## Model

| member | source | states |
|---|---|---|
| WarMath.BearingRange | front-web/src/warMath.js:172-189 | `(atan2 * 180 / PI + 360) % 360` with JavaScript's truncating `%` lies in [0, 360) whenever atan2 lies in [-pi, pi] |
| WarMath.PadStartShape | front-web/src/warMath.js:16-18 | padding the start path keeps its entries and repeats its last entry up to the longer length |
| WarMath.PadTargetShape | front-web/src/warMath.js:19-22 | a target path with a last point is padded with that point up to the longer length, its own entries unchanged |
| WarMath.PadTargetOfEmpty | front-web/src/warMath.js:19-22 | an empty target is padded with `undefined` first and then with `start[0]` |
| WarMath.EnsurePathPair | front-web/src/warMath.js:11-25 | the two `while … push` loops produce exactly the padded start and target paths |
| WarMath.InterpolatePath | front-web/src/warMath.js:27-42 | an empty start path gives `[]`; otherwise the result has max(len start, len target) points |
| WarMath.InterpolatePathAt | front-web/src/warMath.js:35-41 | point i blends padded start i toward padded target i by the clamped progress; an absent target point falls back to the start point |
| WarMath.InterpolateClampsProgress | front-web/src/warMath.js:33 | progress ≤ 0 gives the result of 0, and progress ≥ 1 gives the result of 1 |
| WarMath.InterpolateAtZero | front-web/src/warMath.js:16-18 | at clamped progress 0 the output is the padded start path pointwise |
| WarMath.InterpolateAtOne | front-web/src/warMath.js:19-22 | at clamped progress 1 a non-empty target is reached, padded by repeating its own last point |
| WarMath.InterpolateEmptyTarget | front-web/src/warMath.js:20-22 | with an empty target, point 0 stays put and every later point blends toward `start[0]` |
| WarMath.InterpolateSameLength | front-web/src/warMath.js:35-41 | paths of equal length blend pointwise by the clamped progress |
| WarMath.VertexOffsets | front-web/src/warMath.js:44-81 | one offset per projected vertex |
| WarMath.ComputeVertexOffsets | front-web/src/warMath.js:44-81 | the accumulate-then-scale loops compute exactly the specified offsets (sum of adjacent segment normals, scaled to half the width, zero for a zero normal) |
| WarMath.CreateFrontBand | front-web/src/warMath.js:83-103 | `null` iff the path has fewer than 2 points, otherwise exactly 2N points |
| WarMath.BandLayout | front-web/src/warMath.js:92-102 | point i is vertex i moved by its offset; point 2N-1-i is vertex i moved against it (the lower edge reversed) |
| WarMath.ZeroSegmentHasNoNormal | front-web/src/warMath.js:58-60 | a zero-length segment contributes no normal |
| WarMath.BandPinchesAtZeroNormal | front-web/src/warMath.js:71-75 | a vertex with a zero accumulated normal gets a zero offset, and both of its band points are the vertex itself |
| WarMath.PathSegments | front-web/src/warMath.js:105-143 | `null` for fewer than 2 points; a result has at least one segment and a total length equal to the sum of the segment lengths |
| WarMath.ComputePathSegments | front-web/src/warMath.js:105-143 | the push-and-sum loop computes exactly the specified segments and total |
| WarMath.SegmentsAreSegments | front-web/src/warMath.js:114-140 | every recorded segment joins two consecutive projected points, with its own difference and a non-zero length |
| WarMath.NoSegmentsIffAllZero | front-web/src/warMath.js:114-140 | no segment is recorded iff every consecutive pair of projected points coincides |
| WarMath.GetPointAlongPath | front-web/src/warMath.js:145-191 | the walk over the segments returns exactly the specified sample |
| WarMath.SampleClampsFraction | front-web/src/warMath.js:156 | a fraction outside [0, 1] acts as the nearest end |
| WarMath.SampleOfDegeneratePath | front-web/src/warMath.js:146-154 | a path whose consecutive projected points all coincide samples to `path[0]` (or {0,0} when empty), a zero normal and bearing 0 |
| WarMath.SampleAtEnd | front-web/src/warMath.js:183-190 | at fraction ≥ 1 the walk runs out and returns the last segment's end, normal and bearing |
| WarMath.WalkToTotal | front-web/src/warMath.js:170-190 | walking to the exact total length from any segment ends at the last segment's end |
| WarMath.SampleAtStart | front-web/src/warMath.js:159-177 | at fraction ≤ 0 the sample is the start of the first positive segment |
| WarMath.SampleAtFirstPoint | front-web/src/warMath.js:159-177 | when the first segment has positive length, fraction 0 samples `path[0]` itself |
| WarMath.SampleBearingRange | front-web/src/warMath.js:145-191 | every sample's bearing lies in [0, 360) |
| WarMath.PointWithDepth | front-web/src/warMath.js:193-208 | keeps the base sample's normal and bearing |
| WarMath.DepthMovesAlongNormal | front-web/src/warMath.js:198-207 | in projected space the result is the base point moved by exactly normal × depth |
| WarMath.DepthZeroKeepsSample | front-web/src/warMath.js:193-208 | with depth 0 and an exact inverse projection the position is the sampled point |
| WarMath.BuildFrontGeometry | front-web/src/warMath.js:210-222 | keeps the front; a non-empty start path gives a path of max(len start, len advance) points; there is a band iff the path has at least 2 points, with twice as many points |
| WarMath.LabelAtMidpoint | front-web/src/warMath.js:214-221 | the label position and bearing are those of the arc-length midpoint of the current path |
| WarMath.GetFrontGeometries | front-web/src/warMath.js:224 | same length and order as the fronts |
| WarMath.FindFront | front-web/src/warMath.js:235 | the first front with the id, or none iff no front has it |
| WarMath.DeriveDivisionPosition | front-web/src/warMath.js:226-253 | the view keeps the division it was built from |
| WarMath.UnassignedDivisionStays | front-web/src/warMath.js:227-233 | no assignment: static position and bearing 0 |
| WarMath.DivisionWithoutFrontStays | front-web/src/warMath.js:235-239 | an unknown front id: static position and bearing 0 |
| WarMath.DivisionOnFront | front-web/src/warMath.js:235-252 | on the first matching front: static if its path has fewer than 2 points, else the point at anchor (default 0.5) and depth (default -4000) |
| WarMath.GetDivisionViewModels | front-web/src/warMath.js:255-256 | same length and order as the divisions |
| WarRoom.AddLogEntry | front-web/src/App.jsx:251-256 | the new entry first, then the old entries in order, at most 9 |
| WarRoom.AddLogEntries | front-web/src/App.jsx:410-412 | after a batch the log holds at most 9 entries, unless the batch is empty and the log is returned as it was |
| WarRoom.AddLogEntriesNewestFirst | front-web/src/App.jsx:251-256 | after a batch, the last message is first and the batch appears newest first before the older entries |
| WarRoom.MomentumPositive | front-web/src/App.jsx:321-323 | with a positive speed the momentum is positive |
| WarRoom.AdvanceFrontRules | front-web/src/App.jsx:321-337 | progress = min(1, progress + momentum); readiness and supply fall but stay ≥ 0; secured iff progress reaches 1, else stalled when readiness or supply < 18, else unchanged; losses grow; nothing else changes |
| WarRoom.StepThresholds | front-web/src/App.jsx:339-347 | announces at most one message per threshold |
| WarRoom.StepThresholdsRule | front-web/src/App.jsx:339-347 | a threshold is recorded and announced exactly when progress reaches it and it was not recorded before; other keys are unchanged |
| WarRoom.ThresholdAnnouncedOnce | front-web/src/App.jsx:341-346 | a recorded threshold is never announced again |
| WarRoom.TickFronts | front-web/src/App.jsx:313-367 | the fronts updater keeps the list length |
| WarRoom.TickFrontsPointwise | front-web/src/App.jsx:316-337 | every non-advancing front is kept and every advancing front becomes its advanced record |
| WarRoom.TickAdvancedIds | front-web/src/App.jsx:316-337 | exactly the ids of the advancing fronts are in the advanced set |
| WarRoom.TickWithoutAdvance | front-web/src/App.jsx:316-319 | when no front advances the same list and dictionary come back, with no messages |
| WarRoom.TickKeepsMilestonesWellFormed | front-web/src/App.jsx:339-347 | the dictionary only ever holds 0 or the key's own threshold |
| WarRoom.TickDivisions | front-web/src/App.jsx:370-407 | divisions not on an advanced front are unchanged, and the length is kept |
| WarRoom.AttritionRules | front-web/src/App.jsx:373-399 | organization and strength fall but stay ≥ 0; organization < 25 exhausts; otherwise a friendly reserve goes frontline and an enemy below 45 probes |
| WarRoom.TickKeepsBounds | front-web/src/App.jsx:321-337 | a tick keeps progress in [0, 1] and readiness and supply in [0, 100] |
| WarRoom.AttritionKeepsBounds | front-web/src/App.jsx:373-399 | attrition keeps organization and strength in [0, 100] |
| WarRoom.UpdateNamedFront | front-web/src/App.jsx:443-468 | only the fronts with the id change |
| WarRoom.LastMatch | front-web/src/App.jsx:448-466 | the last front with the id, whose values the launch reads, or none iff no front has it |
| WarRoom.FirstFront | front-web/src/App.jsx:579 | `find`: the first front with the id, or none iff no front has it |
| WarRoom.SeedThresholdsRule | front-web/src/App.jsx:458-461 | a launch resets the front's thresholds strictly above its progress to 0 and keeps those it has reached (equality included) at their threshold |
| WarRoom.ReseedKeepsMilestonesWellFormed | front-web/src/App.jsx:452-462 | re-seeding keeps the dictionary well formed |
| WarRoom.UpdateFriendlyOnFront | front-web/src/App.jsx:472-482 | only the friendly divisions assigned to the front change |
| WarRoom.LaunchFrontRule | front-web/src/App.jsx:443-468 | readiness and supply > 25: advancing with progress max(progress, 0.02); otherwise stalled; nothing else changes |
| WarRoom.FrontOrdersBounded | front-web/src/App.jsx:494-570 | pause (regrouping) and resupply (preparing) raise readiness and supply but not above 100; dig-in (idle) raises readiness and lowers supply by 4, not below 0; none touches progress |
| WarRoom.DivisionUpdatesBounded | front-web/src/App.jsx:472-550 | launch (attacking) lowers organization but not below 0; pause (reorganizing) and resupply (resupplying) raise it but not above 100; resupply gives logistics in [0, 100], 73 when none was recorded |
| WarRoom.OrderDivisions | front-web/src/App.jsx:592-657 | ordering keeps the division list's length |
| WarRoom.OrderDivisionsPointwise | front-web/src/App.jsx:594-652 | only the divisions with the id change |
| WarRoom.OrderRules | front-web/src/App.jsx:595-652 | airstrike only affects enemies; support sets depth to min(-2600, depth-800); fallback sets -9200; an unassigned division keeps no assignment |
| WarRoom.CheckThresholds | front-web/src/App.jsx:339-347 | the threshold loop computes exactly `StepThresholds` |
| WarRoom.AdvanceFronts | front-web/src/App.jsx:313-367 | the loop over the fronts computes exactly the fronts updater |
| WarRoom.LogMessages | front-web/src/App.jsx:410-412 | the `forEach` of `addLogEntry` computes exactly `AddLogEntries` |
| WarRoom.Dashboard.constructor | front-web/src/App.jsx:228-240 | speed 1, running, empty dictionary, the given fronts, divisions and log |
| WarRoom.Dashboard.Tick | front-web/src/App.jsx:309-413 | the new fronts, dictionary, divisions and log are the tick's specification of the old state; the bounds invariant holds |
| WarRoom.Dashboard.LaunchOffensive | front-web/src/App.jsx:438-490 | only the named front is launched, the dictionary is re-seeded, and its friendly divisions update only when it can advance |
| WarRoom.Dashboard.PauseFrontOrder | front-web/src/App.jsx:492-522 | only the named front and its friendly divisions change, and one info entry is logged |
| WarRoom.Dashboard.ResupplyFrontOrder | front-web/src/App.jsx:524-555 | only the named front and its friendly divisions change, and one success entry is logged |
| WarRoom.Dashboard.DigInFrontOrder | front-web/src/App.jsx:557-575 | only the named front changes, and divisions are untouched |
| WarRoom.Dashboard.FrontToggle | front-web/src/App.jsx:577-590 | an unknown id changes nothing; an advancing front is paused; any other front is launched, with the same divisions and log entry as `LaunchOffensive` (the friendly divisions on the front advance and "offensive started" is logged when the last matching front can advance, otherwise the divisions stay and a warning is logged) |
| WarRoom.Dashboard.DivisionOrder | front-web/src/App.jsx:592-657 | only the ordered divisions change, with the order's log entries |
| WarRoom.Dashboard.SetSpeed | front-web/src/App.jsx:659-661 | sets one of the offered speeds 0.5, 1, 2 and nothing else |
| WarRoom.Dashboard.TogglePause | front-web/src/App.jsx:663-665 | flips the pause flag and nothing else |
| AuthDependencies.Partition | back/app/api/dependencies/auth.py:14 | `partition(" ")`: the three parts rebuild the text; the head has no separator, and the middle is empty iff there is no separator |
| AuthDependencies.PartitionAtFirstSeparator | back/app/api/dependencies/auth.py:14 | a text whose first space follows `head` partitions back into `head` and the rest |
| AuthDependencies.BearerSpellings | back/app/api/dependencies/auth.py:15 | "Bearer", "bearer" and "BEARER" are accepted; "Basic", "Token" and "" are not |
| Common.Strip | back/app/api/dependencies/auth.py:17 | `strip()` over a whitespace set (`Spaces`, the `str.isspace()` set, here; the narrower `IntSpaces` in the integer parser): the result is no longer than the text, and a non-empty result starts and ends with a non-whitespace character |
| Common.StripStartShape | back/app/api/dependencies/auth.py:17 | `lstrip` keeps a suffix that does not start with whitespace and removes only whitespace |
| Common.StripEndShape | back/app/api/dependencies/auth.py:17 | `rstrip` keeps a prefix that does not end with whitespace and removes only whitespace |
| Common.StripEmptyIffBlank | back/app/api/dependencies/auth.py:17 | the stripped token is empty iff the remainder is all whitespace |
| Common.StripKeepsTrimmed | back/app/api/dependencies/auth.py:17 | a text that starts and ends with a non-whitespace character strips to itself |
| Common.StripIsSlice | back/app/api/dependencies/auth.py:17 | the stripped text is the slice of the text that starts after the leading whitespace |
| Common.StripLeavesSpaceAfter | back/app/api/dependencies/auth.py:17 | everything after that slice is whitespace |
| Common.StripStartAppend | back/app/api/dependencies/auth.py:17 | appending a character to a text with a non-whitespace character appends it to the text's left-stripped form; after an all-whitespace text only the character itself counts |
| Common.StripIgnoresLeadingSpace | back/app/api/dependencies/auth.py:17 | a leading whitespace character does not change the stripped text |
| Common.StripIgnoresTrailingSpace | back/app/api/dependencies/auth.py:17 | a trailing whitespace character does not change the stripped text |
| AuthDependencies.ExtractBearerToken | back/app/api/dependencies/auth.py:11-18 | no or empty header gives none; a non-bearer scheme or empty remainder raises 401; otherwise the stripped remainder |
| AuthDependencies.BearerHeaderGivesToken | back/app/api/dependencies/auth.py:14-18 | "Bearer " + token gives the stripped token, so a whitespace-only token gives "" |
| AuthDependencies.MalformedHeaderRefused | back/app/api/dependencies/auth.py:15-16 | a header without a space, or with another scheme, is refused with 401 |
| AuthDependencies.AsUnauthorized | back/app/api/dependencies/auth.py:31-32 | a token validation failure becomes 401 "Invalid or expired token"; other failures pass through |
| AuthDependencies.GetOptionalUser | back/app/api/dependencies/auth.py:21-32 | no token gives none and a malformed header gives 401, and neither writes the user store; otherwise the verification result, with its validation errors as 401, and the user store that verification leaves (`last_seen_at` merged for an accepted token, unchanged for a refused one) |
| AuthDependencies.GetOptionalReporterId | back/app/api/dependencies/auth.py:35-41 | the resolved user's id, or none; the user store is unchanged unless a token was verified, and then it is what verification leaves |
| AuthDependencies.RequireCurrentUser | back/app/api/dependencies/auth.py:44-52 | the resolved user, or 401 "Authentication required" when there is none; the user store is unchanged unless a token was verified, and then it is what verification leaves |
| AuthDependencies.RequireSupervisorIdentity | back/app/api/dependencies/auth.py:55-57 | a non-empty header as is, else "anonymous-supervisor" |
| Identity.NormalizePhone | back/app/services/identity.py:43-53 | a parse failure or an impossible number raises the normalization error; otherwise the E.164 form |
| Identity.TokenClaims | back/app/services/identity.py:63-68 | `sub` is the user id, `tv` the token version, `iat` and `exp` the whole seconds of issue and expiry |
| Identity.BuildToken | back/app/services/identity.py:61-70 | the encoded claims, and an expiry `jwt_expires_days` days after issue |
| Identity.TokenLifetime | back/app/services/identity.py:62-66 | exp = iat + days × 86400 for a non-negative issue time, and the returned expiry is the claim's instant |
| Identity.IssuedTokenAccepted | back/app/services/identity.py:61-108 | a token the service issued passes every check of `verify_token` as long as the stored user keeps the token version it carries |
| Identity.TokenCheck | back/app/services/identity.py:96-108 | the errors in order: undecodable, no subject, unknown user, version mismatch (absent `tv` counts as 1); otherwise the stored user |
| Identity.VerifyOutcome | back/app/services/identity.py:87-111 | a passing check refreshes `last_seen_at` and returns the refreshed user; a failing one returns its error |
| Identity.BumpInvalidatesOlderTokens | back/app/services/identity.py:107-108 | after a bump, a token carrying the old version fails with "Token version no longer valid" |
| Identity.IdentityService.EnsureUser | back/app/services/identity.py:72-76 | an existing user only has `last_seen_at` touched; an absent one is created with both timestamps equal |
| Identity.IdentityService.AuthenticatePhone | back/app/services/identity.py:78-85 | the phone's HMAC is both user id and phone hash; the payload carries the token and expiry of the ensured user; for a user that already decodes, the login succeeds and returns the touched document decoded, with the same token version |
| Identity.IdentityService.VerifyToken | back/app/services/identity.py:87-111 | the result is that of `VerifyOutcome`; the new user store is `VerifiedStore`: `last_seen_at` merged for an accepted token, nothing written for a refused one |
| Identity.IdentityService.AdjustReputation | back/app/services/identity.py:113-115 | delegates to the repository's increment |
| Identity.IdentityService.BumpTokenVersion | back/app/services/identity.py:117-122 | an unknown user raises; otherwise the version becomes old + 1 by a merge write |
| Firestore.Field | back/app/repositories/firebase_users.py:23-27 | `data.get(name)`: present iff the field exists |
| Firestore.Overwrite | back/app/repositories/firebase_report_status.py:57-63 | `set(fields)`: the document becomes exactly the fields; other documents are unchanged |
| Firestore.MergeSet | back/app/repositories/firebase_users.py:87 | `set(fields, merge=True)`: the given fields are overwritten, all others kept, and a missing document is created |
| Firestore.Incremented | back/app/repositories/firebase_users.py:95 | `Increment(delta)` adds to a number and sets an absent or non-numeric field to delta |
| Firestore.MergeIncrement | back/app/repositories/firebase_users.py:95 | the increment is a merge write of the incremented field |
| Firestore.TruncateToInt | back/app/repositories/firebase_users.py:31 | `int(float)` truncates toward zero |
| Firestore.PyInt | back/app/repositories/firebase_users.py:31-34 | `int(value)`: an int is kept, a bool gives 1 or 0, a float is truncated toward zero, a string is parsed as a base-10 literal (`PyIntText`), and any other value raises |
| Firestore.DigitValue | back/app/repositories/firebase_users.py:31-34 | a decimal digit's value is in 0..9 |
| Firestore.ParseSigned | back/app/repositories/firebase_users.py:31-34 | a parsed literal ends in a digit, and a negative one starts with "-" |
| Firestore.PyIntText | back/app/repositories/firebase_users.py:31-34 | `int(text)`: a parsed text, once stripped of the whitespace `int()` skips (space and `\t\n\v\f\r` among ASCII, not U+001C..U+001F), ends in a digit, and a negative one starts with "-" |
| Firestore.DigitIsNotSpace | back/app/repositories/firebase_users.py:31-34 | digits and signs are not whitespace, so stripping never eats them |
| Firestore.PyIntTextOfTrimmed | back/app/repositories/firebase_users.py:31-34 | a text without outer whitespace is parsed as it is |
| Firestore.SignedRunParses | back/app/repositories/firebase_users.py:31-34 | a digit run (single underscores between digits allowed) parses to its value, with "+" to the same value and with "-" to its negation |
| Firestore.PyIntTextOfSignedRun | back/app/repositories/firebase_users.py:31-34 | `int("123")`, `int("+123")` and `int("-123")` give 123, 123 and -123 for every digit run |
| Firestore.PyIntTextIgnoresSpace | back/app/repositories/firebase_users.py:31-34 | whitespace that `int()` skips, before or after the literal, does not change the result |
| Firestore.ParseSignedRefuses | back/app/repositories/firebase_users.py:31-34 | a literal with a character that is not a digit, an underscore or a leading sign, or with two underscores in a row, is refused |
| Firestore.PyIntTextRefuses | back/app/repositories/firebase_users.py:31-34 | the same for a whole text, where only the whitespace `int()` skips is allowed, and only around the literal |
| Firestore.SeparatorBeforeLiteralRefused | back/app/repositories/firebase_users.py:31-34 | an information separator U+001C..U+001F before a literal makes `int()` raise, although `str.strip()` removes it |
| Firestore.NatTextDigits | back/app/repositories/firebase_users.py:31-34 | the decimal text of a natural number is a digit run with that value |
| Firestore.DecimalTextShape | back/app/repositories/firebase_users.py:31-34 | `str(n)` is "-" and the digits of `abs(n)` for a negative n, otherwise those digits |
| Firestore.PyIntTextRoundTrip | back/app/repositories/firebase_users.py:31-34 | `int(str(n)) == n` for every integer |
| Firestore.Seconds | back/app/services/identity.py:65-66 | `int(dt.timestamp())` truncates toward zero |
| Firestore.SecondsAfter | back/app/services/identity.py:62-66 | adding whole seconds to a non-negative instant adds them to its seconds |
| Schemas.MakeGeoPoint | back/app/schemas/report.py:11-13 | valid iff latitude is in [-90, 90] and longitude in [-180, 180]; an out-of-range latitude is the error reported |
| Schemas.MakeReportCreate | back/app/schemas/report.py:16-19 | `type` is required non-empty, `data` defaults to {}, `geo_point` defaults to None and must be valid |
| Schemas.ParseStatus | back/app/schemas/report_status.py:10-15 | parses exactly the three stored status texts |
| Schemas.ParseStatusText | back/app/schemas/report_status.py:10-15 | each status's text parses back to it |
| Schemas.MakeReport | back/app/schemas/report.py:22-30 | an unknown `reporter_id` keyword is dropped: `user_id` and `status` keep their None defaults |
| UsersRepository.EnsureDatetime | back/app/repositories/firebase_users.py:14-17 | a stored datetime, otherwise the fallback |
| UsersRepository.IntField | back/app/repositories/firebase_users.py:25-34 | absent gives the default; present must convert with `int(...)`, so a numeric string such as "5" is accepted |
| UsersRepository.PhoneHashField | back/app/repositories/firebase_users.py:27 | defaults to the snapshot id; a stored string is kept |
| UsersRepository.SnapshotToUser | back/app/repositories/firebase_users.py:20-35 | decodes iff the fields convert (numbers, booleans and numeric strings for the integer fields); the id is the snapshot id, timestamps default to the fallback or now, and the result satisfies `token_version ≥ 1` |
| UsersRepository.EmptyUserDefaults | back/app/repositories/firebase_users.py:21-27 | an empty document decodes to reputation 0, version 1 and phone hash = id |
| UsersRepository.CreatedUserRoundTrip | back/app/repositories/firebase_users.py:69-83 | the created document reads back as the user with reputation 0 and version 1 and the given timestamps |
| UsersRepository.LookupUser | back/app/repositories/firebase_users.py:55-59 | a missing document gives None; otherwise the decoded user or its error |
| UsersRepository.TouchOnlyMovesLastSeen | back/app/repositories/firebase_users.py:85-91 | after `touch_last_seen`, only `last_seen_at` differs in the decoded user |
| UsersRepository.AdjustOnlyMovesReputation | back/app/repositories/firebase_users.py:93-99 | after `adjust_reputation`, reputation moves by delta and nothing else changes |
| UsersRepository.SetVersionOnlyMovesVersion | back/app/repositories/firebase_users.py:101-107 | after `set_token_version`, only the version changes |
| UsersRepository.UserStore.Get | back/app/repositories/firebase_users.py:55-59 | the `LookupUser` answer for the current collection |
| UsersRepository.UserStore.GetMany | back/app/repositories/firebase_users.py:61-67 | the keys are exactly the requested ids whose documents exist, each mapped to its decoded user |
| UsersRepository.UserStore.Create | back/app/repositories/firebase_users.py:69-83 | overwrites the document and returns the new user with reputation 0 and version 1 |
| UsersRepository.UserStore.TouchLastSeen | back/app/repositories/firebase_users.py:85-91 | merges only `last_seen_at` and returns the decoded document with the timestamp as fallback |
| UsersRepository.UserStore.AdjustReputation | back/app/repositories/firebase_users.py:93-99 | merge-increments `reputation` and returns the decoded document |
| UsersRepository.UserStore.SetTokenVersion | back/app/repositories/firebase_users.py:101-107 | merges only `token_version` and returns the decoded document |
| ReportsRepository.SerializeGeoPoint | back/app/repositories/firebase_reports.py:14-17 | None gives null, and a point gives a Firestore GeoPoint |
| ReportsRepository.DeserializeGeoPoint | back/app/repositories/firebase_reports.py:20-23 | a GeoPoint gives the validated point; anything else gives None |
| ReportsRepository.GeoPointRoundTrip | back/app/repositories/firebase_reports.py:17-22 | deserialising a serialised valid point gives it back |
| ReportsRepository.KindField | back/app/repositories/firebase_reports.py:36 | `type` defaults to "" |
| ReportsRepository.DataField | back/app/repositories/firebase_reports.py:37 | `data` defaults to {} |
| ReportsRepository.SnapshotToReport | back/app/repositories/firebase_reports.py:26-42 | decodes iff the geopoint, `type` and `data` are valid, and the geopoint's error comes first because it is converted while the arguments are built; a non-datetime `created_at` becomes now; a non-datetime `updated_at` becomes None; the id is the snapshot id; `user_id` is always None |
| ReportsRepository.CreatedReportRoundTrip | back/app/repositories/firebase_reports.py:58-74 | a created report reads back with its payload, both times at the server time, and no user id even when a reporter was given |
| Firestore.TypeRank | back/app/repositories/firebase_reports.py:78 | Firestore's order of value types; integers and floats share a rank |
| Firestore.TextOrderTotal | back/app/repositories/firebase_reports.py:78 | any two strings are comparable |
| Firestore.TextOrderTransitive | back/app/repositories/firebase_reports.py:78 | the string order is transitive |
| Firestore.ValueOrderTotal | back/app/repositories/firebase_reports.py:78 | any two values are comparable, so the ordering places every document that has the field |
| Firestore.ValueOrderTransitive | back/app/repositories/firebase_reports.py:78 | the value order is transitive |
| Firestore.TimestampOrder | back/app/repositories/firebase_reports.py:78 | timestamps compare by instant; they sort after nulls, booleans and numbers and before strings |
| ReportsRepository.CreationKeys | back/app/repositories/firebase_reports.py:78 | the documents the `created_at` ordering returns (every one that has the field, whatever its type), with the value they hold |
| ReportsRepository.InsertDescending | back/app/repositories/firebase_reports.py:78 | inserting adds exactly the one id |
| ReportsRepository.AboveFirstIsAboveAll | back/app/repositories/firebase_reports.py:78 | a key above the first of a descending sequence is above all of it |
| ReportsRepository.InsertKeepsOrder | back/app/repositories/firebase_reports.py:78 | insertion keeps the ids in descending Firestore order of `created_at` |
| ReportsRepository.InsertKeepsDistinct | back/app/repositories/firebase_reports.py:78 | inserting an id not yet listed keeps the ids distinct |
| ReportsRepository.ReportStore.Create | back/app/repositories/firebase_reports.py:58-74 | writes the new document under the generated id and returns it as read back |
| ReportsRepository.ReportStore.Get | back/app/repositories/protocols.py:22-24 | a missing report gives None; otherwise the decoded report or its error |
| ReportsRepository.ReportStore.QueryByCreation | back/app/repositories/firebase_reports.py:77-79 | every document that has a `created_at` once, in descending Firestore order of that value |
| ReportsRepository.ListingOrder | back/app/repositories/firebase_reports.py:78-80 | decoded in query order, the reports follow the stored `created_at` descending: type ranks never rise and the timestamped reports are latest first |
| ReportsRepository.ReportStore.DecodeAll | back/app/repositories/firebase_reports.py:80 | the list comprehension: one report per id, in order, or the error of the first document that does not decode |
| ReportsRepository.FirstFailureFailsFirst | back/app/repositories/firebase_reports.py:78-80 | the first document of the query that does not decode is preceded by decodable documents only, and every document whose `created_at` sorts strictly above it is among them |
| ReportsRepository.ReportStore.List | back/app/repositories/firebase_reports.py:76-80 | fails iff some document that has a `created_at` does not decode, with the error of a failing document above which every document decodes; otherwise one decoded report per such document, in descending Firestore order of that value; the timestamped ones are latest first, and the others are dated now |
| ReportStatusRepository.OptionalString | back/app/repositories/firebase_report_status.py:27 | absent or null gives None, a string is kept, anything else is refused |
| ReportStatusRepository.DecodeStatus | back/app/repositories/firebase_report_status.py:18-22 | a missing or unrecognised status decodes as pending, never an error |
| ReportStatusRepository.DecodeUpdatedAt | back/app/repositories/firebase_report_status.py:16-17 | a stored datetime, else the fallback, else now |
| ReportStatusRepository.SnapshotToStatus | back/app/repositories/firebase_report_status.py:14-28 | the report id is the snapshot id, with the decoded status, time and `updated_by` |
| ReportStatusRepository.StatusRoundTrip | back/app/repositories/firebase_report_status.py:56-67 | a written status reads back with the same status, timestamp and supervisor |
| ReportStatusRepository.EmptyDocumentIsPending | back/app/repositories/firebase_report_status.py:15-28 | an empty document is pending, updated at the fallback or now, by nobody |
| ReportStatusRepository.StatusLookup | back/app/repositories/firebase_report_status.py:69-73 | a missing document gives None; otherwise the decoded status or its error |
| ReportStatusRepository.LookupAfterSet | back/app/repositories/firebase_report_status.py:56-73 | after `set_status`, `get` returns exactly the status written |
| ReportStatusRepository.StatusStore.SetStatus | back/app/repositories/firebase_report_status.py:48-67 | overwrites the whole document without merge and returns the written status |
| ReportStatusRepository.StatusStore.Get | back/app/repositories/firebase_report_status.py:69-73 | the `StatusLookup` answer for the current collection |
| ReportStatusService.Score | back/app/services/report_status.py:14-18 | pending 0, approved 1, invalid -1 |
| ReportStatusService.ScoreDelta | back/app/services/report_status.py:48-50 | new score minus previous score, with no previous status scored as pending; 0 when the status repeats |
| ReportStatusService.Author | back/app/services/report_status.py:51 | the report's `user_id` when truthy |
| ReportStatusService.TotalChangeTelescopes | back/app/services/report_status.py:48-52 | over any run of moderations the deltas sum to the last score minus the starting score |
| ReportStatusService.TotalChangeIsLatestScore | back/app/services/report_status.py:48-52 | from a never-moderated report, the total change is the latest status's score |
| ReportStatusService.StoredReportsHaveNoAuthor | back/app/repositories/firebase_reports.py:39 | reports decoded from storage have no author, so moderating them moves no reputation |
| ReportStatusService.ModerationService.SetStatus | back/app/services/report_status.py:34-54 | an unknown report raises before any write; otherwise the status is overwritten and reputation moves by the delta only when it is non-zero and there is an author; the stored status is returned |
| ReportStatusService.ModerationService.GetStatus | back/app/services/report_status.py:56-57 | the repository's answer, unchanged |
| FormContext.Lookup | front-native/app/context/FormContext.tsx:12 | a key is found iff it is among the record's keys |
| FormContext.Assign | front-native/app/context/FormContext.tsx:46 | `{...rec, [key]: value}`: the key gets the value and every other key keeps its value |
| FormContext.AssignKeys | front-native/app/context/FormContext.tsx:46 | an existing key keeps its place in the key order, and a new key goes last |
| FormContext.InitialFormData | front-native/app/context/FormContext.tsx:35-41 | the given initial state, else no components, index 0, no category and no data |
| FormContext.Merge | front-native/app/context/FormContext.tsx:46 | each field in the patch replaces the old one whole; other fields are kept |
| FormContext.MergeEmptyPatch | front-native/app/context/FormContext.tsx:46 | the empty patch changes nothing |
| FormContext.MergeIdempotent | front-native/app/context/FormContext.tsx:46 | applying a patch twice equals applying it once |
| FormContext.MergeReplacesData | front-native/app/context/FormContext.tsx:46 | a patched `data` drops every old key it does not carry |
| FormContext.MergeTwice | front-native/app/context/FormContext.tsx:44-47 | two merges are one merge of the combined patch, the later winning field by field |
| FormContext.PatchOf | front-native/app/context/FormContext.tsx:45 | a function updater is applied to the current state; an object is the patch |
| FormContext.FormStore.constructor | front-native/app/context/FormContext.tsx:35-41 | the state starts as the initial form data |
| FormContext.FormStore.UpdateData | front-native/app/context/FormContext.tsx:43-48 | the state becomes the old state merged with the updater's patch |
| TimeReport.TimeOptionsShape | front-native/components/categoryComponets/TimeReportComponent.tsx:37-68 | four options in the order now, 5-10 minutes, 30 minutes, over an hour, with distinct values and non-empty labels |
| TimeReport.FindOption | front-native/components/categoryComponets/TimeReportComponent.tsx:37-68 | `find`: an option whose value matches, or none iff none matches |
| TimeReport.FindEachOption | front-native/components/categoryComponets/TimeReportComponent.tsx:37-68 | each option's value finds that option |
| TimeReport.FadeStart | front-native/components/categoryComponets/TimeReportComponent.tsx:115-130 | 0.7 unless overflowing with room left; then the room fraction clamped to [0.7, 0.92] |
| TimeReport.FadeStartLocation | front-native/components/categoryComponets/TimeReportComponent.tsx:111-130 | in [0.7, 0.92]; 0.7 when not overflowing or when the height is at most 24+12+300 |
| TimeReport.MaskLocationsOrdered | front-native/components/categoryComponets/TimeReportComponent.tsx:132-135 | the mask stops [0, f, 1] are non-decreasing and within [0, 1] |
| TimeReport.TallViewFadesLate | front-native/components/categoryComponets/TimeReportComponent.tsx:124-129 | a tall overflowing view gets the maximum 0.92 |
| TimeReport.ContinueRecordsTime | front-native/components/categoryComponets/TimeReportComponent.tsx:101-106 | continuing stores the chosen time, keeps every other data key and changes nothing but `data` |
| TimeReport.TimeScreen.Select | front-native/components/categoryComponets/TimeReportComponent.tsx:189 | selects the option and changes nothing else |
| TimeReport.TimeScreen.ScrollViewLayout | front-native/components/categoryComponets/TimeReportComponent.tsx:93-95 | records the view height only |
| TimeReport.TimeScreen.ContentSizeChange | front-native/components/categoryComponets/TimeReportComponent.tsx:97-99 | records the content height only |
| TimeReport.TimeScreen.CurrentFadeStart | front-native/components/categoryComponets/TimeReportComponent.tsx:115-130 | the current fade start is in [0.7, 0.92] |
| TimeReport.TimeScreen.Continue | front-native/components/categoryComponets/TimeReportComponent.tsx:101-106 | the form takes the continue patch of the selected time |
| EvidenceReport.PrimaryLabel | front-native/components/categoryComponets/EvidenceReportComponet.tsx:103-111 | the non-empty file name, else "photo selected" with an asset, else the placeholder |
| EvidenceReport.SecondaryLabel | front-native/components/categoryComponets/EvidenceReportComponet.tsx:113-118 | one hint with an asset, another without |
| EvidenceReport.SecondaryLabelIgnoresAsset | front-native/components/categoryComponets/EvidenceReportComponet.tsx:113-118 | the secondary label depends only on whether an asset is selected |
| EvidenceReport.EvidenceFadeStart | front-native/components/categoryComponets/EvidenceReportComponet.tsx:120-139 | in [0.7, 0.92]; 0.7 unless overflowing with height above 56+24+12+300 |
| EvidenceReport.EvidenceFadesNoLater | front-native/components/categoryComponets/EvidenceReportComponet.tsx:128 | for the same layout the evidence fade starts no later than the time step's |
| EvidenceReport.ContinueRecordsEvidence | front-native/components/categoryComponets/EvidenceReportComponet.tsx:96-101 | continuing stores the asset or null as `evidence`, keeps other keys and changes nothing but `data` |
| EvidenceReport.EvidenceScreen.PickImage | front-native/components/categoryComponets/EvidenceReportComponet.tsx:62-94 | denied: the warning and the asset kept; cancelled or empty: nothing; otherwise the first asset; any throw: the pick error; never picking afterwards |
| EvidenceReport.EvidenceScreen.ScrollViewLayout | front-native/components/categoryComponets/EvidenceReportComponet.tsx:54-56 | records the view height only |
| EvidenceReport.EvidenceScreen.ContentSizeChange | front-native/components/categoryComponets/EvidenceReportComponet.tsx:58-60 | records the content height only |
| EvidenceReport.EvidenceScreen.Continue | front-native/components/categoryComponets/EvidenceReportComponet.tsx:96-101 | the form takes the evidence patch |
| LocationReport.ReplaceFirst | front-native/components/categoryComponets/LocationReportComponet.native.tsx:104-105 | `replace(',', '.')` changes only the first comma |
| LocationReport.ReplaceFirstDecimalComma | front-native/components/categoryComponets/LocationReportComponet.native.tsx:104-105 | "52,5" reads as "52.5", and in "1,2,3" only the first comma changes |
| LocationReport.CoordinateFromInput | front-native/components/categoryComponets/LocationReportComponet.native.tsx:102-115 | a point iff both texts parse as finite numbers after the comma fix, with those numbers |
| LocationReport.NearbyRecordsMode | front-native/components/categoryComponets/LocationReportComponet.native.tsx:79-88 | "nearby" and null coordinates are recorded; other keys and fields are kept |
| LocationReport.ManualRecordsCoordinate | front-native/components/categoryComponets/LocationReportComponet.native.tsx:147-154 | "manual" and exactly the chosen point are recorded; other keys and fields are kept |
| LocationReport.LocationScreen.IsConfirmDisabled | front-native/components/categoryComponets/LocationReportComponet.native.tsx:174 | disabled iff no point is selected |
| LocationReport.LocationScreen.NearbySelect | front-native/components/categoryComponets/LocationReportComponet.native.tsx:79-88 | the form takes the nearby patch of its current state |
| LocationReport.LocationScreen.ManualToggle | front-native/components/categoryComponets/LocationReportComponet.native.tsx:90-92 | manual mode on, nothing else |
| LocationReport.LocationScreen.MapPress | front-native/components/categoryComponets/LocationReportComponet.native.tsx:94-100 | the pressed point is selected, nothing else |
| LocationReport.LocationScreen.UpdateCoordinateFromInput | front-native/components/categoryComponets/LocationReportComponet.native.tsx:102-115 | a valid pair selects the point and clears the error; otherwise the point is cleared and the error kept |
| LocationReport.LocationScreen.LatitudeChange | front-native/components/categoryComponets/LocationReportComponet.native.tsx:117-125 | keeps the text, and re-derives the point only without a map |
| LocationReport.LocationScreen.LongitudeChange | front-native/components/categoryComponets/LocationReportComponet.native.tsx:127-135 | keeps the text, and re-derives the point only without a map |
| LocationReport.LocationScreen.ManualConfirm | front-native/components/categoryComponets/LocationReportComponet.native.tsx:137-155 | without a point nothing is written and the error is set only without a map; with one the form records it |
| LocationReport.LocationScreen.ManualCancel | front-native/components/categoryComponets/LocationReportComponet.native.tsx:157-163 | resets the mode, the point, both inputs and the error |
| Summary.CoordinateText | front-native/app/report/summary.tsx:159-169 | two formatted numbers for an object with numeric latitude and longitude; "Brak" for a non-object and for an object whose latitude or longitude is missing or not a number (the `toFixed` call throws and the catch shows "Brak") |
| Summary.SummaryItemOf | front-native/app/report/summary.tsx:135-172 | per key: time → "Czas", evidence → "Dodano zdjecie"/"Brak", mode → "Wybrana recznie"/"Obok mnie", falsy coordinates → "Brak", other keys → the JSON text |
| Summary.MakeSummaryItems | front-native/app/report/summary.tsx:133-176 | the default items when there is no entry, else one item per entry in entry order |
| Summary.TimeLineShowsLabel | front-native/app/report/summary.tsx:138-143 | a stored time shows its option's label; any other value shows "Now" |
| Summary.SummaryShowsChosenTime | front-native/app/report/summary.tsx:133-176 | after the time step the summary has a line with the chosen option's label |
| Summary.CoordinateLines | front-native/app/report/summary.tsx:150-169 | a manual point shows its two numbers, "manual" and "nearby" show their labels, and null coordinates show "Brak" |
| Summary.PayloadType | front-native/app/report/summary.tsx:259-266 | Ludzie uzbrojeni → red, Drony → orange, Other → gray, anything else → yellow |
| Summary.BuildPayload | front-native/app/report/summary.tsx:249-272 | the type of the category; `evidence` is the converted image or null; other data keys are kept; `geo_point` is the stored coordinates |
| Summary.PayloadCarriesPoint | front-native/app/report/summary.tsx:271 | a point confirmed on the location step is the payload's geo point |
| Summary.Settled | front-native/app/report/summary.tsx:291-298 | success iff the response is ok, otherwise error |
| Summary.SummaryScreen.BeginSubmit | front-native/app/report/summary.tsx:240-282 | ignored while loading; otherwise the overlay shows, the state is loading, and the payload is sent |
| Summary.SummaryScreen.FinishSubmit | front-native/app/report/summary.tsx:291-298 | the state settles by the outcome |
| AssetRewriter.IndexOf | front-native/scripts/fix-exported-assets.js:26 | the left-most occurrence of the pattern, or none iff there is none |
| AssetRewriter.ContainsIffIndexOf | front-native/scripts/fix-exported-assets.js:26 | `includes` holds iff an occurrence is found |
| AssetRewriter.SplitJoinRoundTrip | front-native/scripts/fix-exported-assets.js:29 | joining the split pieces with the same separator gives the text back |
| AssetRewriter.SplitPiecesFree | front-native/scripts/fix-exported-assets.js:29 | no piece of the split contains the separator |
| AssetRewriter.SplitOfAbsent | front-native/scripts/fix-exported-assets.js:26-29 | the split has more than one piece iff the separator occurs; without it, the split is the whole text |
| AssetRewriter.JoinLength | front-native/scripts/fix-exported-assets.js:29 | the joined length is the sum of the pieces plus one separator between each |
| AssetRewriter.RewriteEffect | front-native/scripts/fix-exported-assets.js:24-31 | without the snippet the text is unchanged with 0 replacements; with it there is at least one; each replacement shortens the text by 6 |
| AssetRewriter.ExtName | front-native/scripts/fix-exported-assets.js:50 | `path.extname`: either "" or a text that starts with a dot and has no other dot |
| AssetRewriter.ExtNameOfFile | front-native/scripts/fix-exported-assets.js:50-51 | a file `name + ext` has extension `ext`, and it is rewritten iff `ext` is one of the five listed |
| AssetRewriter.NoExtension | front-native/scripts/fix-exported-assets.js:50-51 | a base name without a dot has no extension and is skipped |
| AssetRewriter.UpdatedFiles | front-native/scripts/fix-exported-assets.js:48-57 | a file is listed iff it was walked, has one of the listed extensions and its content has the snippet; no more files are listed than were walked |
| AssetRewriter.ExportTree.ReplaceInFile | front-native/scripts/fix-exported-assets.js:24-32 | returns whether the snippet occurred; the file becomes its rewrite, and the tree is unchanged when the snippet is absent |
| AssetRewriter.ExportTree.FixReferences | front-native/scripts/fix-exported-assets.js:34-62 | no source directory: nothing changes and nothing is listed; otherwise the listed files are `UpdatedFiles`, no file appears or disappears, and each walked file with a listed extension holds its rewrite while every other file keeps its content |

## Left out

- The EPSG:3857 projection, `Math.hypot`, `Math.atan2` and IEEE rounding: their behaviour comes from `WarMath.Crs` and the laws the lemmas require. The geometry is exact real arithmetic, and no floating-point result is claimed.
- WarMath.ComputeVertexOffsets: the contract does not state that each non-zero offset has length `halfWidth`, and `WarMath.DepthMovesAlongNormal` does not state that the depth moves the point by `|depth|` metres. Both would need the Pythagorean law of `hypot`, which the model does not assume.
- React rendering, styles, animations, masks, gradients, the web mask style, the `Platform` switch and `requestAnimationFrame` are not modelled.
- React state updaters run eagerly at the call, so React's batching of updaters is not modelled. In `handleLaunchOffensive` the updaters read the fronts they themselves update; the model follows the call order of the source.
- The tick's timers (`setInterval` at `3200 / speed`, the game clock) are not modelled. The formatted game time is a parameter (`time`) of the handlers.
- WarRoom.OrderRules: a support order on an assignment without a depth gives `NaN` in JavaScript (`undefined - 800`). The model keeps the depth absent instead.
- Milestone keys `${id}-${threshold}` are modelled as (id, threshold) pairs. The string encoding is not modelled.
- The recursive directory `walk`, the rename of `assets/node_modules` to `assets/vendor`, the log lines and the exit code in `fix-exported-assets.js` are file-system I/O. `FixReferences` receives the walked files, already relative to the export directory, and a flag saying whether the source directory exists.
- The `fetch` submission, its 12 s time-out race and `convertFileToBase64` (FileReader, expo-file-system) are not modelled. Their outcomes are parameters (`SubmitOutcome`, `converted`). The redirect timer and the status overlay texts are left out.
- JWT encoding and decoding (including the `require` option and expiry checking), HMAC-SHA256 and `phonenumbers` parsing and formatting are foreign libraries. They are the fields of `Identity.Libraries`.
- `AuthDependencies.IsBearer` compares the scheme after ASCII lower-casing. Python lower-cases all of Unicode, but no other character lower-cases to a letter of "bearer", so the accepted schemes are the same.
- Firestore's client, server timestamps and generated ids: the server time and the new id are parameters of `ReportStore.Create`. Each `set` is followed by a `get`. The RuntimeError raised when the document is missing after the write cannot occur in a map model, because the write always leaves the document there.
- `ReportRepository.get` is declared only in back/app/repositories/protocols.py, with the body `...`. `FirebaseReportRepository` does not define it, so the inherited call returns None and `set_status` answers "not found" for every report. `ReportStore.Get` follows the protocol's description instead. The moderation service takes the result of that `get` as the parameter `fetched`, so both the stub's None and a real lookup are covered.
- Firestore.PyInt: non-ASCII Unicode decimal digits, which Python's `int` also accepts, are not modelled. Neither is the limit of 4300 digits on `int` of a string. A float is a real number here, so the ValueError and OverflowError that `int()` raises on a NaN or infinite stored float are not modelled.
- Schemas.MakeGeoPoint: pydantic checks both coordinates and raises one ValidationError that lists every failing field. The model reports only the first failing field, latitude before longitude.
- FormContext.AssignKeys: JavaScript lists integer-like keys first, in ascending order, in spreads and `Object.entries`, and a patch key that is present but `undefined` still overrides the old value. Neither is modelled; the form's keys are never integer-like and its patches never carry `undefined`.
- Firestore.ValueAtMost: arrays are taken as equal among themselves, and so are maps. Firestore orders them element by element and key by key. NaN, bytes and references do not occur among the modelled values.
- ReportsRepository.InsertDescending: documents whose `created_at` values are equal keep the order in which they are inserted. Firestore breaks such ties by document id. The listing's contract therefore says nothing about the order among equal values.
- `datetime.utcnow()` and `datetime.now()` are the parameter `now`. Instants are integers in microseconds.
- Routes, settings, the Firebase client set-up, `main.py`, `dependencies/services.py`, `deps/auth.py`, the static screens and the web variant of the location step (DOM and Leaflet loading) are not part of this model. Neither are the references these files make to members that do not exist (`get_users_map`, `ReportService`, `useRootContext`). The same goes for the settings that back/app/services/identity.py reads (lines 46, 57, 62, 69 and 92-93) but back/app/core/config.py:13-27 does not declare: `phone_default_region`, `phone_hash_secret`, `jwt_expires_days`, `jwt_secret_key` and `jwt_algorithm`. In the model they are the fields of `Identity.Settings`.
