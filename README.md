# Clipora backend core, modelled in Dafny

Clipora's backend takes an uploaded video and stores an *analysis* of it: three
to five *key moments*, each a time range with a summary, a suggested hook, a
viral score and exactly three caption variants. This project models three
stateable parts of that backend and proves their properties:

- **The analysis artifact** (`analysis.dfy`, module `AnalysisModel`). The
  datatypes `CaptionType`, `Caption`, `KeyMoment` and `Analysis`. The rules the
  Mongoose schema declares for them are written as data (`NumberRule`,
  `StringRule` constants holding the schema's `min`, `max`, `required` and
  `maxlength` options), and one generic validator reads those rules the way
  Mongoose does. The module also has:
  - the `duration` virtual;
  - `getTopMoments`: an in-place insertion sort on the document's array,
    proved equal to a stable sort by descending score, then a `slice`;
  - the `analyses` collection, a map keyed by `videoId` whose insert fails on
    an existing key.
- **The Redis reconnect policy** (`redis.dfy`, module `RedisConfig`):
  `retryStrategy(times) = min(times * 50, 2000)`.
- **The bearer-token middlewares** (`auth.dfy`, module `AuthMiddleware`):
  `authenticate` and `optionalAuth`. Each is a total decision function over
  the `Authorization` header, the JWT secret, what `jwt.verify` did and what
  `User.findById` did. A collaborator's outcome is a `Step`: it returned a
  value, or it threw an error with a given `name`. Two handler methods then
  apply the decision to a request object: they send one response or call
  `next`, and set `req.user` / `req.userId` when a user is found.

`common.dfy` (module `Common`) holds `Option`, `ObjectId`, `StartsWith` and
`Utf16Length`. `Utf16Length` is JavaScript's `length`, which counts UTF-16
code units, so a character outside the Basic Multilingual Plane counts twice.

Modelling choices:

- Required strings must be non-empty. Mongoose's `required` validator treats
  `""` as missing.
- Times, scores and durations are `real`. Fractional viral scores in [1, 10]
  are accepted.
- Caption types are not checked for distinctness, only the caption count.
- Validity is a predicate over the whole document, not an ordered check that
  reports the first violation.
- Saving runs validation first, then the insert. A second analysis for a video
  that already has one is refused with a duplicate-key error; it is not
  absorbed as a success.
- JavaScript's `Array.prototype.sort` is stable, so the order `getTopMoments`
  leaves is unique: `SortByScore`.

## Model

| member | source | states |
|---|---|---|
| `Common.Utf16Length` | backend/src/models/analysis.ts:55-59 | The `length` that `maxlength` compares is at least the character count and at most twice it, and equals it exactly when no character is astral |
| `AnalysisModel.ParseCaptionType` | backend/src/models/analysis.ts:50-54 | The `enum` check on a caption type accepts a string exactly when it is the stored form of one of the three variants, and returns that variant |
| `AnalysisModel.ParseCaptionTypeRoundTrip` | backend/src/models/analysis.ts:6-10 | Parsing the stored value of a variant, `hook`, `value` or `emotion`, gives that variant back |
| `AnalysisModel.ValidCaptionMeaning` | backend/src/models/analysis.ts:48-62 | A caption is valid iff its text is non-empty and at most 150 code units long |
| `AnalysisModel.ValidKeyMomentMeaning` | backend/src/models/analysis.ts:67-113 | A key moment is valid iff all of these hold: `0 <= startTime < endTime` (so the `min: 0` on `endTime` is implied); summary 1..500 and hook 1..200 code units; `1 <= viralScore <= 10`; exactly 3 captions, each valid |
| `AnalysisModel.ValidAnalysisMeaning` | backend/src/models/analysis.ts:133-150 | An analysis is valid iff all of these hold: 3 to 5 key moments; every moment valid; `overallSummary` absent or at most 1000 code units; `totalDuration` absent or at least 0 |
| `AnalysisModel.UnorderedTimesRejected` | backend/src/models/analysis.ts:74-84 | A moment whose start is not strictly before its end is rejected, whatever its other fields hold |
| `AnalysisModel.ViralScoreBounds` | backend/src/models/analysis.ts:95-100 | Changing only the score of a valid moment keeps it valid iff the new score is in [1, 10], both ends inclusive |
| `AnalysisModel.CaptionCountExact` | backend/src/models/analysis.ts:101-110 | Replacing a valid moment's captions by valid captions keeps it valid iff there are exactly 3 |
| `AnalysisModel.ThreeHookCaptionsAccepted` | backend/src/models/analysis.ts:104-107 | Three captions that are all of type hook are accepted: type distinctness is not checked |
| `AnalysisModel.StringCeiling` | backend/src/models/analysis.ts:58 | A `maxlength` ceiling is inclusive: a string exactly at it passes, and the same string with one more character fails |
| `AnalysisModel.SummaryCeiling` | backend/src/models/analysis.ts:85-89 | A valid moment whose summary is exactly 500 code units long becomes invalid when one more character is appended |
| `AnalysisModel.SuggestedHookCeiling` | backend/src/models/analysis.ts:90-94 | A valid moment whose hook is exactly 200 code units long becomes invalid when one more character is appended |
| `AnalysisModel.CaptionTextCeiling` | backend/src/models/analysis.ts:55-59 | A valid caption whose text is exactly 150 code units long becomes invalid when one more character is appended |
| `AnalysisModel.Duration` | backend/src/models/analysis.ts:165-167 | The duration is positive exactly when the end-after-start validator passes; for every valid moment it lies in (0, endTime] |
| `AnalysisModel.SortByScorePermutation` | backend/src/models/analysis.ts:173-174 | The sort by score is a permutation: same multiset of moments, same length |
| `AnalysisModel.SortByScoreSorted` | backend/src/models/analysis.ts:173-174 | After the sort, viral scores are non-increasing |
| `AnalysisModel.SortByScoreStable` | backend/src/models/analysis.ts:173-174 | The sort is stable: for every score, the moments with that score keep their original relative order |
| `AnalysisModel.SortPreservesValidity` | backend/src/models/analysis.ts:133-142 | Reordering the key moments by score keeps a valid analysis valid |
| `AnalysisModel.SliceEnd` | backend/src/models/analysis.ts:175 | The end index of `slice(0, limit)` is `min(limit, n)` for `limit >= 0`; a negative limit counts back from the end, clamped at 0 |
| `AnalysisModel.TopMoments` | backend/src/models/analysis.ts:172-176 | The top moments number as many as the slice keeps (`min(limit, n)` for `limit >= 0`, default 3). They are sorted by descending score and drawn from the input as a sub-multiset. Each scores at least as high as every moment left out |
| `AnalysisModel.SortByScoreInPlace` | backend/src/models/analysis.ts:173-174 | The in-place insertion sort leaves the array holding exactly the stable descending-score order of its old contents |
| `AnalysisModel.AnalysisDocument.constructor` | backend/src/models/analysis.ts:35-43 | A document built from an analysis holds that analysis, in a fresh array of key moments |
| `AnalysisModel.AnalysisDocument.GetTopMoments` | backend/src/models/analysis.ts:172-176 | Reorders the document's own `keyMoments` in place into the sorted order, a permutation with non-increasing scores. Returns `TopMoments` of the old moments, which is a prefix of the reordered array. A valid document stays valid |
| `AnalysisModel.Save` | backend/src/models/analysis.ts:120-126 | A save succeeds iff the analysis is valid and its video has no analysis yet. It then adds exactly that entry and keeps the others. An invalid analysis fails validation, including one for an existing video. The store invariant is preserved |
| `AnalysisModel.AtMostOnePerVideo` | backend/src/models/analysis.ts:124 | Under the store invariant, at most one stored analysis names any given video. This follows from keying the map by `videoId`; `Save` is what establishes and keeps the invariant |
| `AnalysisModel.SecondSaveRefused` | backend/src/models/analysis.ts:120-126 | After a successful save, any further save for the same video is refused, as a duplicate key when that analysis is valid |
| `AnalysisModel.FourMomentScenario` | backend/src/models/analysis.ts:118-176 | Four moments scored 8, 6, 9 and 5 form a valid analysis. Its first save succeeds and a second save for the same video is a duplicate. Its top three are the moments scored 9, 8 and 6 |
| `AnalysisModel.AnalysisCollection.Create` | backend/src/models/analysis.ts:120-126 | `Analysis.create` stores exactly what `Save` yields, or reports Save's error and leaves the collection unchanged; the collection invariant is kept |
| `RedisConfig.RetryStrategy` | backend/src/config/redis.ts:15-18 | The delay is at most 2000 and at most `times * 50`, equal to one of the two, so exactly `min(times * 50, 2000)`, and non-negative for non-negative `times`; it is always a number, so the client always retries |
| `RedisConfig.RetryStrategyMonotone` | backend/src/config/redis.ts:16 | The delay never decreases as `times` grows |
| `RedisConfig.RetryStrategyLinear` | backend/src/config/redis.ts:16 | For `0 <= times <= 40` the delay is exactly `50 * times` |
| `RedisConfig.RetryStrategyCapped` | backend/src/config/redis.ts:16 | For `times >= 40` the delay is exactly 2000 |
| `AuthMiddleware.BearerToken` | backend/src/middleware/auth.middleware.ts:34-43 | A token exists iff the header is present and starts with "Bearer " exactly; the header is then "Bearer " followed by the token |
| `AuthMiddleware.ErrorResponse` | backend/src/middleware/auth.middleware.ts:77-100 | Errors are classified by name. `JsonWebTokenError` gives 401 "Invalid token". `TokenExpiredError` gives 401 "Token has expired". Every other name gives 500 "Authentication failed". No response reports success |
| `AuthMiddleware.Authenticate` | backend/src/middleware/auth.middleware.ts:25-102 | The request is admitted iff all of these hold: a non-empty bearer token; the secret is present; verification returned; the lookup returned a user. It is then admitted with that user. Otherwise it is refused with status 401 or 500 |
| `AuthMiddleware.OptionalAuth` | backend/src/middleware/auth.middleware.ts:108-140 | A user is attached iff all of these hold: a non-empty bearer token; the secret is present; verification returned; the lookup returned a user. The user attached is the one found |
| `AuthMiddleware.MissingBearerRejected` | backend/src/middleware/auth.middleware.ts:34-40 | A missing header, or one not starting with "Bearer ", is refused with 401 "Authentication required" |
| `AuthMiddleware.LowerCaseBearerRejected` | backend/src/middleware/auth.middleware.ts:34 | The prefix test is case-sensitive: "bearer abc" is refused with 401 "Authentication required" |
| `AuthMiddleware.BareBearerRejected` | backend/src/middleware/auth.middleware.ts:43-51 | The header "Bearer " yields the empty token and is refused with 401 "token is missing" |
| `AuthMiddleware.UserNotFoundRejected` | backend/src/middleware/auth.middleware.ts:64-70 | A verified token whose lookup finds no user is refused with 401 "User not found" |
| `AuthMiddleware.VerifyErrorClassified` | backend/src/middleware/auth.middleware.ts:77-100 | A verification error is answered by its name: 401 for `JsonWebTokenError` and `TokenExpiredError`, 500 for anything else |
| `AuthMiddleware.LookupErrorClassified` | backend/src/middleware/auth.middleware.ts:62-100 | An error thrown by the user lookup is answered by its name like a verification error: 500 "Authentication failed" for anything but the two JWT error names |
| `AuthMiddleware.MissingSecretIsServerError` | backend/src/middleware/auth.middleware.ts:54-57 | With a non-empty token but no secret, the thrown plain `Error` gives 500 "Authentication failed" |
| `AuthMiddleware.OptionalAuthAgrees` | backend/src/middleware/auth.middleware.ts:116-133 | `optionalAuth` attaches user `u` iff `authenticate` would admit the request with `u` |
| `AuthMiddleware.HandleAuthenticate` | backend/src/middleware/auth.middleware.ts:25-102 | Exactly one effect happens: the decision's error response, or `next`. When `next` is called, `req.user` is the found user and `req.userId` its id string. When a response is sent, both fields are unchanged |
| `AuthMiddleware.HandleOptionalAuth` | backend/src/middleware/auth.middleware.ts:108-140 | The only effect is one call to `next`; no response is ever sent. The user fields are set only when `OptionalAuth` finds a user, and are otherwise unchanged |

## Left out

- The asynchronous job queue, workers, leases, job-level retry and
  dead-lettering: none of it exists in these files.
- `backend/src/models/video.ts` (signup, login and profile routes) and
  `backend/src/config/database.ts` (connection setup and process control):
  HTTP and database plumbing around library calls.
- In `backend/src/config/redis.ts`: `createRedisConnection`,
  `testRedisConnection`, the event handlers and the environment reads. These
  are network client and environment plumbing.
- JWT signing and verification, and the user lookup. These are calls into other
  code, so their outcomes (`Step` values) are inputs. Which user id the lookup
  is asked for is part of that input.
- Mongoose mechanics. Timestamps, `_id` generation, the `(userId, createdAt)`
  index (query speed only), casting of raw values to numbers, and the order in
  which validation errors are collected are not modelled. A required path
  cannot be absent in these datatypes; the only "missing" value modelled is
  the empty required string.
- Floating point: numbers are reals. So NaN, infinities and rounding in
  `endTime - startTime` are not modelled.
- `AnalysisModel.TopMoments`: does not model a fractional or NaN `limit`,
  which `slice` truncates or treats as 0; `limit` is an integer here.
- `RedisConfig.RetryStrategy`: `times` is an integer, while the function accepts
  any number. The client only ever passes attempt counts.
- `AuthMiddleware.HandleAuthenticate`, `AuthMiddleware.HandleOptionalAuth`: do
  not model a `next` that throws back into the handler's catch block, which
  would send a 500 after `next` in `authenticate` and call `next` a second time
  in `optionalAuth`. Express catches errors raised by later handlers itself.
- Logging (`console.log`, `console.error`).
