# Follow toggle and search filtering of the finds backend, in Dafny

This project models two services of a NestJS backend. In it, users post
"finds" (reviews of places), follow each other, and search for places and
profiles.

- **Users service** (`users.dfy`, `follow.dfy`). The user table and the
  follower table sit in one store object, `Users.UserStore`:
  - `users` is a map from user id to row.
  - `edges` is a sequence of follow edges.
  
  Each edge is keyed by (followerId, followingId). Its nullable `deletedAt`
  is a soft-delete mark. `FollowUser` is the three-branch toggle:
  - no edge: create one;
  - marked edge: clear the mark;
  - active edge: set the mark to `now`.
  
  The pure function `Follow.Toggle` specifies it. The lemmas beside it prove:
  - the table keeps one edge per pair;
  - nothing is removed;
  - other pairs are untouched;
  - every call flips the pair's status, so two calls restore it and n calls
    alternate it.
  
  The store's other operations are `GetUser`, `Create`, `UpdateUsername`,
  `UpdateFirstname`, `UpdateUserAvatar` and the counts of `GetProfile`. They
  keep email and username unique. An edge only ever joins existing users.
- **Search service** (`search.dfy`). Its functions are pure:
  - `SearchGooglePlaces` keeps the provider's places that are typed bar,
    restaurant or food, in provider order;
  - `SearchProfiles` selects users whose username or first name contains
    the query, whose username is set, and who are not soft-deleted;
  - `SearchPlacesAndProfiles` runs the place search first and then the
    profile search.
  
  Both provider calls check the API key before any request.
- `common.dfy` holds `Option`, `Result`, the error kinds, an opaque `Time`,
  and the order-keeping `Filter` with its lemmas. The lemmas cover
  subsequence, element counts and idempotence.

Inputs that the services read from outside become parameters:
- the current time (`now`);
- the identifier the store generates for a new user (`newId`);
- the configured key (`Config`);
- the provider's reply (`Reply`);
- the user table, for the profile search (a sequence).

## Model

| member | source | states |
|---|---|---|
| `Follow.FindEdge` | src/public/users/users.service.ts:57-62 | `findFirst` on the pair: the result is the first edge for (followerId, followingId), or None exactly when no edge has that pair |
| `Follow.FollowStatus` | src/public/users/users.service.ts:17-34 | true only if an unmarked edge exists for the pair, and true whenever one does while the table has one edge per pair; a missing edge gives false, never an error |
| `Follow.Flip` | src/public/users/users.service.ts:64-101 | a marked edge is unmarked, an unmarked edge is marked with the current time, and no other column changes |
| `Follow.Toggle` | src/public/users/users.service.ts:57-118 | the table after a successful follow: one more edge exactly when the pair had none, every edge of another pair unchanged, and no edge removed or changed in any column but `deletedAt` |
| `Follow.ToggleLocatesEdge` | src/public/users/users.service.ts:102-108 | after the toggle the pair's edge is found where it was, or appended at the end when it was created |
| `Follow.ToggleKeepsInvariant` | src/public/users/users.service.ts:57-64 | the toggle keeps at most one edge per (follower, following) pair and keeps ids by position |
| `Follow.ToggleFlipsStatus` | src/public/users/users.service.ts:64-108 | each successful follow flips the pair's status: no edge or a marked edge becomes following, an active edge becomes not following |
| `Follow.ToggleKeepsOtherStatus` | src/public/users/users.service.ts:66-73 | a follow on one pair leaves the status of every other pair unchanged |
| `Follow.ToggleTwiceRestoresStatus` | src/public/users/users.service.ts:64-118 | two consecutive successful follows on a pair restore its status |
| `Follow.UnfollowRefollowRestoresTable` | src/public/users/users.service.ts:84-91 | unfollowing an active pair and following it again restores the table exactly |
| `Follow.ToggleRepeatedlyAlternates` | src/public/users/users.service.ts:36-118 | after n successful follows the status is the original one for even n and flipped for odd n |
| `Follow.ToggleLeavesOneEdge` | src/public/users/users.service.ts:103-108 | after a successful follow the pair has exactly one edge |
| `Follow.UnfollowKeepsProfileCounts` | src/public/users/users.service.ts:179-204 | as written, unfollowing leaves both the follower count of the followed user and the following count of the follower unchanged |
| `Follow.UnfollowedEdgeStillCounted` | src/public/users/users.service.ts:203-204 | concrete case: after a follow and an unfollow, the profile shows one follower although nobody follows |
| `Follow.FollowerCount` | src/public/users/users.service.ts:179-203 | as written: counts every edge into the user, marked or not, so it is positive exactly when any edge, even a soft-deleted one, points at the user |
| `Follow.FollowingCount` | src/public/users/users.service.ts:179-204 | as written: counts every edge out of the user, marked or not, so it is positive exactly when any edge, even a soft-deleted one, leaves the user |
| `Follow.ActiveFollowerCount` | src/public/users/users.service.ts:203 | corrected: never exceeds the count as written, and is positive exactly when an unmarked edge points at the user |
| `Follow.ActiveFollowingCount` | src/public/users/users.service.ts:204 | corrected: never exceeds the count as written, and is positive exactly when an unmarked edge leaves the user |
| `Follow.ToggleShiftsActiveCounts` | src/public/users/users.service.ts:174-204 | with the corrected counts, each successful follow moves the followed user's follower count and the follower's following count by exactly one: down on unfollow, up on follow or refollow |
| `Users.MatchesUsernamePattern` | src/public/users/users.service.ts:242 | the regex `^[a-zA-Z0-9_.-]*$` matches exactly the strings whose every character is a letter, digit, `_`, `.` or `-` |
| `Users.Utf16Length` | src/public/users/users.service.ts:234-238 | JavaScript's `length`: between one and two units per character, and equal to the character count exactly when no character lies beyond the Basic Multilingual Plane |
| `Users.CheckUsername` | src/public/users/users.service.ts:233-246 | a username passes exactly when its JavaScript length is 3 to 15 and every character is from the allowed class, so a passing name has 3 to 15 characters; otherwise a Conflict whose message is the first failing rule in order: too short, too long, bad characters |
| `Users.AstralCharacterNotTooShort` | src/public/users/users.service.ts:234-246 | a letter and an emoji are two characters but three code units: the name is refused for its characters, not as too short |
| `Users.AstralCharacterTooLong` | src/public/users/users.service.ts:238-246 | fourteen allowed characters and an emoji are fifteen characters but sixteen code units: the name is refused as too long |
| `Users.UserStore.GetFollowStatus` | src/public/users/users.service.ts:17-34 | in a valid store: true iff an edge with that follower and followed user exists and is unmarked |
| `Users.UserStore.FollowUser` | src/public/users/users.service.ts:36-118 | NotFound 'User not found' for an unknown followed user, checked first; then NotFound 'Follower not found'; failures change nothing; success applies `Toggle`, flips the status, keeps the store valid, and returns the written edge's six columns |
| `Users.UserStore.GetUser` | src/public/users/users.service.ts:121-143 | an empty id is refused with NotFound before any lookup; otherwise success iff the user exists, returning its email, names, id and avatar |
| `Users.UserStore.Create` | src/public/users/users.service.ts:153-172 | Conflict 'User already exists' iff some user has the email, with the table unchanged; otherwise exactly one new user with that email and every optional column null; emails stay unique |
| `Users.UserStore.UpdateUsername` | src/public/users/users.service.ts:233-274 | rejects in order: too short, too long (both by JavaScript length), bad characters, already held by any user (each a Conflict, no change); then updates only that user's username to the argument; usernames stay unique |
| `Users.UserStore.UpdateFirstname` | src/public/users/users.service.ts:276-293 | sets only that user's first name; an unknown id is a store failure with no change |
| `Users.UserStore.UpdateUserAvatar` | src/public/users/users.service.ts:295-311 | sets only that user's avatar and returns its profile; an unknown id is a store failure with no change |
| `Users.UserStore.GetProfile` | src/public/users/users.service.ts:174-204 | None for an unknown user; otherwise the user's profile columns with the follower and following counts as written (soft-deleted edges included), each at least the corrected count, and a positive follower count whenever someone follows the user |
| `Search.ApiKey` | src/public/search/search.service.ts:77-81 | succeeds iff the key is configured and non-empty; an empty key fails with ConfigurationError 'Missing Google API Key' |
| `Search.SearchGooglePlaces` | src/public/search/search.service.ts:76-139 | the key guard first, then provider failures and a reply without `places` rethrown; on success every returned place is from the reply and has an acceptable type, and every acceptable place in the reply is returned |
| `Search.SearchGooglePlacesKeepsOrder` | src/public/search/search.service.ts:122-135 | the returned places are a subsequence of the reply; each acceptable place occurs as often as in the reply, and every other place occurs zero times |
| `Search.UnacceptablePlaceNeverReturned` | src/public/search/search.service.ts:90-124 | a place typed with none of bar, restaurant or food (for example only "museum") never appears in the result |
| `Search.PlaceFilterIdempotent` | src/public/search/search.service.ts:122-124 | filtering the filtered places again changes nothing |
| `Search.MissingKeySkipsProvider` | src/public/search/search.service.ts:15-20 | with an absent or empty key both provider calls fail with a configuration error that does not depend on any provider reply |
| `Search.GetGooglePlaceById` | src/public/search/search.service.ts:15-43 | the key guard, a failed request rethrown, otherwise the provider's place with all five fields copied |
| `Search.SearchProfiles` | src/public/search/search.service.ts:45-74 | every returned profile is the profile of a matching user, and every matching user's profile is returned; a user matches iff the query is a substring of the username or first name, the username is set, and `deletedAt` is null |
| `Search.SearchProfilesKeepsOrder` | src/public/search/search.service.ts:46-73 | the profiles are a subsequence of the whole table's profiles, so table order is kept; there is one per matching row, each matching user taken as often as stored and no other user |
| `Search.SearchPlacesAndProfiles` | src/public/search/search.service.ts:141-149 | fails iff the place search fails, with its error; otherwise `places` is the place search and `profiles` the profile search for the same query |
| `Search.PlacesFailureShortCircuits` | src/public/search/search.service.ts:141-143 | when the place search fails, the combined answer does not depend on the user table, so the profile search has no effect |

## Findings

| source | as written | input that shows it | evidently intended | confidence | as-written member | corrected member |
|---|---|---|---|---|---|---|
| src/public/users/users.service.ts:179-204 | `followers` and `following` on the profile are the lengths of the relations with no `deleted_at` filter, so soft-deleted (unfollowed) edges still count | ann follows bob, then ann unfollows bob: bob's follow status from ann is false but his profile shows 1 follower | count only unmarked edges, matching getFollowStatus's notion of following | medium, not executed; the schema's relation definitions are not part of this model | `Follow.UnfollowKeepsProfileCounts` | `Follow.ToggleShiftsActiveCounts` |

`Users.UserStore.GetProfile` returns the counts as the code computes them
(`Follow.FollowerCount`, `Follow.FollowingCount`). The corrected counts are
`Follow.ActiveFollowerCount` and `Follow.ActiveFollowingCount`.

## Sequencing and key errors

- `searchPlacesAndProfiles` awaits the place search before it starts the
  profile search, and a failing place search ends the call.
- An absent key fails inside `getOrThrow` with its own message, so only an
  empty key reaches 'Missing Google API Key'. Both are configuration errors
  here, with different messages.

## Left out

- The HTTP requests to the places provider: URLs, headers, the field mask,
  JSON parsing. Their outcome is the `Reply` parameter. A failed request
  or unparsable body is `Failed`, and `new Error(error)` becomes a
  `ProviderFailure` carrying the reason.
- The bounding box and `maxResultCount: 15`. Both are only sent to the
  provider and never enforced on this side.
- A provider place without a `types` field. The code would throw a
  TypeError. Here `types` is always a sequence.
- The provider's `displayName` object. It is an opaque string here.
- A non-2xx reply to the by-id request whose body lacks the place fields.
  The code returns a DTO of undefined fields. Here such a reply is either
  `Answered` with a place or `Failed`.
- Case sensitivity of Prisma's `contains`. Substring matching is exact
  sequence containment.
- The order of `findMany`. The user table is a sequence, and its order is
  the order of the results.
- Real timestamps. `Time` is opaque, and the current time is the `now`
  parameter. Only the columns the code writes change, so an automatic
  `updated_at` stamp is not modelled.
- Store-generated identifiers. An edge's id is its position in the table.
  A new user's id is the `newId` argument, which the store guarantees
  fresh.
- Users.UserStore.Create: requires `newId` to be fresh. This is the store's
  id generator, not a check the service makes.
- Storage failures other than an update whose id matches no row. An update
  of an unknown user id is a `StorageFailure`. Connection errors and other
  store errors are not modelled.
- The race between concurrent follow calls on one pair. Each method runs
  atomically in the model.
- The finds list of `getProfileAndFinds` and its nested mapping. Only the
  profile columns and the two counts are modelled.
- `findOneWithEmail`, a bare lookup with nothing to verify.
- The controllers, the finds service and the DTO validation annotations,
  which are routing and field copying. The follow route passes the route id
  as the followed user and the caller as the follower. That is the
  argument order of `FollowUser` and `GetFollowStatus`.
