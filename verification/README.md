# Verified model of the blog server's stateful protocols

The server keeps four small protocols going over one Redis and one database. This project
states each of them in Dafny, in the form its source has, and proves what it promises.

1. **Idempotency keys.** A protected write request reads its key, takes a lock by SET NX EX,
   runs its handler and stores the outcome for a day. `Interceptor` and `Idempotency` hold
   the classes and the step functions; `SharedSystem` is the whole server as one machine:
   any number of requests at any stage, any interleaving, any command lost before or after
   it reached the store, crashes, time, rate-limit calls and cache traffic on the same
   store. `IdempotencySafety` is its invariant, `IdempotencyGuarantees` what follows with no
   assumption on timing, `MemoRefinement` when it behaves as one atomic memo per key, and
   `LateOutcome` a run in which it does not. `Retries` tells it from the fields of HTTP
   requests. `KeySpelling` is one key in two spellings.
2. **Rate limiting.** `Throttler` is the script over a counter and a block key;
   `ThrottleRuns` counts over whole runs of the same machine.
3. **Cached repositories and refresh tokens.** `Database` holds the tables, the query cache
   and the repositories; `CacheRuns` compares every sequence of whole calls with plain
   tables, and `OwnWrites` says what later calls answer; `CacheOverlaps` takes the calls apart where they wait and interleaves them;
   `Tokens` adds the services that sign, verify and rotate tokens, `Accounts` what users
   are given by them; `TokenSteps` takes them
   apart in the same steps, with any number of refreshes, logins and guards under way;
   `TokenSafety` is the invariant of every such history, `TokenRuns` what follows,
   `TokenCalls` ties the steps to the services' calls, and `StaleSessions` holds the runs
   in which a step does not fit.
4. **Batching, paging and encoding.** `PostLikes`, `Paging`, `Posts`, `PrimaryKeys` and
   `ResponseEncryption`.

`Prelude`, `Json`, `Failures`, `RedisStore` and `Keys` are shared.

Conventions. Time is integer milliseconds and never runs backwards; an entry is live while
`now < expiry`; nothing is evicted early. The application's clock and the store's are one.
Each store command is atomic, each protocol step is one command or one handler run, and an
event that cannot happen leaves the machine as it is, so every sequence of events is a run.
Commands that may fail take the network's or the database's verdict as an argument.

## Main results

* Locks on one key are a lifetime apart in every run, so at most L / TTL + 1 handlers run
  under locks taken in a span of length L, whatever crashes or fails
  (`AtMostOncePerLifetime`). A replay carries the outcome of an earlier run by the same user,
  key, method and path (`ReplaysAreEarned`).
* The same write by the same user under the same key, a day apart or more, runs again; any
  sooner it is told what the first was told (`RetryIsReplayed`). Which requests that holds
  for is said over their own fields (`UnprotectedRequestsBypass`, `MalformedKeysAreRefused`).
* A run refines the atomic memo if and only if every outcome lands before the lock it was
  computed under runs out (`RefinesIffTimely`). The completing write is unconditional, so
  without that condition the memo can be overwritten: `LateOutcomeWins` builds such a run
  for any two outcomes.
* Any k windows admit at most (k + 1) * limit - 1 calls of a tracker (`BurstBound`), and for
  every k some run admits exactly that many (`BurstBoundIsMet`). What a call is told of
  counts and times is true after every run (`AnswersAreHonest`).
* Calls that do not overlap get from the caches exactly what plain tables would say
  (`CacheNeverShows`), so every write is what later calls answer (`UpdatedProfileIsFound`
  and its likes). When they do, over every interleaving of any number of lookups and
  writes taken apart where they wait, the cache is right about a query at every moment if
  and only if the steps on it fit: no commit changes its answer while it has a live entry,
  and no lookup fills in an answer that is no longer the tables' own (`StaysCoherentIff`).
  Where its answers never come back, the second half says that no commit changed the answer
  between the lookup's SELECT and its fill (`StaysCoherentIfTimely`); sessions are such a
  query, since tokens are never signed twice (`SessionFillFitsIffUnchanged`).
* While the steps on a user's session fit, and whatever else overlaps, the refresh token of
  the user that verifies is exactly the unexpired latest one (`OnlyTheLatestVerifies`), a
  superseded one never verifies again (`SupersededIsFinal`), and every check of a guard or a
  refresh passes exactly for the latest (`ChecksPassIffLatest`). Two redemptions of one token
  overlap, or some commit or fill of that session did not fit (`RedemptionsOverlapOrMisfit`);
  so a lock on the token and fitting steps are enough (`TokenLockSuffices`), and with fitting
  steps no token is redeemed twice if and only if no two accepted refreshes of one overlap
  (`RedeemedOnceIffApart`).
* In every history, fitting or not, an exchanged token can be redeemed again exactly if a
  live cache entry still shows it and it is unexpired (`ExchangedAgainIff`). The lock alone
  does not prevent that: a guard that looks the session up between the two halves of the
  update is enough (`GuardInTheGap`). A lookup inside that gap, and one that reaches around
  the whole update, leave the replaced token in force for six hours (`ReaderInTheGap`,
  `ReaderAround`).
* No sequence of calls makes anyone an administrator (`NobodyBecomesAdmin`), and a pair of
  tokens lives exactly as long as configured (`PairLives`).
* The batched like map equals the one-by-one loads and fails exactly when one of them does
  (`BatchIsOneByOne`); following hasNextPage shows every post once, with its own nicknames
  (`BrowsingShowsAll`).
* Encrypted keys survive any number of percent-decodings on their way back
  (`PrimaryKeyRoundTrip`), and every annotated field of a response can be recovered
  (`ResponseIsRecoverable`).

Where documents and code disagree the code is modelled:

* `docs/implementation/flows/idempotency-key-handle.md` describes stored responses with
  their status; the code replays only the body and never reads the stored status code.
* A replayed unhandled error says "Internal server error", the live one "Internal Server
  Error!". `ReplayRendersLikeLive` says for which errors the two agree: all others.
* The loser of the race for a lock is told "in progress" even if the winner used another
  path or is already done (`AnswersAreIdeal`).
* The pattern for keys ignores letter case but the store does not: one UUID in two
  spellings is two keys (`SpellingsAreKeys`), except for the UUIDs written without a letter
  (`OneKeyIffNoLetter`), and runs its handler twice within one lifetime
  (`SecondSpellingRuns`).
* A field that a subclass annotates again is listed twice and encrypted twice, and comes
  back after two decryptions (`LayersPeel`).
* A response that is itself an array reaches the client as an object keyed by position, and
  the objects in it are not encrypted (`TopLevelArrayStaysPlain`).

## Model

| member | source | states |
|---|---|---|
| Interceptor.IdempotencyKeyInterceptor.Intercept | src/interceptor/idempotency-key.interceptor.ts:78-211 | one request from end to end: final store, final stage, reply, status 200 on failures, Retry-After exactly for requests in progress, and that the handler ran exactly for those answered by it |
| Interceptor.IdempotencyKeyInterceptor.Keep | src/interceptor/idempotency-key.interceptor.ts:168-205 | the completion write stores the snapshot of the handler's outcome, and its failure is ignored |
| Interceptor.ReplayMatchesLive | src/interceptor/idempotency-key.interceptor.ts:141-152 | a stored outcome replays as the executor's own reply if and only if it is not an unhandled error; codes and success or failure always agree |
| Retries.UnprotectedRequestsBypass | src/interceptor/idempotency-key.interceptor.ts:83-111 | over the request's own fields: a marked route, one of the four reads, no key, or a good key without a user runs the handler and leaves the store alone |
| Retries.MalformedKeysAreRefused | src/interceptor/idempotency-key.interceptor.ts:102-105 | any other write with a key that is no version 4 UUID is refused as a bad request and leaves the store alone |
| Retries.FreeKeyRuns | src/interceptor/idempotency-key.interceptor.ts:155-188 | a write by a known user under a free key runs, and plain JSON reaches the client as the handler returned it |
| Retries.RetryIsReplayed | src/interceptor/idempotency-key.interceptor.ts:116-152 | the same request again runs its handler if and only if a day has passed since the outcome was stored; before that the client is told what the first was told, and the store is left alone |
| Retries.ReuseIsRefused | src/interceptor/idempotency-key.interceptor.ts:118-133 | another method or path under the same key is refused as a bad request within the day |
| Retries.ForeignValuesAreUsedKeys | src/interceptor/idempotency-key.interceptor.ts:118-133 | a value of another kind under the key is refused like a used key, and nothing runs over it |
| Retries.RetryInProgress | src/interceptor/idempotency-key.interceptor.ts:135-139 | while the first runs, for a day from its lock, the same request is told that it is in progress |
| Retries.RememberedFields | src/idempotency/idempotency.service.ts:110-149 | the fields of the stored record: route, success or failure, status code, body, error code and message |
| Retries.OutagesFailTheRequest | src/interceptor/idempotency-key.interceptor.ts:116-160 | a store that does not answer the read or the lock fails the request as an unexpected error without running its handler |
| Retries.LostLocks | src/idempotency/idempotency.service.ts:86-94 | a lock whose answer was lost holds for a day; one that never reached the store does not |
| Retries.LostOutcomes | src/interceptor/idempotency-key.interceptor.ts:168-205 | a handler's client is told its outcome whatever storing it does, and what the store then holds |
| SharedSystem.PassageIsItsSteps | src/interceptor/idempotency-key.interceptor.ts:116-210 | the interceptor's passage is exactly what the machine's separate steps of that request do, whatever happens in between |
| SharedSystem.CacheTrafficLands | src/user/repository/user-auth.repository.ts:48-80 | what the query cache writes stands under its id, and what it removes is gone |
| SharedSystem.ForeignFrame | src/throttler/redis-throttler.storage.ts:75-87 | rate-limit calls and cache traffic leave every idempotency key and everything else of the machine alone |
| Idempotency.IdempotencyService.Get | src/idempotency/idempotency.service.ts:61-67 | what a read finds, or that the store did not answer |
| Idempotency.IdempotencyService.SetPending | src/idempotency/idempotency.service.ts:73-95 | SET NX EX: true exactly when the key was free, and the record written with its lifetime |
| Idempotency.IdempotencyService.SetCompleted | src/idempotency/idempotency.service.ts:102-125 | the unconditional SET EX of a success |
| Idempotency.IdempotencyService.SetCompletedFailure | src/idempotency/idempotency.service.ts:133-157 | the unconditional SET EX of a failure |
| IdempotencyGuarantees.AtMostOncePerLifetime | src/idempotency/idempotency.service.ts:42-50 | over every run, any span of length L holds at most L / TTL + 1 locks of a key, and as many handler runs under them |
| IdempotencyGuarantees.LocksAreSpaced | src/idempotency/idempotency.service.ts:86-94 | any two locks of one key in any run are a lifetime apart |
| IdempotencyGuarantees.HandlersRunUnderLocks | src/interceptor/idempotency-key.interceptor.ts:155-168 | a protected handler ran only under its own request's lock, and no request takes two |
| IdempotencyGuarantees.ReplaysAreEarned | src/interceptor/idempotency-key.interceptor.ts:118-152 | a replayed outcome is that of a finished handler run of another request with the same user, key, method and path |
| IdempotencyGuarantees.ExecutorsAreTransparent | src/interceptor/idempotency-key.interceptor.ts:168-205 | a request that ran its handler answers with its outcome, whatever became of the completion write |
| IdempotencyGuarantees.SuccessIsNeverStoredAsFailure | src/interceptor/idempotency-key.interceptor.ts:180-205 | in every reachable state a completed record is marked failed exactly when its handler raised |
| IdempotencyGuarantees.LocksExpire | src/idempotency/idempotency.service.ts:50-50 | no record outlives a lifetime without a further write |
| IdempotencyGuarantees.LocksHold | src/idempotency/idempotency.service.ts:42-50 | a lock holds its key for its whole lifetime, whatever becomes of its request |
| IdempotencyGuarantees.FinishedRequestsStay | src/interceptor/idempotency-key.interceptor.ts:116-210 | a request that is answered, refused or crashed never moves again |
| IdempotencyGuarantees.WorkIsBounded | src/interceptor/idempotency-key.interceptor.ts:116-210 | every request is over after at most four steps, three store commands and one handler run |
| MemoRefinement.AnswersAreIdeal | src/interceptor/idempotency-key.interceptor.ts:116-164 | every read and lock attempt that reaches the store is answered as the atomic memo would, in progress only over a live record |
| MemoRefinement.RefinesIffTimely | src/interceptor/idempotency-key.interceptor.ts:116-210 | a run refines the memo Idle, Held, Done, Idle if and only if each completion lands before its lock expires |
| MemoRefinement.ReplaysAreCurrent | src/interceptor/idempotency-key.interceptor.ts:143-152 | in such runs every replay of a generation is the one outcome of the request that took its lock |
| LateOutcome.LateOutcomeWins | src/idempotency/idempotency.service.ts:119-124 | for any protected call and outcomes a, b there is a run in which the latest holder's client got b and the next caller is told a |
| Failures.ReplayRendersLikeLive | src/filter/http-exception.filter.ts:29-48 | replayed and live failures have the same code for every error, and the same message for all but unhandled ones |
| Failures.LiveFailures | src/filter/http-status-error-code.util.ts:12-21 | the code a client is told for each mapped status, for any other, for a domain error and for an unexpected one |
| Failures.LiveMessages | src/filter/http-status-error-code.util.ts:27-36 | the message of a framework exception: its text, or its messages separated by commas |
| Failures.Catch | src/filter/base-exception.filter.ts:11-27 | the filters answer with status 200 and the failure rendered for the kind of error |
| Json.WireIsIdempotent | src/idempotency/idempotency.service.ts:119-124 | a body that went through JSON once is sent again unchanged |
| Json.PlainSurvives | src/idempotency/idempotency.service.ts:119-124 | a body without dates and undefined values survives storing unchanged |
| Json.FieldsSurvive | src/idempotency/idempotency.service.ts:119-124 | of an object exactly the set fields arrive, in order, each with its own value |
| Json.ItemsSurvive | src/idempotency/idempotency.service.ts:119-124 | of an array every item arrives at its place, undefined ones as null |
| Keys.BuildKeyIsInjective | src/idempotency/idempotency.service.ts:57-59 | the idempotency key separates users and keys, even for user ids with colons |
| Keys.UuidIsTemplate | src/interceptor/idempotency-key.interceptor.ts:55-57 | the pattern accepts exactly the texts that fit the usual template place by place |
| Keys.SpellingsAreKeys | src/interceptor/idempotency-key.interceptor.ts:56-57 | the pattern accepts all spellings of a key or none, but two spellings share a store key if and only if they are equal |
| Keys.OneKeyIffNoLetter | src/idempotency/idempotency.service.ts:57-59 | all spellings of a UUID share one store key if and only if it has no letter |
| KeySpelling.SecondSpellingRuns | src/interceptor/idempotency-key.interceptor.ts:102-168 | while a request holds its lock, the same request with its key in another spelling runs its handler too if and only if the spellings differ |
| Keys.CounterMeetsBlock | src/throttler/redis-throttler.storage.ts:75-76 | a counter key is a block key exactly when its hash starts with the block prefix, so never for hashes without colons |
| Keys.CacheIdIsInjective | src/utils/cache-id.utils.ts:4-26 | cache ids are injective within and across families |
| Keys.KeySpacesAreDisjoint | src/throttler/redis-throttler.storage.ts:75-76 | idempotency, rate-limit and cache keys never coincide |
| Throttler.RedisThrottlerStorage.IncrementScript | src/throttler/redis-throttler.storage.ts:29-63 | the script's commands leave the store and give the answer of the specified transition, including aborts |
| Throttler.RedisThrottlerStorage.Increment | src/throttler/redis-throttler.storage.ts:69-99 | the record returned to the guard, in seconds |
| Throttler.SecondsAreTight | src/throttler/redis-throttler.storage.ts:97-99 | the seconds are the least that cover the milliseconds, and none if there are none |
| Throttler.ScriptFrame | src/throttler/redis-throttler.storage.ts:29-63 | a call writes no key but its own two |
| Throttler.NoImmortalCounter | src/throttler/redis-throttler.storage.ts:47-52 | after a counted call the counter has an expiry, whatever it was before |
| Throttler.AdvertisedWaitIsTight | src/throttler/redis-throttler.storage.ts:89-99 | waiting the returned seconds outlasts the block, one second less does not |
| ThrottleRuns.BurstBound | src/throttler/redis-throttler.storage.ts:29-63 | any k windows of any run admit at most (k + 1) * limit - 1 calls of a tracker |
| ThrottleRuns.BurstBoundIsMet | src/throttler/redis-throttler.storage.ts:47-62 | for every k some run admits exactly that many |
| ThrottleRuns.RefusalIsExact | src/throttler/redis-throttler.storage.ts:39-45 | from a refusal to the moment it announced every call is refused, is told the same moment and changes nothing |
| ThrottleRuns.WaitEndsTheBlock | src/throttler/redis-throttler.storage.ts:54-60 | over any events in between, the block is live one second before the announced second and over at it |
| ThrottleRuns.RefusalHasCause | src/throttler/redis-throttler.storage.ts:47-62 | a call is refused only after more than limit calls were counted in one life, less than a block ago |
| ThrottleRuns.CounterIsHonest | src/throttler/redis-throttler.storage.ts:47-60 | after any run a live counter has an expiry and the number of calls of its life; under a block it exceeds the limit |
| ThrottleRuns.AnswersAreHonest | src/throttler/redis-throttler.storage.ts:39-62 | after every run a counted call is told the number of counted calls of its life and exactly what is left of that life, and is refused if and only if the number passes the limit; a call under a block is told what is left of it and of the counter |
| ThrottleRuns.OneMoreHit | src/throttler/redis-throttler.storage.ts:29-63 | the log gains exactly what the script did and answered |
| ThrottleRuns.LongBlocksStopTheCounter | src/throttler/redis-throttler.storage.ts:39-60 | with blocks at least as long as windows no count passes limit + 1 |
| Database.UserAuthRepository.GetUserSessionEntityByUid | src/user/repository/user-auth.repository.ts:46-73 | a cached session lookup whose misses do not stay cached |
| Database.UserAuthRepository.UpdateUserAuthByUserSessionEntity | src/user/repository/user-auth.repository.ts:75-92 | the cache entry goes, then the row changes if the database accepts |
| Database.UserInfoRepository.FindUserInfoEntity | src/user/repository/user-info.repository.ts:25-43 | a cached profile lookup whose misses do not stay cached |
| Database.UserInfoRepository.DeleteUserInfoByUid | src/user/repository/user-info.repository.ts:54-58 | the cache entry goes, then the row |
| Database.PostLikeRepository.SavePostLikeEntity | src/blog/repository/post-like.repository.ts:45-49 | the list's cache entry goes, then the row is inserted somewhere or refused |
| CacheRuns.Perform | src/user/repository/user-auth.repository.ts:22-92 | every repository method is its step of the cached machine |
| CacheRuns.CacheNeverShows | src/user/repository/user-info.repository.ts:21-64 | any sequence of calls that do not overlap gets the answers, and leaves the tables, that plain tables would |
| OwnWrites.UpdatedProfileIsFound | src/user/repository/user-info.repository.ts:25-52 | an accepted profile update is what every later lookup answers until the next write to it; other answers stay |
| OwnWrites.SavedProfileIsFound | src/user/repository/user-info.repository.ts:21-43 | so is a new profile; an existing one is refused and stays |
| OwnWrites.DeletedProfileIsGone | src/user/repository/user-info.repository.ts:54-58 | a deleted profile is found no more, and other answers stay |
| OwnWrites.UpdatedSessionIsFound | src/user/repository/user-auth.repository.ts:46-92 | an accepted session update is what every later lookup answers; of the row it changes token and role only |
| OwnWrites.SavedUserIsFound | src/user/repository/user-auth.repository.ts:22-40 | a new user's row is what later lookups answer; an existing user is refused and stays |
| OwnWrites.GivenLikeIsListed | src/blog/repository/post-like.repository.ts:22-49 | a like that is given stands once more in its post's list and no list changes otherwise; a second one is refused |
| OwnWrites.TakenLikeIsGone | src/blog/repository/post-like.repository.ts:51-58 | a like that is taken back stands in no list and no list changes otherwise |
| OwnWrites.RefusedWritesDoNothing | src/blog/repository/post-like.repository.ts:45-58 | a write the database refuses says so and changes no answer |
| OwnWrites.AnswersAreKept | src/user/repository/user-auth.repository.ts:48-55 | sessions are kept for six hours, profiles and lists of likes for a day, to the millisecond |
| CacheRuns.NobodyLikesTwice | src/blog/repository/post-like.repository.ts:45-58 | over any sequence of calls the table never holds a like twice |
| CacheRuns.OneReaderIsEnough | src/user/repository/user-auth.repository.ts:78-87 | one such lookup makes later lookups return the replaced refresh token |
| CacheOverlaps.StaysCoherentIff | src/user/repository/user-auth.repository.ts:46-87 | over every interleaving of lookups (ask, select, fill) and writes (drop, commit) the cache is right about a query at every moment if and only if no commit changes its answer while it has a live entry and no fill of it stores an answer the tables no longer give |
| CacheOverlaps.OnlyTargetChanges | src/blog/repository/post-like.repository.ts:45-58 | a write changes the answer of one query, so its guard concerns that one |
| CacheOverlaps.StaysCoherentIfTimely | src/user/repository/user-auth.repository.ts:75-87 | the same, query by query, with the history's guard: no lookup fills after a commit changed its answer; enough always, and necessary where the answers to that query do not come back |
| CacheOverlaps.OneChangeOvertakes | src/blog/repository/post-like.repository.ts:22-30 | a lookup under way is overtaken by one commit that changes its answer, and never without one |
| CacheOverlaps.HitsAreCurrent | src/user/repository/user-info.repository.ts:25-43 | while every step on a query fits, a cache hit answers what the tables say at that moment |
| CacheOverlaps.WholeCallIsItsSteps | src/user/repository/user-auth.repository.ts:22-92 | a call whose steps follow each other undisturbed is the call made whole |
| CacheOverlaps.LateFillWins | src/user/repository/user-auth.repository.ts:46-87 | a lookup that selects before an update and fills after it caches the old row for six hours, with no lookup in the update's gap |
| CacheOverlaps.AnswersMayReturn | src/blog/repository/post-like.repository.ts:45-58 | a like given and taken back changes a lookup's answer twice and leaves it right |
| Tokens.JwtService.Create | src/user/service/jwt.service.ts:27-36 | two fresh tokens; the refresh token is stored, or none is handed out |
| Tokens.JwtService.VerifyRefreshToken | src/user/service/jwt.service.ts:59-91 | a token verifies when it decodes and the session carries it; each failure has its own error |
| Tokens.AuthGuard.CanActivate | src/auth/auth.guard.ts:23-83 | the client's own user header is always gone; public routes pass, otherwise both tokens must verify and a role of the route be met, and only then the session's user stands in the header |
| Tokens.UserAuthService.CreateNewUser | src/user/service/user-auth.service.ts:35-67 | existing users are refused, the row is stored with a stretched password, then tokens follow |
| Tokens.UserAuthService.GoogleOauthLogin | src/user/service/user-auth.service.ts:86-116 | an unknown but vouched-for user is registered first |
| Tokens.UserAuthService.Refresh | src/user/service/user-auth.service.ts:118-131 | an empty token, a token that does not verify, or a new pair for the session's user |
| Tokens.UserAuthService.HashingPassword | src/user/service/user-auth.service.ts:133-141 | the loop is three rounds of salting and hashing |
| Accounts.SignUpMakesUsers | src/user/service/user-auth.service.ts:35-67 | whoever signs up becomes an ordinary local user, whatever comes of the tokens; a taken name is refused and nothing happens |
| Accounts.OauthMakesUsers | src/user/service/user-auth.service.ts:86-116 | whoever comes vouched for is registered as an ordinary social user if unknown and keeps the role otherwise |
| Accounts.NobodyBecomesAdmin | src/user/service/user-auth.service.ts:35-131 | no sequence of calls makes anyone an administrator or takes the role from one |
| Accounts.VerifyingAnswers | src/user/service/jwt.service.ts:59-91 | what verifying a refresh token answers, each failure with its own error |
| Accounts.AccessAnswers | src/user/service/jwt.service.ts:38-57 | what verifying an access token answers, each failure with its own error |
| Accounts.LoginAnswers | src/user/service/user-auth.service.ts:69-84 | when a login is refused, and as what |
| Accounts.RefreshAnswers | src/user/service/user-auth.service.ts:118-131 | when a refresh is refused, and as what |
| Accounts.ThreeRounds | src/user/service/user-auth.service.ts:133-141 | passwords are hashed three times, with the salt each time |
| Accounts.SocialUsersHaveNoPassword | src/user/service/user-auth.service.ts:86-116 | no password logs a social user in |
| Accounts.PairLives | src/user/service/jwt.service.ts:27-36 | a stored pair serves for exactly as long as configured, each token for its own time, and an access token never refreshes |
| TokenSafety.StartHasInv | src/user/entities/user-auth.entity.ts:16-33 | a server that starts over any well-kept user table, its cache empty and nothing under way, begins a good history |
| TokenSafety.RunKeepsInv | src/user/service/jwt.service.ts:27-99 | however the steps of refreshes, logins, guards and writes interleave, the rows carry the tokens last stored, whatever the cache and the lookups show was stored once, and exchanged tokens are never stored again |
| TokenSafety.DeadForever | src/user/service/jwt.service.ts:27-36 | a token that was replaced is never the latest again, in every history |
| TokenRuns.VerifiesIff | src/user/service/jwt.service.ts:59-91 | in every reachable state an undisturbed check passes exactly for an unexpired token shown by the user's live cache entry, or the latest one if there is none |
| TokenRuns.StaleRefreshIff | src/user/service/user-auth.service.ts:118-131 | in every reachable state an undisturbed refresh with a replaced token succeeds exactly if a live entry still shows it and it is unexpired |
| TokenRuns.ExchangedAgainIff | src/user/service/user-auth.service.ts:118-131 | after every history that is when an exchanged token can be redeemed again |
| TokenRuns.StaysRightIff | src/user/repository/user-auth.repository.ts:46-87 | over every token history the cache is right about a session at every moment if and only if every commit and fill of it fits |
| TokenRuns.OnlyTheLatestVerifies | src/user/service/jwt.service.ts:59-99 | while the steps on the user's session fit, whatever else overlaps, a token of the user verifies if and only if it is the latest stored and unexpired |
| TokenRuns.SupersededIsFinal | src/user/repository/user-auth.repository.ts:75-87 | while the steps on the user's session fit, a replaced token never verifies again |
| TokenRuns.ChecksPassIffLatest | src/user/service/jwt.service.ts:59-91 | while they fit, every check under way, of a guard or of a refresh, passes if and only if its token is the latest at the moment it is answered |
| TokenRuns.RedemptionsOverlapOrMisfit | src/user/service/user-auth.service.ts:118-131 | two redemptions of one token overlap, or some commit or fill of its user's session did not fit before the history ended |
| TokenRuns.RedeemedOnceIffApart | src/user/service/user-auth.service.ts:118-131 | while the steps on the user's session fit, no token of the user is redeemed twice if and only if no two accepted refreshes of one of them overlap |
| TokenRuns.TokenLockSuffices | src/user/service/user-auth.service.ts:118-131 | while they fit, and if a refresh begins only while none of the same token is under way, no token of the user is ever redeemed twice |
| TokenRuns.GuardAdmitsTheLatest | src/auth/auth.guard.ts:50-83 | while the steps on both sessions fit, an undisturbed guard admits exactly the holder of the latest refresh token with a live bearer token |
| TokenRuns.TokenCommitsAreNovel | src/user/service/jwt.service.ts:27-36 | in every reachable state no commit gives a lookup of a session under way its old answer back |
| TokenRuns.SessionFillFitsIffUnchanged | src/user/service/jwt.service.ts:101-120 | in every token history a lookup of a session may fill the cache if and only if no commit changed the session since it selected |
| TokenRuns.SignUpLasts | src/user/service/user-auth.service.ts:69-84 | after a sign-up's row is committed, whatever follows, exactly the passwords that hash like the chosen one log in |
| TokenCalls.RefreshIsItsSteps | src/user/service/user-auth.service.ts:118-131 | a refresh whose steps follow each other undisturbed is the service's refresh |
| TokenCalls.BadTokensAreNotLookedUp | src/user/service/jwt.service.ts:59-72 | a token that is expired or was never signed is not even looked up |
| TokenCalls.RefusedCheckRuns | src/user/service/jwt.service.ts:59-91 | an undisturbed check that does not pass, and any of a guard, changes nothing but the cache |
| TokenCalls.IssueIsCreated | src/user/service/jwt.service.ts:27-36 | the pair of a login or sign-up whose two steps follow each other is the service's |
| TokenCalls.SignUpIsItsSteps | src/user/service/user-auth.service.ts:35-67 | a sign-up whose steps follow each other undisturbed is the service's |
| TokenCalls.LoginIsItsSteps | src/user/service/user-auth.service.ts:69-84 | so is a login |
| TokenCalls.FirstOauthIsItsSteps | src/user/service/user-auth.service.ts:86-116 | so is the first login of someone vouched for |
| TokenCalls.OverlapRedeemsTwice | src/user/service/user-auth.service.ts:118-131 | from any state two refreshes of a token that verifies, both checked before either is stored, both exchange it, and only the pair stored last verifies |
| StaleSessions.GuardInTheGap | src/auth/auth.guard.ts:58-64 | a guard between the two halves of a refresh's update makes the exchanged token redeemable again and its successor refused, although no two refreshes overlap |
| StaleSessions.ReaderInTheGap | src/user/service/jwt.service.ts:59-91 | after a lookup inside the gap of a session update, for six hours the replaced token is the only one of the user that verifies and the new one is refused; afterwards the reverse |
| StaleSessions.ReaderAround | src/user/service/jwt.service.ts:59-91 | the same after a lookup that reaches around the update |
| PostLikes.PostLikeService.GetPostLikeMapByPostIds | src/blog/service/post-like.service.ts:23-50 | the loops compute the like map, or stop at the first user without a profile |
| PostLikes.PostLikeService.GroupByPostId | src/blog/service/post-like.service.ts:34-41 | groups are the likes of each post, in order of first appearance |
| PostLikes.PostLikeService.GetNicknameList | src/blog/service/post-like.service.ts:83-95 | nicknames in order, or the first missing user |
| PostLikes.PostLikeService.AddPostLikeUser | src/blog/service/post-like.service.ts:52-62 | an existing like is refused and nothing changes |
| PostLikes.PostLikeService.RemovePostLikeUser | src/blog/service/post-like.service.ts:64-74 | a missing like is refused and nothing changes |
| PostLikes.GroupingConserves | src/blog/service/post-like.service.ts:34-41 | the groups together are the rows as a multiset, no post has two, and each holds only its own likes |
| PostLikes.BatchIsOneByOne | src/blog/service/post-like.service.ts:23-50 | the batch succeeds if and only if every post loads alone, gives each its own nicknames and no other post any, and fails as the first failing post does |
| PostLikes.NamesAreNicknames | src/blog/service/post-like.service.ts:83-95 | a list loads if and only if every user has a profile, and names them like for like |
| PostLikes.PageAgreesWithPost | src/blog/service/post.service.ts:80-89 | a post opened alone shows what its page shows |
| PostLikes.UnlikeUndoesLike | src/blog/repository/post-like.repository.ts:45-58 | removing a like restores the table, wherever the row had been put |
| Paging.GetLastPage | src/utils/pagination.utils.ts:33-35 | at least one, enough pages for all rows, and not one more |
| Paging.PagesPartition | src/utils/pagination.utils.ts:8-35 | pages 1 to the last concatenate to the list; all but the last are full, none beyond holds anything |
| Paging.TwentyToAPage | src/utils/pagination.utils.ts:6-35 | a page holds twenty rows, the last what is left of them, and an empty list has one page |
| Paging.ToPaginationDto | src/utils/pagination.utils.ts:15-31 | page numbers below one are refused, those past the end become the last, others stay; data, total and last page are the caller's own |
| Paging.MetaPointsAtPages | src/blog/dto/pagination-meta.dto.ts:34-40 | there is a next page if and only if the page after has rows, a previous one if and only if the number before is a page |
| Paging.RowIsOnOnePage | src/utils/pagination.utils.ts:8-13 | each row is on the page that division gives, at that place, and on no other |
| Posts.PostService.GetPostPageListByPage | src/blog/service/post.service.ts:27-48 | the lookups and the clamp serve the specified page or the specified error |
| Posts.PostService.GetPostPageListByPostUid | src/blog/service/post.service.ts:50-78 | the same over one author's posts |
| Posts.PostService.GetPostByPostId | src/blog/service/post.service.ts:80-89 | the post with its likes, or which of the two lookups failed |
| Posts.PostService.ToPostDaoList | src/blog/service/post.service.ts:103-121 | one fresh object per row, each with the likes of its own post |
| Posts.ServedIsClamped | src/blog/service/post.service.ts:27-48 | page p from 1 up is page min(p, last) with matching metadata and each post's own nicknames; it fails only if one of those posts does |
| Posts.WrittenByIsExact | src/blog/repository/post.repository.ts:46-61 | an author's list has every post of the author as often as the table, and no other |
| Posts.PagesAreNewestFirst | src/blog/repository/post.repository.ts:30-61 | if the table is read newest first, so are an author's posts and every page; page numbers below one are refused |
| Posts.BrowsingShowsAll | src/blog/dto/pagination-meta.dto.ts:34-40 | following hasNextPage from page 1 ends and shows every post exactly once, unless one cannot be shown |
| PrimaryKeys.DecodeUndoesEncode | src/utils/crypto.utils.ts:5-13 | percent-decoding undoes percent-encoding on ASCII |
| PrimaryKeys.DecodeIsIdentityIff | src/utils/crypto.utils.ts:9-13 | decoding leaves text alone if and only if it has no percent sign |
| PrimaryKeys.EscapesOfBase64 | src/utils/crypto.utils.ts:5-7 | which characters of base64 are escaped and how, and that escapes may be in either letter case |
| PrimaryKeys.PrimaryKeyRoundTrip | src/utils/crypto.utils.ts:5-13 | decrypt(encrypt(v)) = v, even if the text was percent-decoded any number of times on the way |
| PrimaryKeys.PipeRecoversIff | src/pipe/decrypt-primary-key.pipe.ts:18-38 | the pipe recovers the value if and only if it is not empty |
| PrimaryKeys.EncryptedKeyIsOneSegment | src/utils/crypto.utils.ts:5-7 | an encrypted key has no character that ends a path segment, a path or a URL |
| PrimaryKeys.EncryptedKeysAreDistinct | src/utils/crypto.utils.ts:5-7 | different values never share an encrypted key |
| ResponseEncryption.EncryptPrimaryKeyInterceptor.EncryptObject | src/interceptor/encrypt-primary-key.interceptor.ts:45-62 | a new object whose annotated fields that are set are encrypted, as often as annotated, and whose other fields are the same |
| ResponseEncryption.EncryptPrimaryKeyInterceptor.EncryptResponse | src/interceptor/encrypt-primary-key.interceptor.ts:26-43 | exactly the annotated fields of the object and of its arrays' items are encrypted; the original is untouched |
| ResponseEncryption.ClientsRecover | src/interceptor/encrypt-primary-key.interceptor.ts:52-58 | a field encrypted once and sent back in a URL passes the pipe as the original text unless that is empty |
| ResponseEncryption.ResponseIsRecoverable | src/interceptor/encrypt-primary-key.interceptor.ts:26-62 | over the annotations themselves: each set field listed n times comes back after n decryptions as the text of its value, each other field that holds no array is unchanged, none is lost or new |
| ResponseEncryption.ItemsAreRecoverable | src/interceptor/encrypt-primary-key.interceptor.ts:32-40 | the same for the objects among the items of arrays; other items stay |
| ResponseEncryption.OtherResponses | src/interceptor/encrypt-primary-key.interceptor.ts:26-43 | what becomes of responses that are no objects |
| ResponseEncryption.LayersPeel | src/decorator/encrypt-field.decorator.ts:5-15 | a field annotated, and so encrypted, n times comes back after n decryptions |
| ResponseEncryption.TopLevelArrayStaysPlain | src/interceptor/encrypt-primary-key.interceptor.ts:26-43 | an array response becomes an object keyed by position with its objects unencrypted |

## Left out

- MemoRefinement.RefinesIffTimely: refinement of the ideal memo is not claimed for runs in which a completion lands late, because there it fails; the lemma says so.
- CacheRuns.CacheNeverShows: says nothing of calls that overlap; CacheOverlaps.StaysCoherentIff does.
- Database.UserAuthRepository.GetUserSessionEntityByUid: cache miss, SELECT, fill and removal of a cached miss are one step, and the removal, which nobody waits for, is immediate; CacheOverlaps takes them apart.
- Database.UserAuthRepository.UpdateUserAuthByUserSessionEntity: the removal of the cache entry cannot fail; a rejected removal aborts the write before the database is asked.
- Database.UserInfoRepository.FindUserInfoEntity: cache miss, SELECT, fill and removal are one step; CacheOverlaps takes them apart.
- Database.UserInfoRepository.DeleteUserInfoByUid: the removal of the cache entry cannot fail; a rejected removal aborts the write before the database is asked.
- Database.PostLikeRepository.SavePostLikeEntity: the removal of the cache entry cannot fail; a rejected removal aborts the write before the database is asked.
- CacheOverlaps.StaysCoherentIfTimely: necessary only where the answers to the query do not come back; AnswersMayReturn is why.
- TokenRuns.OnlyTheLatestVerifies: not claimed where a commit or a fill of the user's session does not fit, because there it fails; VerifiesIff and StaleSessions.GuardInTheGap say how.
- TokenRuns.TokenLockSuffices: the lock alone is not enough; StaleSessions.GuardInTheGap is why.
- SharedSystem.PassageIsItsSteps: requests that are refused or bypass at once have a single step and are not restated.
- Posts.PostRepository: cached pages of posts, which writes never invalidate; one snapshot of the posts stands for them.
- PrimaryKeys.DecodeUndoesEncode: escapes of bytes from 128 up, which a base64 text never needs, count as malformed.
- ResponseEncryption.EncryptPrimaryKeyInterceptor.EncryptResponse: the order of properties, and arrays as mutable objects with identity.
- In the token histories a lookup that misses answers once it has filled the cache, signing a pair and dropping the session's entry are one step, and a guard's bearer check is a lookup like any other.
- Framework wiring: decorators, dependency injection, configuration, cookies, CORS, logging, health checks, migrations, Swagger.
- rxjs as such: a request is its steps.
- Redis, MySQL and TypeORM beyond the commands and keyed rows used: eviction, replication, transactions, collations.
- AES, SHA-256, JWT signatures and Google's token verification: a cipher that undoes itself, an arbitrary digest, tokens that never repeat, an e-mail address vouched for or not.
- A database write that is applied although its caller sees an error; each write is either accepted and answered or refused.
- The rate-limit script's answer being lost on the network; the script itself is atomic.
- The record's processedAt time, which nothing reads.
- Deleting and editing posts, and the likes that a deleted post takes with it.
- Features the documents plan without code: comments, cursor paging, an outbox, a counter of failed logins.
