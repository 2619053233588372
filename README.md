# Record-update logic of a Telegram airdrop app, modelled in Dafny

The application lets users gather points ("SWHIT"), complete tasks, and refer friends. It is a thin client
over a hosted document store and the Telegram WebApp host. Under the screens sit a few record-update
routines, and this project models those:

- **Referral crediting and statistics** (`processReferral`, `getReferralStats`). The referral-code lookup,
  the self-referral check, the referrer's +2500 increment, the referral document, and the count and sum over
  a referrer's referral documents.
- **User records.** The session upsert (`createOrUpdateUser`, with `refreshUserData` and the session start),
  the create-only email sign-up record (`createUserDocument`), the rank ladder (`updateUserRank`) and the
  referral-code generator (`generateReferralCode`).
- **Task claims.** The status loaded for each task, the idle → checking → claiming → completed machine of
  `handleTaskAction` with its claim write, and the tab lists and the in-game badge.
- **Telegram identity** (`getTelegramUser`, `isTelegramWebApp`, `initializeTelegramWebApp`).

The hosted store is the class `Firebase.Database`. It holds the `users` and `referrals` collections as maps
from document id to document, and the `rewards` collection as the list of its documents in the order they
were added. A stored user document has every field optional, because the store has no schema and the code
writes two different shapes into it. Store failures are an input: a `Fault` names the first store call of
an operation that the store rejects, with calls numbered in the order the source makes them. The clock is
an input too. So is the answer of the referral-code query, a list of the matching user ids, each once, in
the store's order. Its first element is the referrer.

What the model shows about the code as written:

- A referral can be applied any number of times. There is no already-referred check. Each repeat credits
  the referrer another 2500 but only rewrites the same referral document, so the referrer's statistics no
  longer add up to the points credited (`Scenarios.RepeatReferral`).
- The new user gets no bonus. The referrer's increment and the referral document are two separate writes.
  If the second fails, the referrer keeps the points and no referral document exists (`ReferralSystem.ProcessReferral`).
- Sessions never assign a referral code. `generateReferralCode` is never called, and it would not give
  unique codes anyway. Every user created by a session holds the empty code, and a referral with the
  empty code matches all of them.
- Claims fail as written. The task list addresses the user's document through `user.uid`, and the
  Telegram identity has no such field. The store call fails, and the task stays 'claiming'. Suppose
  `user.uid` were the user's document id. A claim would then write the session's cached points plus the
  reward. The cache is never refreshed, so a second claim overwrites the first: the first reward and the first task id are lost from the user document,
  though both reward documents exist (`Tasks.ClaimTwiceFromOneCache`).
- The sign-up record stores rank NOVICE with 2500 points, which the ladder ranks ADEPT.
- The session record never takes the language code from Telegram. It keeps only what is stored.

The code lacks several safeguards:
- The two referral writes are not atomic.
- The referred user gets no bonus.
- Nothing checks that a user was already referred or that the new user's document exists.
- Failed store calls are not retried.
- Referral codes are not unique.
- No per-user ledger is reconciled with the stored points.

The only starting grant is the 2500 points in the email sign-up record (`Firebase.SignUpPoints`). A
Telegram session starts a new user at 0.

## Model

| member | source | states |
|---|---|---|
| `Firebase.RankFor` | nh/src/lib/firebase.ts:74-79 | the rank is the highest one whose threshold (1000 ADEPT, 5000 EXPERT, 10000 MASTER, 50000 LEGEND) the points reach; below 1000, NOVICE |
| `Firebase.RankMonotone` | nh/src/lib/firebase.ts:76-79 | more points never give a lower rank in the order NOVICE < ADEPT < EXPERT < MASTER < LEGEND |
| `Firebase.RankBoundaries` | nh/src/lib/firebase.ts:76-79 | thresholds are inclusive: 999 NOVICE, 1000 ADEPT, 49999 MASTER, 50000 LEGEND, and likewise at 5000 and 10000 |
| `Firebase.UpdateUserRank` | nh/src/lib/firebase.ts:72-86 | writes only the `rank` field of that one user, with the ladder's label; a missing document or a store error leaves the store unchanged and is swallowed |
| `Firebase.SignUpDoc` | nh/src/lib/firebase.ts:29-36 | the sign-up record has the username and email, 2500 points, rank NOVICE, createdAt now, emailVerified false, and no other field |
| `Firebase.SignUpRankIsStale` | nh/src/lib/firebase.ts:32-33 | the stored NOVICE disagrees with the ladder's ADEPT for the record's 2500 points |
| `Firebase.CreateUserDocument` | nh/src/lib/firebase.ts:20-41 | no account or an existing document: nothing written; otherwise the sign-up record is created; a failed existence read rejects, a failed create is swallowed |
| `Firebase.CreateUserDocumentTwice` | nh/src/lib/firebase.ts:21-26 | create-only and idempotent per uid: a second call leaves the first call's record |
| `Telegram.IsTelegramWebApp` | nh/src/lib/telegram.ts:75-77 | the check holds only when a window exists, and whenever it holds the WebApp object is there to use |
| `Telegram.HostUserOf` | nh/src/lib/telegram.ts:36-38 | a host user is read only when a window with the WebApp object exists, and it is the payload's user |
| `Telegram.InitializeTelegramWebApp` | nh/src/lib/telegram.ts:22-33 | returns the WebApp object exactly when `isTelegramWebApp` holds and `ready()` does not throw; null otherwise |
| `Telegram.GetTelegramUser` | nh/src/lib/telegram.ts:35-61 | an identity exists iff there is a host user or it is development; a host user is copied with last name and username defaulting to '' and language to null; otherwise development gives {12345, Test, User, testuser, en} |
| `Telegram.HostUserTakesPrecedence` | nh/src/lib/telegram.ts:36-50 | with a host user, development mode makes no difference |
| `Telegram.NormalisedFormIsUnique` | nh/src/lib/telegram.ts:40-46 | the defaulted fields determine the identity uniquely |
| `Telegram.IdentityNeedsWebAppOutsideDevelopment` | nh/src/lib/telegram.ts:36-60 | outside development an identity is returned only when `isTelegramWebApp` holds |
| `AuthContext.DecimalString` | nh/src/context/AuthContext.tsx:52 | the document id of a Telegram id is a non-empty string of decimal digits |
| `AuthContext.DecimalRoundTrip` | nh/src/context/AuthContext.tsx:52 | reading the document id back as a number gives the Telegram id |
| `AuthContext.DistinctIdsDistinctKeys` | nh/src/context/AuthContext.tsx:52 | distinct Telegram users get distinct user documents |
| `AuthContext.SessionRecord` | nh/src/context/AuthContext.tsx:55-66 | the session record carries the decimal Telegram id, the Telegram username and lastLogin now |
| `AuthContext.MergeSession` | nh/src/context/AuthContext.tsx:68 | the merge keeps the fields outside the session record (email, emailVerified); a missing createdAt writes nothing |
| `AuthContext.UpsertTouchesOnlyItsDocument` | nh/src/context/AuthContext.tsx:52-68 | a session writes its own user document and leaves every other document unchanged |
| `AuthContext.FirstSessionDefaults` | nh/src/context/AuthContext.tsx:55-66 | a new document gets points 0, rank 'Beginner', referralCode '', referredBy null, completedTasks [], language null, createdAt and lastLogin now |
| `AuthContext.LaterSessionKeepsStoredValues` | nh/src/context/AuthContext.tsx:55-68 | for an existing document, points, rank, referral code, referrer, tasks, language and createdAt are written back as stored, missing or falsy values fall back to 0, 'Beginner', '', null, [] and null, so a stored '' referrer or language becomes null; email fields survive |
| `AuthContext.UpsertTwice` | nh/src/context/AuthContext.tsx:55-68 | two sessions in a row leave the same document as one, except lastLogin |
| `AuthContext.SessionNeverAssignsReferralCode` | nh/src/context/AuthContext.tsx:60 | a user without a referral code still has '' after a session |
| `AuthContext.UpperCase` | nh/src/context/AuthContext.tsx:108 | upper-casing keeps the length and maps each character |
| `AuthContext.GenerateReferralCode` | nh/src/context/AuthContext.tsx:107-109 | "REF" followed by the first min(6, length) characters of the id, upper-cased; at most 9 characters |
| `AuthContext.SharedPrefixSameCode` | nh/src/context/AuthContext.tsx:108 | ids agreeing on their first six characters get the same code |
| `AuthContext.ReferralCodeNotInjective` | nh/src/context/AuthContext.tsx:107-109 | two different user ids, 1234567 and 1234568, get the same code |
| `AuthContext.AuthProvider.constructor` | nh/src/context/AuthContext.tsx:46-49 | no user, no record, loading, no error |
| `AuthContext.AuthProvider.CreateOrUpdateUser` | nh/src/context/AuthContext.tsx:51-70 | on success the user's document is the merge of the session record and the record is kept in memory; a failed read or write rejects and changes nothing |
| `AuthContext.AuthProvider.RefreshUserData` | nh/src/context/AuthContext.tsx:72-75 | does nothing when no user is set; otherwise reruns the upsert, and on success the cached record becomes the new session record |
| `AuthContext.AuthProvider.InitAuth` | nh/src/context/AuthContext.tsx:78-94 | without an identity nothing is written and the "not available" error is set; with one, the user is set and upserted: on success the store holds the merged record and the cached record is the session record; on failure the generic error is set; loading ends either way |
| `ReferralSystem.Credit` | nh/src/lib/referralSystem.ts:35-39 | the increment adds the amount to one user's points (missing counts as 0) and changes no other field and no other user |
| `ReferralSystem.CreditKeepsCodeHolders` | nh/src/lib/referralSystem.ts:37-39 | crediting points does not change which users the code lookup matches |
| `ReferralSystem.ProcessReferral` | nh/src/lib/referralSystem.ts:10-60 | no match: 'Invalid referral code'; first match is the new user: 'Self-referral is not allowed'; both write nothing. Otherwise the referrer (a holder of the code) gets +2500, then the referral document `referrerId_newUserId` = {referrerId, newUserId, 2500, now} is stored; a store error gives the generic failure and keeps what was already written |
| `ReferralSystem.AwardedSumRemove` | nh/src/lib/referralSystem.ts:71-74 | the sum over referral documents does not depend on the order they are visited |
| `ReferralSystem.AwardedSumFrame` | nh/src/lib/referralSystem.ts:71-74 | the sum depends only on the awarded points of the documents summed |
| `ReferralSystem.AwardedSumUniform` | nh/src/lib/referralSystem.ts:71-74 | documents that all award the same amount sum to that amount times their number |
| `ReferralSystem.GetReferralStats` | nh/src/lib/referralSystem.ts:62-81 | the number of referral documents naming the user as referrer and the sum of their awarded points; (0, 0) on a store error |
| `ReferralSystem.StatsTotalIsBonusTimesCount` | nh/src/lib/referralSystem.ts:68-74 | while every document awards 2500, a referrer's total is 2500 times their count |
| `ReferralSystem.NewReferralCounted` | nh/src/lib/referralSystem.ts:44-51 | a document under a new id adds one referral and its points to its referrer's statistics and changes no one else's |
| `ReferralSystem.RepeatedReferralNotCounted` | nh/src/lib/referralSystem.ts:44-51 | rewriting a document under the same id for the same referrer and award changes no statistics |
| `Scenarios.RepeatReferral` | nh/src/lib/referralSystem.ts:29-51 | the same referral applied twice succeeds twice: the referrer gains 5000, no other user changes, the referral ids and the referrer's statistics stay as after the first call |
| `Scenarios.RepeatReferralStatsUnchanged` | nh/src/lib/referralSystem.ts:44-51 | the statistics after a repeat equal those after the first referral |
| `Scenarios.EmptyCodeMatchesNewSessionUser` | nh/src/context/AuthContext.tsx:60 | a user created by a session is matched by the empty referral code |
| `Tasks.MarkCompleted` | nh/src/components/Tasks.tsx:46-50 | each loaded task is flagged completed exactly when its id is in the session's completed list |
| `Tasks.StatusMapKeys` | nh/src/components/Tasks.tsx:53-56 | the initial status map has exactly the loaded tasks' ids as keys |
| `Tasks.StatusMapLastWins` | nh/src/components/Tasks.tsx:53-56 | a task's status comes from its own flag unless a later task has the same id |
| `Tasks.StatusMapOrigin` | nh/src/components/Tasks.tsx:53-56 | every status is the initial status of a loaded task with that id |
| `Tasks.InitialStatuses` | nh/src/components/Tasks.tsx:53-57 | the loop gives each loaded task 'completed' if flagged, else 'idle', keyed by id, the later task winning |
| `Tasks.TaskBoard.constructor` | nh/src/components/Tasks.tsx:36-37 | no tasks and no statuses |
| `Tasks.TaskBoard.LoadTasks` | nh/src/components/Tasks.tsx:40-66 | with a session record, a task's status is 'completed' exactly when the record lists its id, otherwise 'idle'; without a record or on a store error nothing changes |
| `Tasks.TaskBoard.HandleTaskAction` | nh/src/components/Tasks.tsx:68-102 | no user, no status, checking or completed: nothing changes. Idle: checking. Claiming: points = cached points (0 if none) + reward and completedTasks = cached list + [id], then one reward document {userId, taskId, reward, 'Completed: ' + name, now}, then completed; a failure leaves it claiming. Only this task's entry changes, and status only moves forward |
| `Tasks.TaskBoard.CheckingTimerFires` | nh/src/components/Tasks.tsx:77-79 | the delayed callback sets the task to 'claiming' and changes no other entry |
| `Tasks.ClaimTwiceFromOneCache` | nh/src/components/Tasks.tsx:82-86 | two claims from one cached record leave only the second reward on the cached points and only the second task appended, while both reward documents are added |
| `Tasks.TabTasks` | nh/src/components/Tasks.tsx:193-194 | a tab lists exactly the tasks of its type |
| `Tasks.TabsPartitionTasks` | nh/src/components/Tasks.tsx:190-194 | the three tabs together list every task exactly once |
| `Tasks.PendingInGameCount` | nh/src/components/Tasks.tsx:176 | the badge counts in-game tasks whose status is not completed; it is at most the number of tasks and is 0 exactly when no in-game task is pending |
| `Tasks.PendingWithinInGameTab` | nh/src/components/Tasks.tsx:176 | the in-game badge (in-game tasks not completed) never exceeds the in-game tab's length |
| `Tasks.CompletingLowersBadge` | nh/src/components/Tasks.tsx:176 | completing a task never raises the badge, and completing a pending in-game task lowers it |

## Left out

- Firebase set-up and the auth wrappers `sendVerificationEmail`, `checkEmailVerification` and `updateUserEmailVerificationStatus` (nh/src/lib/firebase.ts:5-18, 43-70). They are calls into the hosted SDK.
- Store queries, `increment` and merge writes are plain operations on maps. Transactions, replication and the store's own validation are not modelled. One consequence: the store would refuse a merge that carries an undefined `createdAt`. `AuthContext.MergeSession` instead keeps the stored value, which is then missing anyway.
- The order of query results belongs to the store. The referral-code lookup takes it as an input, and the statistics sum visits documents in any order.
- Concurrent calls and interleaving are not modelled. Every operation runs to completion before the next starts.
- Timers: the 5 s claim delay is the separate transition `Tasks.TaskBoard.CheckingTimerFires`. As in the code, it sets 'claiming' whatever the status is when it fires.
- Opening a task's link, console logging, the host's `ready()` signal and all rendering are left out.
- nh/src/context/AuthContext.tsx:80 calls `initializeTelegramWebApp`, but that file does not import it. In the model, session start resolves the identity with `getTelegramUser` only.
- nh/src/components/Tasks.tsx:82 and :90 use `user.uid`, but the context's user has no `uid` field. As written, `doc(db, 'users', user.uid)` fails inside the try block, so every claim ends in the catch with the task still 'claiming'. That is the model's `FailAt(1)` case. For the claim path the code evidently intends, `Tasks.TaskBoard.HandleTaskAction` takes the signed-in user's document id as a parameter.
- Telegram.GetTelegramUser: ids are non-negative whole numbers. Fractional or negative JavaScript numbers are not modelled.
- AuthContext.DecimalString: models `toString` for non-negative whole numbers below 10^21. `toString` writes larger numbers in exponent notation, and that is not modelled.
- AuthContext.GenerateReferralCode: upper-cases ASCII letters only. Full Unicode case mapping, which can change a string's length, is not modelled.
- Points are unbounded integers. Floating-point numbers and NaN are not modelled.
- Dates are a `Time` count supplied by the caller. The reward's ISO date string is that same count.
- Rank display table: nh/src/components/Rank.tsx:3-9 uses names and thresholds that disagree with the ladder at nh/src/lib/firebase.ts:76-79. Only the ladder is modelled.
- The leaderboard, the rewards modal and the sign-up, onboarding and dashboard screens are left out. Their ordering and top-10 selection are store queries, and the rest is display and form validation.
