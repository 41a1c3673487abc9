# Family membership and shopping-list logic of Money Tracker, in Dafny

This project models the parts of the Money Tracker app that carry rules:

- **The callable functions of `functions/index.js`.** These are
  `createFamily`, `joinFamily`, `createInvite`, `leaveFamily`, `removeMember`
  and `disbandFamily`, with their helpers `assertSignedIn` and `inviteCode`.
  - The Firestore database is a value `Store.Db`: users, families, invites,
    the per-user rate-limit documents, and the family-scoped collections.
    A class `Store.Firestore` holds the same maps as mutable fields, and its
    methods are the write primitives.
  - Each handler is a method on a `Firestore`. It is proved to leave exactly
    the state and result given by a pure transition function
    (`FamilyService.CreateFamilyTx`, `JoinFamilyTx`, and so on).
  - The properties are lemmas about these transition functions, in module
    `FamilyServiceProps`. They cover:
    - the order in which the errors are checked;
    - the writes each handler makes, and that nothing else changes;
    - that invites are single-use;
    - the owner-only actions;
    - the ten-minute cooldown and the thirty-minute invite lifetime;
    - the membership invariant `Store.Consistent`: a user's `familyId` and
      the `memberIds` of that family agree.
  - `disbandFamily` is not one transaction. It is a sequence of committed
    writes (`FamilyService.Plan`):
    1. seven batch deletes;
    2. the batch that clears the members' `familyId`;
    3. the deletion of the family document.

    The store can fail at any one of these writes, so an interrupted disband
    and its retry can be stated.
- **The family logic of the Android client, `MainActivity.kt`.** Module
  `FamilyClient` models:
  - the invite-code generator;
  - the create-family button, which makes three chained writes and no
    transaction;
  - the older client-side join transaction;
  - the per-user family-selection cache in the shared preferences, as a
    class `Prefs` over a string map;
  - `updateUserFamily` and the profile sync `updateUserProfile`.

  Module `FamilyClientProps` compares the client paths with the server
  handlers on the same `Db`.
- **The helpers and writes of `ui/MainScreen.kt`.**
  - Module `DocIds`: the document-id normalisation of `suggestionDocId` and
    `budgetDocId`.
  - Module `Labels`: `formatFilterLabel` and `initialsFor`.
  - Module `Shopping`: the item search and status filter, the
    pending/bought split, the status toggle, the date window of
    `filterExpensesByRange`, and the suggestion mapping and ordering.
  - Module `ScreenStore`: the read-modify-write transactions
    `recordSuggestion` and `onSaveBudget`, and the status update of a list
    item. These act on a store of their own, `ScreenDb`, which holds list
    items, suggestions and budgets.
  - Module `ScreenStoreProps`: their properties.

Modules `Text` and `Seqs` hold the string and list functions the source uses:
`trim`, `isBlank`, ASCII `lowercase`, `contains`, `split`, `joinToString`,
`filter` and `map`. Their lemmas are what the other proofs rely on. The two
languages disagree on white space, and the model keeps them apart:

- JavaScript's `trim` (`Text.Trim`, predicate `IsWhitespace`) drops tab,
  line feed, vertical tab, form feed, carriage return and space;
- Kotlin's `trim` and `isBlank` (`Text.KotlinTrim`, predicate
  `IsKotlinWhitespace`) follow Java's `isWhitespace` and also drop
  U+001C to U+001F.

The server handlers use the first, and every client module uses the second.
Both languages' `length` counts UTF-16 code units, so a character beyond
U+FFFF counts two (`Text.Utf16Length`); both join paths check the code's
length that way.

The inputs the code takes from its environment are parameters of every
operation:

- the clock: `now` in epoch milliseconds on the server, a `Timestamp` on the
  client;
- `Math.random()` draws (`seq<real>` in [0, 1)) and `Random.nextInt(32)`
  picks (`seq<int>`);
- the auto-generated id of a new family document;
- the caller's uid, `None` when signed out;
- whether a client write or transaction went through:
  - one flag for each of the three writes of the create-family button;
  - `committed` for the client join transaction, `recordSuggestion` and
    `onSaveBudget`;
  - `updateOk` for the status update and `suggestionCommitted` for the
    suggestion it records;
  - `writeOk` for `updateUserFamily`;
  - `readOk` and `writeOk` for the read and the merge of the profile sync;
- `failAt`, the write of `disbandFamily` at which the store fails, if any.

Server timestamps are the same instant as `now`.

Two points about `disbandFamily` and the data model:

- **Calling `disbandFamily` a second time.** A second call after a completed
  disband fails with `not-found`, because the family document is gone
  (`FamilyServiceProps.DisbandAgainFails`). Only an interrupted disband can
  be finished by calling again. A retry at a later time `t2` leaves the state
  of one disband at `t2`. When the store failed at the very last write, the
  members were already cleared, so their `updatedAt` keeps the time of the
  first call (`FamilyServiceProps.DisbandRetryCompletes`).
- **The membership invariant.** The data model ties a user's `familyId` to
  the `memberIds` of that family (`Store.Consistent`). `leaveFamily` and
  `removeMember` can break it. See "## Findings".

## Model

| member | source | states |
|---|---|---|
| FamilyService.AssertSignedIn | functions/index.js:10-14 | Succeeds exactly for a signed-in caller and yields that caller's uid; otherwise fails with `unauthenticated`. |
| FamilyService.InviteCode | functions/index.js:16-23 | The loop builds a code of exactly eight characters, each from the 32-character alphabet, each chosen by one random draw. |
| FamilyService.CreateFamily | functions/index.js:29-92 | The result and the new database are those of one atomic `createFamilyTx` transition on the old database: the name check, then the transaction's reads, checks and four writes. |
| FamilyService.JoinFamily | functions/index.js:94-150 | The result and the new database are those of the `joinFamily` transition: the length check in UTF-16 code units, then the transaction's checks and its three writes. |
| FamilyService.CreateInvite | functions/index.js:152-181 | The result and the new database are those of the `createInvite` transition: the id, existence and owner checks, then one invite write. |
| FamilyService.LeaveFamily | functions/index.js:183-211 | The result and the new database are those of the `leaveFamily` transition: the checks, then `arrayRemove` on the family and a null `familyId` for the caller. |
| FamilyService.RemoveMember | functions/index.js:213-246 | The result and the new database are those of the `removeMember` transition: the id and self checks before any read, then the owner check and the two writes. |
| FamilyService.Plan | functions/index.js:264-295 | The disband writes, in order: one batch delete for each of lists, listItems, expenses, categories, suggestions, budgets and invites; then the batch that clears members; then the deletion of the family document. |
| FamilyService.PurgeCollections | functions/index.js:264-281 | The loop over the seven collections runs exactly the first writes of the plan. It stops at the failing write when the store fails before the members' batch. |
| FamilyService.RunDisbandWrites | functions/index.js:264-296 | All the writes of the plan are applied in order. When the store fails at write `k`, exactly the first `k` writes stay committed and the call fails. |
| FamilyService.DisbandFamily | functions/index.js:248-297 | The result and the new database are those of the `disbandFamily` transition: the id, existence and owner checks, then the writes of the plan up to the failing one. |
| Store.MillisRoundTrip | functions/index.js:87-91 | `fromMillis` followed by `toMillis` gives back the milliseconds. The stored timestamp holds the floor of the seconds. |
| Store.MergeUser | functions/index.js:76-79 | A merge write replaces each of the six fields it names and keeps each one it does not name, field by field. A missing document merges into an empty one. |
| Store.ArrayUnion | functions/index.js:138-140 | `arrayUnion(x)` holds the old elements and `x`, and adds `x` only when it is absent. |
| Store.ArrayRemove | functions/index.js:201-203 | `arrayRemove(x)` holds exactly the old elements other than `x`. |
| Store.DeleteWhere | functions/index.js:274-280 | A batch delete removes exactly the documents of one collection that reference the family. The documents that stay keep their contents, and every other collection is unchanged. |
| Store.ClearFamilyOfUsers | functions/index.js:283-293 | Each user that points at the family gets a null `familyId` and a new `updatedAt`. Every other user and every other collection is unchanged. |
| FamilyServiceProps.CreateFamilyBlankName | functions/index.js:32-35 | A name that is blank after trimming is refused with `invalid-argument`. The result does not depend on the database, and the database is unchanged. |
| FamilyServiceProps.CreateFamilyErrorOrder | functions/index.js:49-56 | The cooldown is checked before membership. A signed-in caller with a valid name succeeds exactly when neither check fires. |
| FamilyServiceProps.CreateFamilyWrites | functions/index.js:58-84 | A successful creation makes all of these writes together, and no other document changes: a family whose only member and owner is the caller; an unused invite that expires in exactly thirty minutes; the caller's `familyId`; `lastCreatedAt = now`. |
| FamilyServiceProps.CreateFamilyCooldown | functions/index.js:49-52 | A second creation by the same user less than ten minutes after a successful one fails with `resource-exhausted`. |
| FamilyServiceProps.JoinRejectsBadLength | functions/index.js:97-100 | A trimmed code whose length is not 8 UTF-16 code units is refused with `invalid-argument`, whatever is stored, and the database is unchanged. |
| FamilyServiceProps.JoinCountsCodeUnits | functions/index.js:97-100 | `length` counts code units. Six capital letters and one character beyond U+FFFF, an emoji say, pass the length check, and give `not-found` when no such invite exists. Seven capital letters and one such character are refused with `invalid-argument`. |
| FamilyServiceProps.JoinErrorOrder | functions/index.js:110-131 | The six checks in source order, each with its own error: invite missing, no family id, expired strictly before now, already used, caller already in a family, family missing. A redemption succeeds exactly when none fires. |
| FamilyServiceProps.JoinWrites | functions/index.js:132-146 | A successful join writes three whole documents. The invite is the old one with `usedBy` the caller and `usedAt` now. The family is the old one with the caller added to the members as a set union. The caller's user document is the old one merged with the family id and now. It returns the family name, or "Family" when the name is empty. Nothing else changes. |
| FamilyServiceProps.InviteSingleUse | functions/index.js:120-137 | After a successful redemption of a code, every later redemption of it fails with `failed-precondition`. It fails as "Invite already used." unless the invite has expired by then. |
| FamilyServiceProps.ExpiredInviteRefused | functions/index.js:117-119 | An invite whose expiry lies strictly before now is refused as expired, even when it is unused. Nothing changes. |
| FamilyServiceProps.InviteLifetime | functions/index.js:117-119 | An invite written with the thirty-minute lifetime is expired exactly when more than thirty minutes have passed. |
| FamilyServiceProps.OwnerOnlyActions | functions/index.js:165-262 | Anyone but the creator is refused with `permission-denied` by createInvite, removeMember and disbandFamily. The creator is refused by leaveFamily with `failed-precondition`. Each refusal leaves the database unchanged. |
| FamilyServiceProps.RemoveSelfRefused | functions/index.js:221-223 | Removing oneself is refused with `failed-precondition`, whatever the database holds, and the database is unchanged. |
| FamilyServiceProps.CreateInviteWrites | functions/index.js:169-180 | A new invite is a well-formed code, for this family, unused, and expires in thirty minutes. Only that invite document changes. |
| FamilyServiceProps.LeaveAndRemoveWrites | functions/index.js:201-242 | A successful leave or remove writes two whole documents: the family with the target taken out of the members, and the target's user document merged with a null `familyId` and now. Nothing else changes, and no check ties the target to this family. |
| FamilyServiceProps.CreateFamilyKeepsConsistent | functions/index.js:62-82 | createFamily keeps users and families in agreement. |
| FamilyServiceProps.JoinKeepsConsistent | functions/index.js:134-144 | joinFamily keeps users and families in agreement. |
| FamilyServiceProps.CreateInviteKeepsConsistent | functions/index.js:171-178 | createInvite keeps users and families in agreement. |
| FamilyServiceProps.LeaveKeepsConsistent | functions/index.js:201-207 | leaveFamily keeps the agreement when the caller belongs to the named family or to none. |
| FamilyServiceProps.RemoveKeepsConsistent | functions/index.js:236-242 | removeMember keeps the agreement when the removed user belongs to the named family or to none. |
| FamilyServiceProps.StepDoneIsNoOp | functions/index.js:274-295 | Repeating a disband write that has already taken effect changes nothing: the query finds nothing left to delete or clear. |
| FamilyServiceProps.DisbandResumes | functions/index.js:264-295 | After any prefix of the disband writes, running the whole plan again reaches the state one uninterrupted run reaches. |
| FamilyServiceProps.DisbandRetryCompletes | functions/index.js:248-297 | A disband at `t1` that the store interrupts at any write fails. Calling disbandFamily again at `t2` on what it left passes the owner checks and succeeds. When the failure came before the members' batch, the state is that of one disband at `t2`. When it came at the last write, it is that of one disband at `t1`, which differs from one at `t2` only in the members' `updatedAt`. |
| FamilyServiceProps.DisbandFinalState | functions/index.js:264-295 | A completed disband leaves no family document, and no invite, scoped document or user that references the family. The invites and scoped documents are exactly the old ones that do not reference it, with their contents. Every other family is unchanged, users not in the family are unchanged, and the rate-limit documents are unchanged. |
| FamilyServiceProps.DisbandKeepsConsistent | functions/index.js:283-295 | A completed disband keeps users and families in agreement. |
| FamilyServiceProps.DisbandAgainFails | functions/index.js:255-259 | Calling disbandFamily again after a completed disband fails with `not-found` and changes nothing. |
| FamilyServiceProps.RemoveMemberBreaksConsistency | functions/index.js:228-243 | In a consistent database, an owner who removes a member of another family succeeds, and the invariant breaks: that family still lists the user, whose `familyId` is null. |
| FamilyServiceProps.LeaveFamilyBreaksConsistency | functions/index.js:193-208 | In a consistent database, a user who leaves a family others own succeeds, and the invariant breaks: the user's own family still lists them. |
| FamilyServiceProps.CheckedLeaveKeepsConsistent | functions/index.js:193-208 | With the membership check added, leaveFamily keeps the invariant on every input. A member of the named family is handled exactly as before. |
| FamilyServiceProps.CheckedRemoveKeepsConsistent | functions/index.js:228-243 | With the membership check added, removeMember keeps the invariant on every input. A member of the named family is handled exactly as before. |
| FamilyClient.GenerateInviteCode | app/src/main/java/com/moneytracker/MainActivity.kt:260-267 | The `repeat(8)` loop builds a code of eight alphabet characters, one for each pick. |
| FamilyClient.AlphabetShape | app/src/main/java/com/moneytracker/MainActivity.kt:261-261 | The alphabet has 32 distinct characters and none of I, O, 0 or 1. |
| FamilyClient.SameCodesAsServer | app/src/main/java/com/moneytracker/MainActivity.kt:260-267 | The client's codes and the server's `inviteCode` codes are the same set. Picks and draws translate into each other and give the same code. |
| FamilyClient.UpdateUserFamily | app/src/main/java/com/moneytracker/MainActivity.kt:454-469 | A successful write merges the family id and `updatedAt` into the user document. A failed one changes nothing and reports "Failed to save user profile". |
| FamilyClient.ClientCreateFamily | app/src/main/java/com/moneytracker/MainActivity.kt:281-328 | The outcome and the new database are those of the create-button transition: the name check, then the family, invite and user writes chained in that order. A failure stops the chain and reports its message. |
| FamilyClient.ClientJoinFamily | app/src/main/java/com/moneytracker/MainActivity.kt:342-402 | The outcome and the new database are those of the client join transition: the length check in UTF-16 code units after Kotlin's trim, then the reads, the invite and family checks, and the three writes. A transaction that does not commit changes nothing and reports "Failed to join family". |
| FamilyClient.KeysDistinct | app/src/main/java/com/moneytracker/MainActivity.kt:419-420 | No id key is a name key, and two users share a key exactly when they are the same user. |
| FamilyClient.Prefs.Save | app/src/main/java/com/moneytracker/MainActivity.kt:429-444 | Leaves `SavedSelection` of the old entries, the value that SaveThenLoad and SelectionIsolation are about. It stores the family id, and stores the name or removes the stored one when the name is null or blank. No other entry changes. |
| FamilyClient.Prefs.Clear | app/src/main/java/com/moneytracker/MainActivity.kt:446-452 | Leaves `ClearedSelection` of the old entries: exactly the user's two keys are removed, and no other entry changes. |
| FamilyClient.SaveThenLoad | app/src/main/java/com/moneytracker/MainActivity.kt:422-444 | Loading after saving gives back the id, with the name when it is not blank and null otherwise. |
| FamilyClient.ClearThenLoad | app/src/main/java/com/moneytracker/MainActivity.kt:422-452 | Loading after clearing gives nothing. |
| FamilyClient.SelectionIsolation | app/src/main/java/com/moneytracker/MainActivity.kt:419-452 | Saving or clearing for one user leaves every other user's loaded selection unchanged. |
| FamilyClient.ResolveDisplayName | app/src/main/java/com/moneytracker/MainActivity.kt:482-488 | A blank stored name is filled by `displayName ?: email` when that is not blank; otherwise a non-blank sign-in name is written; otherwise nothing. Whatever is written is non-blank, and both directions of when no name is written are given. |
| FamilyClient.BuildProfilePatch | app/src/main/java/com/moneytracker/MainActivity.kt:479-496 | The merge map built one conditional entry at a time is the profile patch: the name rule, email and photo when known, the family id when not blank, `createdAt` only for a new document. |
| FamilyClient.UpdateUserProfile | app/src/main/java/com/moneytracker/MainActivity.kt:471-499 | When the read and the merge both succeed, one sync merges into the user document the patch computed from that user document as it was read. When either fails, nothing changes. |
| FamilyClient.ProfileSyncResult | app/src/main/java/com/moneytracker/MainActivity.kt:479-497 | Gives each field of the synced user document. A blank family id never clears the stored one, and `createdAt` is set only for a new document. |
| FamilyClient.ProfileSyncIdempotent | app/src/main/java/com/moneytracker/MainActivity.kt:471-499 | A second sync with the same user and family changes nothing but `updatedAt`. |
| FamilyClient.BlankSignInNameHidesEmail | app/src/main/java/com/moneytracker/MainActivity.kt:483-488 | A sign-in name made of spaces stops the email from filling a blank stored name, because `?:` only skips null. |
| FamilyClientProps.ClientCreateChecksOnlyName | app/src/main/java/com/moneytracker/MainActivity.kt:282-327 | The client hands on a family exactly when the trimmed name is not empty and the first two writes succeed. It has no cooldown and no "already in a family" check. |
| FamilyClientProps.ClientCreateWrites | app/src/main/java/com/moneytracker/MainActivity.kt:287-313 | The caller is the only member and the owner. The invite is unused and expires 1800 seconds later, the server's thirty minutes. The caller's `familyId` is set when the third write succeeds, and no rate-limit document is written. |
| FamilyClientProps.ClientCreateCanLeaveUserUnlinked | app/src/main/java/com/moneytracker/MainActivity.kt:308-320 | If the user write fails, the family is still handed on, and users and families stop agreeing. |
| FamilyClientProps.ClientCreateCanLeaveOrphanFamily | app/src/main/java/com/moneytracker/MainActivity.kt:308-323 | If the invite write fails, a family with no invite and no user pointing at it stays behind, and nothing is handed on. |
| FamilyClientProps.ClientCreateAndMembership | app/src/main/java/com/moneytracker/MainActivity.kt:294-313 | A client create whose writes all succeed keeps the agreement exactly when the caller was in no family. |
| FamilyClientProps.ClientExpiryIsThirtyMinutes | app/src/main/java/com/moneytracker/MainActivity.kt:290-292 | The client expiry is thirty minutes in milliseconds, and the server calls it expired exactly after that. |
| FamilyClientProps.ServerJoinImpliesClientJoin | app/src/main/java/com/moneytracker/MainActivity.kt:351-393 | In a database whose invites are keyed by generated codes, whatever joinFamily accepts, the committed client transaction accepts with the same writes. The returned name differs only for a family whose name is the empty string. |
| FamilyClientProps.ClientJoinSkipsMembershipCheck | app/src/main/java/com/moneytracker/MainActivity.kt:351-393 | In a database whose invites are keyed by generated codes, a caller whom the server refuses as already in a family is let in by the client. That breaks the agreement when the caller was in another family. |
| FamilyClientProps.ClientJoinLooserChecks | app/src/main/java/com/moneytracker/MainActivity.kt:356-371 | The client accepts two invites that joinFamily refuses: one whose `usedBy` is made of spaces, and one that expired earlier in the current second. |
| FamilyClientProps.ClientInviteSingleUse | app/src/main/java/com/moneytracker/MainActivity.kt:365-379 | Once the client transaction has redeemed a code, every later client redemption of it fails, as used or as expired. |
| FamilyClientProps.ClientCountsCodeUnits | app/src/main/java/com/moneytracker/MainActivity.kt:343-347 | Kotlin's `length` counts code units too. Six capital letters and one character beyond U+FFFF pass the client's length check. Seven capital letters and one such character get "Enter 8-character code", and nothing changes. |
| FamilyClientProps.CodeTrimsAlike | app/src/main/java/com/moneytracker/MainActivity.kt:343-347 | A code drawn from the alphabet, with any white space around it, is trimmed alike by Kotlin and by JavaScript. |
| FamilyClientProps.ClientTrimsMore | app/src/main/java/com/moneytracker/MainActivity.kt:343-347 | A well-formed code with U+001F in front is refused by joinFamily for its length, and the client redeems it as the bare code. |
| DocIds.Normalize | app/src/main/java/com/moneytracker/ui/MainScreen.kt:2434-2434 | The normalised text has only [a-z0-9_], no doubled `_`, and no `_` at either end. |
| DocIds.CollapseShape | app/src/main/java/com/moneytracker/ui/MainScreen.kt:2434-2434 | The regex replacement yields only [a-z0-9_] with no doubled `_`. It is empty exactly for empty input and starts with `_` exactly when the input starts outside [a-z0-9]. |
| DocIds.TrimIrrelevant | app/src/main/java/com/moneytracker/ui/MainScreen.kt:2434-2434 | The leading `trim()` does not change the result. |
| DocIds.NormalizeEmpty | app/src/main/java/com/moneytracker/ui/MainScreen.kt:2434-2435 | The result is empty, and the fallback word is used, exactly when the input has no ASCII letter or digit. |
| DocIds.CaseInsensitive | app/src/main/java/com/moneytracker/ui/MainScreen.kt:2434-2434 | Inputs that differ only in ASCII case give the same result. |
| DocIds.RunInsensitive | app/src/main/java/com/moneytracker/ui/MainScreen.kt:2434-2434 | Inputs that differ only in one non-empty run of characters outside [A-Za-z0-9] give the same result. |
| DocIds.NormalizeIdempotent | app/src/main/java/com/moneytracker/ui/MainScreen.kt:2434-2434 | Normalising twice is the same as normalising once. |
| DocIds.SuggestionDocIdFacts | app/src/main/java/com/moneytracker/ui/MainScreen.kt:2433-2437 | The id is the family id, `_`, and a part over [a-z0-9_] with no `_` at either end or doubled. The part is "item" exactly for names with no ASCII letter or digit. Names equal up to case and surrounding white space share the id. |
| DocIds.BudgetDocIdFacts | app/src/main/java/com/moneytracker/ui/MainScreen.kt:2439-2443 | The id is the family id, `_`, the period, `_`, and the same normalised part with "general" as the fallback. Categories equal up to case and surrounding white space share the id. |
| DocIds.GeneralBudgetDoc | app/src/main/java/com/moneytracker/ui/MainScreen.kt:741-741 | The default category "General" is stored at `<family>_<period>_general`. |
| DocIds.SuggestionRunsShareDoc | app/src/main/java/com/moneytracker/ui/MainScreen.kt:2433-2437 | Two names that differ only in one separator run share one suggestion id. |
| DocIds.BudgetRunsShareDoc | app/src/main/java/com/moneytracker/ui/MainScreen.kt:2439-2443 | Two categories that differ only in one separator run share one budget id. |
| Labels.Capitalize | app/src/main/java/com/moneytracker/ui/MainScreen.kt:2451-2451 | The same length; only the first character is upper-cased. |
| Labels.FilterLabelFacts | app/src/main/java/com/moneytracker/ui/MainScreen.kt:2446-2453 | The label has no `_`. It is empty exactly when the key is made of `_` and white space. For a key without spaces, splitting the label at spaces gives back its non-blank pieces, each with its first letter upper-cased. |
| Labels.TwoWordLabel | app/src/main/java/com/moneytracker/ui/MainScreen.kt:2446-2453 | A key `a_b` of two non-blank words becomes `A B`: the two capitalised words joined by one space. |
| Labels.InitialsFacts | app/src/main/java/com/moneytracker/ui/MainScreen.kt:2455-2459 | A blank name shows "-". Any other name shows one or two letters, the first being its first non-space character upper-cased, and two exactly when it has at least two words. The second is the first character of the second word, upper-cased. |
| Shopping.FilteredItemsFacts | app/src/main/java/com/moneytracker/ui/MainScreen.kt:1201-1214 | The shown items are, in order, exactly the items of the selected list that match both the query and the status filter. |
| Shopping.StatusFilterFacts | app/src/main/java/com/moneytracker/ui/MainScreen.kt:1206-1212 | "todo" accepts exactly the items whose status is "todo" or missing, and "assigned" exactly the caller's items. Any other key accepts every item, so only the query filters. |
| Shopping.QueryFacts | app/src/main/java/com/moneytracker/ui/MainScreen.kt:1203-1205 | The search ignores ASCII case and the white space around the query. A blank query matches everything, and a query matches every name in which its lower-cased form occurs. |
| Shopping.SectionsPartition | app/src/main/java/com/moneytracker/ui/MainScreen.kt:1215-1216 | The pending and bought sections partition the shown items, with multiplicity. An item is in the bought section exactly when its status is "bought". |
| Shopping.ToggleFacts | app/src/main/java/com/moneytracker/ui/MainScreen.kt:1315-1316 | A tap moves an item to the other section. A second tap brings a bought item back to "bought" and any other item to "todo". |
| Shopping.ExpenseWindowFacts | app/src/main/java/com/moneytracker/ui/MainScreen.kt:2415-2419 | Keeps, in order, exactly the expenses dated at or after the cutoff: 7 days back for "weekly", 30 days for any other range. An expense without a date counts as second 0. |
| Shopping.WeeklyWithinMonthly | app/src/main/java/com/moneytracker/ui/MainScreen.kt:2415-2419 | The weekly window is the monthly window with the older expenses removed. |
| Shopping.SortSuggestions | app/src/main/java/com/moneytracker/ui/MainScreen.kt:355-358 | The result is sorted by count descending, then by purchase second descending, and is a permutation of the input. |
| Shopping.SortStable | app/src/main/java/com/moneytracker/ui/MainScreen.kt:355-358 | Suggestions with equal count and purchase second keep their snapshot order. |
| Shopping.SuggestionsFacts | app/src/main/java/com/moneytracker/ui/MainScreen.kt:345-358 | The list is exactly the documents that have an `itemName`, each once, with a missing count read as 0. It is ranked, a permutation of those documents, and keeps ties in snapshot order. |
| ScreenStore.ScreenStore.RecordSuggestion | app/src/main/java/com/moneytracker/ui/MainScreen.kt:2525-2553 | The read-modify-write leaves exactly the state of the `recordSuggestion` transition on the old state. |
| ScreenStore.ScreenStore.ToggleStatus | app/src/main/java/com/moneytracker/ui/MainScreen.kt:635-662 | The update and the suggestion it triggers leave exactly the result and state of the status-tap transition. |
| ScreenStore.ScreenStore.SaveBudget | app/src/main/java/com/moneytracker/ui/MainScreen.kt:730-765 | The checks and the transaction leave exactly the result and state of the `onSaveBudget` transition. |
| ScreenStoreProps.BumpedSuggestionFacts | app/src/main/java/com/moneytracker/ui/MainScreen.kt:2538-2549 | The merged document's count is one more than the stored count, or 1 when none is stored. The name, family and times are overwritten. The creation fields are kept for an existing document and set for a new one. |
| ScreenStoreProps.RecordSuggestionSkips | app/src/main/java/com/moneytracker/ui/MainScreen.kt:2531-2534 | A name that is empty after trimming, or a transaction that does not go through, writes nothing. |
| ScreenStoreProps.RecordSuggestionFacts | app/src/main/java/com/moneytracker/ui/MainScreen.kt:2531-2550 | Otherwise exactly one suggestion document changes, the one at the name's id. Its count goes up by one, it holds the trimmed name, family and purchase time, and its creation fields follow the rule above. Items and budgets are unchanged. |
| ScreenStoreProps.RecordVariantsShareCounter | app/src/main/java/com/moneytracker/ui/MainScreen.kt:2531-2550 | Two non-blank names equal up to case and surrounding white space count on one document. Recording both adds two; the creation fields come from the first write and the spelling from the second. |
| ScreenStoreProps.RecordKeepsWellKeyed | app/src/main/java/com/moneytracker/ui/MainScreen.kt:2536-2550 | Recording keeps every suggestion at the id of its own family and name, and every budget at the id of its own family, category and period. |
| ScreenStoreProps.ToggleKeepsWellKeyed | app/src/main/java/com/moneytracker/ui/MainScreen.kt:635-662 | A status tap keeps the documents at their own ids. |
| ScreenStoreProps.SaveBudgetKeepsWellKeyed | app/src/main/java/com/moneytracker/ui/MainScreen.kt:741-757 | Saving a budget keeps the documents at their own ids. |
| ScreenStoreProps.ToggleFacts | app/src/main/java/com/moneytracker/ui/MainScreen.kt:635-662 | A failed update changes nothing and reports "Failed to update status". A successful one sets the item's status and update time, sets `lastBoughtAt` to now on a tick and keeps it on an untick, and keeps the item's other fields. The other items are unchanged. It records a suggestion exactly when the item was not bought and the family id is not blank, and budgets never change. |
| ScreenStoreProps.TickCountsPurchase | app/src/main/java/com/moneytracker/ui/MainScreen.kt:640-653 | Ticking off a pending item adds one to its suggestion's count. Unticking a bought item sets it to "todo" and leaves the suggestions alone. |
| ScreenStoreProps.SaveBudgetErrors | app/src/main/java/com/moneytracker/ui/MainScreen.kt:731-764 | The checks in order: a missing or non-positive limit, then a blank family id, then a failed transaction. Each leaves the store unchanged, and a save succeeds exactly when all pass. |
| ScreenStoreProps.SaveBudgetWrites | app/src/main/java/com/moneytracker/ui/MainScreen.kt:741-757 | A successful save writes one document, at the id of the trimmed category, or of "General" when it is blank. Its fields are overwritten and its creation fields kept if it existed. Everything else is unchanged. |
| ScreenStoreProps.BlankCategoryIsGeneral | app/src/main/java/com/moneytracker/ui/MainScreen.kt:731-731 | A blank category is saved as "General" at the family's `<period>_general` document. |
| ScreenStoreProps.ResaveUpdatesSameBudget | app/src/main/java/com/moneytracker/ui/MainScreen.kt:741-757 | Saving again under a category equal up to case and surrounding white space updates the same document. No budget is added, the first save's creation fields stay, and the new limit replaces the old one. |
| ScreenStoreProps.SameBudgetCategory | app/src/main/java/com/moneytracker/ui/MainScreen.kt:2439-2443 | Categories equal up to case and surrounding white space share a budget id. |

## Left out

- The Jetpack Compose UI is not modelled: composables, dialogs, tabs, toasts and the clipboard. It only renders. The client's failure messages are returned as strings instead of being shown.
- Snapshot listeners and their query fallbacks, offline persistence, callable-function plumbing and sign-in are Firebase SDK machinery. The listeners' results are the inputs of the screen functions, and the caller's uid is a parameter.
- The cached family load of the main activity (MainActivity.kt:96-131) is composable control flow over the selection cache. The cache itself is modelled.
- Concurrency and transaction retries are not modelled. The store serialises transactions, so two racing calls are two calls in sequence.
- `Math.random`, `Random.nextInt`, `Date.now()`, `Timestamp.now()`, server timestamps and auto-generated document ids become parameters. A server timestamp is the caller's `now`.
- Collisions between a new invite code and an existing invite are not modelled. The code is a parameter, and `set` overwrites whatever is there, as in the source.
- `e.message` from the SDK is not modelled. Each client failure that is modelled reports the fallback message the code gives.
- Store failures in the server handlers `createFamily`, `joinFamily`, `leaveFamily`, `removeMember` and `createInvite` are not modelled. A failed transaction there (index.js:43, 105, 193, 228), or a rejected `familyRef.get()` or invite `set` in `createInvite` (index.js:161, 171), makes the callable answer `internal` and write nothing. These handlers have no such outcome in the model. Only `disbandFamily` can fail in the model: `failAt` names the write at which it stops with `internal`, keeping the writes before it. A failed query of `disbandFamily` (index.js:275, 283) leaves the same state as a failure at the next write. A failed read of the family document (index.js:256) answers `internal` before any check, and the model does not give that outcome.
- FamilyServiceProps.CreateFamilyErrorOrder: "succeeds exactly when none of its checks fires" holds for a store that answers. A failed transaction also refuses the call, with `internal`.
- FamilyServiceProps.JoinErrorOrder: "succeeds exactly when none of the six checks fires" holds for a store that answers. A failed transaction also refuses the call, with `internal`.
- Double arithmetic is left out: `sumByCategory`, the totals, budget use and `"%.2f"`. The parsed budget limit is a `real` compared only with zero, and `toDoubleOrNull` is a parameter.
- ScreenStoreProps.SaveBudgetErrors: "succeeds exactly when the limit is positive" holds for real limits only. `"NaN".toDoubleOrNull()` gives NaN, and `NaN <= 0` is false, so the source saves a NaN limit, and it saves `Infinity` too. A `real` can carry neither value.
- `formatTimestamp` is left out: it depends on the locale.
- Unicode case mapping and white space are not modelled. `lowercase` and `uppercase` cover ASCII letters only. Trimming and `isBlank` cover the ASCII white space of each language, JavaScript's six characters and Kotlin's ten, and none beyond ASCII.
- Labels.InitialsFacts: Kotlin's `firstOrNull()` and `replaceFirstChar` take the first UTF-16 code unit of a word. For a word that starts with a character beyond U+FFFF, that is a lone surrogate, and Dafny's `char` cannot hold one. The model takes the whole character. The two agree for every character up to U+FFFF. Labels.Capitalize and Labels.FilterLabelFacts have the same gap.
- Document ids are opaque map keys. The SDKs reject a path segment that contains `/`: the Admin SDK's `doc()` throws, so the callable answers `internal`, and Android's `document()` throws in the click handler. That path validation is not modelled. A `familyId`, `memberId` or code containing `/` is a plain key here: for example, an owner's `removeMember("F1", "x/y")` succeeds and writes `users["x/y"]` (FamilyServiceProps.LeaveAndRemoveWrites).
- The "members.size == 1" gate on the disband button is UI-only. The server does not enforce it.
- ScreenStoreProps.RecordSuggestionFacts: `count` is an unbounded integer here. Kotlin's `Long` would wrap at 2^63, a bound no counter reaches.
- Store.MergeUser: the patch carries only the fields the family logic writes: `familyId`, `displayName`, `email`, `photoUrl`, `createdAt` and `updatedAt`.

## Findings

| source | as written | input that shows it | evidently intended | confidence | as-written member | corrected member |
|---|---|---|---|---|---|---|
| functions/index.js:183-211 | `leaveFamily` removes the caller from the named family and nulls the caller's `familyId`. It never checks that this `familyId` was the named family. | Users O (owner of F1), and P and M (both in F2, owned by P). M calls `leaveFamily("F1")`: it succeeds, F2 still lists M, and M's `familyId` is null. | Refuse a caller who does not belong to the named family, so the user ⇄ family agreement always holds. | not executed | FamilyServiceProps.LeaveFamilyBreaksConsistency | FamilyServiceProps.CheckedLeaveKeepsConsistent |
| functions/index.js:213-246 | `removeMember` nulls the target's `familyId` whatever family the target belongs to. | The same users. O calls `removeMember("F1", "M")`: it succeeds, F2 still lists M, and M's `familyId` is null. | Refuse to remove a user who does not belong to the named family. | not executed | FamilyServiceProps.RemoveMemberBreaksConsistency | FamilyServiceProps.CheckedRemoveKeepsConsistent |
