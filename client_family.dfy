/** The family logic of the Android client (MainActivity.kt): its own
    invite-code generator, the create-family path (three separate writes,
    no transaction), the legacy join transaction, the per-user selection
    cache in shared preferences, and the profile sync that runs after
    sign-in. The client writes the same documents as the server, so it acts
    on the same `Firestore` object. The clock (`Timestamp.now()`, also used
    for server timestamps), `Random.nextInt` (`picks`), the generated
    document id and the outcome of each non-transactional write are
    parameters. */
module FamilyClient {
  import opened Wrappers
  import opened Text
  import opened Store
  import opened FamilyService

  // ---------------------------------------------------------------------
  // generateInviteCode
  // ---------------------------------------------------------------------

  /** Eight results of `Random.nextInt(32)`. */
  predicate ValidPicks(picks: seq<int>) {
    |picks| == CodeLength && forall i :: 0 <= i < |picks| ==> 0 <= picks[i] < |Alphabet|
  }

  /** The code built from eight picks. */
  function ClientCodeOf(picks: seq<int>): string
    requires ValidPicks(picks)
  {
    seq(CodeLength, i requires 0 <= i < CodeLength => Alphabet[picks[i]])
  }

  /** `generateInviteCode`: appends one alphabet character eight times. */
  method GenerateInviteCode(picks: seq<int>) returns (code: string)
    requires ValidPicks(picks)
    ensures WellFormedCode(code)
    ensures code == ClientCodeOf(picks)
  {
    code := "";
    var i := 0;
    while i < CodeLength
      invariant 0 <= i <= CodeLength
      invariant |code| == i
      invariant forall j :: 0 <= j < i ==> code[j] == Alphabet[picks[j]]
    {
      code := code + [Alphabet[picks[i]]];
      i := i + 1;
    }
  }

  /** The alphabet has 32 distinct characters and none of I, O, 0, 1. */
  lemma AlphabetShape()
    ensures |Alphabet| == 32
    ensures 'I' !in Alphabet && 'O' !in Alphabet && '0' !in Alphabet && '1' !in Alphabet
    ensures forall i, j :: 0 <= i < j < |Alphabet| ==> Alphabet[i] != Alphabet[j]
  {
    forall i | 0 <= i < |Alphabet|
      ensures AlphabetIndex(Alphabet[i]) == i
    {
      if i < 8 {
      } else if i < 13 {
      } else if i < 24 {
      } else {
      }
    }
  }

  /** The position of an alphabet character, computed from its code. */
  function AlphabetIndex(c: char): int {
    if 'A' <= c <= 'H' then c as int - 'A' as int
    else if 'J' <= c <= 'N' then c as int - 'J' as int + 8
    else if 'P' <= c <= 'Z' then c as int - 'P' as int + 13
    else c as int - '2' as int + 24
  }

  /** The client and the server draw codes from the same set: every code
      the client can generate is one the server's `inviteCode` can
      generate, and conversely. */
  lemma SameCodesAsServer(picks: seq<int>, draws: seq<real>)
    requires ValidPicks(picks) && ValidDraws(draws)
    ensures var asDraws := seq(CodeLength, i requires 0 <= i < CodeLength => picks[i] as real / 32.0);
      ValidDraws(asDraws) && CodeOf(asDraws) == ClientCodeOf(picks)
    ensures var asPicks := seq(CodeLength, i requires 0 <= i < CodeLength => Pick(draws[i]) as int);
      ValidPicks(asPicks) && ClientCodeOf(asPicks) == CodeOf(draws)
  {
    var asDraws := seq(CodeLength, i requires 0 <= i < CodeLength => picks[i] as real / 32.0);
    forall i | 0 <= i < CodeLength
      ensures Pick(asDraws[i]) == picks[i]
    {
      assert asDraws[i] * 32.0 == picks[i] as real;
    }
  }

  // ---------------------------------------------------------------------
  // Messages shown by the family screen
  // ---------------------------------------------------------------------

  const EnterFamilyName := "Enter a family name"
  const FailedToCreateFamily := "Failed to create family"
  const FailedToCreateInvite := "Failed to create invite"
  const FailedToSaveProfile := "Failed to save user profile"
  const EnterCode := "Enter 8-character code"
  const ClientInviteNotFound := "Invite code not found"
  const ClientInvalidInvite := "Invalid invite code"
  const ClientInviteExpired := "Invite code expired"
  const ClientInviteUsed := "Invite code already used"
  const FailedToJoin := "Failed to join family"

  /** The pair given to `onFamilyReady`. */
  datatype Selection = Selection(familyId: string, familyName: string)

  /** What the create button leads to: the family handed to `onFamilyReady`
      (if any) and the error messages shown, in order. */
  datatype CreateOutcome = CreateOutcome(ready: Option<Selection>, errors: seq<string>)

  /** Thirty minutes later, at the same nanosecond. */
  function ClientExpiry(now: Timestamp): Timestamp {
    Timestamp(now.seconds + 1800, now.nanos)
  }

  // ---------------------------------------------------------------------
  // Create family: three writes, each of which can fail on its own
  // ---------------------------------------------------------------------

  /** The outcome of the create button, given whether the family write,
      the invite write and the user write succeed. A failed write changes
      nothing; the writes before it stay. */
  function ClientCreateFamilyTx(db: Db, userId: string, input: string, now: Timestamp, familyId: string, code: string,
                                familyWriteOk: bool, inviteWriteOk: bool, userWriteOk: bool): (CreateOutcome, Db)
  {
    var name := KotlinTrim(input);
    if name == [] then (CreateOutcome(None, [EnterFamilyName]), db)
    else if !familyWriteOk then (CreateOutcome(None, [FailedToCreateFamily]), db)
    else
      var db1 := db.(families := db.families[familyId := FamilyDoc(Some(name), [userId], Some(userId), Some(now))]);
      if !inviteWriteOk then (CreateOutcome(None, [FailedToCreateInvite]), db1)
      else
        var db2 := db1.(invites := db1.invites[code := InviteDoc(Some(familyId), Some(userId), Some(ClientExpiry(now)), None, None, None)]);
        if userWriteOk then (CreateOutcome(Some(Selection(familyId, name)), []), WithUserMerged(db2, userId, FamilyPatch(Some(familyId), now)))
        else (CreateOutcome(Some(Selection(familyId, name)), [FailedToSaveProfile]), db2)
  }

  /** `updateUserFamily`: a merge write of the family id whose failure only
      shows a message. */
  method UpdateUserFamily(store: Firestore, userId: string, familyId: string, now: Timestamp, writeOk: bool)
    returns (errors: seq<string>)
    modifies store
    ensures writeOk ==> store.State() == WithUserMerged(old(store.State()), userId, FamilyPatch(Some(familyId), now)) && errors == []
    ensures !writeOk ==> store.State() == old(store.State()) && errors == [FailedToSaveProfile]
  {
    if writeOk {
      store.MergeUserDoc(userId, FamilyPatch(Some(familyId), now));
      errors := [];
    } else {
      errors := [FailedToSaveProfile];
    }
  }

  method ClientCreateFamily(store: Firestore, userId: string, input: string, now: Timestamp, familyId: string,
                            picks: seq<int>, familyWriteOk: bool, inviteWriteOk: bool, userWriteOk: bool)
    returns (out: CreateOutcome)
    requires ValidPicks(picks)
    modifies store
    ensures (out, store.State()) ==
            ClientCreateFamilyTx(old(store.State()), userId, input, now, familyId, ClientCodeOf(picks),
                                 familyWriteOk, inviteWriteOk, userWriteOk)
  {
    var name := KotlinTrim(input);
    if name == [] {
      return CreateOutcome(None, [EnterFamilyName]);
    }
    var inviteCode := GenerateInviteCode(picks);
    var expiresAt := ClientExpiry(now);
    if !familyWriteOk {
      return CreateOutcome(None, [FailedToCreateFamily]);
    }
    store.SetFamily(familyId, FamilyDoc(Some(name), [userId], Some(userId), Some(now)));
    if !inviteWriteOk {
      return CreateOutcome(None, [FailedToCreateInvite]);
    }
    store.SetInvite(inviteCode, InviteDoc(Some(familyId), Some(userId), Some(expiresAt), None, None, None));
    var errors := UpdateUserFamily(store, userId, familyId, now, userWriteOk);
    out := CreateOutcome(Some(Selection(familyId, name)), errors);
  }

  // ---------------------------------------------------------------------
  // Join family: the legacy client transaction
  // ---------------------------------------------------------------------

  /** The client's expiry test compares whole seconds only. */
  predicate ClientExpired(inv: InviteDoc, now: Timestamp) {
    inv.expiresAt.Some? && inv.expiresAt.value.seconds < now.seconds
  }

  /** `getString("name") ?: "Family"`: an empty name is kept. */
  function ClientFamilyName(f: Option<FamilyDoc>): string {
    if f.Some? && f.value.name.Some? then f.value.name.value else "Family"
  }

  /** The client join transaction; `committed` says whether the store
      accepted its commit. A transaction that fails leaves the store as it
      was and shows "Failed to join family". */
  function ClientJoinFamilyTx(db: Db, userId: string, input: string, now: Timestamp, committed: bool)
    : (Result<Selection, string>, Db)
  {
    var code := KotlinTrim(input);
    if Utf16Length(code) != CodeLength then (Err(EnterCode), db)
    else if code !in db.invites then (Err(ClientInviteNotFound), db)
    else
      var inv := db.invites[code];
      if IsNullOrEmpty(inv.familyId) then (Err(ClientInvalidInvite), db)
      else if ClientExpired(inv, now) then (Err(ClientInviteExpired), db)
      else if !IsNullOrBlank(inv.usedBy) then (Err(ClientInviteUsed), db)
      else
        var familyId := inv.familyId.value;
        // `update` of a family document that does not exist fails the transaction
        if familyId !in db.families || !committed then (Err(FailedToJoin), db)
        else
          var fam := db.families[familyId];
          var db1 := db.(invites := db.invites[code := inv.(usedBy := Some(userId), usedAt := Some(now))]);
          var db2 := db1.(families := db1.families[familyId := fam.(memberIds := ArrayUnion(fam.memberIds, userId))]);
          (Ok(Selection(familyId, ClientFamilyName(Some(fam)))), WithUserMerged(db2, userId, FamilyPatch(Some(familyId), now)))
  }

  method ClientJoinFamily(store: Firestore, userId: string, input: string, now: Timestamp, committed: bool)
    returns (r: Result<Selection, string>)
    modifies store
    ensures (r, store.State()) == ClientJoinFamilyTx(old(store.State()), userId, input, now, committed)
  {
    var code := KotlinTrim(input);
    if Utf16Length(code) != CodeLength {
      return Err(EnterCode);
    }
    var inviteSnap := Lookup(store.invites, code);
    if inviteSnap.None? {
      return Err(ClientInviteNotFound);
    }
    var inv := inviteSnap.value;
    if IsNullOrEmpty(inv.familyId) {
      return Err(ClientInvalidInvite);
    }
    if ClientExpired(inv, now) {
      return Err(ClientInviteExpired);
    }
    if !IsNullOrBlank(inv.usedBy) {
      return Err(ClientInviteUsed);
    }
    var familyId := inv.familyId.value;
    var familySnap := Lookup(store.families, familyId);
    var familyName := ClientFamilyName(familySnap);
    if familySnap.None? || !committed {
      return Err(FailedToJoin);
    }
    store.MarkInviteUsed(code, userId, now);
    store.AddMember(familyId, userId);
    store.MergeUserDoc(userId, FamilyPatch(Some(familyId), now));
    r := Ok(Selection(familyId, familyName));
  }

  // ---------------------------------------------------------------------
  // The family-selection cache
  // ---------------------------------------------------------------------

  function FamilyIdKey(userId: string): string {
    "familyId:" + userId
  }

  function FamilyNameKey(userId: string): string {
    "familyName:" + userId
  }

  /** No id key is a name key, and each user has their own keys. */
  lemma KeysDistinct(u: string, v: string)
    ensures FamilyIdKey(u) != FamilyNameKey(v)
    ensures FamilyIdKey(u) == FamilyIdKey(v) <==> u == v
    ensures FamilyNameKey(u) == FamilyNameKey(v) <==> u == v
  {
    assert FamilyIdKey(u)[6] == 'I' && FamilyNameKey(v)[6] == 'N';
    if FamilyIdKey(u) == FamilyIdKey(v) {
      assert u == FamilyIdKey(u)[9..] && v == FamilyIdKey(v)[9..];
    }
    if FamilyNameKey(u) == FamilyNameKey(v) {
      assert u == FamilyNameKey(u)[11..] && v == FamilyNameKey(v)[11..];
    }
  }

  /** `loadFamilySelection` over the stored strings: nothing without an id,
      otherwise the id and the name if one is stored. */
  function LoadSelection(entries: map<string, string>, userId: string): Option<(string, Option<string>)> {
    if FamilyIdKey(userId) !in entries then None
    else Some((entries[FamilyIdKey(userId)], Lookup(entries, FamilyNameKey(userId))))
  }

  /** The shared preferences of the app: a string-to-string map that the
      editor methods update. */
  class Prefs {
    var entries: map<string, string>

    constructor ()
      ensures entries == map[]
    {
      entries := map[];
    }

    function Load(userId: string): Option<(string, Option<string>)>
      reads this
    {
      LoadSelection(entries, userId)
    }

    /** `saveFamilySelection`: stores the id; stores the name, or removes a
        stored one when the name is null or blank. */
    method Save(userId: string, familyId: string, familyName: Option<string>)
      modifies this
      ensures entries == SavedSelection(old(entries), userId, familyId, familyName)
      ensures FamilyIdKey(userId) in entries && entries[FamilyIdKey(userId)] == familyId
      ensures FamilyNameKey(userId) in entries <==> !IsNullOrBlank(familyName)
      ensures !IsNullOrBlank(familyName) ==> entries[FamilyNameKey(userId)] == familyName.value
      ensures forall k :: k != FamilyIdKey(userId) && k != FamilyNameKey(userId) ==> Lookup(entries, k) == Lookup(old(entries), k)
    {
      KeysDistinct(userId, userId);
      entries := entries[FamilyIdKey(userId) := familyId];
      if IsNullOrBlank(familyName) {
        entries := entries - {FamilyNameKey(userId)};
      } else {
        entries := entries[FamilyNameKey(userId) := familyName.value];
      }
    }

    /** `clearFamilySelection`: removes both keys of the user. */
    method Clear(userId: string)
      modifies this
      ensures entries == ClearedSelection(old(entries), userId)
      ensures FamilyIdKey(userId) !in entries && FamilyNameKey(userId) !in entries
      ensures forall k :: k != FamilyIdKey(userId) && k != FamilyNameKey(userId) ==> Lookup(entries, k) == Lookup(old(entries), k)
    {
      entries := entries - {FamilyIdKey(userId)};
      entries := entries - {FamilyNameKey(userId)};
    }
  }

  /** What `Prefs.Save` leaves, as a value. */
  function SavedSelection(entries: map<string, string>, userId: string, familyId: string, familyName: Option<string>)
    : map<string, string>
  {
    if IsNullOrBlank(familyName)
    then entries[FamilyIdKey(userId) := familyId] - {FamilyNameKey(userId)}
    else entries[FamilyIdKey(userId) := familyId][FamilyNameKey(userId) := familyName.value]
  }

  /** What `Prefs.Clear` leaves, as a value. */
  function ClearedSelection(entries: map<string, string>, userId: string): map<string, string> {
    entries - {FamilyIdKey(userId), FamilyNameKey(userId)}
  }

  /** Saving then loading for the same user gives back the id, and the name
      exactly when it is not blank. */
  lemma SaveThenLoad(entries: map<string, string>, userId: string, familyId: string, familyName: Option<string>)
    ensures LoadSelection(SavedSelection(entries, userId, familyId, familyName), userId)
            == Some((familyId, if IsNullOrBlank(familyName) then None else familyName))
  {
    KeysDistinct(userId, userId);
  }

  /** After clearing, nothing is loaded for that user. */
  lemma ClearThenLoad(entries: map<string, string>, userId: string)
    ensures LoadSelection(ClearedSelection(entries, userId), userId) == None
  {
  }

  /** Saving or clearing for one user leaves every other user's selection as
      it was. */
  lemma SelectionIsolation(entries: map<string, string>, u: string, v: string, familyId: string, familyName: Option<string>)
    requires u != v
    ensures LoadSelection(SavedSelection(entries, u, familyId, familyName), v) == LoadSelection(entries, v)
    ensures LoadSelection(ClearedSelection(entries, u), v) == LoadSelection(entries, v)
  {
    KeysDistinct(u, v);
    KeysDistinct(v, u);
  }

  // ---------------------------------------------------------------------
  // updateUserProfile
  // ---------------------------------------------------------------------

  /** The signed-in Firebase user. */
  datatype AuthUser = AuthUser(uid: string, displayName: Option<string>, email: Option<string>, photoUrl: Option<string>)

  /** The display name the profile sync writes, `None` when it writes none:
      the sign-in name (or the email when there is no name) fills a blank
      stored name; otherwise a non-blank sign-in name replaces it. */
  function ResolveDisplayName(stored: Option<string>, user: AuthUser): (r: Option<string>)
    ensures r.Some? ==> !IsBlank(r.value) && (r == user.displayName || r == user.email)
    ensures !IsNullOrBlank(user.displayName) ==> r == user.displayName
    ensures r.Some? && r != user.displayName ==> user.displayName.None? && IsNullOrBlank(stored) && r == user.email
    ensures r.None? <==> IsNullOrBlank(user.displayName) &&
                         !(user.displayName.None? && IsNullOrBlank(stored) && !IsNullOrBlank(user.email))
  {
    var resolved := if user.displayName.Some? then user.displayName else user.email;
    if IsNullOrBlank(stored) && !IsNullOrBlank(resolved) then resolved
    else if !IsNullOrBlank(user.displayName) then user.displayName
    else None
  }

  /** The merge written by one profile sync for `existing` (the user
      document, if it exists). */
  function ProfilePatch(existing: Option<UserDoc>, user: AuthUser, familyId: Option<string>, now: Timestamp): UserPatch {
    UserPatch(
      if IsNullOrBlank(familyId) then None else Some(familyId),
      ResolveDisplayName(if existing.Some? then existing.value.displayName else None, user),
      user.email,
      user.photoUrl,
      if existing.None? then Some(now) else None,
      Some(now))
  }

  /** Builds the merge map one conditional entry at a time. */
  method BuildProfilePatch(existing: Option<UserDoc>, user: AuthUser, familyId: Option<string>, now: Timestamp)
    returns (p: UserPatch)
    ensures p == ProfilePatch(existing, user, familyId, now)
  {
    p := UserPatch(None, None, None, None, None, Some(now));
    var existingDisplayName := if existing.Some? then existing.value.displayName else None;
    var resolvedDisplayName := if user.displayName.Some? then user.displayName else user.email;
    if IsNullOrBlank(existingDisplayName) && !IsNullOrBlank(resolvedDisplayName) {
      p := p.(displayName := resolvedDisplayName);
    } else if !IsNullOrBlank(user.displayName) {
      p := p.(displayName := user.displayName);
    }
    if user.email.Some? {
      p := p.(email := user.email);
    }
    if user.photoUrl.Some? {
      p := p.(photoUrl := user.photoUrl);
    }
    if !IsNullOrBlank(familyId) {
      p := p.(familyId := Some(familyId));
    }
    if existing.None? {
      p := p.(createdAt := Some(now));
    }
  }

  /** `updateUserProfile`: read the user document, then merge the patch.
      `readOk` and `writeOk` say whether the read and the merge write go
      through; there is no failure listener, so a failed read or write
      changes nothing and reports nothing. */
  method UpdateUserProfile(store: Firestore, user: AuthUser, familyId: Option<string>, now: Timestamp,
                           readOk: bool, writeOk: bool)
    modifies store
    ensures readOk && writeOk ==>
              store.State() == WithUserMerged(old(store.State()), user.uid,
                                              ProfilePatch(Lookup(old(store.State()).users, user.uid), user, familyId, now))
    ensures !(readOk && writeOk) ==> store.State() == old(store.State())
  {
    if !readOk {
      return;
    }
    var snapshot := Lookup(store.users, user.uid);
    var p := BuildProfilePatch(snapshot, user, familyId, now);
    if writeOk {
      store.MergeUserDoc(user.uid, p);
    }
  }

  /** The user document one sync leaves: the display-name rule, email and
      photo only when known, the family id only when not blank (a sync
      never clears it), `createdAt` only for a new document. */
  lemma ProfileSyncResult(existing: Option<UserDoc>, user: AuthUser, familyId: Option<string>, now: Timestamp)
    ensures var d := existing.GetOr(EmptyUser);
      var u := MergeUser(existing, ProfilePatch(existing, user, familyId, now));
      && u.updatedAt == Some(now)
      && u.createdAt == (if existing.None? then Some(now) else d.createdAt)
      && u.familyId == (if IsNullOrBlank(familyId) then d.familyId else familyId)
      && u.email == (if user.email.Some? then user.email else d.email)
      && u.photoUrl == (if user.photoUrl.Some? then user.photoUrl else d.photoUrl)
      && ((IsNullOrBlank(d.displayName) && !IsNullOrBlank(if user.displayName.Some? then user.displayName else user.email))
            ==> u.displayName == (if user.displayName.Some? then user.displayName else user.email))
      && (!IsNullOrBlank(user.displayName) ==> u.displayName == user.displayName)
      && ((IsNullOrBlank(user.displayName) && !(IsNullOrBlank(d.displayName) && user.displayName.None? && !IsNullOrBlank(user.email)))
            ==> u.displayName == d.displayName)
  {
  }

  /** A second sync with the same user and family changes nothing but
      `updatedAt`. */
  lemma ProfileSyncIdempotent(existing: Option<UserDoc>, user: AuthUser, familyId: Option<string>, t1: Timestamp, t2: Timestamp)
    ensures var u1 := MergeUser(existing, ProfilePatch(existing, user, familyId, t1));
      MergeUser(Some(u1), ProfilePatch(Some(u1), user, familyId, t2)) == u1.(updatedAt := Some(t2))
  {
    var u1 := MergeUser(existing, ProfilePatch(existing, user, familyId, t1));
    var n1 := ResolveDisplayName(existing.GetOr(EmptyUser).displayName, user);
    var n2 := ResolveDisplayName(u1.displayName, user);
    if n1.Some? {
      assert !IsNullOrBlank(u1.displayName);
    }
    assert n2.Some? ==> n2 == u1.displayName;
  }

  /** A sign-in name made of spaces hides the email: a blank stored name is
      then left blank even though the email could fill it. */
  lemma BlankSignInNameHidesEmail(existing: Option<UserDoc>, uid: string, email: string)
    requires !IsBlank(email)
    requires existing.None? || IsNullOrBlank(existing.value.displayName)
    ensures var user := AuthUser(uid, Some(" "), Some(email), None);
      MergeUser(existing, ProfilePatch(existing, user, None, Timestamp(0, 0))).displayName
      == existing.GetOr(EmptyUser).displayName
  {
  }
}
