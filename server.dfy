/** The callable functions of functions/index.js: createFamily, joinFamily,
    createInvite, leaveFamily, removeMember and disbandFamily.

    Each handler is a method that acts on the database step by step, as the
    source does with `tx.get`, `tx.set` and `tx.update`; the transaction is
    one method call. Each method is proved equal to a pure transition
    function (`...Tx`) from the old database to the result and the new
    database, and the properties of the service are lemmas about those
    functions (module FamilyServiceProps). The caller's identity, the clock
    (`now`, in epoch milliseconds), `Math.random` (`draws`) and the
    auto-generated family id are parameters. */
module FamilyService {
  import opened Wrappers
  import opened Text
  import opened Store

  /** Ten minutes between two family creations by one user. */
  const RateLimitWindowMs: int := 10 * 60 * 1000
  /** An invite is valid for thirty minutes. */
  const InviteTtlMs: int := 30 * 60 * 1000
  const CodeLength: nat := 8
  /** No I, O, 0 or 1, so that codes can be read aloud and typed. */
  const Alphabet: string := "ABCDEFGHJKLMNPQRSTUVWXYZ23456789"

  datatype ErrorCode =
    | Unauthenticated
    | InvalidArgument
    | NotFound
    | FailedPrecondition
    | PermissionDenied
    | ResourceExhausted
    | Internal   // a store failure that escapes a handler

  datatype HttpsError = HttpsError(code: ErrorCode, message: string)

  const SignInRequired := HttpsError(Unauthenticated, "Sign-in required.")
  const NameRequired := HttpsError(InvalidArgument, "Family name is required.")
  const WaitBeforeCreating := HttpsError(ResourceExhausted, "Please wait before creating another family.")
  const LeaveCurrentFirst := HttpsError(FailedPrecondition, "Leave your current family first.")
  const CodeMustBe8 := HttpsError(InvalidArgument, "Invite code must be 8 characters.")
  const InviteNotFound := HttpsError(NotFound, "Invite code not found.")
  const InvalidInvite := HttpsError(FailedPrecondition, "Invalid invite.")
  const InviteExpired := HttpsError(FailedPrecondition, "Invite code expired.")
  const InviteUsed := HttpsError(FailedPrecondition, "Invite already used.")
  const FamilyNotFound := HttpsError(NotFound, "Family not found.")
  const FamilyIdRequired := HttpsError(InvalidArgument, "Family id required.")
  const OwnerOnlyInvites := HttpsError(PermissionDenied, "Only the owner can create invites.")
  const OwnerCannotLeave := HttpsError(FailedPrecondition, "Owner cannot leave; disband instead.")
  const IdsRequired := HttpsError(InvalidArgument, "Family id and member id required.")
  const UseLeaveInstead := HttpsError(FailedPrecondition, "Use leave family instead.")
  const OwnerOnlyRemove := HttpsError(PermissionDenied, "Only the owner can remove members.")
  const OwnerOnlyDisband := HttpsError(PermissionDenied, "Only the owner can disband.")
  const StoreUnavailable := HttpsError(Internal, "INTERNAL")

  datatype CreateFamilyResult = CreateFamilyResult(familyId: string, inviteCode: string, expiresAt: int)
  datatype JoinResult = JoinResult(familyId: string, familyName: string)
  datatype InviteResult = InviteResult(inviteCode: string, expiresAt: int)

  /** `assertSignedIn`: the caller's uid, or `unauthenticated`. */
  function AssertSignedIn(auth: Option<string>): (r: Result<string, HttpsError>)
    ensures r.Ok? <==> auth.Some?
    ensures r.Ok? ==> r.value == auth.value
    ensures r.Err? ==> r.error.code == Unauthenticated
  {
    if auth.None? then Err(SignInRequired) else Ok(auth.value)
  }

  /** `Math.random()` draws are in [0, 1). */
  predicate ValidDraws(draws: seq<real>) {
    |draws| == CodeLength && forall i :: 0 <= i < |draws| ==> 0.0 <= draws[i] < 1.0
  }

  /** `Math.floor(Math.random() * chars.length)`. */
  function Pick(d: real): (k: nat)
    requires 0.0 <= d < 1.0
    ensures k < |Alphabet|
  {
    (d * (|Alphabet| as real)).Floor
  }

  /** The code that `inviteCode` builds from eight draws. */
  function CodeOf(draws: seq<real>): string
    requires ValidDraws(draws)
  {
    seq(CodeLength, i requires 0 <= i < CodeLength => Alphabet[Pick(draws[i])])
  }

  /** Every code has eight characters taken from the alphabet. */
  predicate WellFormedCode(code: string) {
    |code| == CodeLength && forall i :: 0 <= i < |code| ==> code[i] in Alphabet
  }

  /** Alphabet characters lie between '2' and 'Z', far from white space. */
  lemma AlphabetIsPrintable(c: char)
    requires c in Alphabet
    ensures '2' <= c <= 'Z' && !IsKotlinWhitespace(c)
  {
    forall i | 0 <= i < |Alphabet|
      ensures '2' <= Alphabet[i] <= 'Z'
    {
      if i < 8 {
      } else if i < 16 {
      } else if i < 24 {
      } else {
      }
    }
  }

  /** A well-formed code is eight UTF-16 code units long, as `length`
      counts it. */
  lemma CodeUnits(code: string)
    requires WellFormedCode(code)
    ensures Utf16Length(code) == CodeLength
  {
    forall i | 0 <= i < |code|
      ensures code[i] < '\U{10000}'
    {
      AlphabetIsPrintable(code[i]);
    }
    Utf16LengthBmp(code);
  }

  /** `inviteCode`: appends one random alphabet character eight times. */
  method InviteCode(draws: seq<real>) returns (code: string)
    requires ValidDraws(draws)
    ensures WellFormedCode(code)
    ensures code == CodeOf(draws)
  {
    code := "";
    var i := 0;
    while i < CodeLength
      invariant 0 <= i <= CodeLength
      invariant |code| == i
      invariant forall j :: 0 <= j < i ==> code[j] == Alphabet[Pick(draws[j])]
    {
      code := code + [Alphabet[Pick(draws[i])]];
      i := i + 1;
    }
  }

  // ---------------------------------------------------------------------
  // createFamily
  // ---------------------------------------------------------------------

  /** The outcome of createFamily for caller `auth`, raw name `rawName`,
      clock `now`, the auto-generated family id and the generated code. */
  function CreateFamilyTx(db: Db, auth: Option<string>, rawName: string, now: int,
                          familyId: string, code: string): (Result<CreateFamilyResult, HttpsError>, Db)
  {
    if auth.None? then (Err(SignInRequired), db)
    else
      var uid := auth.value;
      var name := Trim(rawName);
      if name == [] then (Err(NameRequired), db)
      else if uid in db.limits && now - ToMillis(db.limits[uid]) < RateLimitWindowMs then (Err(WaitBeforeCreating), db)
      else if uid in db.users && Truthy(db.users[uid].familyId) then (Err(LeaveCurrentFirst), db)
      else
        var ts := FromMillis(now);
        var expiresAt := FromMillis(now + InviteTtlMs);
        var db1 := db.(families := db.families[familyId := FamilyDoc(Some(name), [uid], Some(uid), Some(ts))]);
        var db2 := db1.(invites := db1.invites[code := InviteDoc(Some(familyId), Some(uid), Some(expiresAt), None, None, Some(ts))]);
        var db3 := WithUserMerged(db2, uid, FamilyPatch(Some(familyId), ts));
        var db4 := db3.(limits := db3.limits[uid := ts]);
        (Ok(CreateFamilyResult(familyId, code, ToMillis(expiresAt))), db4)
  }

  method CreateFamily(store: Firestore, auth: Option<string>, rawName: string, now: int,
                      familyId: string, draws: seq<real>)
    returns (r: Result<CreateFamilyResult, HttpsError>)
    requires ValidDraws(draws)
    modifies store
    ensures (r, store.State()) == CreateFamilyTx(old(store.State()), auth, rawName, now, familyId, CodeOf(draws))
  {
    var signedIn := AssertSignedIn(auth);
    if signedIn.Err? {
      return Err(signedIn.error);
    }
    var uid := signedIn.value;
    var name := Trim(rawName);
    if name == [] {
      return Err(NameRequired);
    }
    // transaction: read the limit document and the user document
    var lastCreatedAt := Lookup(store.limits, uid);
    var userSnap := Lookup(store.users, uid);
    if lastCreatedAt.Some? && now - ToMillis(lastCreatedAt.value) < RateLimitWindowMs {
      return Err(WaitBeforeCreating);
    }
    if userSnap.Some? && Truthy(userSnap.value.familyId) {
      return Err(LeaveCurrentFirst);
    }
    var code := InviteCode(draws);
    var ts := FromMillis(now);
    var expiresAt := FromMillis(now + InviteTtlMs);
    store.SetFamily(familyId, FamilyDoc(Some(name), [uid], Some(uid), Some(ts)));
    store.SetInvite(code, InviteDoc(Some(familyId), Some(uid), Some(expiresAt), None, None, Some(ts)));
    store.MergeUserDoc(uid, FamilyPatch(Some(familyId), ts));
    store.SetLastCreated(uid, ts);
    r := Ok(CreateFamilyResult(familyId, code, ToMillis(expiresAt)));
  }

  // ---------------------------------------------------------------------
  // joinFamily
  // ---------------------------------------------------------------------

  /** `invite.expiresAt && invite.expiresAt.toMillis() < Date.now()` */
  predicate Expired(inv: InviteDoc, now: int) {
    inv.expiresAt.Some? && ToMillis(inv.expiresAt.value) < now
  }

  /** `familySnap.get("name") || "Family"` */
  function DisplayFamilyName(f: FamilyDoc): string {
    if Truthy(f.name) then f.name.value else "Family"
  }

  function JoinFamilyTx(db: Db, auth: Option<string>, rawCode: string, now: int): (Result<JoinResult, HttpsError>, Db)
  {
    if auth.None? then (Err(SignInRequired), db)
    else
      var uid := auth.value;
      var code := Trim(rawCode);
      if Utf16Length(code) != CodeLength then (Err(CodeMustBe8), db)
      else if code !in db.invites then (Err(InviteNotFound), db)
      else
        var inv := db.invites[code];
        if !Truthy(inv.familyId) then (Err(InvalidInvite), db)
        else if Expired(inv, now) then (Err(InviteExpired), db)
        else if Truthy(inv.usedBy) then (Err(InviteUsed), db)
        else if uid in db.users && Truthy(db.users[uid].familyId) then (Err(LeaveCurrentFirst), db)
        else
          var familyId := inv.familyId.value;
          if familyId !in db.families then (Err(FamilyNotFound), db)
          else
            var fam := db.families[familyId];
            var ts := FromMillis(now);
            var db1 := db.(invites := db.invites[code := inv.(usedBy := Some(uid), usedAt := Some(ts))]);
            var db2 := db1.(families := db1.families[familyId := fam.(memberIds := ArrayUnion(fam.memberIds, uid))]);
            var db3 := WithUserMerged(db2, uid, FamilyPatch(Some(familyId), ts));
            (Ok(JoinResult(familyId, DisplayFamilyName(fam))), db3)
  }

  method JoinFamily(store: Firestore, auth: Option<string>, rawCode: string, now: int)
    returns (r: Result<JoinResult, HttpsError>)
    modifies store
    ensures (r, store.State()) == JoinFamilyTx(old(store.State()), auth, rawCode, now)
  {
    var signedIn := AssertSignedIn(auth);
    if signedIn.Err? {
      return Err(signedIn.error);
    }
    var uid := signedIn.value;
    var code := Trim(rawCode);
    if Utf16Length(code) != CodeLength {
      return Err(CodeMustBe8);
    }
    // transaction: read the invite and the user, then the family
    var inviteSnap := Lookup(store.invites, code);
    var userSnap := Lookup(store.users, uid);
    if inviteSnap.None? {
      return Err(InviteNotFound);
    }
    var inv := inviteSnap.value;
    if !Truthy(inv.familyId) {
      return Err(InvalidInvite);
    }
    if Expired(inv, now) {
      return Err(InviteExpired);
    }
    if Truthy(inv.usedBy) {
      return Err(InviteUsed);
    }
    if userSnap.Some? && Truthy(userSnap.value.familyId) {
      return Err(LeaveCurrentFirst);
    }
    var familyId := inv.familyId.value;
    var familySnap := Lookup(store.families, familyId);
    if familySnap.None? {
      return Err(FamilyNotFound);
    }
    var familyName := DisplayFamilyName(familySnap.value);
    var ts := FromMillis(now);
    store.MarkInviteUsed(code, uid, ts);
    store.AddMember(familyId, uid);
    store.MergeUserDoc(uid, FamilyPatch(Some(familyId), ts));
    r := Ok(JoinResult(familyId, familyName));
  }

  // ---------------------------------------------------------------------
  // createInvite
  // ---------------------------------------------------------------------

  function CreateInviteTx(db: Db, auth: Option<string>, rawFamilyId: string, now: int, code: string)
    : (Result<InviteResult, HttpsError>, Db)
  {
    if auth.None? then (Err(SignInRequired), db)
    else
      var uid := auth.value;
      var familyId := Trim(rawFamilyId);
      if familyId == [] then (Err(FamilyIdRequired), db)
      else if familyId !in db.families then (Err(FamilyNotFound), db)
      else if db.families[familyId].createdBy != Some(uid) then (Err(OwnerOnlyInvites), db)
      else
        var expiresAt := FromMillis(now + InviteTtlMs);
        var doc := InviteDoc(Some(familyId), Some(uid), Some(expiresAt), None, None, Some(FromMillis(now)));
        (Ok(InviteResult(code, ToMillis(expiresAt))), db.(invites := db.invites[code := doc]))
  }

  method CreateInvite(store: Firestore, auth: Option<string>, rawFamilyId: string, now: int, draws: seq<real>)
    returns (r: Result<InviteResult, HttpsError>)
    requires ValidDraws(draws)
    modifies store
    ensures (r, store.State()) == CreateInviteTx(old(store.State()), auth, rawFamilyId, now, CodeOf(draws))
  {
    var signedIn := AssertSignedIn(auth);
    if signedIn.Err? {
      return Err(signedIn.error);
    }
    var uid := signedIn.value;
    var familyId := Trim(rawFamilyId);
    if familyId == [] {
      return Err(FamilyIdRequired);
    }
    var familySnap := Lookup(store.families, familyId);
    if familySnap.None? {
      return Err(FamilyNotFound);
    }
    if familySnap.value.createdBy != Some(uid) {
      return Err(OwnerOnlyInvites);
    }
    var code := InviteCode(draws);
    var expiresAt := FromMillis(now + InviteTtlMs);
    store.SetInvite(code, InviteDoc(Some(familyId), Some(uid), Some(expiresAt), None, None, Some(FromMillis(now))));
    r := Ok(InviteResult(code, ToMillis(expiresAt)));
  }

  // ---------------------------------------------------------------------
  // leaveFamily and removeMember
  // ---------------------------------------------------------------------

  /** The family document with `member` taken out of `memberIds`. */
  function WithoutMember(db: Db, familyId: string, member: string): Db
    requires familyId in db.families
  {
    var fam := db.families[familyId];
    db.(families := db.families[familyId := fam.(memberIds := ArrayRemove(fam.memberIds, member))])
  }

  function LeaveFamilyTx(db: Db, auth: Option<string>, rawFamilyId: string, now: int): (Result<(), HttpsError>, Db)
  {
    if auth.None? then (Err(SignInRequired), db)
    else
      var uid := auth.value;
      var familyId := Trim(rawFamilyId);
      if familyId == [] then (Err(FamilyIdRequired), db)
      else if familyId !in db.families then (Err(FamilyNotFound), db)
      else if db.families[familyId].createdBy == Some(uid) then (Err(OwnerCannotLeave), db)
      else (Ok(()), WithUserMerged(WithoutMember(db, familyId, uid), uid, FamilyPatch(None, FromMillis(now))))
  }

  method LeaveFamily(store: Firestore, auth: Option<string>, rawFamilyId: string, now: int)
    returns (r: Result<(), HttpsError>)
    modifies store
    ensures (r, store.State()) == LeaveFamilyTx(old(store.State()), auth, rawFamilyId, now)
  {
    var signedIn := AssertSignedIn(auth);
    if signedIn.Err? {
      return Err(signedIn.error);
    }
    var uid := signedIn.value;
    var familyId := Trim(rawFamilyId);
    if familyId == [] {
      return Err(FamilyIdRequired);
    }
    var familySnap := Lookup(store.families, familyId);
    if familySnap.None? {
      return Err(FamilyNotFound);
    }
    if familySnap.value.createdBy == Some(uid) {
      return Err(OwnerCannotLeave);
    }
    store.RemoveMember(familyId, uid);
    store.MergeUserDoc(uid, FamilyPatch(None, FromMillis(now)));
    r := Ok(());
  }

  function RemoveMemberTx(db: Db, auth: Option<string>, rawFamilyId: string, rawMemberId: string, now: int)
    : (Result<(), HttpsError>, Db)
  {
    if auth.None? then (Err(SignInRequired), db)
    else
      var uid := auth.value;
      var familyId := Trim(rawFamilyId);
      var memberId := Trim(rawMemberId);
      if familyId == [] || memberId == [] then (Err(IdsRequired), db)
      else if uid == memberId then (Err(UseLeaveInstead), db)
      else if familyId !in db.families then (Err(FamilyNotFound), db)
      else if db.families[familyId].createdBy != Some(uid) then (Err(OwnerOnlyRemove), db)
      else (Ok(()), WithUserMerged(WithoutMember(db, familyId, memberId), memberId, FamilyPatch(None, FromMillis(now))))
  }

  method RemoveMember(store: Firestore, auth: Option<string>, rawFamilyId: string, rawMemberId: string, now: int)
    returns (r: Result<(), HttpsError>)
    modifies store
    ensures (r, store.State()) == RemoveMemberTx(old(store.State()), auth, rawFamilyId, rawMemberId, now)
  {
    var signedIn := AssertSignedIn(auth);
    if signedIn.Err? {
      return Err(signedIn.error);
    }
    var uid := signedIn.value;
    var familyId := Trim(rawFamilyId);
    var memberId := Trim(rawMemberId);
    if familyId == [] || memberId == [] {
      return Err(IdsRequired);
    }
    if uid == memberId {
      return Err(UseLeaveInstead);
    }
    var familySnap := Lookup(store.families, familyId);
    if familySnap.None? {
      return Err(FamilyNotFound);
    }
    if familySnap.value.createdBy != Some(uid) {
      return Err(OwnerOnlyRemove);
    }
    store.RemoveMember(familyId, memberId);
    store.MergeUserDoc(memberId, FamilyPatch(None, FromMillis(now)));
    r := Ok(());
  }

  // ---------------------------------------------------------------------
  // disbandFamily: not one transaction, but a sequence of batch writes
  // ---------------------------------------------------------------------

  /** The collections disbandFamily purges, in the order it purges them. */
  const Purged: seq<Collection> :=
    [Scoped(Lists), Scoped(ListItems), Scoped(Expenses), Scoped(Categories),
     Scoped(Suggestions), Scoped(Budgets), Invites]

  /** One committed write of disbandFamily. */
  datatype DisbandStep = DeleteCollection(c: Collection) | ClearMembers | DeleteFamilyDoc

  /** The writes of disbandFamily in order: one batch delete per purged
      collection, the batch that clears `familyId` on the members, and the
      deletion of the family document. */
  function Plan(): (p: seq<DisbandStep>)
    ensures |p| == |Purged| + 2
    ensures forall i :: 0 <= i < |Purged| ==> p[i] == DeleteCollection(Purged[i])
    ensures p[|Purged|] == ClearMembers && p[|Purged| + 1] == DeleteFamilyDoc
  {
    seq(|Purged|, i requires 0 <= i < |Purged| => DeleteCollection(Purged[i])) + [ClearMembers, DeleteFamilyDoc]
  }

  function ApplyStep(db: Db, familyId: string, ts: Timestamp, s: DisbandStep): Db {
    match s
    case DeleteCollection(c) => DeleteWhere(db, c, familyId)
    case ClearMembers => ClearFamilyOfUsers(db, familyId, ts)
    case DeleteFamilyDoc => db.(families := db.families - {familyId})
  }

  function RunSteps(db: Db, familyId: string, ts: Timestamp, steps: seq<DisbandStep>): Db
    decreases |steps|
  {
    if steps == [] then db else RunSteps(ApplyStep(db, familyId, ts, steps[0]), familyId, ts, steps[1..])
  }

  lemma {:induction false} RunStepsAppend(db: Db, familyId: string, ts: Timestamp, xs: seq<DisbandStep>, ys: seq<DisbandStep>)
    ensures RunSteps(db, familyId, ts, xs + ys) == RunSteps(RunSteps(db, familyId, ts, xs), familyId, ts, ys)
    decreases |xs|
  {
    if xs == [] {
      assert xs + ys == ys;
    } else {
      assert (xs + ys)[1..] == xs[1..] + ys;
      RunStepsAppend(ApplyStep(db, familyId, ts, xs[0]), familyId, ts, xs[1..], ys);
    }
  }

  /** Running one more write of the plan. */
  lemma RunPlanStep(db: Db, familyId: string, ts: Timestamp, i: nat)
    requires i < |Plan()|
    ensures RunSteps(db, familyId, ts, Plan()[..i + 1]) == ApplyStep(RunSteps(db, familyId, ts, Plan()[..i]), familyId, ts, Plan()[i])
  {
    RunStepsAppend(db, familyId, ts, Plan()[..i], [Plan()[i]]);
    assert Plan()[..i] + [Plan()[i]] == Plan()[..i + 1];
  }

  /** The owner checks that precede the writes. */
  function DisbandCheck(db: Db, auth: Option<string>, rawFamilyId: string): Result<string, HttpsError> {
    if auth.None? then Err(SignInRequired)
    else
      var familyId := Trim(rawFamilyId);
      if familyId == [] then Err(FamilyIdRequired)
      else if familyId !in db.families then Err(FamilyNotFound)
      else if db.families[familyId].createdBy != Some(auth.value) then Err(OwnerOnlyDisband)
      else Ok(familyId)
  }

  /** disbandFamily when the store fails at write number `failAt` (if any):
      the writes before it stay committed and the call throws. */
  function DisbandTx(db: Db, auth: Option<string>, rawFamilyId: string, now: int, failAt: Option<nat>)
    : (Result<(), HttpsError>, Db)
  {
    match DisbandCheck(db, auth, rawFamilyId)
    case Err(e) => (Err(e), db)
    case Ok(familyId) => DisbandWrites(db, familyId, FromMillis(now), failAt)
  }

  /** The writes of disbandFamily, the store failing at write number
      `failAt` (if any). */
  function DisbandWrites(db: Db, familyId: string, ts: Timestamp, failAt: Option<nat>): (Result<(), HttpsError>, Db) {
    if failAt.Some? && failAt.value < |Plan()| then
      (Err(StoreUnavailable), RunSteps(db, familyId, ts, Plan()[..failAt.value]))
    else
      (Ok(()), RunSteps(db, familyId, ts, Plan()))
  }

  method DisbandFamily(store: Firestore, auth: Option<string>, rawFamilyId: string, now: int, failAt: Option<nat>)
    returns (r: Result<(), HttpsError>)
    modifies store
    ensures (r, store.State()) == DisbandTx(old(store.State()), auth, rawFamilyId, now, failAt)
  {
    var signedIn := AssertSignedIn(auth);
    if signedIn.Err? {
      return Err(signedIn.error);
    }
    var uid := signedIn.value;
    var familyId := Trim(rawFamilyId);
    if familyId == [] {
      return Err(FamilyIdRequired);
    }
    var familySnap := Lookup(store.families, familyId);
    if familySnap.None? {
      return Err(FamilyNotFound);
    }
    if familySnap.value.createdBy != Some(uid) {
      return Err(OwnerOnlyDisband);
    }
    r := RunDisbandWrites(store, familyId, FromMillis(now), failAt);
  }

  /** The batch deletes of the purged collections, in order; `failed` when
      the store fails at one of them. */
  method PurgeCollections(store: Firestore, familyId: string, ts: Timestamp, failAt: Option<nat>)
    returns (failed: bool)
    modifies store
    ensures failed <==> failAt.Some? && failAt.value < |Purged|
    ensures failed ==> store.State() == RunSteps(old(store.State()), familyId, ts, Plan()[..failAt.value])
    ensures !failed ==> store.State() == RunSteps(old(store.State()), familyId, ts, Plan()[..|Purged|])
  {
    ghost var db0 := store.State();
    var i := 0;
    while i < |Purged|
      invariant 0 <= i <= |Purged|
      invariant store.State() == RunSteps(db0, familyId, ts, Plan()[..i])
      invariant failAt.None? || failAt.value >= i
    {
      if failAt == Some(i) {
        return true;
      }
      store.DeleteWhereFamily(Purged[i], familyId);
      RunPlanStep(db0, familyId, ts, i);
      i := i + 1;
    }
    return false;
  }

  /** The batch deletes, the batch that clears the members, and the
      deletion of the family document, in that order. */
  method RunDisbandWrites(store: Firestore, familyId: string, ts: Timestamp, failAt: Option<nat>)
    returns (r: Result<(), HttpsError>)
    modifies store
    ensures (r, store.State()) == DisbandWrites(old(store.State()), familyId, ts, failAt)
  {
    ghost var db0 := store.State();
    var failed := PurgeCollections(store, familyId, ts, failAt);
    if failed {
      return Err(StoreUnavailable);
    }
    if failAt == Some(|Purged|) {
      return Err(StoreUnavailable);
    }
    store.ClearFamilyMembers(familyId, ts);
    RunPlanStep(db0, familyId, ts, |Purged|);
    if failAt == Some(|Purged| + 1) {
      return Err(StoreUnavailable);
    }
    store.DeleteFamily(familyId);
    RunPlanStep(db0, familyId, ts, |Purged| + 1);
    assert Plan()[..|Purged| + 2] == Plan();
    r := Ok(());
  }
}
