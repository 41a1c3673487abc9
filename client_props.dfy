/** How the client's family paths in MainActivity.kt relate to the
    server's callable functions: what the legacy join transaction accepts
    that joinFamily refuses, what the non-transactional create can leave
    behind, and where the two agree. */
module FamilyClientProps {
  import opened Wrappers
  import opened Text
  import opened Store
  import opened FamilyService
  import opened FamilyServiceProps
  import opened FamilyClient

  // ---------------------------------------------------------------------
  // Create family
  // ---------------------------------------------------------------------

  /** The client's only check is the name: it creates a family whenever the
      trimmed name is not empty and the first two writes succeed, with no
      cooldown and no "already in a family" check. */
  lemma ClientCreateChecksOnlyName(db: Db, userId: string, input: string, now: Timestamp, familyId: string, code: string,
                                   familyWriteOk: bool, inviteWriteOk: bool, userWriteOk: bool)
    ensures var out := ClientCreateFamilyTx(db, userId, input, now, familyId, code, familyWriteOk, inviteWriteOk, userWriteOk).0;
      && (out.ready.Some? <==> !IsBlank(input) && familyWriteOk && inviteWriteOk)
      && (IsBlank(input) ==> out == CreateOutcome(None, [EnterFamilyName]))
  {
    TrimmedBlankIsEmpty(input);
  }

  /** What a successful client create writes: the family with the caller as
      only member and owner, an unused invite that expires thirty minutes
      (1800 seconds) later, and, if the last write succeeds, the caller's
      family id. The rate-limit documents are never written. */
  lemma ClientCreateWrites(db: Db, userId: string, input: string, now: Timestamp, familyId: string, code: string, userWriteOk: bool)
    requires !IsBlank(input)
    ensures var (out, db') := ClientCreateFamilyTx(db, userId, input, now, familyId, code, true, true, userWriteOk);
      && out.ready == Some(Selection(familyId, KotlinTrim(input)))
      && familyId in db'.families
      && db'.families[familyId].memberIds == [userId] && db'.families[familyId].createdBy == Some(userId)
      && code in db'.invites && db'.invites[code].familyId == Some(familyId) && db'.invites[code].usedBy == None
      && db'.invites[code].expiresAt == Some(Timestamp(now.seconds + 1800, now.nanos))
      && ToMillis(db'.invites[code].expiresAt.value) == ToMillis(now) + InviteTtlMs
      && (userWriteOk ==> userId in db'.users && db'.users[userId].familyId == Some(familyId))
      && db'.limits == db.limits
  {
    TrimmedBlankIsEmpty(input);
  }

  /** When the third write fails, the family is handed to `onFamilyReady`
      anyway, but it lists a user whose document does not point at it:
      the users and families stop agreeing. */
  lemma ClientCreateCanLeaveUserUnlinked(db: Db, userId: string, input: string, now: Timestamp, familyId: string, code: string)
    requires Consistent(db) && familyId !in db.families && familyId != []
    requires !IsBlank(input)
    ensures var (out, db') := ClientCreateFamilyTx(db, userId, input, now, familyId, code, true, true, false);
      && out.ready.Some? && out.errors == [FailedToSaveProfile]
      && Lookup(db'.users, userId) == Lookup(db.users, userId)
      && !Consistent(db')
  {
    TrimmedBlankIsEmpty(input);
    var db' := ClientCreateFamilyTx(db, userId, input, now, familyId, code, true, true, false).1;
    assert userId in db'.families[familyId].memberIds;
    if userId in db'.users && db'.users[userId].familyId == Some(familyId) {
      assert Truthy(db.users[userId].familyId);
    }
  }

  /** When the invite write fails, the new family stays behind with no
      invite and nobody pointing at it, and nothing is handed on. */
  lemma ClientCreateCanLeaveOrphanFamily(db: Db, userId: string, input: string, now: Timestamp, familyId: string, code: string,
                                         userWriteOk: bool)
    requires !IsBlank(input)
    ensures var (out, db') := ClientCreateFamilyTx(db, userId, input, now, familyId, code, true, false, userWriteOk);
      && out == CreateOutcome(None, [FailedToCreateInvite])
      && familyId in db'.families && db'.invites == db.invites && db'.users == db.users
  {
    TrimmedBlankIsEmpty(input);
  }

  /** A client create whose three writes succeed keeps users and families in
      agreement only if the caller was in no family; for a caller already
      in one, it breaks the agreement, which the server's check prevents. */
  lemma ClientCreateAndMembership(db: Db, userId: string, input: string, now: Timestamp, familyId: string, code: string)
    requires Consistent(db) && familyId !in db.families && familyId != []
    requires !IsBlank(input)
    ensures var db' := ClientCreateFamilyTx(db, userId, input, now, familyId, code, true, true, true).1;
      Consistent(db') <==> !(userId in db.users && Truthy(db.users[userId].familyId))
  {
    TrimmedBlankIsEmpty(input);
    var db' := ClientCreateFamilyTx(db, userId, input, now, familyId, code, true, true, true).1;
    if userId in db.users && Truthy(db.users[userId].familyId) {
      var g := db.users[userId].familyId.value;
      assert g in db.families && userId in db.families[g].memberIds;
      assert g != familyId;
      assert db'.families[g] == db.families[g];
      assert db'.users[userId].familyId == Some(familyId);
    } else {
      NewFamilyKeepsConsistent(db, db', userId, familyId);
    }
  }

  // ---------------------------------------------------------------------
  // Join family
  // ---------------------------------------------------------------------

  /** The client's invite has the server's thirty-minute lifetime. */
  lemma ClientExpiryIsThirtyMinutes(now: Timestamp, nowMs: int)
    ensures ToMillis(ClientExpiry(now)) == ToMillis(now) + InviteTtlMs
    ensures var inv := InviteDoc(Some("f"), Some("o"), Some(ClientExpiry(now)), None, None, None);
      Expired(inv, nowMs) <==> nowMs > ToMillis(now) + InviteTtlMs
  {
  }

  /** A code drawn from the alphabet is trimmed alike by JavaScript and by
      Kotlin, whatever white space surrounds it. */
  lemma CodeTrimsAlike(rawCode: string)
    requires WellFormedCode(Trim(rawCode))
    ensures KotlinTrim(rawCode) == Trim(rawCode)
  {
    var code := Trim(rawCode);
    AlphabetIsPrintable(code[0]);
    AlphabetIsPrintable(code[|code| - 1]);
    KotlinTrimAgrees(rawCode);
  }

  /** Kotlin's `code.length` also counts UTF-16 code units: six letters and
      one character beyond U+FFFF pass the client's length check, and seven
      letters and one such character are refused. */
  lemma ClientCountsCodeUnits(db: Db, uid: string, now: Timestamp, committed: bool, letters: string, wide: char)
    requires forall i :: 0 <= i < |letters| ==> 'A' <= letters[i] <= 'Z'
    requires wide >= '\U{10000}'
    ensures |letters| == 6 ==> ClientJoinFamilyTx(db, uid, letters + [wide], now, committed).0 != Err(EnterCode)
    ensures |letters| == 7 ==> ClientJoinFamilyTx(db, uid, letters + [wide], now, committed) == (Err(EnterCode), db)
  {
    WideCodeUnits(letters, wide);
  }

  /** Kotlin's trim also drops U+001C to U+001F, which JavaScript's does
      not: a code with U+001F in front is refused by joinFamily for its
      length and redeemed by the client as the bare code. */
  lemma ClientTrimsMore(db: Db, uid: string, code: string, nowMs: int, committed: bool)
    requires WellFormedCode(code)
    ensures JoinFamilyTx(db, Some(uid), ['\U{001F}'] + code, nowMs) == (Err(CodeMustBe8), db)
    ensures ClientJoinFamilyTx(db, uid, ['\U{001F}'] + code, FromMillis(nowMs), committed)
            == ClientJoinFamilyTx(db, uid, code, FromMillis(nowMs), committed)
  {
    var raw := ['\U{001F}'] + code;
    AlphabetIsPrintable(code[0]);
    AlphabetIsPrintable(code[|code| - 1]);
    assert raw[1..] == code;
    CodeUnits(code);
    Utf16LengthAppend(['\U{001F}'], code);
    TrimBySurrounded(raw, IsWhitespace, 0, |raw|);
    TrimBySurrounded(raw, IsKotlinWhitespace, 1, |raw|);
    TrimBySurrounded(code, IsKotlinWhitespace, 0, |code|);
  }

  /** Every invite is stored under a code drawn from the alphabet, as both
      inviteCode and generateInviteCode make them. */
  predicate InviteKeysAreCodes(db: Db) {
    forall k {:trigger WellFormedCode(k)} :: k in db.invites ==> WellFormedCode(k)
  }

  /** Whatever joinFamily accepts in a database whose invites are keyed by
      generated codes, the client transaction accepts too when it commits,
      with the same writes; the family name differs only for a family whose
      name is the empty string (the client shows "", the server "Family"). */
  lemma ServerJoinImpliesClientJoin(db: Db, uid: string, rawCode: string, nowMs: int)
    requires InviteKeysAreCodes(db)
    requires JoinFamilyTx(db, Some(uid), rawCode, nowMs).0.Ok?
    ensures var (rs, dbs) := JoinFamilyTx(db, Some(uid), rawCode, nowMs);
      var (rc, dbc) := ClientJoinFamilyTx(db, uid, rawCode, FromMillis(nowMs), true);
      && rc.Ok? && dbc == dbs && rc.value.familyId == rs.value.familyId
      && (rc.value.familyName == rs.value.familyName <==>
            db.families[rs.value.familyId].name != Some([]))
  {
    assert Trim(rawCode) in db.invites;
    assert WellFormedCode(Trim(rawCode));
    CodeTrimsAlike(rawCode);
    CodeUnits(Trim(rawCode));
    MillisRoundTrip(nowMs);
    var inv := db.invites[Trim(rawCode)];
    if inv.expiresAt.Some? {
      assert ToMillis(inv.expiresAt.value) >= nowMs;
    }
  }

  /** The client has no "already in a family" check: a caller whom
      joinFamily refuses for that reason is let in, and if the caller's
      current family is another one, that family still lists them. */
  lemma ClientJoinSkipsMembershipCheck(db: Db, uid: string, rawCode: string, nowMs: int)
    requires InviteKeysAreCodes(db)
    requires JoinFamilyTx(db, Some(uid), rawCode, nowMs).0 == Err(LeaveCurrentFirst)
    requires db.invites[Trim(rawCode)].familyId.value in db.families
    ensures ClientJoinFamilyTx(db, uid, rawCode, FromMillis(nowMs), true).0.Ok?
    ensures Consistent(db) && db.users[uid].familyId != db.invites[Trim(rawCode)].familyId ==>
              !Consistent(ClientJoinFamilyTx(db, uid, rawCode, FromMillis(nowMs), true).1)
  {
    assert Trim(rawCode) in db.invites;
    assert WellFormedCode(Trim(rawCode));
    CodeTrimsAlike(rawCode);
    CodeUnits(Trim(rawCode));
    MillisRoundTrip(nowMs);
    var inv := db.invites[Trim(rawCode)];
    if inv.expiresAt.Some? {
      assert ToMillis(inv.expiresAt.value) >= nowMs;
    }
    if Consistent(db) && db.users[uid].familyId != inv.familyId {
      var g := db.users[uid].familyId.value;
      var db' := ClientJoinFamilyTx(db, uid, rawCode, FromMillis(nowMs), true).1;
      assert g in db.families && uid in db.families[g].memberIds;
      assert db'.families[g] == db.families[g];
      assert db'.users[uid].familyId == inv.familyId;
    }
  }

  /** Two more places where the client is looser: an invite whose `usedBy`
      is made of spaces, and one that expired earlier in the current
      second, are refused by joinFamily and accepted by the client. */
  lemma ClientJoinLooserChecks(db: Db, uid: string, rawCode: string, nowMs: int)
    requires InviteKeysAreCodes(db) && Trim(rawCode) in db.invites
    requires var inv := db.invites[Trim(rawCode)];
      Truthy(inv.familyId) && inv.familyId.value in db.families
    requires !(uid in db.users && Truthy(db.users[uid].familyId))
    ensures var inv := db.invites[Trim(rawCode)];
      inv.usedBy == Some(" ") && !Expired(inv, nowMs) ==>
        JoinFamilyTx(db, Some(uid), rawCode, nowMs).0 == Err(InviteUsed) &&
        ClientJoinFamilyTx(db, uid, rawCode, FromMillis(nowMs), true).0.Ok?
    ensures var inv := db.invites[Trim(rawCode)];
      inv.usedBy == None && inv.expiresAt == Some(FromMillis(nowMs - 1)) && nowMs % 1000 != 0 ==>
        JoinFamilyTx(db, Some(uid), rawCode, nowMs).0 == Err(InviteExpired) &&
        ClientJoinFamilyTx(db, uid, rawCode, FromMillis(nowMs), true).0.Ok?
  {
    CodeTrimsAlike(rawCode);
    CodeUnits(Trim(rawCode));
    MillisRoundTrip(nowMs);
    MillisRoundTrip(nowMs - 1);
    var inv := db.invites[Trim(rawCode)];
    if inv.usedBy == Some(" ") && !Expired(inv, nowMs) && inv.expiresAt.Some? {
      assert ToMillis(inv.expiresAt.value) >= nowMs;
    }
  }

  /** The client transaction is single-use too: once it has redeemed a code
      for a user with a non-blank id, redeeming the same code again fails
      as used (or as expired), whether or not the second commit would go
      through. */
  lemma ClientInviteSingleUse(db: Db, u1: string, u2: string, raw1: string, raw2: string, t1: Timestamp, t2: Timestamp,
                              committed2: bool)
    requires !IsBlank(u1)
    requires ClientJoinFamilyTx(db, u1, raw1, t1, true).0.Ok?
    requires KotlinTrim(raw2) == KotlinTrim(raw1)
    ensures var r := ClientJoinFamilyTx(ClientJoinFamilyTx(db, u1, raw1, t1, true).1, u2, raw2, t2, committed2).0;
      r == Err(ClientInviteUsed) || r == Err(ClientInviteExpired)
  {
  }
}
