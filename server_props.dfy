/** Properties of the callable functions of functions/index.js, stated
    about the transition functions that the handler methods are proved to
    implement: the order of the error checks, what a successful call
    writes, single-use invites, owner-only actions, the cooldown, the
    membership invariant, and resuming an interrupted disband. */
module FamilyServiceProps {
  import opened Wrappers
  import opened Text
  import opened Store
  import opened FamilyService

  // ---------------------------------------------------------------------
  // createFamily
  // ---------------------------------------------------------------------

  /** A name that is empty after trimming is refused before the store is
      read: the outcome is the same whatever the database holds. */
  lemma CreateFamilyBlankName(db1: Db, db2: Db, uid: string, rawName: string, now: int, fid: string, code: string)
    requires Trim(rawName) == []
    ensures CreateFamilyTx(db1, Some(uid), rawName, now, fid, code) == (Err(NameRequired), db1)
    ensures CreateFamilyTx(db2, Some(uid), rawName, now, fid, code).0 == CreateFamilyTx(db1, Some(uid), rawName, now, fid, code).0
  {
  }

  /** The cooldown is checked before membership, and these two checks are
      the only ones a signed-in caller with a valid name can fail. */
  lemma CreateFamilyErrorOrder(db: Db, uid: string, rawName: string, now: int, fid: string, code: string)
    requires Trim(rawName) != []
    ensures var r := CreateFamilyTx(db, Some(uid), rawName, now, fid, code).0;
      && (uid in db.limits && now - ToMillis(db.limits[uid]) < RateLimitWindowMs ==> r == Err(WaitBeforeCreating))
      && ((!(uid in db.limits && now - ToMillis(db.limits[uid]) < RateLimitWindowMs) &&
           uid in db.users && Truthy(db.users[uid].familyId)) ==> r == Err(LeaveCurrentFirst))
      && (r.Ok? <==> !(uid in db.limits && now - ToMillis(db.limits[uid]) < RateLimitWindowMs) &&
                     !(uid in db.users && Truthy(db.users[uid].familyId)))
  {
  }

  /** Everything a successful createFamily writes, in one transaction, and
      that nothing else changes. */
  lemma CreateFamilyWrites(db: Db, uid: string, rawName: string, now: int, fid: string, code: string)
    requires CreateFamilyTx(db, Some(uid), rawName, now, fid, code).0.Ok?
    ensures var (r, db') := CreateFamilyTx(db, Some(uid), rawName, now, fid, code);
      && r.value == CreateFamilyResult(fid, code, now + InviteTtlMs)
      && fid in db'.families
      && db'.families[fid].memberIds == [uid] && db'.families[fid].createdBy == Some(uid)
      && db'.families[fid].name == Some(Trim(rawName)) && Trim(rawName) != []
      && code in db'.invites
      && db'.invites[code].familyId == Some(fid) && db'.invites[code].usedBy == None
      && db'.invites[code].expiresAt == Some(FromMillis(now + InviteTtlMs))
      && ToMillis(db'.invites[code].expiresAt.value) == now + InviteTtlMs
      && uid in db'.users && db'.users[uid].familyId == Some(fid)
      && db'.limits == db.limits[uid := FromMillis(now)]
      && db'.scoped == db.scoped
      && (forall f :: f != fid ==> Lookup(db'.families, f) == Lookup(db.families, f))
      && (forall c :: c != code ==> Lookup(db'.invites, c) == Lookup(db.invites, c))
      && (forall u :: u != uid ==> Lookup(db'.users, u) == Lookup(db.users, u))
  {
    MillisRoundTrip(now + InviteTtlMs);
  }

  /** Two creations by one user less than ten minutes apart: the second is
      refused with `resource-exhausted`, whatever else has happened. */
  lemma CreateFamilyCooldown(db: Db, uid: string, name1: string, name2: string, t1: int, t2: int,
                             fid1: string, fid2: string, code1: string, code2: string)
    requires CreateFamilyTx(db, Some(uid), name1, t1, fid1, code1).0.Ok?
    requires Trim(name2) != []
    requires t1 <= t2 < t1 + RateLimitWindowMs
    ensures CreateFamilyTx(CreateFamilyTx(db, Some(uid), name1, t1, fid1, code1).1, Some(uid), name2, t2, fid2, code2).0
            == Err(WaitBeforeCreating)
  {
    MillisRoundTrip(t1);
  }

  // ---------------------------------------------------------------------
  // joinFamily
  // ---------------------------------------------------------------------

  /** A code whose trimmed length is not 8 is refused before the store is
      read. */
  lemma JoinRejectsBadLength(db1: Db, db2: Db, uid: string, rawCode: string, now: int)
    requires Utf16Length(Trim(rawCode)) != CodeLength
    ensures JoinFamilyTx(db1, Some(uid), rawCode, now) == (Err(CodeMustBe8), db1)
    ensures JoinFamilyTx(db2, Some(uid), rawCode, now).0 == JoinFamilyTx(db1, Some(uid), rawCode, now).0
  {
  }

  /** `code.length` counts UTF-16 code units: six letters and one character
      beyond U+FFFF (an emoji, say) make eight units and pass the length
      check, while seven letters and one such character make nine and are
      refused. */
  lemma JoinCountsCodeUnits(db: Db, uid: string, now: int, letters: string, wide: char)
    requires forall i :: 0 <= i < |letters| ==> 'A' <= letters[i] <= 'Z'
    requires wide >= '\U{10000}'
    ensures var code := letters + [wide];
      |letters| == 6 ==>
        && JoinFamilyTx(db, Some(uid), code, now).0 != Err(CodeMustBe8)
        && (code !in db.invites ==> JoinFamilyTx(db, Some(uid), code, now) == (Err(InviteNotFound), db))
    ensures |letters| == 7 ==> JoinFamilyTx(db, Some(uid), letters + [wide], now) == (Err(CodeMustBe8), db)
  {
    WideCodeUnits(letters, wide);
  }

  /** Letters followed by one character beyond U+FFFF: trimming keeps them,
      and the last character counts two code units. */
  lemma WideCodeUnits(letters: string, wide: char)
    requires forall i :: 0 <= i < |letters| ==> 'A' <= letters[i] <= 'Z'
    requires wide >= '\U{10000}'
    ensures Trim(letters + [wide]) == letters + [wide]
    ensures KotlinTrim(letters + [wide]) == letters + [wide]
    ensures Utf16Length(letters + [wide]) == |letters| + 2
  {
    forall i | 0 <= i < |letters|
      ensures !IsWhitespace(letters[i]) && !IsKotlinWhitespace(letters[i]) && letters[i] < '\U{10000}'
    {
      UpperIsPlain(letters[i]);
    }
    WideTrims(letters, wide, IsWhitespace);
    WideTrims(letters, wide, IsKotlinWhitespace);
    Utf16LengthBmp(letters);
    WideWidth(wide);
    Utf16LengthAppend(letters, [wide]);
  }

  lemma WideTrims(letters: string, wide: char, p: char -> bool)
    requires forall i :: 0 <= i < |letters| ==> !p(letters[i])
    requires !p(wide)
    ensures TrimBy(letters + [wide], p) == letters + [wide]
  {
    var s := letters + [wide];
    assert s[0] == (if letters == [] then wide else letters[0]) && s[|s| - 1] == wide;
    TrimBySurrounded(s, p, 0, |s|);
  }

  lemma UpperIsPlain(c: char)
    requires 'A' <= c <= 'Z'
    ensures !IsWhitespace(c) && !IsKotlinWhitespace(c) && c < '\U{10000}'
  {
  }

  lemma WideWidth(wide: char)
    requires wide >= '\U{10000}'
    ensures Utf16Length([wide]) == 2
  {
    assert [wide][1..] == [];
  }

  /** The conditions under which a redemption succeeds, all at once. */
  ghost predicate JoinAllowed(db: Db, uid: string, code: string, now: int) {
    && code in db.invites
    && Truthy(db.invites[code].familyId)
    && !Expired(db.invites[code], now)
    && !Truthy(db.invites[code].usedBy)
    && !(uid in db.users && Truthy(db.users[uid].familyId))
    && db.invites[code].familyId.value in db.families
  }

  /** joinFamily checks, in this order: invite missing, no family id,
      expired (strictly before now), already used, caller already in a
      family, family missing. A redemption succeeds exactly when none of
      them fires. */
  lemma JoinErrorOrder(db: Db, uid: string, rawCode: string, now: int)
    requires Utf16Length(Trim(rawCode)) == CodeLength
    ensures var code := Trim(rawCode);
      var r := JoinFamilyTx(db, Some(uid), rawCode, now).0;
      && (code !in db.invites ==> r == Err(InviteNotFound))
      && (code in db.invites ==>
           var inv := db.invites[code];
           && (!Truthy(inv.familyId) ==> r == Err(InvalidInvite))
           && (Truthy(inv.familyId) && Expired(inv, now) ==> r == Err(InviteExpired))
           && (Truthy(inv.familyId) && !Expired(inv, now) && Truthy(inv.usedBy) ==> r == Err(InviteUsed))
           && ((Truthy(inv.familyId) && !Expired(inv, now) && !Truthy(inv.usedBy) &&
                uid in db.users && Truthy(db.users[uid].familyId)) ==> r == Err(LeaveCurrentFirst))
           && ((Truthy(inv.familyId) && !Expired(inv, now) && !Truthy(inv.usedBy) &&
                !(uid in db.users && Truthy(db.users[uid].familyId)) &&
                inv.familyId.value !in db.families) ==> r == Err(FamilyNotFound)))
      && (r.Ok? <==> JoinAllowed(db, uid, code, now))
  {
  }

  /** A successful redemption marks the invite used by the caller at `now`,
      adds the caller to the members as a set union, merges the family id
      and `updatedAt` into the caller's document, and returns the family's
      name ("Family" when it has none). Each of the three documents keeps
      every other field, and no other document changes. */
  lemma JoinWrites(db: Db, uid: string, rawCode: string, now: int)
    requires JoinFamilyTx(db, Some(uid), rawCode, now).0.Ok?
    ensures var code := Trim(rawCode);
      var (r, db') := JoinFamilyTx(db, Some(uid), rawCode, now);
      var fid := db.invites[code].familyId.value;
      && code in db.invites && fid in db.families
      && r.value == JoinResult(fid, DisplayFamilyName(db.families[fid]))
      && code in db'.invites
      && db'.invites[code] == db.invites[code].(usedBy := Some(uid), usedAt := Some(FromMillis(now)))
      && fid in db'.families
      && db'.families[fid] == db.families[fid].(memberIds := ArrayUnion(db.families[fid].memberIds, uid))
      && (forall m :: m in db'.families[fid].memberIds <==> m in db.families[fid].memberIds || m == uid)
      && uid in db'.users
      && db'.users[uid] == MergeUser(Lookup(db.users, uid), FamilyPatch(Some(fid), FromMillis(now)))
      && db'.users[uid].familyId == Some(fid)
      && db'.limits == db.limits && db'.scoped == db.scoped
      && (forall f :: f != fid ==> Lookup(db'.families, f) == Lookup(db.families, f))
      && (forall c :: c != code ==> Lookup(db'.invites, c) == Lookup(db.invites, c))
      && (forall u :: u != uid ==> Lookup(db'.users, u) == Lookup(db.users, u))
  {
  }

  /** Invites are single-use: once a code has been redeemed, every later
      redemption of the same code fails with `failed-precondition`, as
      "already used" unless it has expired meanwhile. Two racing calls are
      two calls in sequence, so at most one of them succeeds. */
  lemma InviteSingleUse(db: Db, uid1: string, uid2: string, raw1: string, raw2: string, t1: int, t2: int)
    requires uid1 != []
    requires JoinFamilyTx(db, Some(uid1), raw1, t1).0.Ok?
    requires Trim(raw2) == Trim(raw1)
    ensures var db' := JoinFamilyTx(db, Some(uid1), raw1, t1).1;
      var r := JoinFamilyTx(db', Some(uid2), raw2, t2).0;
      && r.Err? && r.error.code == FailedPrecondition
      && (!Expired(db.invites[Trim(raw1)], t2) ==> r == Err(InviteUsed))
  {
  }

  /** An invite whose expiry lies before `now` is refused even if it is
      otherwise valid and unused. */
  lemma ExpiredInviteRefused(db: Db, uid: string, rawCode: string, now: int)
    requires Utf16Length(Trim(rawCode)) == CodeLength && Trim(rawCode) in db.invites
    requires Truthy(db.invites[Trim(rawCode)].familyId)
    requires db.invites[Trim(rawCode)].expiresAt.Some?
    requires ToMillis(db.invites[Trim(rawCode)].expiresAt.value) < now
    ensures JoinFamilyTx(db, Some(uid), rawCode, now) == (Err(InviteExpired), db)
  {
  }

  /** An invite created at `created` is redeemable through
      `created + 30 min` inclusive and expired one millisecond later. */
  lemma InviteLifetime(created: int, now: int)
    ensures var inv := InviteDoc(Some("f"), Some("o"), Some(FromMillis(created + InviteTtlMs)), None, None, None);
      Expired(inv, now) <==> now > created + InviteTtlMs
  {
    MillisRoundTrip(created + InviteTtlMs);
  }

  // ---------------------------------------------------------------------
  // Owner-only actions
  // ---------------------------------------------------------------------

  /** createInvite, removeMember and disbandFamily are refused with
      `permission-denied` to anyone but the family's creator; leaveFamily
      is refused to the creator with `failed-precondition`. */
  lemma OwnerOnlyActions(db: Db, uid: string, rawFid: string, rawMember: string, now: int, code: string, failAt: Option<nat>)
    requires Trim(rawFid) in db.families && Trim(rawFid) != []
    ensures var f := db.families[Trim(rawFid)];
      && (f.createdBy != Some(uid) ==> CreateInviteTx(db, Some(uid), rawFid, now, code) == (Err(OwnerOnlyInvites), db))
      && (f.createdBy != Some(uid) && Trim(rawMember) != [] && Trim(rawMember) != uid ==>
            RemoveMemberTx(db, Some(uid), rawFid, rawMember, now) == (Err(OwnerOnlyRemove), db))
      && (f.createdBy != Some(uid) ==> DisbandTx(db, Some(uid), rawFid, now, failAt) == (Err(OwnerOnlyDisband), db))
      && (f.createdBy == Some(uid) ==> LeaveFamilyTx(db, Some(uid), rawFid, now) == (Err(OwnerCannotLeave), db))
  {
  }

  /** removeMember on oneself is refused before the store is read. */
  lemma RemoveSelfRefused(db1: Db, db2: Db, uid: string, rawFid: string, rawMember: string, now: int)
    requires Trim(rawFid) != [] && Trim(rawMember) == uid && uid != []
    ensures RemoveMemberTx(db1, Some(uid), rawFid, rawMember, now) == (Err(UseLeaveInstead), db1)
    ensures RemoveMemberTx(db2, Some(uid), rawFid, rawMember, now).0 == RemoveMemberTx(db1, Some(uid), rawFid, rawMember, now).0
  {
  }

  /** A new invite from createInvite: eight alphabet characters, unused,
      for this family, thirty minutes from now, whatever earlier invites
      look like; nothing but that invite document changes. */
  lemma CreateInviteWrites(db: Db, uid: string, rawFid: string, now: int, draws: seq<real>)
    requires ValidDraws(draws)
    requires CreateInviteTx(db, Some(uid), rawFid, now, CodeOf(draws)).0.Ok?
    ensures var code := CodeOf(draws);
      var (r, db') := CreateInviteTx(db, Some(uid), rawFid, now, code);
      && WellFormedCode(code)
      && r.value == InviteResult(code, now + InviteTtlMs)
      && db.families[Trim(rawFid)].createdBy == Some(uid)
      && db' == db.(invites := db.invites[code := InviteDoc(Some(Trim(rawFid)), Some(uid),
                                  Some(FromMillis(now + InviteTtlMs)), None, None, Some(FromMillis(now)))])
  {
    MillisRoundTrip(now + InviteTtlMs);
    assert forall i :: 0 <= i < CodeLength ==> CodeOf(draws)[i] == Alphabet[Pick(draws[i])];
  }

  // ---------------------------------------------------------------------
  // leaveFamily and removeMember
  // ---------------------------------------------------------------------

  /** A successful leaveFamily or removeMember takes the target out of the
      family's members and merges a null `familyId` and `updatedAt` into
      the target's document; both documents keep every other field, and no
      other document changes. Neither checks that the target's `familyId` was
      this family. */
  lemma LeaveAndRemoveWrites(db: Db, uid: string, target: string, rawFid: string, now: int, leave: bool)
    requires leave ==> uid == target
    requires leave ==> LeaveFamilyTx(db, Some(uid), rawFid, now).0.Ok?
    requires !leave ==> RemoveMemberTx(db, Some(uid), rawFid, target, now).0.Ok? && Trim(target) == target
    ensures var db' := if leave then LeaveFamilyTx(db, Some(uid), rawFid, now).1
                       else RemoveMemberTx(db, Some(uid), rawFid, target, now).1;
      var fid := Trim(rawFid);
      && fid in db.families && fid in db'.families
      && db'.families[fid] == db.families[fid].(memberIds := ArrayRemove(db.families[fid].memberIds, target))
      && (forall m :: m in db'.families[fid].memberIds <==> m in db.families[fid].memberIds && m != target)
      && target in db'.users
      && db'.users[target] == MergeUser(Lookup(db.users, target), FamilyPatch(None, FromMillis(now)))
      && db'.users[target].familyId == None
      && db'.invites == db.invites && db'.limits == db.limits && db'.scoped == db.scoped
      && (forall f :: f != fid ==> Lookup(db'.families, f) == Lookup(db.families, f))
      && (forall u :: u != target ==> Lookup(db'.users, u) == Lookup(db.users, u))
  {
  }

  // ---------------------------------------------------------------------
  // The membership invariant
  // ---------------------------------------------------------------------

  /** createFamily keeps users and families in agreement, given a fresh,
      non-empty auto-generated family id. */
  lemma CreateFamilyKeepsConsistent(db: Db, uid: string, rawName: string, now: int, fid: string, code: string)
    requires Consistent(db) && fid !in db.families && fid != []
    requires CreateFamilyTx(db, Some(uid), rawName, now, fid, code).0.Ok?
    ensures Consistent(CreateFamilyTx(db, Some(uid), rawName, now, fid, code).1)
  {
    var db' := CreateFamilyTx(db, Some(uid), rawName, now, fid, code).1;
    NewFamilyKeepsConsistent(db, db', uid, fid);
  }

  /** Adding a fresh family whose only member is its owner, and pointing the
      owner (who is in no family) at it, keeps the invariant. */
  lemma NewFamilyKeepsConsistent(db: Db, db': Db, uid: string, fid: string)
    requires Consistent(db) && fid !in db.families && fid != []
    requires !(uid in db.users && Truthy(db.users[uid].familyId))
    requires fid in db'.families && db'.families == db.families[fid := db'.families[fid]]
    requires db'.families[fid].memberIds == [uid] && db'.families[fid].createdBy == Some(uid)
    requires uid in db'.users && db'.users == db.users[uid := db'.users[uid]]
    requires db'.users[uid].familyId == Some(fid)
    ensures Consistent(db')
  {
    forall f, m | f in db'.families && m in db'.families[f].memberIds
      ensures m in db'.users && db'.users[m].familyId == Some(f)
    {
      if f != fid {
        assert m in db.families[f].memberIds;
      }
    }
  }

  /** joinFamily keeps users and families in agreement. */
  lemma JoinKeepsConsistent(db: Db, uid: string, rawCode: string, now: int)
    requires Consistent(db)
    requires JoinFamilyTx(db, Some(uid), rawCode, now).0.Ok?
    ensures Consistent(JoinFamilyTx(db, Some(uid), rawCode, now).1)
  {
    var db' := JoinFamilyTx(db, Some(uid), rawCode, now).1;
    var fid := db.invites[Trim(rawCode)].familyId.value;
    NewMemberKeepsConsistent(db, db', uid, fid);
  }

  /** Adding a user who is in no family to the members of an existing
      family, and pointing the user at it, keeps the invariant. */
  lemma NewMemberKeepsConsistent(db: Db, db': Db, uid: string, fid: string)
    requires Consistent(db) && fid in db.families
    requires !(uid in db.users && Truthy(db.users[uid].familyId))
    requires fid in db'.families && db'.families == db.families[fid := db'.families[fid]]
    requires db'.families[fid].createdBy == db.families[fid].createdBy
    requires forall m :: m in db'.families[fid].memberIds <==> m in db.families[fid].memberIds || m == uid
    requires uid in db'.users && db'.users == db.users[uid := db'.users[uid]]
    requires db'.users[uid].familyId == Some(fid)
    ensures Consistent(db')
  {
    forall f, m | f in db'.families && m in db'.families[f].memberIds
      ensures m in db'.users && db'.users[m].familyId == Some(f)
    {
      if f != fid {
        assert m in db.families[f].memberIds;
      }
    }
  }

  /** createInvite changes no user and no family. */
  lemma CreateInviteKeepsConsistent(db: Db, uid: string, rawFid: string, now: int, code: string)
    requires Consistent(db)
    ensures Consistent(CreateInviteTx(db, Some(uid), rawFid, now, code).1)
  {
  }

  /** leaveFamily keeps the invariant when the caller belongs to this
      family or to none. */
  lemma LeaveKeepsConsistent(db: Db, uid: string, rawFid: string, now: int)
    requires Consistent(db)
    requires uid in db.users && Truthy(db.users[uid].familyId) ==> db.users[uid].familyId == Some(Trim(rawFid))
    ensures Consistent(LeaveFamilyTx(db, Some(uid), rawFid, now).1)
  {
    if LeaveFamilyTx(db, Some(uid), rawFid, now).0.Ok? {
      RemovalKeepsConsistent(db, Trim(rawFid), uid, now);
    }
  }

  /** removeMember keeps the invariant when the removed user belongs to
      this family or to none. */
  lemma RemoveKeepsConsistent(db: Db, uid: string, rawFid: string, member: string, now: int)
    requires Consistent(db) && Trim(member) == member
    requires member in db.users && Truthy(db.users[member].familyId) ==> db.users[member].familyId == Some(Trim(rawFid))
    ensures Consistent(RemoveMemberTx(db, Some(uid), rawFid, member, now).1)
  {
    if RemoveMemberTx(db, Some(uid), rawFid, member, now).0.Ok? {
      RemovalKeepsConsistent(db, Trim(rawFid), member, now);
    }
  }

  /** The write shared by leaveFamily and removeMember keeps the invariant
      when the target is not the owner and belongs to this family or to
      none. */
  lemma RemovalKeepsConsistent(db: Db, fid: string, target: string, now: int)
    requires Consistent(db) && fid in db.families
    requires db.families[fid].createdBy != Some(target)
    requires target in db.users && Truthy(db.users[target].familyId) ==> db.users[target].familyId == Some(fid)
    ensures Consistent(WithUserMerged(WithoutMember(db, fid, target), target, FamilyPatch(None, FromMillis(now))))
  {
    RemovedIsConsistent(db, WithUserMerged(WithoutMember(db, fid, target), target, FamilyPatch(None, FromMillis(now))),
                        fid, target, now);
  }

  lemma RemovedIsConsistent(db: Db, db': Db, fid: string, target: string, now: int)
    requires Consistent(db) && fid in db.families
    requires db.families[fid].createdBy != Some(target)
    requires target in db.users && Truthy(db.users[target].familyId) ==> db.users[target].familyId == Some(fid)
    requires db' == WithUserMerged(WithoutMember(db, fid, target), target, FamilyPatch(None, FromMillis(now)))
    ensures Consistent(db')
  {
    forall f, m | f in db'.families && m in db'.families[f].memberIds
      ensures m in db'.users && db'.users[m].familyId == Some(f)
    {
      if f != fid {
        assert m in db.families[f].memberIds;
      }
    }
    forall u | u in db'.users && Truthy(db'.users[u].familyId)
      ensures db'.users[u].familyId.value in db'.families && u in db'.families[db'.users[u].familyId.value].memberIds
    {
      assert u != target;
      assert db'.users[u] == db.users[u];
    }
  }

  // ---------------------------------------------------------------------
  // disbandFamily
  // ---------------------------------------------------------------------

  /** The effect of step `s` is already in place: running it again changes
      nothing. */
  ghost predicate StepDone(db: Db, fid: string, s: DisbandStep) {
    match s
    case DeleteCollection(Invites) => forall k :: k in db.invites ==> db.invites[k].familyId != Some(fid)
    case DeleteCollection(Scoped(kind)) => forall k :: k in db.scoped && k.0 == kind ==> db.scoped[k] != Some(fid)
    case ClearMembers => forall u :: u in db.users ==> db.users[u].familyId != Some(fid)
    case DeleteFamilyDoc => fid !in db.families
  }

  lemma StepDoneIsNoOp(db: Db, fid: string, ts: Timestamp, s: DisbandStep)
    requires StepDone(db, fid, s)
    ensures ApplyStep(db, fid, ts, s) == db
  {
    var r := ApplyStep(db, fid, ts, s);
    match s
    case DeleteCollection(Invites) => assert r.invites == db.invites;
    case DeleteCollection(Scoped(kind)) => assert r.scoped == db.scoped;
    case ClearMembers => assert r.users == db.users;
    case DeleteFamilyDoc => assert r.families == db.families;
  }

  /** Running a step puts its effect in place, and no step undoes the
      effect of another. */
  lemma StepEstablishesAndKeeps(db: Db, fid: string, ts: Timestamp, s: DisbandStep, t: DisbandStep)
    ensures StepDone(ApplyStep(db, fid, ts, s), fid, s)
    ensures StepDone(db, fid, t) ==> StepDone(ApplyStep(db, fid, ts, s), fid, t)
  {
  }

  lemma {:induction false} DoneSurvivesRun(db: Db, fid: string, ts: Timestamp, t: DisbandStep, steps: seq<DisbandStep>)
    requires StepDone(db, fid, t)
    ensures StepDone(RunSteps(db, fid, ts, steps), fid, t)
    decreases |steps|
  {
    if steps != [] {
      StepEstablishesAndKeeps(db, fid, ts, steps[0], t);
      DoneSurvivesRun(ApplyStep(db, fid, ts, steps[0]), fid, ts, t, steps[1..]);
    }
  }

  /** After a run of steps, the effect of each of them is in place. */
  lemma {:induction false} RunMakesDone(db: Db, fid: string, ts: Timestamp, steps: seq<DisbandStep>)
    ensures forall i :: 0 <= i < |steps| ==> StepDone(RunSteps(db, fid, ts, steps), fid, steps[i])
    decreases |steps|
  {
    if steps != [] {
      var db1 := ApplyStep(db, fid, ts, steps[0]);
      RunMakesDone(db1, fid, ts, steps[1..]);
      StepEstablishesAndKeeps(db, fid, ts, steps[0], steps[0]);
      DoneSurvivesRun(db1, fid, ts, steps[0], steps[1..]);
      forall i | 1 <= i < |steps|
        ensures StepDone(RunSteps(db, fid, ts, steps), fid, steps[i])
      {
        assert steps[i] == steps[1..][i - 1];
      }
    }
  }

  /** Steps whose effects are in place change nothing. */
  lemma {:induction false} DoneStepsAreNoOps(db: Db, fid: string, ts: Timestamp, steps: seq<DisbandStep>)
    requires forall i :: 0 <= i < |steps| ==> StepDone(db, fid, steps[i])
    ensures RunSteps(db, fid, ts, steps) == db
    decreases |steps|
  {
    if steps != [] {
      StepDoneIsNoOp(db, fid, ts, steps[0]);
      forall i | 0 <= i < |steps[1..]|
        ensures StepDone(db, fid, steps[1..][i])
      {
        assert steps[1..][i] == steps[i + 1];
      }
      DoneStepsAreNoOps(db, fid, ts, steps[1..]);
    }
  }

  /** Re-running the whole disband on the state an interrupted disband left
      behind (its first `k` writes committed, at time `t1`) is the same as
      running only the missing writes, at the new time `t2`; at the same
      time it is the same as one uninterrupted disband. */
  lemma DisbandResumes(db: Db, fid: string, t1: Timestamp, t2: Timestamp, k: nat)
    requires k <= |Plan()|
    ensures var partial := RunSteps(db, fid, t1, Plan()[..k]);
      RunSteps(partial, fid, t2, Plan()) == RunSteps(partial, fid, t2, Plan()[k..])
    ensures RunSteps(RunSteps(db, fid, t1, Plan()[..k]), fid, t1, Plan()) == RunSteps(db, fid, t1, Plan())
  {
    ResumeSteps(db, fid, t1, t2, Plan(), k);
  }

  lemma ResumeSteps(db: Db, fid: string, t1: Timestamp, t2: Timestamp, steps: seq<DisbandStep>, k: nat)
    requires k <= |steps|
    ensures var partial := RunSteps(db, fid, t1, steps[..k]);
      RunSteps(partial, fid, t2, steps) == RunSteps(partial, fid, t2, steps[k..])
    ensures RunSteps(RunSteps(db, fid, t1, steps[..k]), fid, t1, steps) == RunSteps(db, fid, t1, steps)
  {
    var pre, post := steps[..k], steps[k..];
    var partial := RunSteps(db, fid, t1, pre);
    assert steps == pre + post;
    RunMakesDone(db, fid, t1, pre);
    DoneStepsAreNoOps(partial, fid, t2, pre);
    DoneStepsAreNoOps(partial, fid, t1, pre);
    RunStepsAppend(partial, fid, t2, pre, post);
    RunStepsAppend(partial, fid, t1, pre, post);
    RunStepsAppend(db, fid, t1, pre, post);
  }

  /** A disband the store interrupts at write `k` fails, and the owner can
      call it again later, at `t2`, on what it left behind. The retry
      succeeds. When the interruption came before the members' batch, the
      result is exactly one uninterrupted disband at `t2`. When it came at
      the last write, the members were already cleared at `t1`: the result
      is one uninterrupted disband at `t1`, which differs from one at `t2`
      only in the users (their `updatedAt`). */
  lemma DisbandRetryCompletes(db: Db, uid: string, rawFid: string, t1: int, t2: int, k: nat)
    requires DisbandCheck(db, Some(uid), rawFid).Ok?
    requires k < |Plan()|
    ensures var (r1, partial) := DisbandTx(db, Some(uid), rawFid, t1, Some(k));
      var retry := DisbandTx(partial, Some(uid), rawFid, t2, None);
      && r1 == Err(StoreUnavailable)
      && retry.0 == Ok(())
      && (k <= |Purged| ==> retry == DisbandTx(db, Some(uid), rawFid, t2, None))
      && (k == |Purged| + 1 ==> retry == DisbandTx(db, Some(uid), rawFid, t1, None))
      && (k == |Purged| + 1 ==>
            retry.1 == DisbandTx(db, Some(uid), rawFid, t2, None).1.(users := ClearFamilyOfUsers(db, Trim(rawFid), FromMillis(t1)).users))
  {
    var fid := Trim(rawFid);
    var ts1, ts2 := FromMillis(t1), FromMillis(t2);
    if k == |Purged| + 1 {
      ResumeAfterClear(db, fid, ts1, ts2);
    } else {
      ResumeAfterPurge(db, fid, ts1, ts2, k);
    }
  }

  /** A run interrupted before the members' batch keeps the family document,
      and resuming it at `t2` is one run at `t2`. */
  lemma ResumeAfterPurge(db: Db, fid: string, ts1: Timestamp, ts2: Timestamp, k: nat)
    requires k <= |Purged|
    ensures var partial := RunSteps(db, fid, ts1, Plan()[..k]);
      && partial.families == db.families
      && RunSteps(partial, fid, ts2, Plan()) == RunSteps(db, fid, ts2, Plan())
  {
    DeletesKeepMembership(db, fid, ts1, Plan()[..k]);
    DeletesIgnoreTime(db, fid, ts1, ts2, Plan()[..k]);
    DisbandResumes(db, fid, ts2, ts2, k);
  }

  /** A run interrupted at the last write keeps the family document, and
      resuming it at `t2` is one run at `t1`: the members were cleared at
      `t1`, and the rest is what one run at `t2` leaves. */
  lemma ResumeAfterClear(db: Db, fid: string, ts1: Timestamp, ts2: Timestamp)
    ensures var partial := RunSteps(db, fid, ts1, Plan()[..|Purged| + 1]);
      && partial.families == db.families
      && RunSteps(partial, fid, ts2, Plan()) == RunSteps(db, fid, ts1, Plan())
      && RunSteps(db, fid, ts1, Plan()) == RunSteps(db, fid, ts2, Plan()).(users := ClearFamilyOfUsers(db, fid, ts1).users)
  {
    var k := |Purged| + 1;
    FamilyDocSurvivesPrefix(db, fid, ts1);
    DisbandResumes(db, fid, ts1, ts2, k);
    assert Plan()[k..] == [DeleteFamilyDoc];
    RunStepsAppend(db, fid, ts1, Plan()[..k], [DeleteFamilyDoc]);
    assert Plan() == Plan()[..k] + [DeleteFamilyDoc];
    DisbandFinalState(db, fid, ts1);
    DisbandFinalState(db, fid, ts2);
  }

  /** Batch deletes do not depend on the time of the call. */
  lemma {:induction false} DeletesIgnoreTime(db: Db, fid: string, t1: Timestamp, t2: Timestamp, steps: seq<DisbandStep>)
    requires forall i :: 0 <= i < |steps| ==> steps[i].DeleteCollection?
    ensures RunSteps(db, fid, t1, steps) == RunSteps(db, fid, t2, steps)
    decreases |steps|
  {
    if steps != [] {
      assert forall i :: 0 <= i < |steps[1..]| ==> steps[1..][i] == steps[i + 1];
      DeletesIgnoreTime(ApplyStep(db, fid, t1, steps[0]), fid, t1, t2, steps[1..]);
    }
  }

  /** Batch deletes of the scoped collections and invites leave users and
      families alone. */
  lemma {:induction false} DeletesKeepMembership(db: Db, fid: string, ts: Timestamp, steps: seq<DisbandStep>)
    requires forall i :: 0 <= i < |steps| ==> steps[i].DeleteCollection?
    ensures RunSteps(db, fid, ts, steps).users == db.users
    ensures RunSteps(db, fid, ts, steps).families == db.families
    decreases |steps|
  {
    if steps != [] {
      assert forall i :: 0 <= i < |steps[1..]| ==> steps[1..][i] == steps[i + 1];
      DeletesKeepMembership(ApplyStep(db, fid, ts, steps[0]), fid, ts, steps[1..]);
    }
  }

  /** The family document is still there just before the last write. */
  lemma FamilyDocSurvivesPrefix(db: Db, fid: string, ts: Timestamp)
    ensures var p := RunSteps(db, fid, ts, Plan()[..|Purged| + 1]);
      p.families == db.families
      && p.users == ClearFamilyOfUsers(db, fid, ts).users
  {
    var pre := Plan()[..|Purged|];
    assert Plan()[..|Purged| + 1] == pre + [ClearMembers];
    DeletesKeepMembership(db, fid, ts, pre);
    RunStepsAppend(db, fid, ts, pre, [ClearMembers]);
    var mid := RunSteps(db, fid, ts, pre);
    assert RunSteps(mid, fid, ts, [ClearMembers]) == ClearFamilyOfUsers(mid, fid, ts);
  }

  /** What a completed disband leaves: no document of the family in any
      purged collection, no user pointing at it, no family document, and
      every other document as it was: the invites and scoped documents of
      other families, every other family, the rate-limit documents, and the
      users outside the family (users of the family only get a null
      `familyId` and a new `updatedAt`). */
  lemma DisbandFinalState(db: Db, fid: string, ts: Timestamp)
    ensures var r := RunSteps(db, fid, ts, Plan());
      && fid !in r.families
      && (forall k :: k in r.invites ==> r.invites[k].familyId != Some(fid))
      && (forall k :: k in r.scoped ==> r.scoped[k] != Some(fid))
      && (forall u :: u in r.users ==> r.users[u].familyId != Some(fid))
      && r.invites == (map k | k in db.invites && db.invites[k].familyId != Some(fid) :: db.invites[k])
      && r.scoped == (map k | k in db.scoped && db.scoped[k] != Some(fid) :: db.scoped[k])
      && r.families == db.families - {fid}
      && r.users == ClearFamilyOfUsers(db, fid, ts).users
      && r.limits == db.limits
  {
    DisbandLeavesNoTrace(db, fid, ts);
    DisbandFinalDocs(db, fid, ts);
    DisbandPurgedDocs(db, fid, ts);
  }

  /** The invites and scoped documents a completed disband keeps. */
  lemma DisbandPurgedDocs(db: Db, fid: string, ts: Timestamp)
    ensures var r := RunSteps(db, fid, ts, Plan());
      && r.invites == (map k | k in db.invites && db.invites[k].familyId != Some(fid) :: db.invites[k])
      && r.scoped == (map k | k in db.scoped && db.scoped[k] != Some(fid) :: db.scoped[k])
  {
    PlanPurgesAll();
    InvitesAfterSteps(db, fid, ts, Plan());
    PurgingAllScoped(db, fid, ts, Plan());
  }

  /** The plan deletes from every scoped collection and from the invites. */
  lemma PlanPurgesAll()
    ensures DeleteCollection(Invites) in Plan()
    ensures forall kind: ScopedKind :: DeleteCollection(Scoped(kind)) in Plan()
  {
    assert Plan()[|Purged| - 1] == DeleteCollection(Invites);
    forall kind: ScopedKind
      ensures DeleteCollection(Scoped(kind)) in Plan()
    {
      var i := match kind
        case Lists => 0 case ListItems => 1 case Expenses => 2
        case Categories => 3 case Suggestions => 4 case Budgets => 5;
      assert Plan()[i] == DeleteCollection(Scoped(kind));
    }
  }

  /** A run that deletes from every scoped collection keeps exactly the
      scoped documents of other families. */
  lemma PurgingAllScoped(db: Db, fid: string, ts: Timestamp, steps: seq<DisbandStep>)
    requires forall kind: ScopedKind :: DeleteCollection(Scoped(kind)) in steps
    ensures RunSteps(db, fid, ts, steps).scoped == (map k | k in db.scoped && db.scoped[k] != Some(fid) :: db.scoped[k])
  {
    ScopedAfterSteps(db, fid, ts, steps);
    forall k | k in db.scoped
      ensures DeleteCollection(Scoped(k.0)) in steps
    {
    }
  }

  /** After any run of steps, the invites are the old ones, less the
      family's invites when the run deletes them. */
  lemma {:induction false} InvitesAfterSteps(db: Db, fid: string, ts: Timestamp, steps: seq<DisbandStep>)
    ensures RunSteps(db, fid, ts, steps).invites == InvitesKept(db.invites, fid, DeleteCollection(Invites) in steps)
    decreases |steps|
  {
    if steps != [] {
      var db1 := ApplyStep(db, fid, ts, steps[0]);
      InvitesAfterSteps(db1, fid, ts, steps[1..]);
      InvitesAfterStep(db, fid, ts, steps[0]);
      InvitesKeptTwice(db.invites, fid, steps[0] == DeleteCollection(Invites), DeleteCollection(Invites) in steps[1..]);
      assert steps == [steps[0]] + steps[1..];
      assert DeleteCollection(Invites) in steps <==>
               steps[0] == DeleteCollection(Invites) || DeleteCollection(Invites) in steps[1..];
    }
  }

  /** The invites that survive, depending on whether the family's invites
      were deleted. */
  function InvitesKept(m: map<string, InviteDoc>, fid: string, deleted: bool): map<string, InviteDoc> {
    if deleted then map k | k in m && m[k].familyId != Some(fid) :: m[k] else m
  }

  lemma InvitesAfterStep(db: Db, fid: string, ts: Timestamp, s: DisbandStep)
    ensures ApplyStep(db, fid, ts, s).invites == InvitesKept(db.invites, fid, s == DeleteCollection(Invites))
  {
  }

  lemma InvitesKeptTwice(m: map<string, InviteDoc>, fid: string, d1: bool, d2: bool)
    ensures InvitesKept(InvitesKept(m, fid, d1), fid, d2) == InvitesKept(m, fid, d1 || d2)
  {
  }

  /** The scoped documents that survive the batch deletes among `steps`. */
  function ScopedKept(m: map<(ScopedKind, string), Option<string>>, fid: string, steps: seq<DisbandStep>)
    : map<(ScopedKind, string), Option<string>>
  {
    map k | k in m && !(DeleteCollection(Scoped(k.0)) in steps && m[k] == Some(fid)) :: m[k]
  }

  /** After any run of steps, the scoped documents are the old ones, less
      the family's documents of each collection the run deletes from. */
  lemma {:induction false} ScopedAfterSteps(db: Db, fid: string, ts: Timestamp, steps: seq<DisbandStep>)
    ensures RunSteps(db, fid, ts, steps).scoped == ScopedKept(db.scoped, fid, steps)
    decreases |steps|
  {
    if steps != [] {
      var db1 := ApplyStep(db, fid, ts, steps[0]);
      ScopedAfterSteps(db1, fid, ts, steps[1..]);
      ScopedAfterStep(db, fid, ts, steps[0]);
      ScopedKeptTwice(db.scoped, fid, steps[0], steps[1..]);
      assert steps == [steps[0]] + steps[1..];
    }
  }

  lemma ScopedAfterStep(db: Db, fid: string, ts: Timestamp, s: DisbandStep)
    ensures ApplyStep(db, fid, ts, s).scoped == ScopedKept(db.scoped, fid, [s])
  {
  }

  lemma ScopedKeptTwice(m: map<(ScopedKind, string), Option<string>>, fid: string, s: DisbandStep, rest: seq<DisbandStep>)
    ensures ScopedKept(ScopedKept(m, fid, [s]), fid, rest) == ScopedKept(m, fid, [s] + rest)
  {
    assert forall x :: x in [s] + rest <==> x == s || x in rest;
  }

  lemma DisbandLeavesNoTrace(db: Db, fid: string, ts: Timestamp)
    ensures var r := RunSteps(db, fid, ts, Plan());
      && fid !in r.families
      && (forall k :: k in r.invites ==> r.invites[k].familyId != Some(fid))
      && (forall k :: k in r.scoped ==> r.scoped[k] != Some(fid))
      && (forall u :: u in r.users ==> r.users[u].familyId != Some(fid))
  {
    var r := RunSteps(db, fid, ts, Plan());
    forall k | k in r.scoped
      ensures r.scoped[k] != Some(fid)
    {
      ScopedDocPurged(db, fid, ts, k);
    }
    PlanStepDone(db, fid, ts, |Purged| - 1);
    PlanStepDone(db, fid, ts, |Purged|);
    PlanStepDone(db, fid, ts, |Purged| + 1);
  }

  /** After the whole plan, no scoped document of any kind references the
      family: the plan holds a batch delete for its kind. */
  lemma ScopedDocPurged(db: Db, fid: string, ts: Timestamp, k: (ScopedKind, string))
    requires k in RunSteps(db, fid, ts, Plan()).scoped
    ensures RunSteps(db, fid, ts, Plan()).scoped[k] != Some(fid)
  {
    var i := match k.0
      case Lists => 0 case ListItems => 1 case Expenses => 2
      case Categories => 3 case Suggestions => 4 case Budgets => 5;
    PlanStepDone(db, fid, ts, i);
    assert Plan()[i] == DeleteCollection(Scoped(k.0));
  }

  /** After the whole plan, the effect of its `i`-th write is in place. */
  lemma PlanStepDone(db: Db, fid: string, ts: Timestamp, i: nat)
    requires i < |Plan()|
    ensures StepDone(RunSteps(db, fid, ts, Plan()), fid, Plan()[i])
  {
    RunMakesDone(db, fid, ts, Plan());
  }

  lemma DisbandFinalDocs(db: Db, fid: string, ts: Timestamp)
    ensures var r := RunSteps(db, fid, ts, Plan());
      && r.families == db.families - {fid}
      && r.users == ClearFamilyOfUsers(db, fid, ts).users
      && r.limits == db.limits
  {
    FamilyDocSurvivesPrefix(db, fid, ts);
    var pre := Plan()[..|Purged| + 1];
    assert Plan() == pre + [DeleteFamilyDoc];
    RunStepsAppend(db, fid, ts, pre, [DeleteFamilyDoc]);
    LimitsUnchanged(db, fid, ts, Plan());
  }

  lemma {:induction false} LimitsUnchanged(db: Db, fid: string, ts: Timestamp, steps: seq<DisbandStep>)
    ensures RunSteps(db, fid, ts, steps).limits == db.limits
    decreases |steps|
  {
    if steps != [] {
      LimitsUnchanged(ApplyStep(db, fid, ts, steps[0]), fid, ts, steps[1..]);
    }
  }

  /** A completed disband keeps users and families in agreement. */
  lemma DisbandKeepsConsistent(db: Db, fid: string, ts: Timestamp)
    requires Consistent(db)
    ensures Consistent(RunSteps(db, fid, ts, Plan()))
  {
    var r := RunSteps(db, fid, ts, Plan());
    DisbandFinalState(db, fid, ts);
    ClearedIsConsistent(db, r, fid, ts);
  }

  /** A database whose family `fid` is gone and whose users no longer point
      at it, every other user unchanged, is consistent. */
  lemma ClearedIsConsistent(db: Db, r: Db, fid: string, ts: Timestamp)
    requires Consistent(db)
    requires r.families == db.families - {fid}
    requires r.users == ClearFamilyOfUsers(db, fid, ts).users
    requires forall u :: u in r.users ==> r.users[u].familyId != Some(fid)
    ensures Consistent(r)
  {
    forall u | u in r.users && Truthy(r.users[u].familyId)
      ensures r.users[u].familyId.value in r.families && u in r.families[r.users[u].familyId.value].memberIds
    {
      assert db.users[u].familyId != Some(fid);
      assert r.users[u] == db.users[u];
    }
  }

  /** Calling disbandFamily again after it completed fails with `not-found`,
      because the family document is gone; only an interrupted disband can
      be finished by calling it again. */
  lemma DisbandAgainFails(db: Db, uid: string, rawFid: string, t1: int, t2: int, failAt: Option<nat>)
    requires DisbandTx(db, Some(uid), rawFid, t1, None).0.Ok?
    ensures DisbandTx(DisbandTx(db, Some(uid), rawFid, t1, None).1, Some(uid), rawFid, t2, failAt)
            == (Err(FamilyNotFound), DisbandTx(db, Some(uid), rawFid, t1, None).1)
  {
    DisbandFinalDocs(db, Trim(rawFid), FromMillis(t1));
  }

  // ---------------------------------------------------------------------
  // leaveFamily and removeMember trust the family id they are given
  // ---------------------------------------------------------------------

  /** Neither handler checks that the target's `familyId` is the family
      named in the call. An owner of one family can remove a member of
      another family by naming that user; the user's `familyId` is set to
      null while the other family still lists them. */
  lemma RemoveMemberBreaksConsistency()
    ensures var db := Db(
        map["O" := UserDoc(Some("F1"), None, None, None, None, None),
            "P" := UserDoc(Some("F2"), None, None, None, None, None),
            "M" := UserDoc(Some("F2"), None, None, None, None, None)],
        map["F1" := FamilyDoc(Some("One"), ["O"], Some("O"), None),
            "F2" := FamilyDoc(Some("Two"), ["P", "M"], Some("P"), None)],
        map[], map[], map[]);
      var (r, db') := RemoveMemberTx(db, Some("O"), "F1", "M", 0);
      && Consistent(db) && r.Ok? && !Consistent(db')
      && "M" in db'.families["F2"].memberIds && db'.users["M"].familyId == None
  {
    var db := Db(
        map["O" := UserDoc(Some("F1"), None, None, None, None, None),
            "P" := UserDoc(Some("F2"), None, None, None, None, None),
            "M" := UserDoc(Some("F2"), None, None, None, None, None)],
        map["F1" := FamilyDoc(Some("One"), ["O"], Some("O"), None),
            "F2" := FamilyDoc(Some("Two"), ["P", "M"], Some("P"), None)],
        map[], map[], map[]);
    TrimOfId("F1");
    TrimOfId("M");
    ExampleConsistent(db);
    assert "O" != "M";
    var db1 := WithoutMember(db, "F1", "M");
    var db' := WithUserMerged(db1, "M", FamilyPatch(None, FromMillis(0)));
    assert RemoveMemberTx(db, Some("O"), "F1", "M", 0) == (Ok(()), db');
    assert db'.families["F2"] == db.families["F2"];
    assert "M" in db'.families["F2"].memberIds && db'.users["M"].familyId == None;
  }

  /** The same through leaveFamily: a member of one family who names any
      other family they do not own is detached from their own family. */
  lemma LeaveFamilyBreaksConsistency()
    ensures var db := Db(
        map["O" := UserDoc(Some("F1"), None, None, None, None, None),
            "P" := UserDoc(Some("F2"), None, None, None, None, None),
            "M" := UserDoc(Some("F2"), None, None, None, None, None)],
        map["F1" := FamilyDoc(Some("One"), ["O"], Some("O"), None),
            "F2" := FamilyDoc(Some("Two"), ["P", "M"], Some("P"), None)],
        map[], map[], map[]);
      var (r, db') := LeaveFamilyTx(db, Some("M"), "F1", 0);
      && Consistent(db) && r.Ok? && !Consistent(db')
      && "M" in db'.families["F2"].memberIds && db'.users["M"].familyId == None
  {
    var db := Db(
        map["O" := UserDoc(Some("F1"), None, None, None, None, None),
            "P" := UserDoc(Some("F2"), None, None, None, None, None),
            "M" := UserDoc(Some("F2"), None, None, None, None, None)],
        map["F1" := FamilyDoc(Some("One"), ["O"], Some("O"), None),
            "F2" := FamilyDoc(Some("Two"), ["P", "M"], Some("P"), None)],
        map[], map[], map[]);
    TrimOfId("F1");
    ExampleConsistent(db);
    assert db.families["F1"].createdBy != Some("M");
    var db1 := WithoutMember(db, "F1", "M");
    var db' := WithUserMerged(db1, "M", FamilyPatch(None, FromMillis(0)));
    assert LeaveFamilyTx(db, Some("M"), "F1", 0) == (Ok(()), db');
    assert db'.families["F2"] == db.families["F2"];
    assert "M" in db'.families["F2"].memberIds && db'.users["M"].familyId == None;
  }

  lemma TrimOfId(s: string)
    requires s != [] && !IsWhitespace(s[0]) && !IsWhitespace(s[|s| - 1])
    ensures Trim(s) == s
  {
  }

  lemma ExampleConsistent(db: Db)
    requires db.users == map["O" := UserDoc(Some("F1"), None, None, None, None, None),
                             "P" := UserDoc(Some("F2"), None, None, None, None, None),
                             "M" := UserDoc(Some("F2"), None, None, None, None, None)]
    requires db.families == map["F1" := FamilyDoc(Some("One"), ["O"], Some("O"), None),
                                "F2" := FamilyDoc(Some("Two"), ["P", "M"], Some("P"), None)]
    ensures Consistent(db)
  {
    assert db.families.Keys == {"F1", "F2"};
    assert db.families["F1"].memberIds == ["O"];
    assert db.families["F2"].memberIds == ["P", "M"];
    forall f, m | f in db.families && m in db.families[f].memberIds
      ensures m in db.users && db.users[m].familyId == Some(f)
    {
      if f == "F1" {
        assert m == "O";
      } else {
        assert m == "P" || m == "M";
      }
    }
  }

  const NotAMember := HttpsError(FailedPrecondition, "Not a member of this family.")

  /** `uid`'s user document names `familyId`. */
  predicate BelongsTo(db: Db, uid: string, familyId: string) {
    uid in db.users && db.users[uid].familyId == Some(familyId)
  }

  /** leaveFamily with the membership check it evidently needs: a caller
      whose `familyId` is not this family is refused with
      `failed-precondition`; every other call behaves as before. */
  function LeaveFamilyCheckedTx(db: Db, auth: Option<string>, rawFamilyId: string, now: int): (Result<(), HttpsError>, Db) {
    if auth.Some? && !BelongsTo(db, auth.value, Trim(rawFamilyId)) && LeaveFamilyTx(db, auth, rawFamilyId, now).0.Ok?
    then (Err(NotAMember), db)
    else LeaveFamilyTx(db, auth, rawFamilyId, now)
  }

  /** removeMember with the same check on the removed user. */
  function RemoveMemberCheckedTx(db: Db, auth: Option<string>, rawFamilyId: string, rawMemberId: string, now: int)
    : (Result<(), HttpsError>, Db)
  {
    if auth.Some? && !BelongsTo(db, Trim(rawMemberId), Trim(rawFamilyId)) &&
       RemoveMemberTx(db, auth, rawFamilyId, rawMemberId, now).0.Ok?
    then (Err(NotAMember), db)
    else RemoveMemberTx(db, auth, rawFamilyId, rawMemberId, now)
  }

  /** With the check, leaving and removing keep the invariant on every
      input, and on a consistent database a member's call is handled
      exactly as before. */
  lemma CheckedLeaveKeepsConsistent(db: Db, uid: string, rawFid: string, now: int)
    requires Consistent(db)
    ensures Consistent(LeaveFamilyCheckedTx(db, Some(uid), rawFid, now).1)
    ensures BelongsTo(db, uid, Trim(rawFid)) ==>
              LeaveFamilyCheckedTx(db, Some(uid), rawFid, now) == LeaveFamilyTx(db, Some(uid), rawFid, now)
  {
    if LeaveFamilyCheckedTx(db, Some(uid), rawFid, now).0.Ok? {
      RemovalKeepsConsistent(db, Trim(rawFid), uid, now);
    }
  }

  lemma CheckedRemoveKeepsConsistent(db: Db, uid: string, rawFid: string, rawMember: string, now: int)
    requires Consistent(db)
    ensures Consistent(RemoveMemberCheckedTx(db, Some(uid), rawFid, rawMember, now).1)
    ensures BelongsTo(db, Trim(rawMember), Trim(rawFid)) ==>
              RemoveMemberCheckedTx(db, Some(uid), rawFid, rawMember, now) == RemoveMemberTx(db, Some(uid), rawFid, rawMember, now)
  {
    if RemoveMemberCheckedTx(db, Some(uid), rawFid, rawMember, now).0.Ok? {
      RemovalKeepsConsistent(db, Trim(rawFid), Trim(rawMember), now);
    }
  }
}
