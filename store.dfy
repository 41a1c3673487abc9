/** The Firestore documents the family logic reads and writes, as values
    (the `Db` datatype), and the database itself as an object whose
    collections the transactions update in place (the `Firestore` class).
    Every document store primitive used by the handlers (`set`, `set` with
    merge, `update`, `arrayUnion`, `arrayRemove`, batch delete) is one
    method of the class or one function on `Db`. */
module Store {
  import opened Wrappers
  import opened Text

  /** A Firestore `Timestamp`: whole seconds and a nanosecond part. */
  type Nanos = n: int | 0 <= n < 1_000_000_000

  datatype Timestamp = Timestamp(seconds: int, nanos: Nanos)

  /** `Timestamp.fromMillis`; the seconds are the floor of `ms / 1000`. */
  function FromMillis(ms: int): Timestamp {
    Timestamp(ms / 1000, (ms % 1000) * 1_000_000)
  }

  /** `Timestamp.toMillis`. */
  function ToMillis(t: Timestamp): int {
    t.seconds * 1000 + t.nanos / 1_000_000
  }

  lemma MillisRoundTrip(ms: int)
    ensures ToMillis(FromMillis(ms)) == ms
    ensures FromMillis(ms).seconds * 1000 <= ms < FromMillis(ms).seconds * 1000 + 1000
  {
    var t := FromMillis(ms);
    assert t.nanos / 1_000_000 == ms % 1000;
  }

  /** users/{uid} */
  datatype UserDoc = UserDoc(
    familyId: Option<string>,
    displayName: Option<string>,
    email: Option<string>,
    photoUrl: Option<string>,
    createdAt: Option<Timestamp>,
    updatedAt: Option<Timestamp>)

  /** families/{familyId} */
  datatype FamilyDoc = FamilyDoc(
    name: Option<string>,
    memberIds: seq<string>,
    createdBy: Option<string>,
    createdAt: Option<Timestamp>)

  /** invites/{code} */
  datatype InviteDoc = InviteDoc(
    familyId: Option<string>,
    createdBy: Option<string>,
    expiresAt: Option<Timestamp>,
    usedBy: Option<string>,
    usedAt: Option<Timestamp>,
    createdAt: Option<Timestamp>)

  /** The family-scoped collections other than `invites`. Of their documents
      only the `familyId` field matters to the family logic. */
  datatype ScopedKind = Lists | ListItems | Expenses | Categories | Suggestions | Budgets

  /** A collection that `disbandFamily` empties of the family's documents. */
  datatype Collection = Scoped(kind: ScopedKind) | Invites

  /** The whole database: users, families, invites, the per-user
      `limits/familyCreate` documents (their `lastCreatedAt`), and the
      `familyId` field of every document in the scoped collections, keyed by
      collection and document id. */
  datatype Db = Db(
    users: map<string, UserDoc>,
    families: map<string, FamilyDoc>,
    invites: map<string, InviteDoc>,
    limits: map<string, Timestamp>,
    scoped: map<(ScopedKind, string), Option<string>>)

  /** The fields of one `set(..., { merge: true })` on a user document;
      `None` means the field is not in the written map. `familyId` can be
      written as `null`, hence the nested option. */
  datatype UserPatch = UserPatch(
    familyId: Option<Option<string>>,
    displayName: Option<string>,
    email: Option<string>,
    photoUrl: Option<string>,
    createdAt: Option<Timestamp>,
    updatedAt: Option<Timestamp>)

  const EmptyUser := UserDoc(None, None, None, None, None, None)

  /** A user document after a merge write: the written fields replace the
      stored ones, the others are kept; a missing document starts empty. */
  function MergeUser(old_: Option<UserDoc>, p: UserPatch): (u: UserDoc)
    ensures p.familyId.Some? ==> u.familyId == p.familyId.value
    ensures p.familyId.None? ==> u.familyId == old_.GetOr(EmptyUser).familyId
    ensures p.displayName.Some? ==> u.displayName == p.displayName
    ensures p.displayName.None? ==> u.displayName == old_.GetOr(EmptyUser).displayName
    ensures p.email.Some? ==> u.email == p.email
    ensures p.email.None? ==> u.email == old_.GetOr(EmptyUser).email
    ensures p.photoUrl.Some? ==> u.photoUrl == p.photoUrl
    ensures p.photoUrl.None? ==> u.photoUrl == old_.GetOr(EmptyUser).photoUrl
    ensures p.createdAt.Some? ==> u.createdAt == p.createdAt
    ensures p.createdAt.None? ==> u.createdAt == old_.GetOr(EmptyUser).createdAt
    ensures p.updatedAt.Some? ==> u.updatedAt == p.updatedAt
    ensures p.updatedAt.None? ==> u.updatedAt == old_.GetOr(EmptyUser).updatedAt
  {
    var d := old_.GetOr(EmptyUser);
    UserDoc(
      if p.familyId.Some? then p.familyId.value else d.familyId,
      if p.displayName.Some? then p.displayName else d.displayName,
      if p.email.Some? then p.email else d.email,
      if p.photoUrl.Some? then p.photoUrl else d.photoUrl,
      if p.createdAt.Some? then p.createdAt else d.createdAt,
      if p.updatedAt.Some? then p.updatedAt else d.updatedAt)
  }

  /** The patch `{ familyId, updatedAt }` that every membership change writes. */
  function FamilyPatch(familyId: Option<string>, ts: Timestamp): UserPatch {
    UserPatch(Some(familyId), None, None, None, None, Some(ts))
  }

  function Lookup<K, V>(m: map<K, V>, k: K): Option<V> {
    if k in m then Some(m[k]) else None
  }

  /** `FieldValue.arrayUnion(x)`: appends `x` unless it is already there. */
  function ArrayUnion(s: seq<string>, x: string): (r: seq<string>)
    ensures forall y :: y in r <==> y in s || y == x
    ensures x in s ==> r == s
    ensures x !in s ==> r == s + [x]
  {
    if x in s then s else s + [x]
  }

  /** `FieldValue.arrayRemove(x)`: removes every occurrence of `x`,
      keeping the other elements in order. */
  function ArrayRemove(s: seq<string>, x: string): (r: seq<string>)
    ensures forall y :: y in r <==> y in s && y != x
    ensures |r| <= |s|
    ensures x !in s ==> r == s
  {
    if s == [] then []
    else if s[0] == x then ArrayRemove(s[1..], x)
    else [s[0]] + ArrayRemove(s[1..], x)
  }

  /** The user document `uid` after a merge write of `p`. */
  function WithUserMerged(db: Db, uid: string, p: UserPatch): Db {
    db.(users := db.users[uid := MergeUser(Lookup(db.users, uid), p)])
  }

  /** Batch delete of every document of `c` whose `familyId` is `familyId`;
      the documents that survive keep their contents. */
  function DeleteWhere(db: Db, c: Collection, familyId: string): (r: Db)
    ensures r.users == db.users && r.families == db.families && r.limits == db.limits
    ensures c.Invites? ==> r.scoped == db.scoped
    ensures c.Scoped? ==> r.invites == db.invites
    ensures c.Invites? ==> forall k :: k in r.invites <==> k in db.invites && db.invites[k].familyId != Some(familyId)
    ensures c.Scoped? ==> forall k :: k in r.scoped <==> k in db.scoped && !(k.0 == c.kind && db.scoped[k] == Some(familyId))
    ensures forall k :: k in r.invites ==> k in db.invites && r.invites[k] == db.invites[k]
    ensures forall k :: k in r.scoped ==> k in db.scoped && r.scoped[k] == db.scoped[k]
  {
    match c
    case Invites =>
      db.(invites := map k | k in db.invites && db.invites[k].familyId != Some(familyId) :: db.invites[k])
    case Scoped(kind) =>
      db.(scoped := map k | k in db.scoped && !(k.0 == kind && db.scoped[k] == Some(familyId)) :: db.scoped[k])
  }

  /** Batch merge of `{ familyId: null, updatedAt }` into every user whose
      `familyId` is `familyId`. */
  function ClearFamilyOfUsers(db: Db, familyId: string, ts: Timestamp): (r: Db)
    ensures r.users.Keys == db.users.Keys
    ensures forall u :: u in db.users && db.users[u].familyId == Some(familyId) ==> r.users[u] == MergeUser(Some(db.users[u]), FamilyPatch(None, ts))
    ensures forall u :: u in db.users && db.users[u].familyId != Some(familyId) ==> r.users[u] == db.users[u]
    ensures r.families == db.families && r.invites == db.invites && r.limits == db.limits && r.scoped == db.scoped
  {
    db.(users := map u | u in db.users ::
      if db.users[u].familyId == Some(familyId) then MergeUser(Some(db.users[u]), FamilyPatch(None, ts)) else db.users[u])
  }

  /** The membership invariant of the data model: a user's `familyId` and
      the family's `memberIds` agree in both directions, family ids are
      non-empty, and the owner is a member. */
  ghost predicate Consistent(db: Db) {
    && (forall f :: f in db.families ==> f != [])
    && (forall u :: u in db.users && Truthy(db.users[u].familyId) ==>
          db.users[u].familyId.value in db.families &&
          u in db.families[db.users[u].familyId.value].memberIds)
    && (forall f, m :: f in db.families && m in db.families[f].memberIds ==>
          m in db.users && db.users[m].familyId == Some(f))
    && (forall f :: f in db.families ==>
          db.families[f].createdBy.Some? && db.families[f].createdBy.value in db.families[f].memberIds)
  }

  /** The database. Each method is one write primitive; transactions are
      sequences of calls made by one handler method. */
  class Firestore {
    var users: map<string, UserDoc>
    var families: map<string, FamilyDoc>
    var invites: map<string, InviteDoc>
    var limits: map<string, Timestamp>
    var scoped: map<(ScopedKind, string), Option<string>>

    function State(): Db
      reads this
    {
      Db(users, families, invites, limits, scoped)
    }

    constructor (db: Db)
      ensures State() == db
    {
      users, families, invites, limits, scoped := db.users, db.families, db.invites, db.limits, db.scoped;
    }

    /** `set(familyRef, data)`: replaces the family document. */
    method SetFamily(id: string, doc: FamilyDoc)
      modifies this
      ensures State() == old(State()).(families := old(families)[id := doc])
    {
      families := families[id := doc];
    }

    /** `update(familyRef, { memberIds: arrayUnion(uid) })`. */
    method AddMember(id: string, uid: string)
      requires id in families
      modifies this
      ensures State() == old(State()).(families := old(families)[id := old(families)[id].(memberIds := ArrayUnion(old(families)[id].memberIds, uid))])
    {
      var f := families[id];
      families := families[id := f.(memberIds := ArrayUnion(f.memberIds, uid))];
    }

    /** `update(familyRef, { memberIds: arrayRemove(uid) })`. */
    method RemoveMember(id: string, uid: string)
      requires id in families
      modifies this
      ensures State() == old(State()).(families := old(families)[id := old(families)[id].(memberIds := ArrayRemove(old(families)[id].memberIds, uid))])
    {
      var f := families[id];
      families := families[id := f.(memberIds := ArrayRemove(f.memberIds, uid))];
    }

    /** `familyRef.delete()`. */
    method DeleteFamily(id: string)
      modifies this
      ensures State() == old(State()).(families := old(families) - {id})
    {
      families := families - {id};
    }

    /** `set(inviteRef, data)`: replaces the invite document. */
    method SetInvite(code: string, doc: InviteDoc)
      modifies this
      ensures State() == old(State()).(invites := old(invites)[code := doc])
    {
      invites := invites[code := doc];
    }

    /** `update(inviteRef, { usedBy, usedAt })`. */
    method MarkInviteUsed(code: string, uid: string, ts: Timestamp)
      requires code in invites
      modifies this
      ensures State() == old(State()).(invites := old(invites)[code := old(invites)[code].(usedBy := Some(uid), usedAt := Some(ts))])
    {
      var inv := invites[code];
      invites := invites[code := inv.(usedBy := Some(uid), usedAt := Some(ts))];
    }

    /** `set(userRef, patch, { merge: true })`. */
    method MergeUserDoc(uid: string, p: UserPatch)
      modifies this
      ensures State() == WithUserMerged(old(State()), uid, p)
    {
      users := users[uid := MergeUser(Lookup(users, uid), p)];
    }

    /** `set(limitRef, { lastCreatedAt }, { merge: true })`. */
    method SetLastCreated(uid: string, ts: Timestamp)
      modifies this
      ensures State() == old(State()).(limits := old(limits)[uid := ts])
    {
      limits := limits[uid := ts];
    }

    /** Query `c` for `familyId == familyId` and batch-delete the result. */
    method DeleteWhereFamily(c: Collection, familyId: string)
      modifies this
      ensures State() == DeleteWhere(old(State()), c, familyId)
    {
      match c
      case Invites =>
        invites := map k | k in invites && invites[k].familyId != Some(familyId) :: invites[k];
      case Scoped(kind) =>
        scoped := map k | k in scoped && !(k.0 == kind && scoped[k] == Some(familyId)) :: scoped[k];
    }

    /** Query users for `familyId == familyId` and batch-merge `familyId: null`. */
    method ClearFamilyMembers(familyId: string, ts: Timestamp)
      modifies this
      ensures State() == ClearFamilyOfUsers(old(State()), familyId, ts)
    {
      users := map u | u in users ::
        if users[u].familyId == Some(familyId) then MergeUser(Some(users[u]), FamilyPatch(None, ts)) else users[u];
    }
  }
}
