/** Refresh sessions and their rotation families in the in-memory sessions repository
    (packages/api/src/fakes.ts). */
module Sessions {
  import opened Common

  datatype Session = Session(
    id: string, userId: string, hash: string, expiresAt: int, revokedAt: Option<int>, rotatedFrom: Option<string>)

  datatype NewSession = NewSession(id: string, userId: string, hash: string, expiresAt: int,
                                   rotatedFrom: Option<string>)

  datatype Rotation =
    | Missing
    | AlreadyRevoked(previous: Session)
    | Expired(previous: Session)
    | Rotated(previous: Session, replacement: Session)

  /** The stored rows in the order their ids were first inserted. */
  type Rows = seq<Session>

  function IndexOf(rows: Rows, id: string): (k: nat)
    ensures k <= |rows| && (k < |rows| ==> rows[k].id == id)
    ensures forall j :: 0 <= j < k ==> rows[j].id != id
  {
    if rows == [] || rows[0].id == id then 0 else 1 + IndexOf(rows[1..], id)
  }

  function IndexOfHash(rows: Rows, hash: string): (k: nat)
    ensures k <= |rows| && (k < |rows| ==> rows[k].hash == hash)
    ensures forall j :: 0 <= j < k ==> rows[j].hash != hash
  {
    if rows == [] || rows[0].hash == hash then 0 else 1 + IndexOfHash(rows[1..], hash)
  }

  predicate Stored(rows: Rows, id: string) {
    IndexOf(rows, id) < |rows|
  }

  /** Writing under an id in use replaces the row where it stands. */
  function Put(rows: Rows, s: Session): Rows {
    var k := IndexOf(rows, s.id);
    if k < |rows| then rows[k := s] else rows + [s]
  }

  function RowOf(next: NewSession, rotatedFrom: Option<string>): Session {
    Session(next.id, next.userId, next.hash, next.expiresAt, None, rotatedFrom)
  }

  function Ended(s: Session, at: int): Session {
    if s.revokedAt.None? then s.(revokedAt := Some(at)) else s
  }

  function RotationOf(rows: Rows, hash: string, next: NewSession, at: int): Rotation {
    var k := IndexOfHash(rows, hash);
    if k == |rows| then Missing
    else if rows[k].revokedAt.Some? then AlreadyRevoked(rows[k])
    else if rows[k].expiresAt <= at then Expired(rows[k])
    else Rotated(Ended(rows[k], at), RowOf(next, if next.rotatedFrom.Some? then next.rotatedFrom else Some(rows[k].id)))
  }

  function AfterRotation(rows: Rows, hash: string, next: NewSession, at: int): Rows {
    var r := RotationOf(rows, hash, next, at);
    if r.Rotated? then Put(rows[IndexOfHash(rows, hash) := r.previous], r.replacement) else rows
  }

  /** The rows with these ids, revoked now unless they were before. */
  function RevokeSet(rows: Rows, ids: set<string>, at: int): Rows {
    seq(|rows|, i requires 0 <= i < |rows| => if rows[i].id in ids then Ended(rows[i], at) else rows[i])
  }

  function Live(rows: Rows, ids: set<string>): set<string> {
    set k | 0 <= k < |rows| && rows[k].id in ids && rows[k].revokedAt.None? :: rows[k].id
  }

  function IdsOf(rows: Rows, userId: string): set<string> {
    set k | 0 <= k < |rows| && rows[k].userId == userId :: rows[k].id
  }

  // ---- rotation families

  /** s was rotated from the session `parent`; with `user` given, s must also be that user's. */
  predicate ChildOf(s: Session, user: Option<string>, parent: string) {
    s.rotatedFrom == Some(parent) && parent != "" && (user.Some? ==> s.userId == user.value)
  }

  predicate HasChild(rows: Rows, user: Option<string>, parent: string, id: string) {
    exists k :: 0 <= k < |rows| && rows[k].id == id && ChildOf(rows[k], user, parent)
  }

  predicate Path(rows: Rows, user: Option<string>, p: seq<string>) {
    |p| > 0 && forall i :: 0 < i < |p| ==> HasChild(rows, user, p[i - 1], p[i])
  }

  /** id is the root or comes from it by rotations. */
  ghost predicate Descends(rows: Rows, user: Option<string>, root: string, id: string) {
    exists p :: Path(rows, user, p) && p[0] == root && p[|p| - 1] == id
  }

  ghost function Chain(rows: Rows, userId: string, root: string): set<string> {
    set k | 0 <= k < |rows| && Descends(rows, Some(userId), root, rows[k].id) :: rows[k].id
  }

  predicate OwnRoot(rows: Rows, userId: string, root: string) {
    var k := IndexOf(rows, root);
    k < |rows| && rows[k].userId == userId
  }

  lemma RootDescends(rows: Rows, user: Option<string>, root: string)
    ensures Descends(rows, user, root, root)
  {
    assert Path(rows, user, [root]);
  }

  lemma ChildDescends(rows: Rows, user: Option<string>, root: string, id: string, child: string)
    requires Descends(rows, user, root, id) && HasChild(rows, user, id, child)
    ensures Descends(rows, user, root, child)
  {
    var p :| Path(rows, user, p) && p[0] == root && p[|p| - 1] == id;
    assert Path(rows, user, p + [child]);
    assert (p + [child])[|p|] == child;
  }

  ghost predicate ClosedUpTo(rows: Rows, n: nat, user: Option<string>, ids: set<string>)
    requires n <= |rows|
  {
    forall k, parent :: 0 <= k < n && parent in ids && ChildOf(rows[k], user, parent) ==> rows[k].id in ids
  }

  ghost predicate ClosedUnderChildren(rows: Rows, user: Option<string>, ids: set<string>) {
    ClosedUpTo(rows, |rows|, user, ids)
  }

  /** A set with the root that is closed under rotation holds the whole chain. */
  lemma {:induction false} ClosedHoldsChain(rows: Rows, user: Option<string>, ids: set<string>, p: seq<string>)
    requires ClosedUnderChildren(rows, user, ids) && Path(rows, user, p) && p[0] in ids
    ensures p[|p| - 1] in ids
    decreases |p|
  {
    if |p| > 1 {
      var q := p[..|p| - 1];
      ClosedHoldsChain(rows, user, ids, q);
      assert HasChild(rows, user, p[|p| - 2], p[|p| - 1]);
    }
  }

  // ---- the repository

  ghost predicate DistinctIds(rows: Rows) {
    forall i, j :: 0 <= i < |rows| && 0 <= j < |rows| && rows[i].id == rows[j].id ==> i == j
  }

  lemma RewriteDistinct(rows: Rows, k: nat, s: Session)
    requires DistinctIds(rows) && k < |rows| && s.id == rows[k].id
    ensures DistinctIds(rows[k := s])
  {
  }

  lemma PutDistinct(rows: Rows, s: Session)
    requires DistinctIds(rows)
    ensures DistinctIds(Put(rows, s))
  {
    if IndexOf(rows, s.id) < |rows| {
      RewriteDistinct(rows, IndexOf(rows, s.id), s);
    }
  }

  class InMemorySessionsRepository {
    var byId: Rows

    ghost predicate Valid()
      reads this
    {
      DistinctIds(byId)
    }

    constructor ()
      ensures byId == [] && Valid()
    {
      byId := [];
    }

    method Create(next: NewSession) returns (row: Session)
      requires Valid()
      modifies this
      ensures Valid()
      ensures row == RowOf(next, next.rotatedFrom) && byId == Put(old(byId), row)
    {
      row := RowOf(next, next.rotatedFrom);
      PutDistinct(byId, row);
      byId := Put(byId, row);
    }

    method FindByRefreshHash(hash: string) returns (k: nat)
      ensures k == IndexOfHash(byId, hash)
    {
      k := 0;
      while k < |byId|
        invariant k <= |byId| && forall j :: 0 <= j < k ==> byId[j].hash != hash
      {
        if byId[k].hash == hash {
          return;
        }
        k := k + 1;
      }
    }

    method Rotate(hash: string, next: NewSession, at: int) returns (r: Rotation)
      requires Valid()
      modifies this
      ensures Valid()
      ensures r == RotationOf(old(byId), hash, next, at) && byId == AfterRotation(old(byId), hash, next, at)
    {
      var k := FindByRefreshHash(hash);
      if k == |byId| {
        return Missing;
      }
      var previous := byId[k];
      if previous.revokedAt.Some? {
        return AlreadyRevoked(previous);
      }
      if previous.expiresAt <= at {
        return Expired(previous);
      }
      RewriteDistinct(byId, k, previous.(revokedAt := Some(at)));
      byId := byId[k := previous.(revokedAt := Some(at))];
      var row := RowOf(next, if next.rotatedFrom.Some? then next.rotatedFrom else Some(previous.id));
      r := Rotated(byId[k], row);
      PutDistinct(byId, row);
      byId := Put(byId, row);
    }

    method Revoke(id: string, at: int) returns (done: bool)
      requires Valid()
      modifies this
      ensures Valid() && byId == RevokeSet(old(byId), {id}, at)
      ensures done <==> Live(old(byId), {id}) != {}
    {
      ghost var was := byId;
      var k := IndexOf(byId, id);
      done := k < |byId| && byId[k].revokedAt.None?;
      if done {
        assert id in Live(was, {id});
        byId := byId[k := byId[k].(revokedAt := Some(at))];
      }
      assert byId == RevokeSet(was, {id}, at);
    }

    /** The ids of the root and all its descendants, found by passes over the rows until one adds nothing. */
    method CollectChain(userId: string, root: string) returns (chain: set<string>)
      requires Valid() && OwnRoot(byId, userId, root)
      ensures chain == Chain(byId, userId, root)
    {
      ghost var all := set k | 0 <= k < |byId| :: byId[k].id;
      chain := {root};
      RootDescends(byId, Some(userId), root);
      var changed := true;
      while changed
        invariant root in chain && chain <= all
        invariant forall id :: id in chain ==> Descends(byId, Some(userId), root, id)
        invariant !changed ==> ClosedUnderChildren(byId, Some(userId), chain)
        decreases |all| - |chain|, changed
      {
        changed := false;
        ghost var before := chain;
        var k := 0;
        while k < |byId|
          invariant 0 <= k <= |byId| && before <= chain <= all
          invariant forall id :: id in chain ==> Descends(byId, Some(userId), root, id)
          invariant if changed then before < chain else before == chain
          invariant !changed ==> ClosedUpTo(byId, k, Some(userId), chain)
        {
          var s := byId[k];
          if s.userId == userId && s.rotatedFrom.Some? && s.rotatedFrom.value != "" &&
              s.rotatedFrom.value in chain && s.id !in chain {
            ChildDescends(byId, Some(userId), root, s.rotatedFrom.value, s.id);
            chain := chain + {s.id};
            changed := true;
          }
          k := k + 1;
        }
        if changed {
          StrictlyMore(before, chain, all);
        }
      }
      ChainIsClosure(byId, userId, root, chain);
    }

    method RevokeChainForUser(userId: string, root: string, at: int) returns (revoked: Option<nat>)
      requires Valid()
      modifies this
      ensures Valid()
      ensures revoked.Some? <==> OwnRoot(old(byId), userId, root)
      ensures revoked.None? ==> byId == old(byId)
      ensures revoked.Some? ==>
                && byId == RevokeSet(old(byId), Chain(old(byId), userId, root), at)
                && revoked.value == |Live(old(byId), Chain(old(byId), userId, root))|
    {
      var k := IndexOf(byId, root);
      if k == |byId| || byId[k].userId != userId {
        return None;
      }
      var chain := CollectChain(userId, root);
      assert forall id :: id in chain ==> Stored(byId, id);
      var count := RevokeEach(chain, at);
      revoked := Some(count);
    }

    method RevokeEach(ids: set<string>, at: int) returns (count: nat)
      requires Valid() && forall id :: id in ids ==> Stored(byId, id)
      modifies this
      ensures Valid() && RevokedSoFar(old(byId), byId, ids, at, count)
    {
      ghost var was := byId;
      ghost var done: set<string> := {};
      var pending := ids;
      count := 0;
      NoneRevoked(was, at);
      while pending != {}
        invariant done !! pending && done + pending == ids
        invariant RevokedSoFar(was, byId, done, at, count)
        decreases |pending|
      {
        var id :| id in pending;
        count := RevokeOne(was, done, id, at, count);
        pending, done := pending - {id}, done + {id};
      }
      assert done == ids;
      RevokedKeepsIds(was, byId, done, at, count);
    }

    method RevokeOne(ghost was: Rows, ghost done: set<string>, id: string, at: int, count: nat) returns (counted: nat)
      requires DistinctIds(was) && RevokedSoFar(was, byId, done, at, count) && Stored(was, id) && id !in done
      modifies this
      ensures RevokedSoFar(was, byId, done + {id}, at, counted)
    {
      RevokeStored(was, byId, done, id, at, count);
      var j := IndexOf(byId, id);
      counted := count;
      if byId[j].revokedAt.None? {
        byId := byId[j := byId[j].(revokedAt := Some(at))];
        counted := count + 1;
      }
    }

    method RevokeAllForUser(userId: string, at: int) returns (revoked: nat)
      requires Valid()
      modifies this
      ensures Valid()
      ensures byId == RevokeSet(old(byId), IdsOf(old(byId), userId), at)
      ensures revoked == |Live(old(byId), IdsOf(old(byId), userId))|
    {
      ghost var was := byId;
      ghost var done: set<string> := {};
      revoked := 0;
      var k := 0;
      NoneRevoked(was, at);
      while k < |byId|
        invariant 0 <= k <= |byId| == |was|
        invariant done == IdsOf(was[..k], userId)
        invariant RevokedSoFar(was, byId, done, at, revoked)
      {
        IdsOneMore(was, k, userId);
        RevokedKeepsIds(was, byId, done, at, revoked);
        if byId[k].userId == userId {
          RevokeOneMore(was, byId, done, k, at, revoked);
          done := done + {was[k].id};
          if byId[k].revokedAt.None? {
            byId := byId[k := byId[k].(revokedAt := Some(at))];
            revoked := revoked + 1;
          }
        }
        k := k + 1;
      }
      assert was[..k] == was;
      RevokedKeepsIds(was, byId, done, at, revoked);
    }
  }

  lemma StrictlyMore(a: set<string>, b: set<string>, all: set<string>)
    requires a < b <= all
    ensures |a| < |b| <= |all|
  {
    var extra := b - a;
    assert b == a + extra && extra != {};
    assert all == b + (all - b);
  }

  /** What the passes end with is the chain. */
  lemma ChainIsClosure(rows: Rows, userId: string, root: string, ids: set<string>)
    requires OwnRoot(rows, userId, root) && root in ids && ids <= set k | 0 <= k < |rows| :: rows[k].id
    requires forall id :: id in ids ==> Descends(rows, Some(userId), root, id)
    requires ClosedUnderChildren(rows, Some(userId), ids)
    ensures ids == Chain(rows, userId, root)
  {
    forall id | id in Chain(rows, userId, root) ensures id in ids {
      var p :| Path(rows, Some(userId), p) && p[0] == root && p[|p| - 1] == id;
      ClosedHoldsChain(rows, Some(userId), ids, p);
    }
  }

  lemma IdsOneMore(rows: Rows, k: nat, userId: string)
    requires DistinctIds(rows) && k < |rows|
    ensures rows[k].id !in IdsOf(rows[..k], userId)
    ensures IdsOf(rows[..k + 1], userId) ==
            IdsOf(rows[..k], userId) + if rows[k].userId == userId then {rows[k].id} else {}
  {
    assert rows[..k + 1] == rows[..k] + [rows[k]];
  }

  lemma LiveOneMore(rows: Rows, ids: set<string>, j: nat)
    requires DistinctIds(rows) && j < |rows| && rows[j].id !in ids
    ensures |Live(rows, ids + {rows[j].id})| == |Live(rows, ids)| + if rows[j].revokedAt.None? then 1 else 0
  {
    var id := rows[j].id;
    var before, after := Live(rows, ids), Live(rows, ids + {id});
    assert id !in before;
    if rows[j].revokedAt.None? {
      assert after == before + {id};
    } else {
      assert after == before;
    }
  }

  /** These ids, and no others, have been revoked so far; `count` of them were live. */
  ghost predicate RevokedSoFar(was: Rows, now: Rows, ids: set<string>, at: int, count: nat) {
    now == RevokeSet(was, ids, at) && count == |Live(was, ids)|
  }

  lemma NoneRevoked(rows: Rows, at: int)
    ensures RevokedSoFar(rows, rows, {}, at, 0)
  {
    assert RevokeSet(rows, {}, at) == rows;
    assert Live(rows, {}) == {};
  }

  /** One more id revoked changes its row only, and counts once if it was live. */
  lemma RevokeOneMore(was: Rows, now: Rows, ids: set<string>, j: nat, at: int, count: nat)
    requires DistinctIds(was) && RevokedSoFar(was, now, ids, at, count) && j < |was| && was[j].id !in ids
    ensures |now| == |was| && now[j] == was[j] && IndexOf(now, was[j].id) == IndexOf(was, was[j].id) == j
    ensures var live := now[j].revokedAt.None?;
            RevokedSoFar(was, now[j := Ended(now[j], at)], ids + {was[j].id}, at, if live then count + 1 else count)
  {
    var next := RevokeSet(was, ids + {was[j].id}, at);
    forall i | 0 <= i < |was| ensures now[i].id == was[i].id && next[i] == now[j := Ended(now[j], at)][i] {
      assert i != j ==> was[i].id != was[j].id;
    }
    assert next == now[j := Ended(now[j], at)];
    assert now[j].id == was[j].id;
    LiveOneMore(was, ids, j);
  }

  lemma RevokedKeepsIds(was: Rows, now: Rows, ids: set<string>, at: int, count: nat)
    requires DistinctIds(was) && RevokedSoFar(was, now, ids, at, count)
    ensures DistinctIds(now) && |now| == |was|
    ensures forall i :: 0 <= i < |was| ==> now[i].id == was[i].id && now[i].userId == was[i].userId
  {
    forall i, j | 0 <= i < |now| && 0 <= j < |now| && now[i].id == now[j].id ensures i == j {
      assert was[i].id == now[i].id && was[j].id == now[j].id;
    }
  }

  lemma SameIndex(was: Rows, now: Rows, id: string)
    requires |now| == |was| && forall i :: 0 <= i < |was| ==> now[i].id == was[i].id
    ensures IndexOf(now, id) == IndexOf(was, id)
  {
  }

  lemma RevokeStored(was: Rows, now: Rows, ids: set<string>, id: string, at: int, count: nat)
    requires DistinctIds(was) && RevokedSoFar(was, now, ids, at, count) && Stored(was, id) && id !in ids
    ensures Stored(now, id)
    ensures var j := IndexOf(now, id);
            if now[j].revokedAt.None? then
              RevokedSoFar(was, now[j := now[j].(revokedAt := Some(at))], ids + {id}, at, count + 1)
            else RevokedSoFar(was, now, ids + {id}, at, count)
  {
    RevokedKeepsIds(was, now, ids, at, count);
    SameIndex(was, now, id);
    var j := IndexOf(now, id);
    RevokeOneMore(was, now, ids, j, at, count);
    assert now[j].revokedAt.Some? ==> now[j := Ended(now[j], at)] == now;
  }

  // ---- runs

  datatype Event =
    | SignIn(next: NewSession)
    | Refresh(hash: string, next: NewSession, at: int)
    | End(id: string, at: int)
    | EndChain(userId: string, root: string, at: int)
    | EndAll(userId: string, at: int)

  ghost function Next(rows: Rows, e: Event): Rows {
    match e
    case SignIn(next) => Put(rows, RowOf(next, next.rotatedFrom))
    case Refresh(hash, next, at) => AfterRotation(rows, hash, next, at)
    case End(id, at) => RevokeSet(rows, {id}, at)
    case EndChain(userId, root, at) =>
      if OwnRoot(rows, userId, root) then RevokeSet(rows, Chain(rows, userId, root), at) else rows
    case EndAll(userId, at) => RevokeSet(rows, IdsOf(rows, userId), at)
  }

  ghost function Run(rows: Rows, events: seq<Event>): Rows
    decreases |events|
  {
    if events == [] then rows else Run(Next(rows, events[0]), events[1..])
  }

  predicate Unused(rows: Rows, next: NewSession) {
    next.id != "" && forall k :: 0 <= k < |rows| ==> rows[k].id != next.id && rows[k].hash != next.hash
  }

  /** The replacement belongs to the session that is refreshed. */
  predicate FollowsOn(rows: Rows, hash: string, next: NewSession) {
    var k := IndexOfHash(rows, hash);
    k < |rows| ==> next.userId == rows[k].userId && (next.rotatedFrom.None? || next.rotatedFrom == Some(rows[k].id))
  }

  /** New ids and hashes are unused; a sign-in starts a family of its own. */
  predicate Proper(rows: Rows, e: Event) {
    match e
    case SignIn(next) => Unused(rows, next) && next.rotatedFrom.None?
    case Refresh(hash, next, _) => Unused(rows, next) && FollowsOn(rows, hash, next)
    case _ => true
  }

  ghost predicate ProperRun(rows: Rows, events: seq<Event>)
    decreases |events|
  {
    events == [] || (Proper(rows, events[0]) && ProperRun(Next(rows, events[0]), events[1..]))
  }

  ghost predicate DistinctHashes(rows: Rows) {
    forall i, j :: 0 <= i < |rows| && 0 <= j < |rows| && rows[i].hash == rows[j].hash ==> i == j
  }

  /** Row j is where row i was rotated from: an earlier, revoked session of the same user. */
  predicate ParentAt(rows: Rows, i: nat, j: nat) {
    j < i < |rows| && rows[i].rotatedFrom == Some(rows[j].id) && rows[j].id != "" && rows[j].revokedAt.Some? &&
    rows[j].userId == rows[i].userId
  }

  ghost predicate HasParent(rows: Rows, i: nat) {
    exists j :: ParentAt(rows, i, j)
  }

  ghost predicate Parented(rows: Rows) {
    forall i :: 0 <= i < |rows| && rows[i].rotatedFrom.Some? ==> HasParent(rows, i)
  }

  ghost predicate OneChild(rows: Rows) {
    forall i, j :: 0 <= i < |rows| && 0 <= j < |rows| && rows[i].rotatedFrom.Some? &&
                   rows[i].rotatedFrom == rows[j].rotatedFrom ==>
                     i == j
  }

  ghost predicate Families(rows: Rows) {
    && DistinctIds(rows) && DistinctHashes(rows) && Parented(rows) && OneChild(rows)
    && forall k :: 0 <= k < |rows| ==> rows[k].id != ""
  }

  lemma RevokeKeepsFamilies(rows: Rows, ids: set<string>, at: int)
    requires Families(rows)
    ensures Families(RevokeSet(rows, ids, at))
  {
    var now := RevokeSet(rows, ids, at);
    forall i | 0 <= i < |now| && now[i].rotatedFrom.Some? ensures HasParent(now, i) {
      assert HasParent(rows, i);
      var j :| ParentAt(rows, i, j);
      assert ParentAt(now, i, j);
    }
  }

  lemma AddKeepsParents(rows: Rows, s: Session)
    requires Parented(rows)
    requires s.rotatedFrom.Some? ==> HasParent(rows + [s], |rows|)
    ensures Parented(rows + [s])
  {
    var now := rows + [s];
    forall i | 0 <= i < |now| && now[i].rotatedFrom.Some? ensures HasParent(now, i) {
      if i < |rows| {
        assert HasParent(rows, i);
        var j :| ParentAt(rows, i, j);
        assert ParentAt(now, i, j);
      }
    }
  }

  lemma AddKeepsOneChild(rows: Rows, s: Session)
    requires OneChild(rows)
    requires s.rotatedFrom.Some? ==> forall k :: 0 <= k < |rows| ==> rows[k].rotatedFrom != s.rotatedFrom
    ensures OneChild(rows + [s])
  {
  }

  lemma AddKeepsFamilies(rows: Rows, s: Session)
    requires Families(rows) && s.id != ""
    requires forall k :: 0 <= k < |rows| ==> rows[k].id != s.id && rows[k].hash != s.hash
    requires s.rotatedFrom.Some? ==>
               HasParent(rows + [s], |rows|) && forall k :: 0 <= k < |rows| ==> rows[k].rotatedFrom != s.rotatedFrom
    ensures Families(rows + [s])
  {
    AddKeepsParents(rows, s);
    AddKeepsOneChild(rows, s);
  }

  /** A session that is not revoked has not been rotated. */
  lemma UnrevokedIsTail(rows: Rows, k: nat, i: nat)
    requires Families(rows) && k < |rows| && i < |rows| && rows[k].revokedAt.None?
    ensures rows[i].rotatedFrom != Some(rows[k].id)
  {
    if rows[i].rotatedFrom.Some? {
      assert HasParent(rows, i);
      var j :| ParentAt(rows, i, j);
    }
  }

  lemma RotateKeepsFamilies(rows: Rows, e: Event)
    requires Families(rows) && e.Refresh? && Proper(rows, e)
    ensures Families(Next(rows, e))
  {
    var r := RotationOf(rows, e.hash, e.next, e.at);
    if r.Rotated? {
      var k := IndexOfHash(rows, e.hash);
      var mid := RevokeSet(rows, {rows[k].id}, e.at);
      assert mid == rows[k := r.previous] by {
        assert forall i :: 0 <= i < |rows| && i != k ==> rows[i].id != rows[k].id;
      }
      RevokeKeepsFamilies(rows, {rows[k].id}, e.at);
      forall i | 0 <= i < |mid| ensures mid[i].rotatedFrom != Some(rows[k].id) {
        UnrevokedIsTail(rows, k, i);
        assert mid[i].rotatedFrom == rows[i].rotatedFrom;
      }
      assert ParentAt(mid + [r.replacement], |mid|, k);
      AddKeepsFamilies(mid, r.replacement);
    }
  }

  lemma NextKeepsFamilies(rows: Rows, e: Event)
    requires Families(rows) && Proper(rows, e)
    ensures Families(Next(rows, e))
  {
    match e
    case SignIn(next) => AddKeepsFamilies(rows, RowOf(next, next.rotatedFrom));
    case Refresh(_, _, _) => RotateKeepsFamilies(rows, e);
    case End(id, at) => RevokeKeepsFamilies(rows, {id}, at);
    case EndChain(userId, root, at) =>
      if OwnRoot(rows, userId, root) {
        RevokeKeepsFamilies(rows, Chain(rows, userId, root), at);
      }
    case EndAll(userId, at) => RevokeKeepsFamilies(rows, IdsOf(rows, userId), at);
  }

  lemma {:induction false} RunKeepsFamilies(rows: Rows, events: seq<Event>)
    requires Families(rows) && ProperRun(rows, events)
    ensures Families(Run(rows, events))
    decreases |events|
  {
    if events != [] {
      NextKeepsFamilies(rows, events[0]);
      RunKeepsFamilies(Next(rows, events[0]), events[1..]);
    }
  }

  // ---- families are simple paths

  lemma ChildIsUnique(rows: Rows, user: Option<string>, parent: string, a: string, b: string)
    requires OneChild(rows) && HasChild(rows, user, parent, a) && HasChild(rows, user, parent, b)
    ensures a == b
  {
    var i :| 0 <= i < |rows| && rows[i].id == a && ChildOf(rows[i], user, parent);
    var j :| 0 <= j < |rows| && rows[j].id == b && ChildOf(rows[j], user, parent);
    assert rows[i].rotatedFrom == rows[j].rotatedFrom;
  }

  /** Rotation never forks. */
  lemma {:induction false} PathsAgree(rows: Rows, user: Option<string>, p: seq<string>, q: seq<string>, i: nat)
    requires OneChild(rows) && Path(rows, user, p) && Path(rows, user, q) && p[0] == q[0]
    requires i < |p| && i < |q|
    ensures p[i] == q[i]
  {
    if i > 0 {
      PathsAgree(rows, user, p, q, i - 1);
      ChildIsUnique(rows, user, p[i - 1], p[i], q[i]);
    }
  }

  lemma PrefixDescends(rows: Rows, user: Option<string>, p: seq<string>, q: seq<string>)
    requires OneChild(rows) && Path(rows, user, p) && Path(rows, user, q) && p[0] == q[0] && |p| <= |q|
    ensures Descends(rows, user, p[|p| - 1], q[|q| - 1])
  {
    PathsAgree(rows, user, p, q, |p| - 1);
    var rest := q[|p| - 1..];
    assert Path(rows, user, rest) && rest[0] == p[|p| - 1] && rest[|rest| - 1] == q[|q| - 1];
  }

  /** Any two sessions of a family lie on one line. */
  lemma FamilyIsAPath(rows: Rows, user: Option<string>, root: string, a: string, b: string)
    requires Families(rows) && Descends(rows, user, root, a) && Descends(rows, user, root, b)
    ensures Descends(rows, user, a, b) || Descends(rows, user, b, a)
  {
    var p :| Path(rows, user, p) && p[0] == root && p[|p| - 1] == a;
    var q :| Path(rows, user, q) && q[0] == root && q[|q| - 1] == b;
    if |p| <= |q| {
      PrefixDescends(rows, user, p, q);
    } else {
      PrefixDescends(rows, user, q, p);
    }
  }

  lemma ChildComesLater(rows: Rows, user: Option<string>, a: string, b: string)
    requires Families(rows) && HasChild(rows, user, a, b)
    ensures IndexOf(rows, a) < IndexOf(rows, b) < |rows|
  {
    var k :| 0 <= k < |rows| && rows[k].id == b && ChildOf(rows[k], user, a);
    assert HasParent(rows, k);
    var j :| ParentAt(rows, k, j);
    assert IndexOf(rows, b) == k && IndexOf(rows, a) == j;
  }

  lemma {:induction false} PathClimbs(rows: Rows, user: Option<string>, p: seq<string>)
    requires Families(rows) && Path(rows, user, p)
    ensures IndexOf(rows, p[0]) + |p| - 1 <= IndexOf(rows, p[|p| - 1])
    decreases |p|
  {
    if |p| > 1 {
      var q := p[..|p| - 1];
      PathClimbs(rows, user, q);
      ChildComesLater(rows, user, p[|p| - 2], p[|p| - 1]);
    }
  }

  /** No session descends from itself through another. */
  lemma NoCycle(rows: Rows, user: Option<string>, a: string, b: string)
    requires Families(rows) && Descends(rows, user, a, b) && Descends(rows, user, b, a)
    ensures a == b
  {
    var p :| Path(rows, user, p) && p[0] == a && p[|p| - 1] == b;
    var q :| Path(rows, user, q) && q[0] == b && q[|q| - 1] == a;
    PathClimbs(rows, user, p);
    PathClimbs(rows, user, q);
  }

  lemma LiveHasNoDescendant(rows: Rows, user: Option<string>, k: nat, b: string)
    requires Families(rows) && k < |rows| && rows[k].revokedAt.None? && Descends(rows, user, rows[k].id, b)
    ensures b == rows[k].id
  {
    var p :| Path(rows, user, p) && p[0] == rows[k].id && p[|p| - 1] == b;
    if |p| > 1 {
      assert HasChild(rows, user, p[0], p[1]);
      var i :| 0 <= i < |rows| && rows[i].id == p[1] && ChildOf(rows[i], user, p[0]);
      UnrevokedIsTail(rows, k, i);
    }
  }

  /** A family has at most one session that is not revoked, and it is the last. */
  lemma OneLiveSession(rows: Rows, user: Option<string>, root: string, i: nat, j: nat)
    requires Families(rows) && i < |rows| && j < |rows| && rows[i].revokedAt.None?
    requires Descends(rows, user, root, rows[i].id) && Descends(rows, user, root, rows[j].id)
    ensures Descends(rows, user, rows[j].id, rows[i].id)
    ensures rows[j].revokedAt.None? ==> i == j
  {
    FamilyIsAPath(rows, user, root, rows[i].id, rows[j].id);
    if Descends(rows, user, rows[i].id, rows[j].id) {
      LiveHasNoDescendant(rows, user, i, rows[j].id);
      RootDescends(rows, user, rows[i].id);
    } else if rows[j].revokedAt.None? {
      LiveHasNoDescendant(rows, user, j, rows[i].id);
    }
  }

  lemma ChildIsSameUsers(rows: Rows, userId: string, a: string, b: string)
    requires Families(rows) && HasChild(rows, None, a, b) && OwnRoot(rows, userId, a)
    ensures HasChild(rows, Some(userId), a, b) && OwnRoot(rows, userId, b)
  {
    var k :| 0 <= k < |rows| && rows[k].id == b && ChildOf(rows[k], None, a);
    assert HasParent(rows, k);
    var j :| ParentAt(rows, k, j);
    assert IndexOf(rows, a) == j && IndexOf(rows, b) == k;
  }

  lemma PathPrefix(rows: Rows, user: Option<string>, p: seq<string>)
    requires Path(rows, user, p) && |p| > 1
    ensures Path(rows, user, p[..|p| - 1]) && HasChild(rows, user, p[|p| - 2], p[|p| - 1])
  {
  }

  lemma PathGrows(rows: Rows, user: Option<string>, p: seq<string>)
    requires |p| > 1 && Path(rows, user, p[..|p| - 1]) && HasChild(rows, user, p[|p| - 2], p[|p| - 1])
    ensures Path(rows, user, p)
  {
    var q := p[..|p| - 1];
    forall i | 0 < i < |p| ensures HasChild(rows, user, p[i - 1], p[i]) {
      if i < |q| {
        assert HasChild(rows, user, q[i - 1], q[i]);
      }
    }
  }

  lemma {:induction false} SameUserAlong(rows: Rows, userId: string, p: seq<string>)
    requires Families(rows) && Path(rows, None, p) && OwnRoot(rows, userId, p[0])
    ensures Path(rows, Some(userId), p) && OwnRoot(rows, userId, p[|p| - 1])
    decreases |p|
  {
    if |p| > 1 {
      PathPrefix(rows, None, p);
      SameUserAlong(rows, userId, p[..|p| - 1]);
      ChildIsSameUsers(rows, userId, p[|p| - 2], p[|p| - 1]);
      PathGrows(rows, Some(userId), p);
    }
  }

  /** Looking at one user's sessions only loses no descendant. */
  lemma ChainIsWholeFamily(rows: Rows, userId: string, root: string, id: string)
    requires Families(rows) && OwnRoot(rows, userId, root)
    ensures id in Chain(rows, userId, root) <==> Descends(rows, None, root, id)
  {
    if Descends(rows, None, root, id) {
      var p :| Path(rows, None, p) && p[0] == root && p[|p| - 1] == id;
      SameUserAlong(rows, userId, p);
      assert rows[IndexOf(rows, id)].id == id;
    }
    if id in Chain(rows, userId, root) {
      var p :| Path(rows, Some(userId), p) && p[0] == root && p[|p| - 1] == id;
      forall i | 0 < i < |p| ensures HasChild(rows, None, p[i - 1], p[i]) {
        assert HasChild(rows, Some(userId), p[i - 1], p[i]);
      }
      assert Path(rows, None, p);
    }
  }

  // ---- what cannot happen twice

  /** The session with this hash has been revoked. */
  predicate Spent(rows: Rows, hash: string) {
    var k := IndexOfHash(rows, hash);
    k < |rows| && rows[k].revokedAt.Some?
  }

  /** The rows stay where they are, and a revoked one stays as it is. */
  ghost predicate Grown(rows: Rows, now: Rows) {
    && |rows| <= |now|
    && forall k :: 0 <= k < |rows| ==>
         && now[k].id == rows[k].id && now[k].hash == rows[k].hash && now[k].rotatedFrom == rows[k].rotatedFrom
         && (rows[k].revokedAt.Some? ==> now[k] == rows[k])
  }

  lemma RotationExtends(rows: Rows, hash: string, next: NewSession, at: int)
    requires Unused(rows, next)
    ensures Grown(rows, AfterRotation(rows, hash, next, at))
  {
  }

  lemma Extends(rows: Rows, e: Event)
    requires Proper(rows, e)
    ensures Grown(rows, Next(rows, e))
  {
    if e.Refresh? {
      RotationExtends(rows, e.hash, e.next, e.at);
    }
  }

  lemma SpentStays(rows: Rows, e: Event, hash: string)
    requires Proper(rows, e) && Spent(rows, hash)
    ensures Spent(Next(rows, e), hash)
  {
    Extends(rows, e);
    assert IndexOfHash(Next(rows, e), hash) == IndexOfHash(rows, hash);
  }

  predicate Succeeds(rows: Rows, e: Event, hash: string) {
    e.Refresh? && e.hash == hash && RotationOf(rows, e.hash, e.next, e.at).Rotated?
  }

  lemma SuccessSpends(rows: Rows, e: Event, hash: string)
    requires Proper(rows, e) && Succeeds(rows, e, hash)
    ensures Spent(Next(rows, e), hash) && !Spent(rows, hash)
  {
    Extends(rows, e);
    var k := IndexOfHash(rows, hash);
    assert IndexOfHash(Next(rows, e), hash) == k;
  }

  ghost function Successes(rows: Rows, events: seq<Event>, hash: string): nat
    decreases |events|
  {
    if events == [] then 0
    else (if Succeeds(rows, events[0], hash) then 1 else 0) + Successes(Next(rows, events[0]), events[1..], hash)
  }

  /** A refresh token is rotated at most once, whatever happens in between. */
  lemma {:induction false} HashRotatesOnce(rows: Rows, events: seq<Event>, hash: string)
    requires ProperRun(rows, events)
    ensures Successes(rows, events, hash) <= if Spent(rows, hash) then 0 else 1
    decreases |events|
  {
    if events != [] {
      var e := events[0];
      if Succeeds(rows, e, hash) {
        SuccessSpends(rows, e, hash);
      } else if Spent(rows, hash) {
        SpentStays(rows, e, hash);
      }
      HashRotatesOnce(Next(rows, e), events[1..], hash);
    }
  }

  /** Sessions that are all revoked and that nothing outside was rotated from. */
  ghost predicate Dead(rows: Rows, ids: set<string>) {
    ClosedUnderChildren(rows, None, ids) && forall k :: 0 <= k < |rows| && rows[k].id in ids ==> rows[k].revokedAt.Some?
  }

  lemma NextKeepsDead(rows: Rows, e: Event, ids: set<string>)
    requires Families(rows) && Proper(rows, e) && Dead(rows, ids) && forall id :: id in ids ==> Stored(rows, id)
    ensures Dead(Next(rows, e), ids) && forall id :: id in ids ==> Stored(Next(rows, e), id)
  {
    Extends(rows, e);
    var now := Next(rows, e);
    forall id | id in ids ensures Stored(now, id) {
      assert now[IndexOf(rows, id)].id == id;
    }
    forall k | 0 <= k < |now| && now[k].id in ids ensures k < |rows| {
      assert Stored(rows, now[k].id);
    }
    forall k, parent | 0 <= k < |now| && parent in ids && ChildOf(now[k], None, parent) ensures now[k].id in ids {
      if k < |rows| {
        assert ChildOf(rows[k], None, parent);
      }
    }
  }

  lemma {:induction false} RunKeepsDead(rows: Rows, events: seq<Event>, ids: set<string>)
    requires Families(rows) && ProperRun(rows, events) && Dead(rows, ids) && forall id :: id in ids ==> Stored(rows, id)
    ensures Dead(Run(rows, events), ids)
    decreases |events|
  {
    if events != [] {
      NextKeepsFamilies(rows, events[0]);
      NextKeepsDead(rows, events[0], ids);
      RunKeepsDead(Next(rows, events[0]), events[1..], ids);
    }
  }

  lemma ChainIsClosed(rows: Rows, userId: string, root: string)
    requires Families(rows) && OwnRoot(rows, userId, root)
    ensures ClosedUnderChildren(rows, None, Chain(rows, userId, root)) && root in Chain(rows, userId, root)
  {
    var ids := Chain(rows, userId, root);
    RootDescends(rows, None, root);
    ChainIsWholeFamily(rows, userId, root, root);
    forall k, parent | 0 <= k < |rows| && parent in ids && ChildOf(rows[k], None, parent) ensures rows[k].id in ids {
      ChainIsWholeFamily(rows, userId, root, parent);
      assert HasChild(rows, None, parent, rows[k].id);
      ChildDescends(rows, None, root, parent, rows[k].id);
      ChainIsWholeFamily(rows, userId, root, rows[k].id);
    }
  }

  lemma RevokedIsDead(rows: Rows, ids: set<string>, at: int)
    requires ClosedUnderChildren(rows, None, ids) && forall id :: id in ids ==> Stored(rows, id)
    ensures Dead(RevokeSet(rows, ids, at), ids) && forall id :: id in ids ==> Stored(RevokeSet(rows, ids, at), id)
  {
    var now := RevokeSet(rows, ids, at);
    forall k, parent | 0 <= k < |now| && parent in ids && ChildOf(now[k], None, parent) ensures now[k].id in ids {
      assert ChildOf(rows[k], None, parent);
    }
    forall id | id in ids ensures Stored(now, id) {
      assert Stored(rows, id);
      assert now[IndexOf(rows, id)].id == id;
    }
  }

  lemma EndedChainIsDead(rows: Rows, userId: string, root: string, at: int)
    requires Families(rows) && OwnRoot(rows, userId, root)
    ensures var now := Next(rows, EndChain(userId, root, at)); var ids := Chain(rows, userId, root);
            && root in ids && Dead(now, ids) && forall id :: id in ids ==> Stored(now, id)
  {
    ChainIsClosed(rows, userId, root);
    ChainIsStored(rows, userId, root);
    RevokedIsDead(rows, Chain(rows, userId, root), at);
  }

  lemma ChainIsStored(rows: Rows, userId: string, root: string)
    ensures forall id :: id in Chain(rows, userId, root) ==> Stored(rows, id)
  {
    forall id | id in Chain(rows, userId, root) ensures Stored(rows, id) {
      var k :| 0 <= k < |rows| && rows[k].id == id;
    }
  }

  /** Once a family has been revoked from its root it never comes back to life: no later session joins it,
      and none of it is ever live again. */
  lemma ChainEndsForGood(rows: Rows, userId: string, root: string, at: int, events: seq<Event>, k: nat)
    requires Families(rows) && OwnRoot(rows, userId, root)
    requires ProperRun(Next(rows, EndChain(userId, root, at)), events)
    requires var last := Run(Next(rows, EndChain(userId, root, at)), events);
             k < |last| && Descends(last, None, root, last[k].id)
    ensures var last := Run(Next(rows, EndChain(userId, root, at)), events);
            last[k].id in Chain(rows, userId, root) && last[k].revokedAt.Some?
  {
    var now := Next(rows, EndChain(userId, root, at));
    var last := Run(now, events);
    var ids := Chain(rows, userId, root);
    EndedChainIsDead(rows, userId, root, at);
    NextKeepsFamilies(rows, EndChain(userId, root, at));
    RunKeepsDead(now, events, ids);
    var p :| Path(last, None, p) && p[0] == root && p[|p| - 1] == last[k].id;
    ClosedHoldsChain(last, None, ids, p);
  }
}
