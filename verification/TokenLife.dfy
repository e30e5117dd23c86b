/** What every call does to every refresh session, row by row, and how long a token works
    (packages/api/src/fakes.ts). */
module TokenLife {
  import opened Common
  import opened Sessions

  // ---- rotation

  lemma HashIsFound(rows: Rows, hash: string, k: nat)
    requires DistinctHashes(rows) && k < |rows| && rows[k].hash == hash
    ensures IndexOfHash(rows, hash) == k
  {
  }

  lemma NewIdIsAppended(rows: Rows, s: Session)
    requires forall k :: 0 <= k < |rows| ==> rows[k].id != s.id
    ensures Put(rows, s) == rows + [s]
  {
  }

  /** A known token is answered by its own session: as revoked, else as expired from its expiry on, else by ending that
      session now and starting the next one from it. Nothing else changes. */
  lemma RotationExactly(rows: Rows, hash: string, next: NewSession, at: int, k: nat)
    requires DistinctHashes(rows) && Unused(rows, next) && k < |rows| && rows[k].hash == hash
    ensures var s := rows[k]; var r, rows' := RotationOf(rows, hash, next, at), AfterRotation(rows, hash, next, at);
            if s.revokedAt != None then r == AlreadyRevoked(s) && rows' == rows
            else if at >= s.expiresAt then r == Expired(s) && rows' == rows
            else
              var ended := Session(s.id, s.userId, s.hash, s.expiresAt, Some(at), s.rotatedFrom);
              var born := Session(next.id, next.userId, next.hash, next.expiresAt, None,
                                  if next.rotatedFrom != None then next.rotatedFrom else Some(s.id));
              r == Rotated(ended, born) && rows' == rows[..k] + [ended] + rows[k + 1..] + [born]
  {
    HashIsFound(rows, hash, k);
    var r := RotationOf(rows, hash, next, at);
    if r.Rotated? {
      NewIdIsAppended(rows[k := r.previous], r.replacement);
      assert rows[k := r.previous] == rows[..k] + [r.previous] + rows[k + 1..];
    }
  }

  /** A token nobody holds is missing, and nothing changes. */
  lemma UnknownIsMissing(rows: Rows, hash: string, next: NewSession, at: int)
    ensures RotationOf(rows, hash, next, at) == Missing <==> forall k :: 0 <= k < |rows| ==> rows[k].hash != hash
    ensures RotationOf(rows, hash, next, at) == Missing ==> AfterRotation(rows, hash, next, at) == rows
  {
    var k := IndexOfHash(rows, hash);
    assert k < |rows| ==> rows[k].hash == hash;
  }

  // ---- every call, row by row

  /** The call ends this session, if it is live, at that time. */
  ghost predicate Ends(rows: Rows, e: Event, s: Session, at: int) {
    match e
    case SignIn(_) => false
    case Refresh(hash, _, now) => hash == s.hash && now < s.expiresAt && at == now
    case End(id, now) => id == s.id && at == now
    case EndChain(userId, root, now) =>
      && at == now
      && (exists j :: 0 <= j < |rows| && rows[j].id == root && rows[j].userId == userId)
      && Descends(rows, Some(userId), root, s.id)
    case EndAll(userId, now) => userId == s.userId && at == now
  }

  ghost predicate LeftAs(rows: Rows, e: Event, s: Session, after: Session) {
    && after == s.(revokedAt := after.revokedAt)
    && if s.revokedAt.Some? then after == s
       else if after.revokedAt.Some? then Ends(rows, e, s, after.revokedAt.value)
       else !exists at :: Ends(rows, e, s, at)
  }

  lemma OwnRootIsStored(rows: Rows, userId: string, root: string)
    requires DistinctIds(rows)
    ensures OwnRoot(rows, userId, root) <==>
              exists j :: 0 <= j < |rows| && rows[j].id == root && rows[j].userId == userId
  {
    if j :| 0 <= j < |rows| && rows[j].id == root && rows[j].userId == userId {
      assert IndexOf(rows, root) == j;
    }
  }

  lemma ChainHolds(rows: Rows, userId: string, root: string, k: nat)
    requires DistinctIds(rows) && k < |rows|
    ensures rows[k].id in Chain(rows, userId, root) <==> Descends(rows, Some(userId), root, rows[k].id)
  {
  }

  lemma UserHolds(rows: Rows, userId: string, k: nat)
    requires DistinctIds(rows) && k < |rows|
    ensures rows[k].id in IdsOf(rows, userId) <==> rows[k].userId == userId
  {
  }

  lemma RefreshRow(rows: Rows, e: Event, k: nat)
    requires Families(rows) && Proper(rows, e) && e.Refresh? && k < |rows|
    ensures |Next(rows, e)| >= |rows| && LeftAs(rows, e, rows[k], Next(rows, e)[k])
  {
    var j := IndexOfHash(rows, e.hash);
    if j < |rows| {
      RotationExactly(rows, e.hash, e.next, e.at, j);
      if k != j {
        assert rows[k].hash != rows[j].hash;
      }
      var ended := rows[j].revokedAt.None? && e.at < rows[j].expiresAt;
      if k == j && ended {
        assert Ends(rows, e, rows[k], e.at);
      }
    }
  }

  lemma EndedRow(rows: Rows, e: Event, k: nat, ids: set<string>, at: int)
    requires k < |rows| && Next(rows, e) == RevokeSet(rows, ids, at)
    requires forall t :: Ends(rows, e, rows[k], t) <==> t == at && rows[k].id in ids
    ensures |Next(rows, e)| == |rows| && LeftAs(rows, e, rows[k], Next(rows, e)[k])
  {
    assert Ends(rows, e, rows[k], at) <==> rows[k].id in ids;
  }

  /** What a revoking call counts are the sessions it has ended. */
  lemma CountedAreEnded(rows: Rows, ids: set<string>, at: int)
    ensures Live(rows, ids) ==
            set k | 0 <= k < |rows| && rows[k].revokedAt == None && RevokeSet(rows, ids, at)[k].revokedAt == Some(at)
            :: rows[k].id
  {
  }

  /** Each call leaves each session it finds as it is, but for ending exactly the live ones it names. */
  lemma RowsAreLeft(rows: Rows, e: Event, k: nat)
    requires Families(rows) && Proper(rows, e) && k < |rows|
    ensures k < |Next(rows, e)| && LeftAs(rows, e, rows[k], Next(rows, e)[k])
  {
    match e
    case SignIn(next) => NewIdIsAppended(rows, RowOf(next, next.rotatedFrom));
    case Refresh(_, _, _) => RefreshRow(rows, e, k);
    case End(id, at) => EndedRow(rows, e, k, {id}, at);
    case EndChain(userId, root, at) =>
      OwnRootIsStored(rows, userId, root);
      ChainHolds(rows, userId, root, k);
      if OwnRoot(rows, userId, root) {
        EndedRow(rows, e, k, Chain(rows, userId, root), at);
      }
    case EndAll(userId, at) =>
      UserHolds(rows, userId, k);
      EndedRow(rows, e, k, IdsOf(rows, userId), at);
  }

  /** The call refreshes the session at `k`: it is live, and its token is presented before it expires. */
  predicate Refreshes(rows: Rows, e: Event, k: int) {
    && e.Refresh? && 0 <= k < |rows| && rows[k].hash == e.hash && rows[k].revokedAt == None
    && e.at < rows[k].expiresAt
  }

  /** A session is added by a sign-in and by a refresh that succeeds, live and as asked for, and by nothing else. */
  lemma RowsAreAdded(rows: Rows, e: Event)
    requires Families(rows) && Proper(rows, e)
    ensures var rows' := Next(rows, e);
            if e.SignIn? then
              rows' == rows + [Session(e.next.id, e.next.userId, e.next.hash, e.next.expiresAt, None, None)]
            else if exists k :: Refreshes(rows, e, k) then
              |rows'| == |rows| + 1 &&
              exists k :: Refreshes(rows, e, k) && rows'[|rows|] ==
                Session(e.next.id, e.next.userId, e.next.hash, e.next.expiresAt, None, Some(rows[k].id))
            else |rows'| == |rows|
  {
    if e.SignIn? {
      NewIdIsAppended(rows, RowOf(e.next, e.next.rotatedFrom));
    } else if e.Refresh? {
      var j := IndexOfHash(rows, e.hash);
      if j < |rows| {
        RotationExactly(rows, e.hash, e.next, e.at, j);
        forall k | Refreshes(rows, e, k) ensures k == j {
        }
        assert Refreshes(rows, e, j) <==> RotationOf(rows, e.hash, e.next, e.at).Rotated?;
      }
    }
  }

  // ---- how long a token works

  /** None of the calls ends the session. */
  ghost predicate Spared(rows: Rows, events: seq<Event>, s: Session)
    decreases |events|
  {
    events == [] || ((forall at :: !Ends(rows, events[0], s, at)) && Spared(Next(rows, events[0]), events[1..], s))
  }

  lemma {:induction false} SparedStays(rows: Rows, events: seq<Event>, k: nat)
    requires Families(rows) && ProperRun(rows, events) && k < |rows| && rows[k].revokedAt.None?
    requires Spared(rows, events, rows[k])
    ensures Families(Run(rows, events)) && k < |Run(rows, events)| && Run(rows, events)[k] == rows[k]
    decreases |events|
  {
    if events != [] {
      RowsAreLeft(rows, events[0], k);
      NextKeepsFamilies(rows, events[0]);
      SparedStays(Next(rows, events[0]), events[1..], k);
    }
  }

  /** The token of a live session refreshes it at any time before its expiry, whatever calls come in between that do
      not end it. */
  lemma LiveTokenWorks(rows: Rows, events: seq<Event>, k: nat, next: NewSession, at: int)
    requires Families(rows) && ProperRun(rows, events) && k < |rows| && rows[k].revokedAt.None?
    requires Spared(rows, events, rows[k]) && at < rows[k].expiresAt && Unused(Run(rows, events), next)
    ensures var r := RotationOf(Run(rows, events), rows[k].hash, next, at);
            && r.Rotated? && r.previous.id == rows[k].id && r.previous.revokedAt == Some(at)
            && r.replacement.hash == next.hash && r.replacement.revokedAt == None
  {
    SparedStays(rows, events, k);
    RotationExactly(Run(rows, events), rows[k].hash, next, at, k);
  }
}
