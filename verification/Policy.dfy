/** Who may do what to a team, with what effect and what refusal, told from roles and records
    (packages/community/src/repository.ts). */
module Policy {
  import opened Common
  import opened Community

  /** The player's role in the team, if any. */
  function RoleOf(s: Repo, t: string, p: string): Option<Role> {
    var key := t + ":" + p;
    if key in s.memberships then Some(s.memberships[key].role) else None
  }

  /** For this player the team might as well not exist. */
  predicate Hidden(s: Repo, t: string, p: string) {
    t !in s.teams || (s.teams[t].visibility != Public && (p == "" || RoleOf(s, t, p) == None))
  }

  /** The owner ranks above everyone else, an admin above members only. */
  predicate Above(a: Option<Role>, r: Role) {
    || (a == Some(Owner) && r != Owner)
    || (a == Some(Admin) && r == Member)
  }

  predicate IsManager(s: Repo, t: string, p: string) {
    RoleOf(s, t, p) == Some(Owner) || RoleOf(s, t, p) == Some(Admin)
  }

  predicate HasPending(s: Repo, t: string, p: string) {
    exists r :: r in s.requests &&
      s.requests[r].teamId == t && s.requests[r].playerId == p && s.requests[r].status == Pending
  }

  /** Why the call is refused; None when it goes through. */
  function Refusal(s: Repo, op: Op): Option<RuleError> {
    match op
    case Create(_, slug, _, _) => if exists t :: t in s.teams && s.teams[t].slug == slug then Some(SlugTaken) else None
    case SetVisibility(t, a, _) =>
      if Hidden(s, t, a) then Some(NotFound) else if !IsManager(s, t, a) then Some(NotAuthorized) else None
    case Join(t, p) =>
      if Hidden(s, t, p) then Some(NotFound) else if RoleOf(s, t, p) != None then Some(AlreadyMember) else None
    case Remove(t, a, p) =>
      var role := RoleOf(s, t, p);
      if Hidden(s, t, a) || role == None then Some(NotFound)
      else if role == Some(Owner) then Some(CannotLeaveAsOwner)
      else if a == p || Above(RoleOf(s, t, a), role.value) then None
      else Some(NotAuthorized)
    case SetRole(t, a, p, r) =>
      var role := RoleOf(s, t, p);
      if Hidden(s, t, a) then Some(NotFound)
      else if RoleOf(s, t, a) == None then Some(NotAuthorized)
      else if role == None then Some(NotFound)
      else if r == Owner || a == p then Some(InvalidRoleTransition)
      else if Above(RoleOf(s, t, a), role.value) && Above(RoleOf(s, t, a), r) then None
      else Some(NotAuthorized)
    case Transfer(t, a, p) =>
      if Hidden(s, t, a) then Some(NotFound)
      else if RoleOf(s, t, a) != Some(Owner) then Some(NotAuthorized)
      else if a == p then Some(InvalidRoleTransition)
      else if RoleOf(s, t, p) == None then Some(NotFound)
      else None
    case Request(_, t, p) =>
      if Hidden(s, t, p) then Some(NotFound)
      else if RoleOf(s, t, p) != None then Some(AlreadyMember)
      else if HasPending(s, t, p) then Some(AlreadyRequested)
      else None
    case Answer(id, a, _) =>
      if id !in s.requests || Hidden(s, s.requests[id].teamId, a) then Some(NotFound)
      else if !IsManager(s, s.requests[id].teamId, a) then Some(NotAuthorized)
      else if s.requests[id].status != Pending then Some(InvalidTransition)
      else None
    case Cancel(id, a) =>
      if id !in s.requests || s.requests[id].playerId != a then Some(NotFound)
      else if s.requests[id].status != Pending then Some(InvalidTransition)
      else None
  }

  // ---- refusals

  lemma RolesAreLookups(s: Repo, t: string, p: string)
    ensures MemberOf(s, t, p).Some? <==> RoleOf(s, t, p).Some?
    ensures MemberOf(s, t, p).Some? ==> RoleOf(s, t, p) == Some(MemberOf(s, t, p).value.role)
    ensures Visible(s, t, p) <==> !Hidden(s, t, p)
    ensures Manages(s, t, p) <==> IsManager(s, t, p)
  {
    assert MemberKey(t, p) == t + ":" + p;
  }

  lemma RanksAreRoles(a: Role, r: Role)
    ensures Rank(a) > Rank(r) <==> Above(Some(a), r)
  {
  }

  lemma PendingIsFound(s: Repo, t: string, p: string)
    ensures HasPending(s, t, p) <==> exists r :: r in s.requests && PendingFor(s.requests[r], t, p)
  {
    if r :| r in s.requests && PendingFor(s.requests[r], t, p) {
      assert s.requests[r].teamId == t && s.requests[r].playerId == p && s.requests[r].status == Pending;
    }
    if HasPending(s, t, p) {
      var r :| r in s.requests &&
               s.requests[r].teamId == t && s.requests[r].playerId == p && s.requests[r].status == Pending;
      assert PendingFor(s.requests[r], t, p);
    }
  }

  lemma RoleCallsRefused(s: Repo, op: Op)
    requires op.Remove? || op.SetRole? || op.Transfer?
    ensures ErrorOf(Outcome(s, op)) == Refusal(s, op)
  {
    RolesAreLookups(s, op.teamId, op.actor);
    RolesAreLookups(s, op.teamId, if op.Transfer? then op.newOwner else op.target);
    var a := MemberOf(s, op.teamId, op.actor);
    if a.Some? && !op.Transfer? {
      var t := MemberOf(s, op.teamId, op.target);
      if t.Some? {
        RanksAreRoles(a.value.role, t.value.role);
      }
      if op.SetRole? {
        RanksAreRoles(a.value.role, op.role);
      }
    }
  }

  lemma OtherCallsRefused(s: Repo, op: Op)
    requires KeysFit(s) && !(op.Remove? || op.SetRole? || op.Transfer?)
    ensures ErrorOf(Outcome(s, op)) == Refusal(s, op)
  {
    match op
    case Create(_, _, _, _) =>
    case SetVisibility(t, a, _) => RolesAreLookups(s, t, a);
    case Join(t, p) => RolesAreLookups(s, t, p);
    case Request(_, t, p) =>
      RolesAreLookups(s, t, p);
      PendingIsFound(s, t, p);
    case Answer(id, a, _) =>
      if id in s.requests {
        RolesAreLookups(s, s.requests[id].teamId, a);
      }
    case Cancel(_, _) =>
  }

  /** Every call goes through exactly when the roles and records allow it, and is refused for the reason they give. */
  lemma CallsAreRefused(s: Repo, op: Op)
    requires KeysFit(s)
    ensures ErrorOf(Outcome(s, op)) == Refusal(s, op)
    ensures Refusal(s, op).Some? ==> Next(s, op) == s
  {
    if op.Remove? || op.SetRole? || op.Transfer? {
      RoleCallsRefused(s, op);
    } else {
      OtherCallsRefused(s, op);
    }
  }

  // ---- what outsiders can learn

  /** The repository without this team and what belongs to it. */
  function WithoutTeam(s: Repo, t: string): Repo {
    Repo(s.teams - {t}, map k | k in s.memberships && s.memberships[k].teamId != t :: s.memberships[k],
         map r | r in s.requests && s.requests[r].teamId != t :: s.requests[r])
  }

  /** To someone who is no member a private team answers every call but a sign-up for its slug, and a word about one's
      own request, as a team that does not exist. */
  lemma PrivateTeamsAreHidden(s: Repo, t: string, op: Op)
    requires KeysFit(s) && t in s.teams && s.teams[t].visibility == Private
    requires !op.Create? && !op.Cancel? && TeamIdOf(s, op) == Some(t) && RoleOf(s, t, ActorOf(op)) == None
    ensures ErrorOf(Outcome(s, op)) == Some(NotFound) && ErrorOf(Outcome(WithoutTeam(s, t), op)) == Some(NotFound)
    ensures Next(s, op) == s
  {
    CallsAreRefused(s, op);
  }

  // ---- effects

  /** The player's role in the team after the call. */
  function RoleAfter(s: Repo, op: Op, t: string, p: string): Option<Role> {
    if Refusal(s, op).Some? then RoleOf(s, t, p)
    else
      match op
      case Create(id, _, _, owner) => if t == id && p == owner then Some(Owner) else RoleOf(s, t, p)
      case Join(u, q) => if t == u && p == q then Some(Member) else RoleOf(s, t, p)
      case Remove(u, _, q) => if t == u && p == q then None else RoleOf(s, t, p)
      case SetRole(u, _, q, r) => if t == u && p == q then Some(r) else RoleOf(s, t, p)
      case Transfer(u, a, q) =>
        if t == u && p == q then Some(Owner) else if t == u && p == a then Some(Admin) else RoleOf(s, t, p)
      case Answer(id, _, accept) =>
        if accept && t == s.requests[id].teamId && p == s.requests[id].playerId then Some(Member) else RoleOf(s, t, p)
      case _ => RoleOf(s, t, p)
  }

  lemma SameKeys(t: string, p: string, u: string, q: string)
    requires ':' !in t && ':' !in u
    ensures t + ":" + p == u + ":" + q <==> t == u && p == q
  {
    MemberKeysDiffer(t, p, u, q);
    assert MemberKey(t, p) == t + ":" + p && MemberKey(u, q) == u + ":" + q;
  }

  lemma RoleCallsSet(s: Repo, op: Op, t: string, p: string)
    requires KeysFit(s) && t in s.teams && (op.Remove? || op.SetRole? || op.Transfer?)
    ensures RoleOf(Next(s, op), t, p) == RoleAfter(s, op, t, p)
  {
    CallsAreRefused(s, op);
    if Refusal(s, op).None? {
      SameKeys(t, p, op.teamId, op.actor);
      SameKeys(t, p, op.teamId, if op.Transfer? then op.newOwner else op.target);
      NextByHalves(s, op);
    }
  }

  lemma MembersSet(s: Repo, op: Op, t: string, p: string)
    requires KeysFit(s) && Fresh(s, op) && t in Next(s, op).teams && (op.Create? || op.Join?)
    ensures RoleOf(Next(s, op), t, p) == RoleAfter(s, op, t, p)
  {
    CallsAreRefused(s, op);
    if Refusal(s, op).None? {
      if op.Create? {
        SameKeys(t, p, op.id, op.owner);
      } else {
        SameKeys(t, p, op.teamId, op.player);
      }
    }
  }

  lemma AnswersSet(s: Repo, op: Op, t: string, p: string)
    requires KeysFit(s) && Fresh(s, op) && t in Next(s, op).teams && op.Answer?
    ensures RoleOf(Next(s, op), t, p) == RoleAfter(s, op, t, p)
  {
    CallsAreRefused(s, op);
    if Refusal(s, op).None? {
      SameKeys(t, p, s.requests[op.id].teamId, s.requests[op.id].playerId);
    }
  }

  lemma OthersSetNothing(s: Repo, op: Op, t: string, p: string)
    requires KeysFit(s) && Fresh(s, op) && (op.SetVisibility? || op.Request? || op.Cancel?)
    ensures RoleOf(Next(s, op), t, p) == RoleAfter(s, op, t, p)
  {
    CallsAreRefused(s, op);
  }

  /** After any call everyone's role in every team is exactly what the call says. */
  lemma RolesFollow(s: Repo, op: Op, t: string, p: string)
    requires KeysFit(s) && Fresh(s, op) && t in Next(s, op).teams
    ensures RoleOf(Next(s, op), t, p) == RoleAfter(s, op, t, p)
  {
    if op.Remove? || op.SetRole? || op.Transfer? {
      assert Next(s, op).teams.Keys == s.teams.Keys;
      RoleCallsSet(s, op, t, p);
    } else if op.Create? || op.Join? {
      MembersSet(s, op, t, p);
    } else if op.Answer? {
      AnswersSet(s, op, t, p);
    } else {
      OthersSetNothing(s, op, t, p);
    }
  }

  function TeamsAfter(s: Repo, op: Op): map<string, Team> {
    match op
    case Create(id, slug, v, _) => s.teams[id := Team(id, slug, v)]
    case SetVisibility(t, _, v) =>
      if t in s.teams then s.teams[t := Team(s.teams[t].id, s.teams[t].slug, v)] else s.teams
    case _ => s.teams
  }

  function StatusAfter(s: Repo, op: Op, r: string): Status
    requires r in s.requests
  {
    var was := s.requests[r];
    match op
    case Join(t, p) => if was.teamId == t && was.playerId == p && was.status == Pending then Accepted else was.status
    case Answer(id, _, accept) => if r == id then (if accept then Accepted else Declined) else was.status
    case Cancel(id, _) => if r == id then Cancelled else was.status
    case _ => was.status
  }

  lemma RequestsFollow(s: Repo, op: Op, r: string)
    requires KeysFit(s) && Fresh(s, op) && Refusal(s, op).None? && !op.Request?
    ensures Next(s, op).requests.Keys == s.requests.Keys
    ensures r in s.requests ==> Next(s, op).requests[r] == s.requests[r].(status := StatusAfter(s, op, r))
  {
    CallsAreRefused(s, op);
  }

  lemma TeamsFollow(s: Repo, op: Op)
    requires KeysFit(s) && Fresh(s, op) && Refusal(s, op).None?
    ensures Next(s, op).teams == TeamsAfter(s, op)
  {
    CallsAreRefused(s, op);
  }

  lemma NewRequestFollows(s: Repo, op: Op)
    requires KeysFit(s) && Fresh(s, op) && Refusal(s, op).None? && op.Request?
    ensures Next(s, op).requests == s.requests[op.id := JoinRequest(op.id, op.teamId, op.player, Pending)]
  {
    CallsAreRefused(s, op);
  }

  function RequestsAfter(s: Repo, op: Op): map<string, JoinRequest> {
    if op.Request? then s.requests[op.id := JoinRequest(op.id, op.teamId, op.player, Pending)]
    else map r | r in s.requests :: s.requests[r].(status := StatusAfter(s, op, r))
  }

  lemma SameRequests(s: Repo, op: Op, now: map<string, JoinRequest>)
    requires !op.Request? && now.Keys == s.requests.Keys
    requires forall r :: r in s.requests ==> now[r] == s.requests[r].(status := StatusAfter(s, op, r))
    ensures now == RequestsAfter(s, op)
  {
  }

  /** And so are the teams and the join requests: a join settles what the player had pending there. */
  lemma RecordsFollow(s: Repo, op: Op)
    requires KeysFit(s) && Fresh(s, op) && Refusal(s, op).None?
    ensures Next(s, op).teams == TeamsAfter(s, op) && Next(s, op).requests == RequestsAfter(s, op)
  {
    TeamsFollow(s, op);
    if op.Request? {
      NewRequestFollows(s, op);
    } else {
      forall r
        ensures Next(s, op).requests.Keys == s.requests.Keys
        ensures r in s.requests ==> Next(s, op).requests[r] == s.requests[r].(status := StatusAfter(s, op, r))
      {
        RequestsFollow(s, op, r);
      }
      SameRequests(s, op, Next(s, op).requests);
    }
  }
}
