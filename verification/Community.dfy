/** Teams, memberships, ownership and join requests of the in-memory community repository
    (packages/community/src/repository.ts). */
module Community {
  import opened Common

  datatype Role = Owner | Admin | Member

  datatype Visibility = Public | Private

  datatype Team = Team(id: string, slug: string, visibility: Visibility)

  datatype Membership = Membership(teamId: string, playerId: string, role: Role)

  datatype Status = Pending | Accepted | Declined | Cancelled

  datatype JoinRequest = JoinRequest(id: string, teamId: string, playerId: string, status: Status)

  datatype RuleError =
    | SlugTaken | NotFound | AlreadyMember | AlreadyRequested | NotAuthorized
    | CannotLeaveAsOwner | InvalidRoleTransition | InvalidTransition

  datatype Repo = Repo(
    teams: map<string, Team>, memberships: map<string, Membership>, requests: map<string, JoinRequest>)

  const EMPTY := Repo(map[], map[], map[])

  function Rank(r: Role): nat {
    match r case Owner => 3 case Admin => 2 case Member => 1
  }

  function MemberKey(teamId: string, playerId: string): string {
    teamId + ":" + playerId
  }

  function MemberOf(s: Repo, teamId: string, playerId: string): Option<Membership> {
    var k := MemberKey(teamId, playerId);
    if k in s.memberships then Some(s.memberships[k]) else None
  }

  function WithMember(s: Repo, teamId: string, playerId: string, role: Role): Repo {
    s.(memberships := s.memberships[MemberKey(teamId, playerId) := Membership(teamId, playerId, role)])
  }

  /** A private team exists only for its members. */
  predicate Visible(s: Repo, teamId: string, actor: string) {
    teamId in s.teams && (s.teams[teamId].visibility == Private ==> actor != "" && MemberOf(s, teamId, actor).Some?)
  }

  predicate Manages(s: Repo, teamId: string, actor: string) {
    var m := MemberOf(s, teamId, actor);
    m.Some? && m.value.role != Member
  }

  predicate PendingFor(r: JoinRequest, teamId: string, playerId: string) {
    r.teamId == teamId && r.playerId == playerId && r.status == Pending
  }

  datatype Op =
    | Create(id: string, slug: string, v: Visibility, owner: string)
    | SetVisibility(teamId: string, actor: string, v: Visibility)
    | Join(teamId: string, player: string)
    | Remove(teamId: string, actor: string, target: string)
    | SetRole(teamId: string, actor: string, target: string, role: Role)
    | Transfer(teamId: string, actor: string, newOwner: string)
    | Request(id: string, teamId: string, player: string)
    | Answer(id: string, actor: string, accept: bool)
    | Cancel(id: string, actor: string)

  /** What a call keeps from its first half while it awaits: the team it found and, when it
      answers a join request, the request it read. */
  datatype Held = Held(team: Team, request: JoinRequest)

  const NO_REQUEST := JoinRequest("", "", "", Cancelled)

  // ---- the halves of each operation

  function CreateTeam(s: Repo, id: string, slug: string, v: Visibility, owner: string): Result<Repo, RuleError> {
    if exists t :: t in s.teams && s.teams[t].slug == slug then Err(SlugTaken)
    else Ok(WithMember(s.(teams := s.teams[id := Team(id, slug, v)]), id, owner, Owner))
  }

  function CancelRequest(s: Repo, id: string, actor: string): Result<Repo, RuleError> {
    if id !in s.requests || s.requests[id].playerId != actor then Err(NotFound)
    else if s.requests[id].status != Pending then Err(InvalidTransition)
    else Ok(s.(requests := s.requests[id := s.requests[id].(status := Cancelled)]))
  }

  function UpdateVisibility(s: Repo, teamId: string, actor: string, v: Visibility, team: Team)
    : Result<Repo, RuleError>
  {
    if !Manages(s, teamId, actor) then Err(NotAuthorized)
    else Ok(s.(teams := s.teams[teamId := team.(visibility := v)]))
  }

  /** Every pending request of this player for this team becomes accepted. */
  function AcceptPending(requests: map<string, JoinRequest>, teamId: string, playerId: string)
    : map<string, JoinRequest>
  {
    map r | r in requests ::
      if PendingFor(requests[r], teamId, playerId) then requests[r].(status := Accepted) else requests[r]
  }

  function JoinTeam(s: Repo, teamId: string, player: string, team: Team): Result<Repo, RuleError> {
    if MemberOf(s, teamId, player).Some? then Err(AlreadyMember)
    else if team.visibility == Private then Err(NotAuthorized)
    else Ok(WithMember(s.(requests := AcceptPending(s.requests, teamId, player)), teamId, player, Member))
  }

  function LeaveOrRemove(s: Repo, teamId: string, actor: string, target: string): Result<Repo, RuleError> {
    var t := MemberOf(s, teamId, target);
    var a := MemberOf(s, teamId, actor);
    if t.None? then Err(NotFound)
    else if t.value.role == Owner then Err(CannotLeaveAsOwner)
    else if actor != target && (a.None? || Rank(a.value.role) <= Rank(t.value.role)) then Err(NotAuthorized)
    else Ok(s.(memberships := s.memberships - {MemberKey(teamId, target)}))
  }

  function UpdateRole(s: Repo, teamId: string, actor: string, target: string, role: Role): Result<Repo, RuleError> {
    var t := MemberOf(s, teamId, target);
    var a := MemberOf(s, teamId, actor);
    if a.None? then Err(NotAuthorized)
    else if t.None? then Err(NotFound)
    else if role == Owner || actor == target then Err(InvalidRoleTransition)
    else if Rank(a.value.role) <= Rank(t.value.role) || Rank(role) >= Rank(a.value.role) then Err(NotAuthorized)
    else Ok(s.(memberships := s.memberships[MemberKey(teamId, target) := t.value.(role := role)]))
  }

  function TransferOwnership(s: Repo, teamId: string, actor: string, newOwner: string): Result<Repo, RuleError> {
    var a := MemberOf(s, teamId, actor);
    var n := MemberOf(s, teamId, newOwner);
    if a.None? || a.value.role != Owner then Err(NotAuthorized)
    else if actor == newOwner then Err(InvalidRoleTransition)
    else if n.None? then Err(NotFound)
    else Ok(s.(memberships := s.memberships[MemberKey(teamId, actor) := a.value.(role := Admin)]
                                           [MemberKey(teamId, newOwner) := n.value.(role := Owner)]))
  }

  function CreateRequest(s: Repo, id: string, teamId: string, player: string): Result<Repo, RuleError> {
    if MemberOf(s, teamId, player).Some? then Err(AlreadyMember)
    else if exists r :: r in s.requests && PendingFor(s.requests[r], teamId, player) then Err(AlreadyRequested)
    else Ok(s.(requests := s.requests[id := JoinRequest(id, teamId, player, Pending)]))
  }

  function Respond(s: Repo, team: Team, r: JoinRequest, actor: string, accept: bool): Result<Repo, RuleError> {
    if !Manages(s, team.id, actor) then Err(NotAuthorized)
    else if r.status != Pending then Err(InvalidTransition)
    else
      var s' := s.(requests := s.requests[r.id := r.(status := if accept then Accepted else Declined)]);
      Ok(if accept then WithMember(s', r.teamId, r.playerId, Member) else s')
  }

  /** The two operations that never await. */
  predicate AtOnce(op: Op) {
    op.Create? || op.Cancel?
  }

  function TeamIdOf(s: Repo, op: Op): Option<string> {
    match op
    case Create(id, _, _, _) => Some(id)
    case Answer(id, _, _) => if id in s.requests then Some(s.requests[id].teamId) else None
    case Cancel(id, _) => if id in s.requests then Some(s.requests[id].teamId) else None
    case Request(_, t, _) => Some(t)
    case SetVisibility(t, _, _) => Some(t)
    case Join(t, _) => Some(t)
    case Remove(t, _, _) => Some(t)
    case SetRole(t, _, _, _) => Some(t)
    case Transfer(t, _, _) => Some(t)
  }

  function ActorOf(op: Op): string {
    match op
    case Create(_, _, _, owner) => owner
    case Request(_, _, p) => p
    case Join(_, p) => p
    case _ => op.actor
  }

  /** Up to the await: the call fails, or goes on with what it has read. */
  function FirstHalf(s: Repo, op: Op): Result<Held, RuleError> {
    var t := TeamIdOf(s, op);
    if t.None? || !Visible(s, t.value, ActorOf(op)) then Err(NotFound)
    else Ok(Held(s.teams[t.value], if op.Answer? then s.requests[op.id] else NO_REQUEST))
  }

  /** From the await on, in whatever state the repository is by then. */
  function SecondHalf(s: Repo, op: Op, held: Held): Result<Repo, RuleError> {
    match op
    case SetVisibility(t, a, v) => UpdateVisibility(s, t, a, v, held.team)
    case Join(t, p) => JoinTeam(s, t, p, held.team)
    case Remove(t, a, p) => LeaveOrRemove(s, t, a, p)
    case SetRole(t, a, p, role) => UpdateRole(s, t, a, p, role)
    case Transfer(t, a, p) => TransferOwnership(s, t, a, p)
    case Request(id, t, p) => CreateRequest(s, id, t, p)
    case Answer(_, a, accept) => Respond(s, held.team, held.request, a, accept)
    case Create(id, slug, v, owner) => CreateTeam(s, id, slug, v, owner)
    case Cancel(id, a) => CancelRequest(s, id, a)
  }

  /** A call no other call comes between. */
  function Outcome(s: Repo, op: Op): Result<Repo, RuleError> {
    if AtOnce(op) then SecondHalf(s, op, Held(Team("", "", Public), NO_REQUEST))
    else
      var h := FirstHalf(s, op);
      if h.Err? then Err(h.error) else SecondHalf(s, op, h.value)
  }

  /** A refused operation changes nothing. */
  function After(s: Repo, r: Result<Repo, RuleError>): Repo {
    if r.Ok? then r.value else s
  }

  function Next(s: Repo, op: Op): Repo {
    After(s, Outcome(s, op))
  }

  // ---- the repository

  /** Each method is one call that no other call comes between. */
  class InMemoryCommunityRepository {
    var teams: map<string, Team>
    var memberships: map<string, Membership>
    var requests: map<string, JoinRequest>

    function State(): Repo
      reads this
    {
      Repo(teams, memberships, requests)
    }

    constructor ()
      ensures State() == EMPTY
    {
      teams, memberships, requests := map[], map[], map[];
    }

    method IsVisible(teamId: string, actor: string) returns (r: bool)
      ensures r == Visible(State(), teamId, actor)
    {
      if teamId !in teams {
        return false;
      }
      r := teams[teamId].visibility == Public || (actor != "" && MemberKey(teamId, actor) in memberships);
    }

    method CreateTeam(id: string, slug: string, v: Visibility, owner: string) returns (error: Option<RuleError>)
      modifies this
      ensures State() == Next(old(State()), Create(id, slug, v, owner))
      ensures error == ErrorOf(Outcome(old(State()), Create(id, slug, v, owner)))
    {
      var pending := teams.Keys;
      while pending != {}
        invariant pending <= teams.Keys && forall t :: t in teams && t !in pending ==> teams[t].slug != slug
        decreases |pending|
      {
        var t :| t in pending;
        if teams[t].slug == slug {
          return Some(SlugTaken);
        }
        pending := pending - {t};
      }
      teams := teams[id := Team(id, slug, v)];
      memberships := memberships[MemberKey(id, owner) := Membership(id, owner, Owner)];
      error := None;
    }

    method UpdateTeam(teamId: string, actor: string, v: Visibility) returns (error: Option<RuleError>)
      modifies this
      ensures State() == Next(old(State()), SetVisibility(teamId, actor, v))
      ensures error == ErrorOf(Outcome(old(State()), SetVisibility(teamId, actor, v)))
    {
      var visible := IsVisible(teamId, actor);
      if !visible {
        return Some(NotFound);
      }
      if !Manages(State(), teamId, actor) {
        return Some(NotAuthorized);
      }
      teams := teams[teamId := teams[teamId].(visibility := v)];
      error := None;
    }

    method JoinTeam(teamId: string, player: string) returns (error: Option<RuleError>)
      modifies this
      ensures State() == Next(old(State()), Join(teamId, player))
      ensures error == ErrorOf(Outcome(old(State()), Join(teamId, player)))
    {
      var visible := IsVisible(teamId, player);
      if !visible {
        return Some(NotFound);
      }
      if MemberKey(teamId, player) in memberships {
        return Some(AlreadyMember);
      }
      if teams[teamId].visibility == Private {
        return Some(NotAuthorized);
      }
      memberships := memberships[MemberKey(teamId, player) := Membership(teamId, player, Member)];
      ghost var was := requests;
      var pending := requests.Keys;
      while pending != {}
        invariant teams == old(teams) &&
                  memberships == old(memberships)[MemberKey(teamId, player) := Membership(teamId, player, Member)]
        invariant pending <= was.Keys == requests.Keys
        invariant forall r :: r in was ==>
          requests[r] == if r in pending then was[r] else AcceptPending(was, teamId, player)[r]
        decreases |pending|
      {
        var r :| r in pending;
        pending := pending - {r};
        var request := requests[r];
        if PendingFor(request, teamId, player) {
          requests := requests[r := request.(status := Accepted)];
        }
      }
      assert requests == AcceptPending(was, teamId, player);
      error := None;
    }

    method LeaveOrRemoveMember(teamId: string, actor: string, target: string) returns (error: Option<RuleError>)
      modifies this
      ensures State() == Next(old(State()), Remove(teamId, actor, target))
      ensures error == ErrorOf(Outcome(old(State()), Remove(teamId, actor, target)))
    {
      var visible := IsVisible(teamId, actor);
      if !visible {
        return Some(NotFound);
      }
      var t := MemberOf(State(), teamId, target);
      if t.None? {
        return Some(NotFound);
      }
      if t.value.role == Owner {
        return Some(CannotLeaveAsOwner);
      }
      if actor != target {
        var a := MemberOf(State(), teamId, actor);
        if a.None? || Rank(a.value.role) <= Rank(t.value.role) {
          return Some(NotAuthorized);
        }
      }
      memberships := memberships - {MemberKey(teamId, target)};
      error := None;
    }

    method UpdateMemberRole(teamId: string, actor: string, target: string, role: Role)
      returns (error: Option<RuleError>)
      modifies this
      ensures State() == Next(old(State()), SetRole(teamId, actor, target, role))
      ensures error == ErrorOf(Outcome(old(State()), SetRole(teamId, actor, target, role)))
    {
      var visible := IsVisible(teamId, actor);
      if !visible {
        return Some(NotFound);
      }
      var a := MemberOf(State(), teamId, actor);
      if a.None? {
        return Some(NotAuthorized);
      }
      var t := MemberOf(State(), teamId, target);
      if t.None? {
        return Some(NotFound);
      }
      if role == Owner || actor == target {
        return Some(InvalidRoleTransition);
      }
      if Rank(a.value.role) <= Rank(t.value.role) || Rank(role) >= Rank(a.value.role) {
        return Some(NotAuthorized);
      }
      memberships := memberships[MemberKey(teamId, target) := t.value.(role := role)];
      error := None;
    }

    method TransferOwnership(teamId: string, actor: string, newOwner: string) returns (error: Option<RuleError>)
      modifies this
      ensures State() == Next(old(State()), Transfer(teamId, actor, newOwner))
      ensures error == ErrorOf(Outcome(old(State()), Transfer(teamId, actor, newOwner)))
    {
      var visible := IsVisible(teamId, actor);
      if !visible {
        return Some(NotFound);
      }
      var a := MemberOf(State(), teamId, actor);
      if a.None? || a.value.role != Owner {
        return Some(NotAuthorized);
      }
      if actor == newOwner {
        return Some(InvalidRoleTransition);
      }
      var n := MemberOf(State(), teamId, newOwner);
      if n.None? {
        return Some(NotFound);
      }
      memberships := memberships[MemberKey(teamId, actor) := a.value.(role := Admin)];
      memberships := memberships[MemberKey(teamId, newOwner) := n.value.(role := Owner)];
      error := None;
    }

    method CreateJoinRequest(id: string, teamId: string, player: string) returns (error: Option<RuleError>)
      modifies this
      ensures State() == Next(old(State()), Request(id, teamId, player))
      ensures error == ErrorOf(Outcome(old(State()), Request(id, teamId, player)))
    {
      var visible := IsVisible(teamId, player);
      if !visible {
        return Some(NotFound);
      }
      if MemberKey(teamId, player) in memberships {
        return Some(AlreadyMember);
      }
      var pending := requests.Keys;
      while pending != {}
        invariant pending <= requests.Keys
        invariant forall r :: r in requests && r !in pending ==>
          !PendingFor(requests[r], teamId, player)
        decreases |pending|
      {
        var r :| r in pending;
        if PendingFor(requests[r], teamId, player) {
          return Some(AlreadyRequested);
        }
        pending := pending - {r};
      }
      requests := requests[id := JoinRequest(id, teamId, player, Pending)];
      error := None;
    }

    method RespondToJoinRequest(id: string, actor: string, accept: bool) returns (error: Option<RuleError>)
      modifies this
      ensures State() == Next(old(State()), Answer(id, actor, accept))
      ensures error == ErrorOf(Outcome(old(State()), Answer(id, actor, accept)))
    {
      if id !in requests {
        return Some(NotFound);
      }
      var r := requests[id];
      var visible := IsVisible(r.teamId, actor);
      if !visible {
        return Some(NotFound);
      }
      if !Manages(State(), teams[r.teamId].id, actor) {
        return Some(NotAuthorized);
      }
      if r.status != Pending {
        return Some(InvalidTransition);
      }
      requests := requests[r.id := r.(status := if accept then Accepted else Declined)];
      if accept {
        memberships := memberships[MemberKey(r.teamId, r.playerId) := Membership(r.teamId, r.playerId, Member)];
      }
      error := None;
    }

    method CancelJoinRequest(id: string, actor: string) returns (error: Option<RuleError>)
      modifies this
      ensures State() == Next(old(State()), Cancel(id, actor))
      ensures error == ErrorOf(Outcome(old(State()), Cancel(id, actor)))
    {
      if id !in requests || requests[id].playerId != actor {
        return Some(NotFound);
      }
      if requests[id].status != Pending {
        return Some(InvalidTransition);
      }
      requests := requests[id := requests[id].(status := Cancelled)];
      error := None;
    }
  }

  function ErrorOf(r: Result<Repo, RuleError>): Option<RuleError> {
    if r.Ok? then None else Some(r.error)
  }

  // ---- what every operation keeps

  /** The id generator gives ids not in use; team ids hold no colon, the separator of membership keys. */
  predicate Fresh(s: Repo, op: Op) {
    && (op.Create? ==> op.id !in s.teams && ':' !in op.id)
    && (op.Request? ==> op.id !in s.requests)
  }

  ghost predicate KeysFit(s: Repo) {
    && (forall t :: t in s.teams ==> s.teams[t].id == t && ':' !in t)
    && (forall k :: k in s.memberships ==>
          var m := s.memberships[k]; k == MemberKey(m.teamId, m.playerId) && m.teamId in s.teams)
    && (forall r :: r in s.requests ==> s.requests[r].id == r && s.requests[r].teamId in s.teams)
  }

  predicate IsOwner(s: Repo, t: string, p: string) {
    MemberOf(s, t, p).Some? && MemberOf(s, t, p).value.role == Owner
  }

  ghost predicate AtMostOneOwner(s: Repo) {
    forall t, p, q :: t in s.teams && IsOwner(s, t, p) && IsOwner(s, t, q) ==> p == q
  }

  ghost predicate Owned(s: Repo, t: string) {
    exists p :: IsOwner(s, t, p)
  }

  ghost predicate AllOwned(s: Repo) {
    forall t :: t in s.teams ==> Owned(s, t)
  }

  ghost predicate PendingOutside(s: Repo) {
    forall r :: r in s.requests && s.requests[r].status == Pending ==>
      MemberOf(s, s.requests[r].teamId, s.requests[r].playerId).None?
  }

  predicate BothPending(r: JoinRequest, q: JoinRequest) {
    SameParties(r, q) && r.status == Pending && q.status == Pending
  }

  ghost predicate OnePending(s: Repo) {
    forall r, q :: r in s.requests && q in s.requests && BothPending(s.requests[r], s.requests[q]) ==> r == q
  }

  ghost predicate Safe(s: Repo) {
    KeysFit(s) && AtMostOneOwner(s)
  }

  ghost predicate Inv(s: Repo) {
    Safe(s) && AllOwned(s) && PendingOutside(s) && OnePending(s)
  }

  /** What a waiting call holds still names a team and a request of the repository. */
  predicate HeldFits(s: Repo, op: Op, held: Held) {
    && held.team.id in s.teams
    && match op
       case SetVisibility(t, _, _) => t == held.team.id
       case Join(t, _) => t == held.team.id
       case Remove(t, _, _) => t == held.team.id
       case SetRole(t, _, _, _) => t == held.team.id
       case Transfer(t, _, _) => t == held.team.id
       case Request(_, t, _) => t == held.team.id
       case Answer(id, _, _) => held.request.id == id && held.request.teamId == held.team.id && id in s.requests &&
                                SameParties(s.requests[id], held.request)
       case _ => false
  }

  predicate SameParties(r: JoinRequest, q: JoinRequest) {
    r.teamId == q.teamId && r.playerId == q.playerId
  }

  /** The call is about to accept a request. */
  predicate Accepts(s: Repo, op: Op, held: Held) {
    op.Answer? && op.accept && held.request.status == Pending && Manages(s, held.team.id, op.actor)
  }

  /** Membership keys cannot be confused. */
  lemma {:induction false} MemberKeysDiffer(t: string, p: string, u: string, q: string)
    requires ':' !in t && ':' !in u
    ensures MemberKey(t, p) == MemberKey(u, q) <==> t == u && p == q
  {
    if MemberKey(t, p) == MemberKey(u, q) {
      var k := MemberKey(t, p);
      assert k[|t|] == ':' && k[|u|] == ':';
      assert forall i :: 0 <= i < |t| ==> k[i] == t[i] && t[i] != ':';
      assert forall i :: 0 <= i < |u| ==> k[i] == u[i] && u[i] != ':';
      assert |t| == |u|;
      assert t == k[..|t|] == u;
      assert p == k[|t| + 1..] == q;
    }
  }

  /** A lookup finds the membership of that very team and player. */
  lemma Lookup(s: Repo, t: string, p: string)
    requires KeysFit(s) && t in s.teams
    ensures MemberOf(s, t, p).Some? ==> MemberOf(s, t, p).value.teamId == t && MemberOf(s, t, p).value.playerId == p
  {
    var k := MemberKey(t, p);
    if k in s.memberships {
      MemberKeysDiffer(t, p, s.memberships[k].teamId, s.memberships[k].playerId);
    }
  }

  /** One membership written: every other lookup stays. */
  lemma WriteIsLocal(s: Repo, s': Repo, t: string, p: string, role: Role)
    requires KeysFit(s) && t in s.teams && s'.teams.Keys == s.teams.Keys
    requires s'.memberships == s.memberships[MemberKey(t, p) := Membership(t, p, role)]
    ensures forall u, q :: u in s.teams && !(u == t && q == p) ==> MemberOf(s', u, q) == MemberOf(s, u, q)
    ensures MemberOf(s', t, p) == Some(Membership(t, p, role))
  {
    forall u, q | u in s.teams && !(u == t && q == p) ensures MemberOf(s', u, q) == MemberOf(s, u, q) {
      MemberKeysDiffer(t, p, u, q);
    }
  }

  predicate Transfers(s: Repo, op: Op) {
    op.Transfer? && TransferOwnership(s, op.teamId, op.actor, op.newOwner).Ok?
  }

  /** The resumed acceptance that overwrites the membership of the team's owner. */
  predicate Unseats(s: Repo, op: Op, held: Held) {
    Accepts(s, op, held) && IsOwner(s, held.team.id, held.request.playerId)
  }

  /** Who owns a team after the second half of a call. */
  predicate OwnsNext(s: Repo, op: Op, held: Held, t: string, p: string) {
    if Transfers(s, op) && t == op.teamId then p == op.newOwner
    else IsOwner(s, t, p) && !(Accepts(s, op, held) && t == held.team.id && p == held.request.playerId)
  }

  /** Owners move as `OwnsNext` says, and keys and teams stay as they are. */
  ghost predicate OwnersFollow(s: Repo, op: Op, held: Held, s': Repo) {
    && KeysFit(s') && s'.teams.Keys == s.teams.Keys
    && forall t, p :: t in s.teams ==> IsOwner(s', t, p) == OwnsNext(s, op, held, t, p)
  }

  lemma JoinOwners(s: Repo, op: Op, held: Held, s': Repo)
    requires Safe(s) && HeldFits(s, op, held) && op.Join? && s' == After(s, SecondHalf(s, op, held))
    ensures OwnersFollow(s, op, held, s')
  {
    if s' != s {
      WriteIsLocal(s, s', op.teamId, op.player, Member);
    }
  }

  lemma RemoveOwners(s: Repo, op: Op, held: Held, s': Repo)
    requires Safe(s) && HeldFits(s, op, held) && op.Remove? && s' == After(s, SecondHalf(s, op, held))
    ensures OwnersFollow(s, op, held, s')
  {
    forall t, p | t in s.teams ensures IsOwner(s', t, p) == OwnsNext(s, op, held, t, p) {
      MemberKeysDiffer(t, p, op.teamId, op.target);
    }
  }

  lemma SetRoleOwners(s: Repo, op: Op, held: Held, s': Repo)
    requires Safe(s) && HeldFits(s, op, held) && op.SetRole? && s' == After(s, SecondHalf(s, op, held))
    ensures OwnersFollow(s, op, held, s')
  {
    Lookup(s, op.teamId, op.target);
    if s' != s {
      WriteIsLocal(s, s', op.teamId, op.target, op.role);
    }
  }

  lemma TransferOwners(s: Repo, op: Op, held: Held, s': Repo)
    requires Safe(s) && HeldFits(s, op, held) && op.Transfer? && s' == After(s, SecondHalf(s, op, held))
    ensures OwnersFollow(s, op, held, s')
  {
    if Transfers(s, op) {
      Lookup(s, op.teamId, op.actor);
      Lookup(s, op.teamId, op.newOwner);
      var stepsDown := Membership(op.teamId, op.actor, Admin);
      var half := s.(memberships := s.memberships[MemberKey(op.teamId, op.actor) := stepsDown]);
      WriteIsLocal(s, half, op.teamId, op.actor, Admin);
      WriteIsLocal(half, s', op.teamId, op.newOwner, Owner);
      assert IsOwner(s, op.teamId, op.actor);
      forall t, p | t in s.teams ensures IsOwner(s', t, p) == OwnsNext(s, op, held, t, p) {
        if t == op.teamId && p != op.newOwner {
          assert MemberOf(s', t, p) == MemberOf(half, t, p);
          assert p != op.actor ==> !IsOwner(s, t, p);
          assert !IsOwner(half, t, p);
        }
      }
    }
  }

  lemma AnswerOwners(s: Repo, op: Op, held: Held, s': Repo)
    requires Safe(s) && HeldFits(s, op, held) && op.Answer? && s' == After(s, SecondHalf(s, op, held))
    ensures OwnersFollow(s, op, held, s')
  {
    if Accepts(s, op, held) {
      WriteIsLocal(s, s', held.request.teamId, held.request.playerId, Member);
    }
  }

  lemma OneTargetOwners(s: Repo, op: Op, held: Held, s': Repo)
    requires Safe(s) && HeldFits(s, op, held) && s' == After(s, SecondHalf(s, op, held))
    requires op.Join? || op.Remove? || op.SetRole?
    ensures OwnersFollow(s, op, held, s')
  {
    if op.Join? {
      JoinOwners(s, op, held, s');
    } else if op.Remove? {
      RemoveOwners(s, op, held, s');
    } else {
      SetRoleOwners(s, op, held, s');
    }
  }

  lemma OtherOwners(s: Repo, op: Op, held: Held, s': Repo)
    requires Safe(s) && HeldFits(s, op, held) && s' == After(s, SecondHalf(s, op, held))
    requires !(op.Join? || op.Remove? || op.SetRole?)
    ensures OwnersFollow(s, op, held, s')
  {
    if op.Transfer? {
      TransferOwners(s, op, held, s');
    } else if op.Answer? {
      AnswerOwners(s, op, held, s');
    } else {
      UntouchedOwners(s, op, held, s');
    }
  }

  lemma UntouchedOwners(s: Repo, op: Op, held: Held, s': Repo)
    requires Safe(s) && HeldFits(s, op, held) && s' == After(s, SecondHalf(s, op, held))
    requires op.SetVisibility? || op.Request?
    ensures OwnersFollow(s, op, held, s')
  {
    assert forall t, p :: MemberOf(s', t, p) == MemberOf(s, t, p);
  }

  lemma FollowedStaysSafe(s: Repo, op: Op, held: Held, s': Repo)
    requires Safe(s) && HeldFits(s, op, held) && OwnersFollow(s, op, held, s')
    ensures Safe(s')
  {
    forall t, p, q | t in s'.teams && IsOwner(s', t, p) && IsOwner(s', t, q) ensures p == q {
      assert OwnsNext(s, op, held, t, p) && OwnsNext(s, op, held, t, q);
    }
  }

  lemma SecondHalfOwners(s: Repo, op: Op, held: Held)
    requires Safe(s) && HeldFits(s, op, held)
    ensures var s' := After(s, SecondHalf(s, op, held)); Safe(s') && OwnersFollow(s, op, held, s')
  {
    var s' := After(s, SecondHalf(s, op, held));
    if op.Join? || op.Remove? || op.SetRole? {
      OneTargetOwners(s, op, held, s');
    } else {
      OtherOwners(s, op, held, s');
    }
    FollowedStaysSafe(s, op, held, s');
  }

  lemma CreateOwners(s: Repo, op: Op)
    requires Safe(s) && op.Create? && Fresh(s, op) && Outcome(s, op).Ok?
    ensures var s' := Next(s, op);
            && Safe(s') && s'.teams.Keys == s.teams.Keys + {op.id}
            && (forall t, p :: t in s.teams ==> MemberOf(s', t, p) == MemberOf(s, t, p))
            && (forall p :: IsOwner(s', op.id, p) <==> p == op.owner)
  {
    var s' := Next(s, op);
    forall t, p | t in s'.teams
      ensures MemberOf(s', t, p) == if t == op.id && p == op.owner then Some(Membership(t, p, Owner))
              else MemberOf(s, t, p)
    {
      MemberKeysDiffer(t, p, op.id, op.owner);
    }
    forall p ensures MemberOf(s, op.id, p).None? {
      var k := MemberKey(op.id, p);
      if k in s.memberships {
        MemberKeysDiffer(op.id, p, s.memberships[k].teamId, s.memberships[k].playerId);
      }
    }
    forall t, p, q | t in s'.teams && IsOwner(s', t, p) && IsOwner(s', t, q) ensures p == q {
      assert t in s.teams ==> IsOwner(s, t, p) && IsOwner(s, t, q);
    }
  }

  lemma OwnerFollowed(s: Repo, op: Op, held: Held, s': Repo, t: string)
    requires OwnersFollow(s, op, held, s') && t in s.teams && Owned(s, t)
    requires !(Unseats(s, op, held) && t == held.team.id)
    ensures Owned(s', t)
  {
    var p :| IsOwner(s, t, p);
    var q := if Transfers(s, op) && t == op.teamId then op.newOwner else p;
    assert OwnsNext(s, op, held, t, q);
    assert IsOwner(s', t, q);
  }

  lemma NobodyFollows(s: Repo, op: Op, held: Held, s': Repo)
    requires Safe(s) && held.team.id in s.teams && OwnersFollow(s, op, held, s') && Unseats(s, op, held)
    ensures !Owned(s', held.team.id)
  {
    var t := held.team.id;
    forall p ensures !IsOwner(s', t, p) {
      assert IsOwner(s', t, p) == OwnsNext(s, op, held, t, p);
      assert IsOwner(s, t, p) ==> p == held.request.playerId;
    }
  }

  lemma FollowedOwners(s: Repo, op: Op, held: Held, s': Repo)
    requires Safe(s) && AllOwned(s) && HeldFits(s, op, held) && OwnersFollow(s, op, held, s')
    ensures AllOwned(s') <==> !Unseats(s, op, held)
  {
    if Unseats(s, op, held) {
      NobodyFollows(s, op, held, s');
    } else {
      forall t | t in s'.teams ensures Owned(s', t) {
        OwnerFollowed(s, op, held, s', t);
      }
    }
  }

  /** A second half leaves every team its owner unless it is an acceptance of the owner's own,
      meanwhile overtaken, request. */
  lemma OwnersStayUnlessUnseated(s: Repo, op: Op, held: Held)
    requires Safe(s) && AllOwned(s) && HeldFits(s, op, held)
    ensures AllOwned(After(s, SecondHalf(s, op, held))) <==> !Unseats(s, op, held)
  {
    SecondHalfOwners(s, op, held);
    FollowedOwners(s, op, held, After(s, SecondHalf(s, op, held)));
  }

  /** The request being accepted is still the one that was read. */
  predicate Current(s: Repo, op: Op, held: Held) {
    Accepts(s, op, held) ==> op.id in s.requests && s.requests[op.id] == held.request
  }

  /** Who is a member of which team after a second half. */
  lemma MembersNext(s: Repo, op: Op, held: Held, t: string, p: string)
    requires Safe(s) && HeldFits(s, op, held) && t in s.teams
    ensures var s' := After(s, SecondHalf(s, op, held));
            MemberOf(s', t, p).Some? ==>
              || MemberOf(s, t, p).Some?
              || (op.Join? && SecondHalf(s, op, held).Ok? && t == op.teamId && p == op.player)
              || (Accepts(s, op, held) && t == held.request.teamId && p == held.request.playerId)
  {
    match op
    case Join(u, q) => MemberKeysDiffer(t, p, u, q);
    case Answer(_, _, _) => MemberKeysDiffer(t, p, held.request.teamId, held.request.playerId);
    case SetRole(u, _, q, _) => MemberKeysDiffer(t, p, u, q);
    case Transfer(u, a, q) =>
    case _ =>
  }

  /** The request a call adds. */
  predicate Adds(s: Repo, op: Op, held: Held, r: string) {
    op.Request? && SecondHalf(s, op, held).Ok? && r == op.id
  }

  /** A request pending after a second half was pending before, or is new. */
  lemma PendingNext(s: Repo, op: Op, held: Held, r: string)
    requires KeysFit(s) && HeldFits(s, op, held) && Fresh(s, op)
    ensures var s' := After(s, SecondHalf(s, op, held));
            r in s'.requests && s'.requests[r].status == Pending ==>
              if Adds(s, op, held, r) then s'.requests[r] == JoinRequest(op.id, op.teamId, op.player, Pending)
              else r in s.requests && s'.requests[r] == s.requests[r]
  {
  }

  /** Whoever becomes a member has no request pending afterwards. */
  lemma JoinersAreSettled(s: Repo, op: Op, held: Held, r: string)
    requires KeysFit(s) && HeldFits(s, op, held) && Fresh(s, op) && Current(s, op, held) && OnePending(s)
    requires r in s.requests && SecondHalf(s, op, held).Ok?
    ensures var s' := After(s, SecondHalf(s, op, held));
            && r in s'.requests
            && (op.Join? && SameParties(s.requests[r], JoinRequest("", op.teamId, op.player, Pending)) ==>
                  s'.requests[r].status != Pending)
            && (Accepts(s, op, held) && SameParties(s.requests[r], held.request) ==> s'.requests[r].status != Pending)
  {
    if Accepts(s, op, held) && SameParties(s.requests[r], held.request) && s.requests[r].status == Pending {
      assert BothPending(s.requests[r], s.requests[op.id]);
    }
  }

  lemma AddedIsOutside(s: Repo, op: Op, held: Held, r: string)
    requires Adds(s, op, held, r)
    ensures MemberOf(After(s, SecondHalf(s, op, held)), op.teamId, op.player).None?
  {
  }

  lemma OthersStayOutside(s: Repo, op: Op, held: Held, r: string)
    requires Safe(s) && OnePending(s) && HeldFits(s, op, held) && Fresh(s, op) && Current(s, op, held)
    requires r in s.requests && MemberOf(s, s.requests[r].teamId, s.requests[r].playerId).None?
    requires SecondHalf(s, op, held).Ok?
    ensures var s' := After(s, SecondHalf(s, op, held));
            r in s'.requests && s'.requests[r].status == Pending ==>
              MemberOf(s', s.requests[r].teamId, s.requests[r].playerId).None?
  {
    JoinersAreSettled(s, op, held, r);
    MembersNext(s, op, held, s.requests[r].teamId, s.requests[r].playerId);
  }

  lemma PendingOutsideNext(s: Repo, op: Op, held: Held)
    requires Inv(s) && HeldFits(s, op, held) && Fresh(s, op) && Current(s, op, held)
    ensures PendingOutside(After(s, SecondHalf(s, op, held)))
  {
    if SecondHalf(s, op, held).Ok? {
      var s' := After(s, SecondHalf(s, op, held));
      forall r | r in s'.requests && s'.requests[r].status == Pending
        ensures MemberOf(s', s'.requests[r].teamId, s'.requests[r].playerId).None?
      {
        PendingNext(s, op, held, r);
        if Adds(s, op, held, r) {
          AddedIsOutside(s, op, held, r);
        } else {
          OthersStayOutside(s, op, held, r);
        }
      }
    }
  }

  lemma OnePendingNext(s: Repo, op: Op, held: Held)
    requires KeysFit(s) && OnePending(s) && HeldFits(s, op, held) && Fresh(s, op)
    ensures OnePending(After(s, SecondHalf(s, op, held)))
  {
    var s' := After(s, SecondHalf(s, op, held));
    forall r, q | r in s'.requests && q in s'.requests && BothPending(s'.requests[r], s'.requests[q]) ensures r == q {
      PendingNext(s, op, held, r);
      PendingNext(s, op, held, q);
    }
  }

  lemma SecondHalfKeeps(s: Repo, op: Op, held: Held)
    requires Inv(s) && HeldFits(s, op, held) && Fresh(s, op) && Current(s, op, held)
    ensures Inv(After(s, SecondHalf(s, op, held)))
  {
    SecondHalfOwners(s, op, held);
    PendingOutsideNext(s, op, held);
    OnePendingNext(s, op, held);
    assert Unseats(s, op, held) ==> MemberOf(s, held.request.teamId, held.request.playerId).None?;
    OwnersStayUnlessUnseated(s, op, held);
  }

  // ---- calls that do not overlap

  /** Nothing is forgotten: teams and requests stay, and a request keeps its team and player. */
  predicate Grows(s: Repo, s': Repo) {
    && s.teams.Keys <= s'.teams.Keys && s.requests.Keys <= s'.requests.Keys
    && (forall r :: r in s.requests ==> SameParties(s.requests[r], s'.requests[r]))
  }

  lemma SameMembers(s: Repo, s': Repo)
    requires s'.memberships == s.memberships && s'.teams.Keys == s.teams.Keys
    ensures AtMostOneOwner(s) ==> AtMostOneOwner(s')
    ensures AllOwned(s) ==> AllOwned(s')
  {
    assert forall t, p :: MemberOf(s', t, p) == MemberOf(s, t, p);
    assert forall t, p :: IsOwner(s, t, p) == IsOwner(s', t, p);
    forall t | t in s'.teams && AllOwned(s) ensures Owned(s', t) {
      var p :| IsOwner(s, t, p);
      assert IsOwner(s', t, p);
    }
  }

  lemma FewerPending(s: Repo, s': Repo)
    requires s'.memberships == s.memberships
    requires forall r :: r in s'.requests && s'.requests[r].status == Pending ==>
             r in s.requests && s'.requests[r] == s.requests[r]
    ensures PendingOutside(s) ==> PendingOutside(s')
    ensures OnePending(s) ==> OnePending(s')
  {
    assert forall t, p :: MemberOf(s', t, p) == MemberOf(s, t, p);
    if OnePending(s) {
      forall r, q | r in s'.requests && q in s'.requests && BothPending(s'.requests[r], s'.requests[q]) ensures r == q {
        assert BothPending(s.requests[r], s.requests[q]);
      }
    }
  }

  lemma CancelNext(s: Repo, op: Op)
    requires op.Cancel?
    ensures Next(s, op) == After(s, CancelRequest(s, op.id, op.actor))
  {
  }

  lemma CancelTouchesOneRequest(s: Repo, id: string, actor: string)
    requires KeysFit(s)
    ensures var s' := After(s, CancelRequest(s, id, actor));
            && KeysFit(s') && Grows(s, s') && s'.memberships == s.memberships && s'.teams == s.teams
            && (forall r :: r in s'.requests && s'.requests[r].status == Pending ==>
                              r in s.requests && s'.requests[r] == s.requests[r])
  {
  }

  lemma CancelKeeps(s: Repo, op: Op)
    requires Safe(s) && op.Cancel?
    ensures var s' := Next(s, op);
            && Safe(s') && Grows(s, s') && s'.memberships == s.memberships && s'.teams == s.teams
            && (AllOwned(s) ==> AllOwned(s'))
            && (Inv(s) ==> Inv(s'))
  {
    var s' := Next(s, op);
    CancelNext(s, op);
    CancelTouchesOneRequest(s, op.id, op.actor);
    SameMembers(s, s');
    FewerPending(s, s');
  }

  lemma CreateKeeps(s: Repo, op: Op)
    requires Safe(s) && op.Create? && Fresh(s, op)
    ensures var s' := Next(s, op);
            && Safe(s') && Grows(s, s')
            && (forall t, p :: t in s.teams ==> MemberOf(s', t, p) == MemberOf(s, t, p))
            && (AllOwned(s) ==> AllOwned(s'))
            && (Inv(s) ==> Inv(s'))
  {
    var s' := Next(s, op);
    if Outcome(s, op).Ok? {
      CreateOwners(s, op);
      assert IsOwner(s', op.id, op.owner);
      forall t | t in s'.teams && AllOwned(s) ensures Owned(s', t) {
        if t in s.teams {
          var p :| IsOwner(s, t, p);
          assert IsOwner(s', t, p);
        }
      }
    }
  }

  lemma AtOnceKeeps(s: Repo, op: Op)
    requires Safe(s) && AtOnce(op) && Fresh(s, op)
    ensures var s' := Next(s, op);
            && Safe(s') && Grows(s, s')
            && (forall t, p :: t in s.teams ==> MemberOf(s', t, p) == MemberOf(s, t, p))
            && (AllOwned(s) ==> AllOwned(s'))
            && (Inv(s) ==> Inv(s'))
  {
    if op.Cancel? {
      CancelKeeps(s, op);
    } else {
      CreateKeeps(s, op);
    }
  }

  lemma FirstHalfIsCurrent(s: Repo, op: Op)
    requires KeysFit(s) && !AtOnce(op) && FirstHalf(s, op).Ok?
    ensures Current(s, op, FirstHalf(s, op).value) && HeldFits(s, op, FirstHalf(s, op).value)
  {
    FirstHalfFits(s, op);
  }

  lemma NextKeeps(s: Repo, op: Op)
    requires Inv(s) && Fresh(s, op)
    ensures Inv(Next(s, op))
  {
    if AtOnce(op) {
      AtOnceKeeps(s, op);
    } else {
      NextByHalves(s, op);
      if FirstHalf(s, op).Ok? {
        FirstHalfIsCurrent(s, op);
        SecondHalfKeeps(s, op, FirstHalf(s, op).value);
      }
    }
  }

  function Run(s: Repo, ops: seq<Op>): Repo
    decreases |ops|
  {
    if ops == [] then s else Run(Next(s, ops[0]), ops[1..])
  }

  predicate FreshRun(s: Repo, ops: seq<Op>)
    decreases |ops|
  {
    ops == [] || (Fresh(s, ops[0]) && FreshRun(Next(s, ops[0]), ops[1..]))
  }

  /** Over every run of calls one after the other, each team has exactly one owner. */
  lemma {:induction false} ExactlyOneOwner(s: Repo, ops: seq<Op>, t: string)
    requires Inv(s) && FreshRun(s, ops)
    requires t in Run(s, ops).teams
    ensures exists p :: IsOwner(Run(s, ops), t, p) && forall q :: IsOwner(Run(s, ops), t, q) ==> q == p
    ensures Inv(Run(s, ops))
    decreases |ops|
  {
    if ops != [] {
      NextKeeps(s, ops[0]);
      ExactlyOneOwner(Next(s, ops[0]), ops[1..], t);
    } else {
      assert Owned(s, t);
    }
  }

  lemma EmptyIsFine()
    ensures Inv(EMPTY)
  {
  }

  /** When a transfer goes through. */
  predicate HandsOver(s: Repo, op: Op, t: string, p: string) {
    && op.Transfer? && op.teamId == t && op.actor == p && op.newOwner != p
    && MemberOf(s, t, op.newOwner).Some? && Visible(s, t, p)
  }

  /** p, the owner, either hands the team to the named member or stays its owner. */
  predicate PassesOn(s: Repo, s': Repo, op: Op, t: string, p: string) {
    if HandsOver(s, op, t, p) then IsOwner(s', t, op.newOwner) && !IsOwner(s', t, p) else IsOwner(s', t, p)
  }

  lemma TransferGoesThrough(s: Repo, op: Op, t: string, p: string)
    requires Safe(s) && t in s.teams && IsOwner(s, t, p) && !AtOnce(op) && FirstHalf(s, op).Ok?
    ensures Transfers(s, op) && op.teamId == t <==> HandsOver(s, op, t, p)
  {
    if Transfers(s, op) && op.teamId == t {
      assert IsOwner(s, t, op.actor);
    }
  }

  lemma SecondHalfHandsOver(s: Repo, op: Op, held: Held, t: string, p: string)
    requires Safe(s) && t in s.teams && IsOwner(s, t, p) && !AtOnce(op) && FirstHalf(s, op) == Ok(held)
    requires !Unseats(s, op, held) && HeldFits(s, op, held)
    ensures PassesOn(s, After(s, SecondHalf(s, op, held)), op, t, p)
  {
    var s' := After(s, SecondHalf(s, op, held));
    SecondHalfOwners(s, op, held);
    TransferGoesThrough(s, op, t, p);
    assert IsOwner(s', t, p) == OwnsNext(s, op, held, t, p);
    if HandsOver(s, op, t, p) {
      assert IsOwner(s', t, op.newOwner) == OwnsNext(s, op, held, t, op.newOwner);
    }
  }

  lemma OnlyTheOwnerHandsOverAtOnce(s: Repo, op: Op, t: string, p: string)
    requires Safe(s) && AtOnce(op) && Fresh(s, op) && t in s.teams && IsOwner(s, t, p)
    ensures IsOwner(Next(s, op), t, p)
  {
    AtOnceKeeps(s, op);
    assert MemberOf(Next(s, op), t, p) == MemberOf(s, t, p);
  }

  lemma NextByHalves(s: Repo, op: Op)
    requires !AtOnce(op)
    ensures Next(s, op) == if FirstHalf(s, op).Ok? then After(s, SecondHalf(s, op, FirstHalf(s, op).value)) else s
    ensures FirstHalf(s, op).Ok? <==> TeamIdOf(s, op).Some? && Visible(s, TeamIdOf(s, op).value, ActorOf(op))
  {
  }

  lemma EarlyRefusal(s: Repo, op: Op, t: string, p: string)
    requires !AtOnce(op) && FirstHalf(s, op).Err? && IsOwner(s, t, p)
    ensures PassesOn(s, Next(s, op), op, t, p)
  {
    NextByHalves(s, op);
  }

  /** A team changes hands only when its owner hands it over, and then to the named member. */
  lemma OnlyTheOwnerHandsOver(s: Repo, op: Op, t: string, p: string)
    requires Inv(s) && Fresh(s, op) && t in s.teams && IsOwner(s, t, p)
    ensures PassesOn(s, Next(s, op), op, t, p)
  {
    if AtOnce(op) {
      OnlyTheOwnerHandsOverAtOnce(s, op, t, p);
    } else if FirstHalf(s, op).Ok? {
      NextByHalves(s, op);
      FirstHalfFits(s, op);
      NotUnseated(s, op);
      SecondHalfHandsOver(s, op, FirstHalf(s, op).value, t, p);
    } else {
      EarlyRefusal(s, op, t, p);
    }
  }

  /** Without overlap an accepted player is never the owner. */
  lemma NotUnseated(s: Repo, op: Op)
    requires Inv(s) && !AtOnce(op) && FirstHalf(s, op).Ok?
    ensures !Unseats(s, op, FirstHalf(s, op).value)
  {
  }

  // ---- who may change a membership

  predicate Outranks(s: Repo, t: string, a: string, p: string) {
    && MemberOf(s, t, a).Some? && MemberOf(s, t, p).Some?
    && Rank(MemberOf(s, t, a).value.role) > Rank(MemberOf(s, t, p).value.role)
  }

  /** The player comes in as a plain member: into a public team by joining, into any by an accepted request. */
  predicate Enters(s: Repo, op: Op, t: string, p: string, role: Role) {
    role == Member &&
    match op
    case Join(u, q) => u == t && q == p && t in s.teams && s.teams[t].visibility == Public
    case Answer(id, a, accept) => accept && Manages(s, t, a) && id in s.requests && PendingFor(s.requests[id], t, p)
    case _ => false
  }

  /** The player, no owner, leaves or is put out by someone of higher rank. */
  predicate Goes(s: Repo, op: Op, t: string, p: string, role: Role) {
    op.Remove? && op.teamId == t && op.target == p && role != Owner && (op.actor == p || Outranks(s, t, op.actor, p))
  }

  /** The role is set by someone ranking above both the old and the new one, or the team is handed over. */
  predicate Moves(s: Repo, op: Op, t: string, p: string, role: Role) {
    match op
    case SetRole(u, a, q, r) =>
      u == t && q == p && r == role && a != p && Outranks(s, t, a, p) && Rank(MemberOf(s, t, a).value.role) > Rank(role)
    case Transfer(u, a, q) =>
      u == t && IsOwner(s, t, a) && a != q && ((p == a && role == Admin) || (p == q && role == Owner))
    case _ => false
  }

  predicate Authorized(s: Repo, op: Op, t: string, p: string, after: Option<Membership>)
    requires t in s.teams
  {
    var before := MemberOf(s, t, p);
    || after == before
    || (before.None? && after.Some? && Enters(s, op, t, p, after.value.role))
    || (before.Some? && after.None? && Goes(s, op, t, p, before.value.role))
    || (before.Some? && after.Some? && Moves(s, op, t, p, after.value.role))
  }

  lemma JoinAuthorized(s: Repo, op: Op, held: Held, t: string, p: string)
    requires KeysFit(s) && t in s.teams && op.Join? && FirstHalf(s, op) == Ok(held) && HeldFits(s, op, held)
    ensures Authorized(s, op, t, p, MemberOf(After(s, SecondHalf(s, op, held)), t, p))
  {
    MemberKeysDiffer(t, p, op.teamId, op.player);
  }

  lemma RemoveAuthorized(s: Repo, op: Op, held: Held, t: string, p: string)
    requires KeysFit(s) && t in s.teams && op.Remove? && FirstHalf(s, op) == Ok(held) && HeldFits(s, op, held)
    ensures Authorized(s, op, t, p, MemberOf(After(s, SecondHalf(s, op, held)), t, p))
  {
    MemberKeysDiffer(t, p, op.teamId, op.target);
  }

  lemma SetRoleAuthorized(s: Repo, op: Op, held: Held, t: string, p: string)
    requires KeysFit(s) && t in s.teams && op.SetRole? && FirstHalf(s, op) == Ok(held) && HeldFits(s, op, held)
    ensures Authorized(s, op, t, p, MemberOf(After(s, SecondHalf(s, op, held)), t, p))
  {
    MemberKeysDiffer(t, p, op.teamId, op.target);
  }

  lemma TransferAuthorized(s: Repo, op: Op, held: Held, t: string, p: string)
    requires KeysFit(s) && t in s.teams && op.Transfer? && FirstHalf(s, op) == Ok(held) && HeldFits(s, op, held)
    ensures Authorized(s, op, t, p, MemberOf(After(s, SecondHalf(s, op, held)), t, p))
  {
    MemberKeysDiffer(t, p, op.teamId, op.actor);
    MemberKeysDiffer(t, p, op.teamId, op.newOwner);
  }

  lemma AnswerAuthorized(s: Repo, op: Op, held: Held, t: string, p: string)
    requires KeysFit(s) && t in s.teams && op.Answer? && PendingOutside(s) && FirstHalf(s, op) == Ok(held) &&
             HeldFits(s, op, held)
    ensures Authorized(s, op, t, p, MemberOf(After(s, SecondHalf(s, op, held)), t, p))
  {
    MemberKeysDiffer(t, p, held.request.teamId, held.request.playerId);
  }

  lemma OneTargetAuthorized(s: Repo, op: Op, held: Held, t: string, p: string)
    requires KeysFit(s) && t in s.teams && (op.Join? || op.Remove? || op.SetRole?)
    requires FirstHalf(s, op) == Ok(held) && HeldFits(s, op, held)
    ensures Authorized(s, op, t, p, MemberOf(After(s, SecondHalf(s, op, held)), t, p))
  {
    if op.Join? {
      JoinAuthorized(s, op, held, t, p);
    } else if op.Remove? {
      RemoveAuthorized(s, op, held, t, p);
    } else {
      SetRoleAuthorized(s, op, held, t, p);
    }
  }

  lemma SecondHalfAuthorized(s: Repo, op: Op, held: Held, t: string, p: string)
    requires KeysFit(s) && PendingOutside(s) && t in s.teams && !AtOnce(op)
    requires FirstHalf(s, op) == Ok(held) && HeldFits(s, op, held)
    ensures Authorized(s, op, t, p, MemberOf(After(s, SecondHalf(s, op, held)), t, p))
  {
    if op.Join? || op.Remove? || op.SetRole? {
      OneTargetAuthorized(s, op, held, t, p);
    } else if op.Transfer? {
      TransferAuthorized(s, op, held, t, p);
    } else if op.Answer? {
      AnswerAuthorized(s, op, held, t, p);
    }
  }

  /** Nobody's membership of a team changes in any way the roles do not allow. */
  lemma OnlyTheEntitledChangeMemberships(s: Repo, op: Op, t: string, p: string)
    requires Inv(s) && Fresh(s, op) && t in s.teams
    ensures Authorized(s, op, t, p, MemberOf(Next(s, op), t, p))
  {
    if AtOnce(op) {
      AtOnceKeeps(s, op);
    } else {
      NextByHalves(s, op);
      if FirstHalf(s, op).Ok? {
        FirstHalfFits(s, op);
        SecondHalfAuthorized(s, op, FirstHalf(s, op).value, t, p);
      }
    }
  }

  // ---- calls that overlap at their awaits

  datatype Waiting = Waiting(op: Op, held: Held)

  datatype World = World(repo: Repo, waiting: seq<Waiting>)

  datatype Event = Start(op: Op) | Resume(i: nat)

  function Step(w: World, e: Event): World {
    match e
    case Start(op) =>
      if AtOnce(op) then w.(repo := Next(w.repo, op))
      else
        var h := FirstHalf(w.repo, op);
        if h.Err? then w else w.(waiting := w.waiting + [Waiting(op, h.value)])
    case Resume(i) =>
      if i < |w.waiting| then
        World(After(w.repo, SecondHalf(w.repo, w.waiting[i].op, w.waiting[i].held)),
              w.waiting[..i] + w.waiting[i + 1..])
      else w
  }

  /** Ids are unused when they are first written. */
  predicate FreshEvent(w: World, e: Event) {
    match e
    case Start(op) => AtOnce(op) ==> Fresh(w.repo, op)
    case Resume(i) => i < |w.waiting| ==> Fresh(w.repo, w.waiting[i].op)
  }

  predicate UnseatsAt(w: World, e: Event) {
    e.Resume? && e.i < |w.waiting| && Unseats(w.repo, w.waiting[e.i].op, w.waiting[e.i].held)
  }

  predicate CurrentAt(w: World, e: Event) {
    e.Resume? && e.i < |w.waiting| ==> Current(w.repo, w.waiting[e.i].op, w.waiting[e.i].held)
  }

  ghost predicate WorldSafe(w: World) {
    Safe(w.repo) && forall x :: x in w.waiting ==> HeldFits(w.repo, x.op, x.held)
  }

  lemma SecondHalfGrows(s: Repo, op: Op, held: Held)
    requires KeysFit(s) && HeldFits(s, op, held) && Fresh(s, op)
    ensures Grows(s, After(s, SecondHalf(s, op, held)))
  {
  }

  lemma HeldStays(s: Repo, s': Repo, x: Waiting)
    requires HeldFits(s, x.op, x.held) && Grows(s, s')
    ensures HeldFits(s', x.op, x.held)
  {
  }

  lemma FirstHalfFits(s: Repo, op: Op)
    requires KeysFit(s) && !AtOnce(op) && FirstHalf(s, op).Ok?
    ensures HeldFits(s, op, FirstHalf(s, op).value)
  {
  }

  lemma ResumeKeeps(w: World, i: nat)
    requires WorldSafe(w) && FreshEvent(w, Resume(i)) && i < |w.waiting|
    ensures var w' := Step(w, Resume(i));
            && WorldSafe(w')
            && (AllOwned(w.repo) ==> (AllOwned(w'.repo) <==> !UnseatsAt(w, Resume(i))))
            && (Inv(w.repo) && CurrentAt(w, Resume(i)) ==> Inv(w'.repo))
  {
    var x := w.waiting[i];
    var w' := Step(w, Resume(i));
    assert x in w.waiting;
    SecondHalfOwners(w.repo, x.op, x.held);
    SecondHalfGrows(w.repo, x.op, x.held);
    forall y | y in w'.waiting ensures HeldFits(w'.repo, y.op, y.held) {
      assert y in w.waiting;
      HeldStays(w.repo, w'.repo, y);
    }
    if AllOwned(w.repo) {
      OwnersStayUnlessUnseated(w.repo, x.op, x.held);
    }
    if Inv(w.repo) && CurrentAt(w, Resume(i)) {
      SecondHalfKeeps(w.repo, x.op, x.held);
    }
  }

  lemma StartKeeps(w: World, op: Op)
    requires WorldSafe(w) && FreshEvent(w, Start(op))
    ensures var w' := Step(w, Start(op));
            && WorldSafe(w') && (AllOwned(w.repo) ==> AllOwned(w'.repo)) && (Inv(w.repo) ==> Inv(w'.repo))
  {
    var w' := Step(w, Start(op));
    if AtOnce(op) {
      AtOnceKeeps(w.repo, op);
      forall y | y in w'.waiting ensures HeldFits(w'.repo, y.op, y.held) {
        HeldStays(w.repo, w'.repo, y);
      }
    } else if FirstHalf(w.repo, op).Ok? {
      FirstHalfFits(w.repo, op);
    }
  }

  lemma StepKeeps(w: World, e: Event)
    requires WorldSafe(w) && FreshEvent(w, e)
    ensures WorldSafe(Step(w, e))
    ensures AllOwned(w.repo) ==> (AllOwned(Step(w, e).repo) <==> !UnseatsAt(w, e))
    ensures Inv(w.repo) && CurrentAt(w, e) ==> Inv(Step(w, e).repo)
  {
    match e
    case Start(op) => StartKeeps(w, op);
    case Resume(i) =>
      if i < |w.waiting| {
        ResumeKeeps(w, i);
      }
  }

  predicate FreshEvents(w: World, events: seq<Event>)
    decreases |events|
  {
    events == [] || (FreshEvent(w, events[0]) && FreshEvents(Step(w, events[0]), events[1..]))
  }

  ghost predicate OwnedThroughout(w: World, events: seq<Event>)
    decreases |events|
  {
    AllOwned(w.repo) && (events == [] || OwnedThroughout(Step(w, events[0]), events[1..]))
  }

  ghost predicate SafeThroughout(w: World, events: seq<Event>)
    decreases |events|
  {
    AtMostOneOwner(w.repo) && (events == [] || SafeThroughout(Step(w, events[0]), events[1..]))
  }

  predicate NeverUnseats(w: World, events: seq<Event>)
    decreases |events|
  {
    events == [] || (!UnseatsAt(w, events[0]) && NeverUnseats(Step(w, events[0]), events[1..]))
  }

  predicate AlwaysCurrent(w: World, events: seq<Event>)
    decreases |events|
  {
    events == [] || (CurrentAt(w, events[0]) && AlwaysCurrent(Step(w, events[0]), events[1..]))
  }

  /** However calls overlap, no team ever has two owners; and every team always has one exactly when
      no acceptance resumes for a player who has become the team's owner in the meantime. */
  lemma {:induction false} OverlappingCalls(w: World, events: seq<Event>)
    requires WorldSafe(w) && AllOwned(w.repo) && FreshEvents(w, events)
    ensures SafeThroughout(w, events)
    ensures OwnedThroughout(w, events) <==> NeverUnseats(w, events)
    decreases |events|
  {
    if events != [] {
      StepKeeps(w, events[0]);
      var w' := Step(w, events[0]);
      if AllOwned(w'.repo) {
        OverlappingCalls(w', events[1..]);
      } else {
        StaysSafe(w', events[1..]);
      }
    }
  }

  lemma {:induction false} StaysSafe(w: World, events: seq<Event>)
    requires WorldSafe(w) && FreshEvents(w, events)
    ensures SafeThroughout(w, events)
    decreases |events|
  {
    if events != [] {
      StepKeeps(w, events[0]);
      StaysSafe(Step(w, events[0]), events[1..]);
    }
  }

  /** Re-reading the request after the await would be enough. */
  lemma {:induction false} CurrentAnswersAreEnough(w: World, events: seq<Event>)
    requires WorldSafe(w) && Inv(w.repo) && FreshEvents(w, events) && AlwaysCurrent(w, events)
    ensures OwnedThroughout(w, events)
    decreases |events|
  {
    if events != [] {
      StepKeeps(w, events[0]);
      CurrentAnswersAreEnough(Step(w, events[0]), events[1..]);
    }
  }

  // ---- three overlapping calls that leave a team without an owner

  const TEAM := Team("t", "slug", Public)

  const OWNED_BY_O := Repo(map["t" := TEAM], map["t:o" := Membership("t", "o", Owner)], map["r" := ASKED])

  const ASKED := JoinRequest("r", "t", "p", Pending)

  /** Player p has asked to join; then p joins the public team, the owner o hands the team to p, and
      o accepts the request, the three calls starting before any of them resumes. */
  const OVERTAKEN := [Start(Join("t", "p")), Start(Transfer("t", "o", "p")), Start(Answer("r", "o", true)),
                      Resume(0), Resume(0), Resume(0)]

  lemma SetUp()
    ensures Run(EMPTY, [Create("t", "slug", Public, "o"), Request("r", "t", "p")]) == OWNED_BY_O
    ensures FreshRun(EMPTY, [Create("t", "slug", Public, "o"), Request("r", "t", "p")])
  {
    var create, ask := Create("t", "slug", Public, "o"), Request("r", "t", "p");
    assert MemberKey("t", "o") == "t:o" && MemberKey("t", "p") == "t:p";
    var s := Next(EMPTY, create);
    assert s == Repo(map["t" := TEAM], map["t:o" := Membership("t", "o", Owner)], map[]);
    assert Next(s, ask) == OWNED_BY_O;
    assert [create, ask][1..] == [ask] && [ask][1..] == [];
    assert Run(s, [ask]) == Run(Next(s, ask), []);
  }

  const HOLDS := Held(TEAM, NO_REQUEST)

  const BEFORE := World(OWNED_BY_O, [])

  const STARTED := World(OWNED_BY_O, [Waiting(Join("t", "p"), HOLDS), Waiting(Transfer("t", "o", "p"), HOLDS),
                                      Waiting(Answer("r", "o", true), Held(TEAM, ASKED))])

  /** The last resumption finds p the owner of the team, and the request answered already. */
  const HANDED_OVER :=
    World(Repo(map["t" := TEAM], map["t:o" := Membership("t", "o", Admin), "t:p" := Membership("t", "p", Owner)],
               map["r" := ASKED.(status := Accepted)]),
          [Waiting(Answer("r", "o", true), Held(TEAM, ASKED))])

  function Steps(w: World, events: seq<Event>): World
    decreases |events|
  {
    if events == [] then w else Steps(Step(w, events[0]), events[1..])
  }

  lemma Started()
    ensures Step(Step(Step(BEFORE, OVERTAKEN[0]), OVERTAKEN[1]), OVERTAKEN[2]) == STARTED
  {
    var one := Step(BEFORE, OVERTAKEN[0]);
    assert one == World(OWNED_BY_O, [Waiting(Join("t", "p"), HOLDS)]);
    var two := Step(one, OVERTAKEN[1]);
    assert two == World(OWNED_BY_O, [Waiting(Join("t", "p"), HOLDS), Waiting(Transfer("t", "o", "p"), HOLDS)]);
  }

  const JOINED :=
    World(Repo(map["t" := TEAM], map["t:o" := Membership("t", "o", Owner), "t:p" := Membership("t", "p", Member)],
               map["r" := ASKED.(status := Accepted)]),
          STARTED.waiting[1..])

  lemma JoinedNext()
    ensures Step(STARTED, Resume(0)) == JOINED
  {
    assert MemberKey("t", "o") == "t:o" && MemberKey("t", "p") == "t:p";
    var s := OWNED_BY_O;
    assert AcceptPending(s.requests, "t", "p") == JOINED.repo.requests;
    assert After(s, JoinTeam(s, "t", "p", TEAM)) == JOINED.repo;
    assert STARTED.waiting[..0] + STARTED.waiting[1..] == STARTED.waiting[1..];
  }

  lemma HandedOver()
    ensures Step(JOINED, Resume(0)) == HANDED_OVER
  {
    assert MemberKey("t", "o") == "t:o" && MemberKey("t", "p") == "t:p";
    assert After(JOINED.repo, TransferOwnership(JOINED.repo, "t", "o", "p")) == HANDED_OVER.repo;
    assert JOINED.waiting[..0] + JOINED.waiting[1..] == HANDED_OVER.waiting;
  }

  lemma LostOwner()
    ensures UnseatsAt(HANDED_OVER, Resume(0))
    ensures !Owned(Step(HANDED_OVER, Resume(0)).repo, "t")
  {
    assert MemberKey("t", "o") == "t:o" && MemberKey("t", "p") == "t:p";
    var x := HANDED_OVER.waiting[0];
    var s := HANDED_OVER.repo;
    var s' := Step(HANDED_OVER, Resume(0)).repo;
    assert s' == After(s, Respond(s, TEAM, ASKED, "o", true));
    assert s'.memberships == map["t:o" := Membership("t", "o", Admin), "t:p" := Membership("t", "p", Member)];
    forall p ensures !IsOwner(s', "t", p) {
    }
  }

  /** Legitimate calls, in the order they were made, can leave a team without an owner. */
  lemma TeamCanLoseItsOwner()
    ensures Inv(OWNED_BY_O) && !Owned(Steps(BEFORE, OVERTAKEN).repo, "t")
  {
    SetUp();
    EmptyIsFine();
    ExactlyOneOwner(EMPTY, [Create("t", "slug", Public, "o"), Request("r", "t", "p")], "t");
    Started();
    JoinedNext();
    HandedOver();
    LostOwner();
    StepsUnfold(BEFORE, OVERTAKEN);
  }

  lemma StepsUnfold(w: World, e: seq<Event>)
    requires |e| == 6
    ensures Steps(w, e) == Step(Step(Step(Step(Step(Step(w, e[0]), e[1]), e[2]), e[3]), e[4]), e[5])
  {
    assert e[1..][1..] == e[2..] && e[2..][1..] == e[3..] && e[3..][1..] == e[4..];
    assert e[4..][1..] == e[5..] && e[5..][1..] == [];
    var w1 := Step(w, e[0]);
    var w2 := Step(w1, e[1]);
    var w3 := Step(w2, e[2]);
    assert Steps(w, e) == Steps(w1, e[1..]) == Steps(w2, e[2..]) == Steps(w3, e[3..]);
    var w4 := Step(w3, e[3]);
    var w5 := Step(w4, e[4]);
    assert Steps(w3, e[3..]) == Steps(w4, e[4..]) == Steps(w5, e[5..]);
    assert Steps(w5, e[5..]) == Steps(Step(w5, e[5]), []);
  }
}
