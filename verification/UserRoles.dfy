/** Assigning, replacing and revoking a user's roles, and what the user may do afterwards. */
module UserRoles {
  import opened Wrappers
  import opened Rbac
  import opened RbacBootstrap

  datatype Error = UserNotFound | RoleNotFound | RoleAlreadyAssigned | RoleAssignmentNotFound
  datatype Call = Assign(user: Id, role: Id) | Replace(user: Id, role: Id) | Revoke(user: Id, role: Id)

  type Reply = Option<Error>

  /** Every link of the user is switched off except the one to the new role. */
  function Only(links: map<(Id, Id), bool>, user: Id, role: Id): map<(Id, Id), bool> {
    map l | l in links.Keys + {(user, role)} :: if l.0 == user then l.1 == role else links[l]
  }

  function AssignCall(s: State, users: set<Id>, user: Id, role: Id): (State, Reply) {
    if user !in users then (s, Some(UserNotFound))
    else if !ActiveRole(s, role) then (s, Some(RoleNotFound))
    else if Holds(s.links, user, role) then (s, Some(RoleAlreadyAssigned))
    else (s.(links := s.links[(user, role) := true]), None)
  }

  function ReplaceCall(s: State, users: set<Id>, user: Id, role: Id): (State, Reply) {
    if user !in users then (s, Some(UserNotFound))
    else if !ActiveRole(s, role) then (s, Some(RoleNotFound))
    else (s.(links := Only(s.links, user, role)), None)
  }

  function RevokeCall(s: State, user: Id, role: Id): (State, Reply) {
    if !Holds(s.links, user, role) then (s, Some(RoleAssignmentNotFound))
    else (s.(links := s.links[(user, role) := false]), None)
  }

  function Serve(s: State, users: set<Id>, call: Call): (State, Reply) {
    match call
    case Assign(user, role) => AssignCall(s, users, user, role)
    case Replace(user, role) => ReplaceCall(s, users, user, role)
    case Revoke(user, role) => RevokeCall(s, user, role)
  }

  function RolesOf(s: State, user: Id): set<Id> { set l | l in s.links && l.0 == user && s.links[l] :: l.1 }

  function Run(s: State, users: set<Id>, calls: seq<Call>): State {
    if calls == [] then s else Serve(Run(s, users, calls[..|calls| - 1]), users, calls[|calls| - 1]).0
  }

  // ------------------------------------------------------------ what a user may do

  lemma CodesThroughRoles(s: State, user: Id, c: string)
    ensures c in UserCodes(s, user) <==> exists r :: r in RolesOf(s, user) && ActiveRole(s, r) && c in RoleCodes(s, r)
  {
    if c in UserCodes(s, user) {
      var l: (Id, Id), p :| l in s.links && l.0 == user && s.links[l] && ActiveRole(s, l.1)
        && p in ActiveGrants(s, l.1) && ActivePermission(s, p) && s.permissions[p].code == c;
      assert l.1 in RolesOf(s, user) && c in RoleCodes(s, l.1);
    }
    forall r | r in RolesOf(s, user) && ActiveRole(s, r) && c in RoleCodes(s, r) ensures c in UserCodes(s, user) {
      assert (user, r) in s.links && s.links[(user, r)];
    }
  }

  lemma TypesThroughRoles(s: State, user: Id, t: string)
    ensures t in UserTypes(s, user) <==> exists r :: r in RolesOf(s, user) && ActiveRole(s, r) && t in ActiveTypes(s, r)
  {
    forall r | r in RolesOf(s, user) && ActiveRole(s, r) && t in ActiveTypes(s, r) ensures t in UserTypes(s, user) {
      assert (user, r) in s.links && s.links[(user, r)];
    }
    if t in UserTypes(s, user) {
      var l: (Id, Id) :| l in s.links && l.0 == user && s.links[l] && ActiveRole(s, l.1) && t in ActiveTypes(s, l.1);
      assert l.1 in RolesOf(s, user);
    }
  }

  /** Two states that differ only in links give a user the same rights when the links agree. */
  lemma SameRolesSameRights(s: State, s': State, user: Id)
    requires s' == s.(links := s'.links) && RolesOf(s', user) == RolesOf(s, user)
    ensures UserCodes(s', user) == UserCodes(s, user) && UserTypes(s', user) == UserTypes(s, user)
  {
    forall c ensures c in UserCodes(s', user) <==> c in UserCodes(s, user) {
      CodesThroughRoles(s, user, c);
      CodesThroughRoles(s', user, c);
      assert forall r :: ActiveRole(s', r) == ActiveRole(s, r) && RoleCodes(s', r) == RoleCodes(s, r);
    }
    forall t ensures t in UserTypes(s', user) <==> t in UserTypes(s, user) {
      TypesThroughRoles(s, user, t);
      TypesThroughRoles(s', user, t);
      assert forall r :: ActiveRole(s', r) == ActiveRole(s, r) && ActiveTypes(s', r) == ActiveTypes(s, r);
    }
  }

  /** Replacing succeeds exactly for an active user and role; then that role alone decides what the
      user may do, everyone else keeps their rights, and repeating it changes nothing. */
  lemma ReplacedRoleDecides(s: State, users: set<Id>, user: Id, role: Id)
    ensures ReplaceCall(s, users, user, role).1 == None <==> user in users && ActiveRole(s, role)
    ensures var (s', reply) := ReplaceCall(s, users, user, role);
            && (reply == None ==>
                  && RolesOf(s', user) == {role}
                  && UserCodes(s', user) == RoleCodes(s, role) && UserTypes(s', user) == ActiveTypes(s, role)
                  && ReplaceCall(s', users, user, role) == (s', None))
            && (reply != None ==> s' == s)
            && (forall other: Id | other != user ::
                  UserCodes(s', other) == UserCodes(s, other) && UserTypes(s', other) == UserTypes(s, other))
  {
    var (s', reply) := ReplaceCall(s, users, user, role);
    if reply == None {
      assert s'.links[(user, role)];
      assert RolesOf(s', user) == {role};
      assert RoleCodes(s', role) == RoleCodes(s, role);
      forall c ensures c in UserCodes(s', user) <==> c in RoleCodes(s, role) { CodesThroughRoles(s', user, c); }
      forall t ensures t in UserTypes(s', user) <==> t in ActiveTypes(s, role) { TypesThroughRoles(s', user, t); }
      assert Only(s'.links, user, role) == s'.links;
      forall other: Id | other != user
        ensures UserCodes(s', other) == UserCodes(s, other) && UserTypes(s', other) == UserTypes(s, other)
      {
        forall r ensures r in RolesOf(s', other) <==> r in RolesOf(s, other) {
          assert Holds(s'.links, other, r) <==> Holds(s.links, other, r);
        }
        SameRolesSameRights(s, s', other);
      }
    }
  }

  /** Setting one link adds the role to, or takes it from, that user's roles and no one else's. */
  lemma OneLink(s: State, user: Id, role: Id, on: bool)
    ensures var s' := s.(links := s.links[(user, role) := on]);
            && RolesOf(s', user) == (if on then RolesOf(s, user) + {role} else RolesOf(s, user) - {role})
            && forall other | other != user :: RolesOf(s', other) == RolesOf(s, other)
  {
    var s' := s.(links := s.links[(user, role) := on]);
    forall u: Id, r: Id ensures r in RolesOf(s', u) <==> if (u, r) == (user, role) then on else r in RolesOf(s, u) {
      assert r in RolesOf(s', u) <==> Holds(s'.links, u, r);
      assert r in RolesOf(s, u) <==> Holds(s.links, u, r);
    }
  }

  /** An assignment is granted exactly to an active user for an active role they do not hold, and adds that
      role to them alone. */
  lemma AssignDoes(s: State, users: set<Id>, user: Id, role: Id)
    ensures var (s', reply) := AssignCall(s, users, user, role);
            && (reply == Some(UserNotFound) <==> user !in users)
            && (reply == Some(RoleNotFound) <==> user in users && !ActiveRole(s, role))
            && (reply == Some(RoleAlreadyAssigned) <==>
                  user in users && ActiveRole(s, role) && role in RolesOf(s, user))
            && (reply == None <==> user in users && ActiveRole(s, role) && role !in RolesOf(s, user))
            && (if reply == None then
                  && s' == s.(links := s'.links) && RolesOf(s', user) == RolesOf(s, user) + {role}
                  && (forall other | other != user :: RolesOf(s', other) == RolesOf(s, other))
                else s' == s)
  {
    assert role in RolesOf(s, user) <==> Holds(s.links, user, role);
    OneLink(s, user, role, true);
  }

  /** A revocation is granted exactly for a role the user holds, and takes it from them alone. */
  lemma RevokeDoes(s: State, user: Id, role: Id)
    ensures var (s', reply) := RevokeCall(s, user, role);
            && (reply == None <==> role in RolesOf(s, user))
            && (if reply == None then
                  && s' == s.(links := s'.links) && RolesOf(s', user) == RolesOf(s, user) - {role}
                  && (forall other | other != user :: RolesOf(s', other) == RolesOf(s, other))
                else s' == s && reply == Some(RoleAssignmentNotFound))
  {
    assert role in RolesOf(s, user) <==> Holds(s.links, user, role);
    OneLink(s, user, role, false);
  }

  lemma MoreRolesMoreCodes(s: State, s': State, user: Id, role: Id)
    requires s' == s.(links := s'.links) && RolesOf(s', user) == RolesOf(s, user) + {role} && ActiveRole(s, role)
    ensures UserCodes(s', user) == UserCodes(s, user) + RoleCodes(s, role)
  {
    assert forall r :: ActiveRole(s', r) == ActiveRole(s, r) && RoleCodes(s', r) == RoleCodes(s, r);
    forall c ensures c in UserCodes(s', user) <==> c in UserCodes(s, user) + RoleCodes(s, role) {
      CodesThroughRoles(s, user, c);
      CodesThroughRoles(s', user, c);
    }
  }

  /** A granted assignment adds exactly the role's codes, and revoking it takes them back. */
  lemma RevokeUndoesAssign(s: State, users: set<Id>, user: Id, role: Id)
    requires AssignCall(s, users, user, role).1 == None
    ensures var s' := AssignCall(s, users, user, role).0;
            && UserCodes(s', user) == UserCodes(s, user) + RoleCodes(s, role)
            && RevokeCall(s', user, role).1 == None
            && UserCodes(RevokeCall(s', user, role).0, user) == UserCodes(s, user)
            && UserTypes(RevokeCall(s', user, role).0, user) == UserTypes(s, user)
  {
    var s' := AssignCall(s, users, user, role).0;
    OneLink(s, user, role, true);
    MoreRolesMoreCodes(s, s', user, role);
    var back := RevokeCall(s', user, role).0;
    OneLink(s', user, role, false);
    assert role !in RolesOf(s, user);
    assert RolesOf(s, user) + {role} - {role} == RolesOf(s, user);
    SameRolesSameRights(s, back, user);
  }

  /** The codes of a user whose role was replaced by a bootstrapped internal role are that role's
      allowlists, whatever either of them held before. */
  lemma ReplacedIntoManagedRole(s: State, plan: Plan, users: set<Id>, user: Id, role: Id, m: Managed)
    requires CodesOk(s) && RolesOk(s) && PlanOk(plan) && m in plan.internal
    ensures Bootstrap(s, plan).Some?
    ensures var b := Bootstrap(s, plan).value;
            var (s', reply) := ReplaceCall(b, users, user, role);
            reply == None && b.roles[role].name == m.name ==>
              UserCodes(s', user) == m.codes && UserTypes(s', user) == m.types
  {
    ManagedRolesHoldTheirLists(s, plan, role);
    ReplacedRoleDecides(Bootstrap(s, plan).value, users, user, role);
  }

  // ------------------------------------------------------------ runs

  lemma OtherCallsKeepRoles(s: State, users: set<Id>, call: Call, user: Id)
    requires call.user != user
    ensures RolesOf(Serve(s, users, call).0, user) == RolesOf(s, user)
  {
    match call
    case Assign(u, role) => OneLink(s, u, role, true);
    case Revoke(u, role) => OneLink(s, u, role, false);
    case Replace(u, role) =>
      var s' := Serve(s, users, call).0;
      forall r ensures r in RolesOf(s', user) <==> r in RolesOf(s, user) {
        assert Holds(s'.links, user, r) <==> Holds(s.links, user, r);
      }
  }

  /** A user managed only through `replace_role` never holds two roles, and never loses the last:
      once they hold exactly one, they hold exactly one after every run. */
  lemma {:induction false} ExactlyOneRole(s: State, users: set<Id>, calls: seq<Call>, user: Id)
    requires |RolesOf(s, user)| == 1 && forall c | c in calls :: c.user == user ==> c.Replace?
    ensures |RolesOf(Run(s, users, calls), user)| == 1
    decreases |calls|
  {
    if calls != [] {
      var init, last := calls[..|calls| - 1], calls[|calls| - 1];
      assert calls == init + [last];
      ExactlyOneRole(s, users, init, user);
      if last.user == user {
        ReplacedRoleDecides(Run(s, users, init), users, user, last.role);
      } else {
        OtherCallsKeepRoles(Run(s, users, init), users, last, user);
      }
    }
  }

  // ------------------------------------------------------------ the service

  class UserRolesService {
    const tables: State
    const users: set<Id>
    var links: map<(Id, Id), bool>

    function View(): State
      reads this
    {
      tables.(links := links)
    }

    constructor (s: State, users: set<Id>)
      ensures View() == s && this.users == users
    {
      tables, this.users, links := s, users, s.links;
    }

    method AssignRole(user: Id, role: Id) returns (reply: Reply)
      modifies this
      ensures (View(), reply) == AssignCall(old(View()), users, user, role)
    {
      if user !in users { return Some(UserNotFound); }
      if !ActiveRole(View(), role) { return Some(RoleNotFound); }
      if (user, role) in links && links[(user, role)] { return Some(RoleAlreadyAssigned); }
      links := links[(user, role) := true];
      return None;
    }

    /** Switch off the user's active links one by one, noticing the new role on the way; then
        reactivate or insert it when it was not among them. */
    method ReplaceRole(user: Id, role: Id) returns (reply: Reply)
      modifies this
      ensures (View(), reply) == ReplaceCall(old(View()), users, user, role)
    {
      if user !in users { return Some(UserNotFound); }
      if !ActiveRole(View(), role) { return Some(RoleNotFound); }
      var was, now, alreadyHasNew := links, links, false;
      var todo := RolesOf(View(), user);
      ghost var current := todo;
      while todo != {}
        invariant todo <= current && now.Keys == was.Keys
        invariant alreadyHasNew == (role in current - todo)
        invariant forall l: (Id, Id) | l in was ::
          now[l] == (was[l] && !(l.0 == user && l.1 != role && l.1 in current - todo))
        decreases |todo|
      {
        var r :| r in todo;
        if r == role {
          alreadyHasNew := true;
        } else {
          now := now[(user, r) := false];
        }
        todo := todo - {r};
      }
      if !alreadyHasNew {
        now := now[(user, role) := true];
      }
      forall l | l in was && l.0 == user && was[l] ensures l.1 in current { assert l == (user, l.1); }
      assert now == Only(was, user, role);
      links := now;
      return None;
    }

    method RevokeRole(user: Id, role: Id) returns (reply: Reply)
      modifies this
      ensures (View(), reply) == RevokeCall(old(View()), user, role)
    {
      if !((user, role) in links && links[(user, role)]) { return Some(RoleAssignmentNotFound); }
      links := links[(user, role) := false];
      return None;
    }
  }
}
