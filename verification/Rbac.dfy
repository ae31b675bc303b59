/** Roles, permissions and their grants: who may do what, the "exactly this allowlist" procedures,
    and the bootstrap built from them. */
module Rbac {
  import opened Wrappers

  type Id = nat

  datatype Role = Role(name: string, active: bool)

  datatype Permission = Permission(code: string, active: bool)

  /** A junction row maps its composite key to its `is_active` flag. `codes` is the unique index
      on the permission code, `accounts` the one on the email of a user. */
  datatype State = State(
    roles: map<Id, Role>, nextRole: Id, accounts: map<string, Id>, nextUser: Id,
    permissions: map<Id, Permission>, codes: map<string, Id>, nextPermission: Id,
    grants: map<(Id, Id), bool>, typeGrants: map<(Id, string), bool>, links: map<(Id, Id), bool>)

  /** A role the bootstrap manages, with its two allowlists. */
  datatype Managed = Managed(name: string, codes: set<string>, types: set<string>)

  // ------------------------------------------------------------ queries

  function ActiveGrants(s: State, role: Id): set<Id> {
    set k | k in s.grants && k.0 == role && s.grants[k] :: k.1
  }

  function ActiveTypes(s: State, role: Id): set<string> {
    set k | k in s.typeGrants && k.0 == role && s.typeGrants[k] :: k.1
  }

  function Named(s: State, name: string): set<Id> {
    set r | r in s.roles && s.roles[r].name == name && s.roles[r].active
  }

  /** Permission ids whose code is in the list, whether or not the permission is active. */
  function Matching(s: State, allowlist: set<string>): set<Id> {
    set p | p in s.permissions && s.permissions[p].code in allowlist
  }

  predicate ActiveRole(s: State, r: Id) { r in s.roles && s.roles[r].active }

  predicate ActivePermission(s: State, p: Id) { p in s.permissions && s.permissions[p].active }

  /** The permission codes a role confers. */
  function RoleCodes(s: State, role: Id): set<string> {
    set p | p in ActiveGrants(s, role) && ActivePermission(s, p) :: s.permissions[p].code
  }

  /** `list_permission_codes_for_user`: every hop must be active. */
  function UserCodes(s: State, user: Id): set<string> {
    set l, p | l in s.links && l.0 == user && s.links[l] && ActiveRole(s, l.1)
               && p in ActiveGrants(s, l.1) && ActivePermission(s, p) :: s.permissions[p].code
  }

  function UserTypes(s: State, user: Id): set<string> {
    set l, t | l in s.links && l.0 == user && s.links[l] && ActiveRole(s, l.1) && t in ActiveTypes(s, l.1) :: t
  }

  // ------------------------------------------------------------ exactly this allowlist

  /** Upsert an active row for every key, as ON CONFLICT DO UPDATE does. */
  function Upsert<K>(rows: map<K, bool>, keys: set<K>): map<K, bool> {
    map k | k in rows.Keys + keys :: if k in keys then true else rows[k]
  }

  function Switched<K>(rows: map<K, bool>, off: set<K>): map<K, bool> {
    map k | k in rows :: if k in off then false else rows[k]
  }

  function Keys<B>(role: Id, ids: set<B>): set<(Id, B)> { set b | b in ids :: (role, b) }

  /** The role's rows for anything but `keep`. */
  function Outside<B>(rows: map<(Id, B), bool>, role: Id, keep: set<B>): set<(Id, B)> {
    set k | k in rows && k.0 == role && k.1 !in keep
  }

  function GrantPermissions(s: State, role: Id, allowlist: set<string>): State {
    var ids := Matching(s, allowlist);
    if ids == {} then s else
      var upserted := Upsert(s.grants, Keys(role, ids));
      s.(grants := Switched(upserted, Outside(upserted, role, ids)))
  }

  function GrantTypes(s: State, role: Id, allowlist: set<string>): State {
    var upserted := if allowlist == {} then s.typeGrants else Upsert(s.typeGrants, Keys(role, allowlist));
    s.(typeGrants := Switched(upserted, Outside(upserted, role, allowlist)))
  }

  /** The procedure makes a role hold exactly the listed permissions if and only if some listed
      code exists, or the role held nothing: with no match it returns before revoking. Other roles
      confer what they did. */
  lemma GrantsAreExactIff(s: State, role: Id, allowlist: set<string>)
    ensures ActiveGrants(GrantPermissions(s, role, allowlist), role) == Matching(s, allowlist)
       <==> Matching(s, allowlist) != {} || ActiveGrants(s, role) == {}
    ensures forall other | other != role ::
              RoleCodes(GrantPermissions(s, role, allowlist), other) == RoleCodes(s, other)
  {
    forall other | other != role ensures RoleCodes(GrantPermissions(s, role, allowlist), other) == RoleCodes(s, other) {
      GrantsElsewhere(s, role, allowlist, other);
    }
    var ids, s' := Matching(s, allowlist), GrantPermissions(s, role, allowlist);
    if ids != {} {
      forall p ensures p in ActiveGrants(s', role) <==> p in ids {
        if p in ids { assert (role, p) in Keys(role, ids) && s'.grants[(role, p)]; }
      }
    }
  }

  /** In terms of codes: when some permission of a listed code exists, active or not, the role ends with
      exactly the permissions of listed codes; otherwise nothing changes. */
  lemma GrantsByCode(s: State, role: Id, allowlist: set<string>)
    ensures var s' := GrantPermissions(s, role, allowlist);
            if exists p :: p in s.permissions && s.permissions[p].code in allowlist then
              forall p :: p in ActiveGrants(s', role) <==> p in s.permissions && s.permissions[p].code in allowlist
            else s' == s
  {
    GrantsAreExactIff(s, role, allowlist);
    if p :| p in s.permissions && s.permissions[p].code in allowlist {
      assert p in Matching(s, allowlist);
    } else {
      assert Matching(s, allowlist) == {};
    }
  }

  /** Granting everything gives the role each active permission and leaves other roles alone. */
  lemma AllGranted(s: State, role: Id)
    ensures var s' := GrantAll(s, role);
            && (forall p | ActivePermission(s', p) :: p in ActiveGrants(s', role))
            && (forall other | other != role :: RoleCodes(s', other) == RoleCodes(s, other))
  {
    var s' := GrantAll(s, role);
    var ids := set p | p in s.permissions && s.permissions[p].active;
    forall p | ActivePermission(s', p) ensures p in ActiveGrants(s', role) {
      assert (role, p) in Keys(role, ids);
    }
    forall other | other != role ensures RoleCodes(s', other) == RoleCodes(s, other) {
      forall p ensures p in ActiveGrants(s', other) <==> p in ActiveGrants(s, other) {
        assert (other, p) in s'.grants && s'.grants[(other, p)] <==> (other, p) in s.grants && s.grants[(other, p)];
      }
      assert ActiveGrants(s', other) == ActiveGrants(s, other);
    }
  }

  lemma GrantsElsewhere(s: State, role: Id, allowlist: set<string>, other: Id)
    requires other != role
    ensures ActiveGrants(GrantPermissions(s, role, allowlist), other) == ActiveGrants(s, other)
  {
    var s' := GrantPermissions(s, role, allowlist);
    forall p ensures p in ActiveGrants(s', other) <==> p in ActiveGrants(s, other) {
      assert (other, p) in s'.grants && s'.grants[(other, p)] <==> (other, p) in s.grants && s.grants[(other, p)];
    }
  }

  /** The type allowlist is always exact; an empty one revokes everything. */
  lemma TypesAreExact(s: State, role: Id, allowlist: set<string>)
    ensures ActiveTypes(GrantTypes(s, role, allowlist), role) == allowlist
    ensures forall other | other != role :: ActiveTypes(GrantTypes(s, role, allowlist), other) == ActiveTypes(s, other)
  {
    var s' := GrantTypes(s, role, allowlist);
    forall t ensures t in ActiveTypes(s', role) <==> t in allowlist {
      if t in allowlist { assert (role, t) in Keys(role, allowlist) && s'.typeGrants[(role, t)]; }
    }
    forall other | other != role ensures ActiveTypes(s', other) == ActiveTypes(s, other) {
      forall t ensures t in ActiveTypes(s', other) <==> t in ActiveTypes(s, other) {
        assert (other, t) in s'.typeGrants && s'.typeGrants[(other, t)]
          <==> (other, t) in s.typeGrants && s.typeGrants[(other, t)];
      }
    }
  }

  // ------------------------------------------------------------ the bootstrap

  /** Permission codes are unique and their index is complete. */
  predicate CodesOk(s: State) {
    && (forall p | p in s.permissions :: p < s.nextPermission && s.permissions[p].code in s.codes
                                          && s.codes[s.permissions[p].code] == p)
    && (forall c | c in s.codes :: s.codes[c] in s.permissions && s.permissions[s.codes[c]].code == c)
  }

  predicate RolesOk(s: State) {
    && (forall r | r in s.roles :: r < s.nextRole)
    && (forall q, r | q in s.roles && r in s.roles && s.roles[q].active && s.roles[r].active
                      && s.roles[q].name == s.roles[r].name :: q == r)
  }

  function SyncPermission(s: State, code: string): State {
    if code in s.codes && s.codes[code] in s.permissions
    then s.(permissions := s.permissions[s.codes[code] := Permission(code, true)])
    else s.(permissions := s.permissions[s.nextPermission := Permission(code, true)],
            codes := s.codes[code := s.nextPermission], nextPermission := s.nextPermission + 1)
  }

  function SyncPermissions(s: State, catalog: seq<string>): State {
    if catalog == [] then s else SyncPermission(SyncPermissions(s, catalog[..|catalog| - 1]), catalog[|catalog| - 1])
  }

  /** The active role of that name, created when there is none; two of them are a failed query. */
  function EnsureRole(s: State, name: string): Option<(State, Id)> {
    var found := Named(s, name);
    if found == {} then Some((s.(roles := s.roles[s.nextRole := Role(name, true)],
             nextRole := s.nextRole + 1), s.nextRole))
    else if exists r | r in found :: found == {r} then var r :| r in found && found == {r}; Some((s, r))
    else None
  }

  function GrantAll(s: State, role: Id): State {
    s.(grants := Upsert(s.grants, Keys(role, set p | p in s.permissions && s.permissions[p].active)))
  }

  /** An internal staff role: ensured, then both allowlists made exact. */
  function Manage(s: State, m: Managed): Option<State> {
    match EnsureRole(s, m.name)
    case None => None
    case Some((named, role)) => Some(GrantTypes(GrantPermissions(named, role, m.codes), role, m.types))
  }

  function ManageAll(s: State, ms: seq<Managed>): Option<State> {
    if ms == [] then Some(s) else
      match ManageAll(s, ms[..|ms| - 1])
      case None => None
      case Some(s') => Manage(s', ms[|ms| - 1])
  }

  /** What the command is given and its constants. `portalSeeded` says whether the staff portal is in the
      catalog, without which nothing is done. */
  datatype Plan = Plan(portalSeeded: bool, email: string, catalog: seq<string>, admin: string,
                       candidate: string, candidateCodes: set<string>, internal: seq<Managed>)

  /** The user with that email, inserted when there is none. */
  function EnsureUser(s: State, email: string): (State, Id) {
    if email in s.accounts then (s, s.accounts[email])
    else (s.(accounts := s.accounts[email := s.nextUser], nextUser := s.nextUser + 1), s.nextUser)
  }

  function AdminStep(s: State, name: string, email: string): Option<State> {
    match EnsureRole(s, name)
    case None => None
    case Some((a, admin)) =>
      var (known, user) := EnsureUser(GrantAll(a, admin), email);
      Some(known.(links := known.links[(user, admin) := true]))
  }

  function CandidateStep(s: State, name: string, codes: set<string>): Option<State> {
    match EnsureRole(s, name)
    case None => None
    case Some((c, candidate)) => Some(GrantPermissions(c, candidate, codes))
  }

  /** Everything after the catalog sync. */
  function Roles(s: State, plan: Plan): Option<State> {
    match AdminStep(s, plan.admin, plan.email)
    case None => None
    case Some(a) =>
      match CandidateStep(a, plan.candidate, plan.candidateCodes)
      case None => None
      case Some(c) => ManageAll(c, plan.internal)
  }

  /** One INSERT ... ON CONFLICT may not touch a row twice. */
  predicate NoRepeats(catalog: seq<string>) { forall i, j | 0 <= i < j < |catalog| :: catalog[i] != catalog[j] }

  function Bootstrap(s: State, plan: Plan): Option<State> {
    if !plan.portalSeeded || !NoRepeats(plan.catalog) then None
    else Roles(SyncPermissions(s, plan.catalog), plan)
  }

  // ------------------------------------------------------------ what the bootstrap leaves behind

  predicate HasRow<B(==)>(rows: map<(Id, B), bool>, r: Id, b: B) { (r, b) in rows }

  predicate Holds<B(==)>(rows: map<(Id, B), bool>, r: Id, b: B) { (r, b) in rows && rows[(r, b)] }

  /** The role's rows are on exactly for `wanted`. */
  ghost predicate Settled<B(!new)>(rows: map<(Id, B), bool>, r: Id, wanted: set<B>) {
    && (forall b | b in wanted :: Holds(rows, r, b))
    && (forall b | Holds(rows, r, b) :: b in wanted)
  }

  ghost predicate SameRows<B(!new)>(was: map<(Id, B), bool>, now: map<(Id, B), bool>, r: Id) {
    forall b: B :: (HasRow(was, r, b) <==> HasRow(now, r, b)) && (Holds(was, r, b) <==> Holds(now, r, b))
  }

  lemma SettledHolds(s: State, r: Id, wanted: set<Id>)
    ensures Settled(s.grants, r, wanted) <==> ActiveGrants(s, r) == wanted
  {
    assert forall p :: p in ActiveGrants(s, r) <==> Holds(s.grants, r, p);
  }

  lemma SettledTypes(s: State, r: Id, wanted: set<string>)
    ensures Settled(s.typeGrants, r, wanted) <==> ActiveTypes(s, r) == wanted
  {
    assert forall t :: t in ActiveTypes(s, r) <==> Holds(s.typeGrants, r, t);
  }

  lemma GrantPermissionsRows(s: State, r: Id, codes: set<string>)
    requires Matching(s, codes) != {}
    ensures var s' := GrantPermissions(s, r, codes);
            && Settled(s'.grants, r, Matching(s, codes))
            && (forall q | q != r :: SameRows(s.grants, s'.grants, q))
            && (Settled(s.grants, r, Matching(s, codes)) ==> s' == s)
  {
    var ids, s' := Matching(s, codes), GrantPermissions(s, r, codes);
    assert forall p :: (r, p) in Keys(r, ids) <==> p in ids;
    if Settled(s.grants, r, ids) {
      forall k | k in s'.grants ensures k in s.grants && s'.grants[k] == s.grants[k] {
        if k in Keys(r, ids) {
          assert Holds(s.grants, r, k.1);
        } else if k.0 == r {
          assert Holds(s.grants, r, k.1) ==> k.1 in ids;
          assert k == (r, k.1);
        }
      }
      assert s'.grants.Keys == s.grants.Keys;
      assert s'.grants == s.grants;
    }
  }

  lemma GrantTypesRows(s: State, r: Id, types: set<string>)
    ensures var s' := GrantTypes(s, r, types);
            && Settled(s'.typeGrants, r, types)
            && (forall q | q != r :: SameRows(s.typeGrants, s'.typeGrants, q))
            && (Settled(s.typeGrants, r, types) ==> s' == s)
  {
    var s' := GrantTypes(s, r, types);
    assert forall t :: (r, t) in Keys(r, types) <==> t in types;
    if Settled(s.typeGrants, r, types) {
      forall k | k in s'.typeGrants ensures k in s.typeGrants && s'.typeGrants[k] == s.typeGrants[k] {
        if k in Keys(r, types) {
          assert Holds(s.typeGrants, r, k.1);
        } else if k.0 == r {
          assert Holds(s.typeGrants, r, k.1) ==> k.1 in types;
          assert k == (r, k.1);
        }
      }
      assert s'.typeGrants.Keys == s.typeGrants.Keys;
      assert s'.typeGrants == s.typeGrants;
    }
  }

  /** The state already manages the role exactly. */
  ghost predicate ManagedExactly(s: State, name: string, codes: set<string>, types: Option<set<string>>) {
    exists r :: Named(s, name) == {r} && ManagedAs(s, r, codes, types)
  }

  ghost predicate ManagedAs(s: State, r: Id, codes: set<string>, types: Option<set<string>>) {
    && r in s.roles && Settled(s.grants, r, Matching(s, codes))
    && (types.Some? ==> Settled(s.typeGrants, r, types.value))
  }

  /** Only roles of the given names were created or had their rows changed. */
  ghost predicate Confined(s: State, s': State, names: set<string>) {
    && s'.permissions == s.permissions && s'.codes == s.codes && s'.nextPermission == s.nextPermission
    && s'.links == s.links && s'.accounts == s.accounts && s'.nextUser == s.nextUser
    && (forall r | r in s.roles :: r in s'.roles && s'.roles[r] == s.roles[r])
    && (forall r | r in s'.roles && r !in s.roles :: s'.roles[r].name in names)
    && (forall r | r in s.roles && !(s.roles[r].active && s.roles[r].name in names) ::
          SameRows(s.grants, s'.grants, r) && SameRows(s.typeGrants, s'.typeGrants, r))
  }

  lemma NamedStays(s: State, s': State, names: set<string>, name: string)
    requires Confined(s, s', names) && name !in names
    ensures Named(s', name) == Named(s, name)
  {
  }

  lemma ManagedStays(s: State, s': State, names: set<string>, name: string,
                    codes: set<string>, types: Option<set<string>>)
    requires Confined(s, s', names) && name !in names && ManagedExactly(s, name, codes, types)
    ensures ManagedExactly(s', name, codes, types)
  {
    NamedStays(s, s', names, name);
    var r :| Named(s, name) == {r} && ManagedAs(s, r, codes, types);
    assert r in Named(s, name);
    assert SameRows(s.grants, s'.grants, r) && SameRows(s.typeGrants, s'.typeGrants, r);
    assert Matching(s', codes) == Matching(s, codes);
    assert ManagedAs(s', r, codes, types);
  }

  lemma ConfinedTransitive(a: State, b: State, c: State, m: set<string>, n: set<string>)
    requires Confined(a, b, m) && Confined(b, c, n)
    ensures Confined(a, c, m + n)
  {
    forall r | r in a.roles && !(a.roles[r].active && a.roles[r].name in m + n)
      ensures SameRows(a.grants, c.grants, r) && SameRows(a.typeGrants, c.typeGrants, r)
    {
      assert SameRows(a.grants, b.grants, r) && SameRows(b.grants, c.grants, r);
      assert SameRows(a.typeGrants, b.typeGrants, r) && SameRows(b.typeGrants, c.typeGrants, r);
    }
  }

  /** The state once a role of that name has been inserted. */
  function WithRole(s: State, name: string): State {
    s.(roles := s.roles[s.nextRole := Role(name, true)], nextRole := s.nextRole + 1)
  }

  lemma RoleCreated(s: State, name: string)
    requires RolesOk(s) && Named(s, name) == {}
    ensures RolesOk(WithRole(s, name)) && Named(WithRole(s, name), name) == {s.nextRole}
    ensures Confined(s, WithRole(s, name), {name})
  {
    var s' := WithRole(s, name);
    forall r | r in s.roles ensures !(s.roles[r].active && s.roles[r].name == name) { assert r !in Named(s, name); }
    forall r ensures r in Named(s', name) <==> r == s.nextRole { }
  }

  lemma RoleFound(s: State, name: string, r: Id)
    requires RolesOk(s) && r in Named(s, name)
    ensures Named(s, name) == {r} && Confined(s, s, {name}) && EnsureRole(s, name) == Some((s, r))
  {
    assert Named(s, name) == {r};
    assert forall q | Named(s, name) == {q} :: q in Named(s, name);
  }

  lemma EnsureRoleWorks(s: State, name: string)
    requires RolesOk(s)
    ensures EnsureRole(s, name).Some?
    ensures var (s', r) := EnsureRole(s, name).value;
            && RolesOk(s') && Named(s', name) == {r} && r in s'.roles && Confined(s, s', {name})
            && s'.grants == s.grants && s'.typeGrants == s.typeGrants
            && s'.links == s.links && s'.accounts == s.accounts && s'.nextUser == s.nextUser
            && (Named(s, name) == {r} ==> s' == s)
  {
    if Named(s, name) == {} {
      RoleCreated(s, name);
    } else {
      var r :| r in Named(s, name);
      RoleFound(s, name, r);
    }
  }

  lemma GrantConfined(s: State, s': State, r: Id, name: string)
    requires Named(s, name) == {r} && s' == s.(grants := s'.grants, typeGrants := s'.typeGrants)
    requires forall q | q != r :: SameRows(s.grants, s'.grants, q) && SameRows(s.typeGrants, s'.typeGrants, q)
    ensures Confined(s, s', {name}) && (RolesOk(s) ==> RolesOk(s')) && Named(s', name) == {r}
  {
    assert r in Named(s, name);
  }

  lemma ManageWorks(s: State, m: Managed)
    requires RolesOk(s) && Matching(s, m.codes) != {}
    ensures Manage(s, m).Some?
    ensures var s' := Manage(s, m).value;
            RolesOk(s') && Confined(s, s', {m.name}) && ManagedExactly(s', m.name, m.codes, Some(m.types))
  {
    EnsureRoleWorks(s, m.name);
    var (named, r) := EnsureRole(s, m.name).value;
    assert Matching(named, m.codes) == Matching(s, m.codes);
    GrantPermissionsRows(named, r, m.codes);
    var granted := GrantPermissions(named, r, m.codes);
    GrantTypesRows(granted, r, m.types);
    var typed := GrantTypes(granted, r, m.types);
    GrantConfined(named, typed, r, m.name);
    ConfinedTransitive(s, named, typed, {m.name}, {m.name});
    assert {m.name} + {m.name} == {m.name};
    assert Matching(typed, m.codes) == Matching(named, m.codes);
    assert ManagedAs(typed, r, m.codes, Some(m.types));
  }

  lemma ManageAgain(s: State, m: Managed)
    requires Matching(s, m.codes) != {} && ManagedExactly(s, m.name, m.codes, Some(m.types))
    ensures Manage(s, m) == Some(s)
  {
    var r :| Named(s, m.name) == {r} && ManagedAs(s, r, m.codes, Some(m.types));
    assert r in Named(s, m.name);
    assert EnsureRole(s, m.name) == Some((s, r));
    GrantPermissionsRows(s, r, m.codes);
    GrantTypesRows(s, r, m.types);
  }

  function Names(ms: seq<Managed>): set<string> { set m | m in ms :: m.name }

  predicate DistinctNames(ms: seq<Managed>) { forall i, j | 0 <= i < j < |ms| :: ms[i].name != ms[j].name }

  lemma {:induction false} ManageAllWorks(s: State, ms: seq<Managed>)
    requires RolesOk(s) && DistinctNames(ms) && forall m | m in ms :: Matching(s, m.codes) != {}
    ensures ManageAll(s, ms).Some?
    ensures var s' := ManageAll(s, ms).value;
            && RolesOk(s') && Confined(s, s', Names(ms))
            && forall m | m in ms :: ManagedExactly(s', m.name, m.codes, Some(m.types))
  {
    if ms == [] {
      assert Confined(s, s, Names(ms));
    } else {
      var init, last := ms[..|ms| - 1], ms[|ms| - 1];
      SplitNames(ms);
      ManageAllWorks(s, init);
      ManageOneMore(s, ManageAll(s, init).value, init, last);
    }
  }

  lemma SplitNames(ms: seq<Managed>)
    requires ms != [] && DistinctNames(ms)
    ensures var init, last := ms[..|ms| - 1], ms[|ms| - 1];
            && DistinctNames(init) && Names(init) + {last.name} == Names(ms)
            && (forall m | m in init :: m in ms && m.name != last.name)
            && (forall m | m in ms :: m in init || m == last)
  {
    var init, last := ms[..|ms| - 1], ms[|ms| - 1];
    assert ms == init + [last];
  }

  lemma AllManagedStay(mid: State, s': State, ms: seq<Managed>, other: string)
    requires Confined(mid, s', {other})
    requires forall m | m in ms :: m.name != other && ManagedExactly(mid, m.name, m.codes, Some(m.types))
    ensures forall m | m in ms :: ManagedExactly(s', m.name, m.codes, Some(m.types))
  {
    forall m | m in ms ensures ManagedExactly(s', m.name, m.codes, Some(m.types)) {
      ManagedStays(mid, s', {other}, m.name, m.codes, Some(m.types));
    }
  }

  lemma ManageOneMore(s: State, mid: State, init: seq<Managed>, last: Managed)
    requires RolesOk(mid) && Confined(s, mid, Names(init)) && Matching(s, last.codes) != {}
    requires forall m | m in init :: m.name != last.name && ManagedExactly(mid, m.name, m.codes, Some(m.types))
    ensures Manage(mid, last).Some?
    ensures var s' := Manage(mid, last).value;
            && RolesOk(s') && Confined(s, s', Names(init) + {last.name})
            && ManagedExactly(s', last.name, last.codes, Some(last.types))
            && forall m | m in init :: ManagedExactly(s', m.name, m.codes, Some(m.types))
  {
    assert Matching(mid, last.codes) == Matching(s, last.codes);
    ManageWorks(mid, last);
    var s' := Manage(mid, last).value;
    ConfinedTransitive(s, mid, s', Names(init), {last.name});
    AllManagedStay(mid, s', init, last.name);
  }

  lemma {:induction false} ManageAllAgain(s: State, ms: seq<Managed>)
    requires forall m | m in ms :: Matching(s, m.codes) != {} && ManagedExactly(s, m.name, m.codes, Some(m.types))
    ensures ManageAll(s, ms) == Some(s)
  {
    if ms != [] {
      ManageAllAgain(s, ms[..|ms| - 1]);
      ManageAgain(s, ms[|ms| - 1]);
    }
  }

  // ------------------------------------------------------------ an allowlist that matches nothing

  function NoTables(): State { State(map[], 0, map[], 0, map[], map[], 0, map[], map[], map[]) }

  /** A synced permission "a", a role 0 and its grant. */
  function OneGrant(): State {
    State(map[0 := Role("staff", true)], 1, map[], 0, map[0 := Permission("a", true)], map["a" := 0], 1,
          map[(0, 0) := true], map[], map[])
  }

  lemma OneGrantIsReached()
    ensures EnsureRole(SyncPermissions(NoTables(), ["a"]), "staff").Some?
    ensures var (s, r) := EnsureRole(SyncPermissions(NoTables(), ["a"]), "staff").value;
            r == 0 && GrantPermissions(s, r, {"a"}) == OneGrant()
  {
    assert ["a"][..0] == [];
    var synced := SyncPermissions(NoTables(), ["a"]);
    assert synced == SyncPermission(NoTables(), "a");
    assert Named(synced, "staff") == {};
    var s := EnsureRole(synced, "staff").value.0;
    assert Matching(s, {"a"}) == {0};
    assert Keys(0, {0}) == {(0, 0)};
    assert GrantPermissions(s, 0, {"a"}).grants == map[(0, 0) := true];
  }

  /** Granting a list no permission matches leaves the role with what it had. */
  lemma EmptyMatchKeepsGrants()
    ensures Matching(OneGrant(), {"b"}) == {}
    ensures RoleCodes(GrantPermissions(OneGrant(), 0, {"b"}), 0) == {"a"}
  {
    assert ActiveGrants(OneGrant(), 0) == {0} by { assert OneGrant().grants[(0, 0)]; }
  }
}
