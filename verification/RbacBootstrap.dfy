/** The whole bootstrap: it succeeds, leaves every managed role with exactly its allowlists,
    touches nothing else, and running it again changes nothing. */
module RbacBootstrap {
  import opened Wrappers
  import opened Rbac

  // ------------------------------------------------------------ the catalog sync

  predicate Synced(s: State, code: string) {
    code in s.codes && s.codes[code] in s.permissions && s.permissions[s.codes[code]] == Permission(code, true)
  }

  predicate AllSynced(s: State, catalog: seq<string>) { forall c | c in catalog :: Synced(s, c) }

  /** Permission rows keep their id and code; only catalog codes were added or switched on. */
  ghost predicate SyncConfined(s: State, s': State, catalog: seq<string>) {
    && s' == s.(permissions := s'.permissions, codes := s'.codes, nextPermission := s'.nextPermission)
    && (forall p | p in s.permissions :: p in s'.permissions && s'.permissions[p].code == s.permissions[p].code
                     && (s'.permissions[p] == s.permissions[p] || s.permissions[p].code in catalog))
    && (forall p | p in s'.permissions && p !in s.permissions :: s'.permissions[p].code in catalog)
  }

  lemma SyncOne(s: State, code: string)
    requires CodesOk(s)
    ensures CodesOk(SyncPermission(s, code)) && Synced(SyncPermission(s, code), code)
    ensures SyncConfined(s, SyncPermission(s, code), [code])
  {
    if code in s.codes {
      assert s.permissions[s.codes[code]].code == code;
    } else {
      assert s.nextPermission !in s.permissions;
    }
  }

  lemma SyncKeeps(s: State, code: string, c: string)
    requires CodesOk(s) && Synced(s, c)
    ensures Synced(SyncPermission(s, code), c)
  {
  }

  lemma {:induction false} SyncAll(s: State, catalog: seq<string>)
    requires CodesOk(s)
    ensures var s' := SyncPermissions(s, catalog);
            CodesOk(s') && AllSynced(s', catalog) && SyncConfined(s, s', catalog)
    decreases |catalog|
  {
    if catalog != [] {
      var init, last := catalog[..|catalog| - 1], catalog[|catalog| - 1];
      assert catalog == init + [last];
      SyncAll(s, init);
      SyncOne(SyncPermissions(s, init), last);
      forall c | c in init
        ensures Synced(SyncPermissions(s, catalog), c) { SyncKeeps(SyncPermissions(s, init), last, c); }
    }
  }

  lemma {:induction false} SyncAgain(s: State, catalog: seq<string>)
    requires AllSynced(s, catalog)
    ensures SyncPermissions(s, catalog) == s
    decreases |catalog|
  {
    if catalog != [] {
      var init, last := catalog[..|catalog| - 1], catalog[|catalog| - 1];
      SyncAgain(s, init);
      assert Synced(s, last);
      assert s.permissions[s.codes[last] := Permission(last, true)] == s.permissions;
    }
  }

  /** After the sync a code list inside the catalog matches exactly its own active permissions. */
  lemma MatchedExactly(s: State, catalog: seq<string>, codes: set<string>, role: Id)
    requires CodesOk(s) && AllSynced(s, catalog) && (forall c | c in codes :: c in catalog)
    ensures codes != {} ==> Matching(s, codes) != {}
    ensures Settled(s.grants, role, Matching(s, codes)) ==> RoleCodes(s, role) == codes
  {
    forall c | c in codes ensures s.codes[c] in Matching(s, codes) { assert Synced(s, c); }
    if Settled(s.grants, role, Matching(s, codes)) {
      SettledHolds(s, role, Matching(s, codes));
      forall c ensures c in RoleCodes(s, role) <==> c in codes {
        if c in codes { assert Synced(s, c) && s.codes[c] in ActiveGrants(s, role); }
      }
    }
  }

  // ------------------------------------------------------------ the plan

  /** What the constants of the bootstrap satisfy: one name per role, and non-empty code lists
      drawn from the catalog. */
  predicate PlanOk(plan: Plan) {
    && plan.portalSeeded && NoRepeats(plan.catalog)
    && DistinctNames(plan.internal) && plan.admin != plan.candidate
    && plan.admin !in Names(plan.internal) && plan.candidate !in Names(plan.internal)
    && Listed(plan.candidateCodes, plan.catalog)
    && (forall m | m in plan.internal :: Listed(m.codes, plan.catalog))
  }

  predicate Listed(codes: set<string>, catalog: seq<string>) { codes != {} && forall c | c in codes :: c in catalog }

  ghost predicate AdminAs(s: State, r: Id, adminUser: Id) {
    && Holds(s.links, adminUser, r)
    && (forall p | ActivePermission(s, p) :: Holds(s.grants, r, p))
  }

  ghost predicate AdminDone(s: State, name: string, email: string) {
    email in s.accounts && exists r :: Named(s, name) == {r} && AdminAs(s, r, s.accounts[email])
  }

  ghost predicate InternalDone(s: State, ms: seq<Managed>) {
    forall m | m in ms :: ManagedExactly(s, m.name, m.codes, Some(m.types))
  }

  ghost predicate Done(s: State, plan: Plan) {
    && AllSynced(s, plan.catalog) && AdminDone(s, plan.admin, plan.email)
    && ManagedExactly(s, plan.candidate, plan.candidateCodes, None) && InternalDone(s, plan.internal)
  }

  // ------------------------------------------------------------ the admin and candidate steps

  lemma GrantAllWorks(a: State, name: string, r: Id)
    requires RolesOk(a) && Named(a, name) == {r}
    ensures RolesOk(GrantAll(a, r)) && Named(GrantAll(a, r), name) == {r} && Confined(a, GrantAll(a, r), {name})
    ensures forall p | ActivePermission(GrantAll(a, r), p) :: Holds(GrantAll(a, r).grants, r, p)
  {
    var granted := GrantAll(a, r);
    forall p | ActivePermission(granted, p) ensures Holds(granted.grants, r, p) {
      assert (r, p) in Keys(r, set p | p in a.permissions && a.permissions[p].active);
    }
    GrantConfined(a, granted, r, name);
  }

  lemma Linked(s: State, granted: State, name: string, r: Id, email: string)
    requires Confined(s, granted, {name}) && granted.typeGrants == s.typeGrants
    ensures var (known, user) := EnsureUser(granted, email);
            AdminConfined(s, known.(links := known.links[(user, r) := true]), name, email)
  {
    var (known, user) := EnsureUser(granted, email);
    var a := known.(links := known.links[(user, r) := true]);
    assert a.(links := s.links, accounts := s.accounts, nextUser := s.nextUser) == granted;
  }

  ghost predicate HoldsAll(s: State, r: Id) { forall p | ActivePermission(s, p) :: Holds(s.grants, r, p) }

  lemma AdminGranted(s: State, name: string)
    requires RolesOk(s)
    ensures EnsureRole(s, name).Some?
    ensures var (a, r) := EnsureRole(s, name).value;
            var granted := GrantAll(a, r);
            && RolesOk(granted) && Named(granted, name) == {r} && HoldsAll(granted, r)
            && Confined(s, granted, {name}) && granted.typeGrants == s.typeGrants
  {
    EnsureRoleWorks(s, name);
    var (a, r) := EnsureRole(s, name).value;
    GrantAllWorks(a, name, r);
    ConfinedTransitive(s, a, GrantAll(a, r), {name}, {name});
    assert {name} + {name} == {name};
  }

  lemma LinkedIsDone(granted: State, name: string, r: Id, email: string)
    requires Named(granted, name) == {r} && HoldsAll(granted, r)
    ensures var (known, user) := EnsureUser(granted, email);
            AdminDone(known.(links := known.links[(user, r) := true]), name, email)
  {
    var (known, user) := EnsureUser(granted, email);
    var s' := known.(links := known.links[(user, r) := true]);
    assert Named(s', name) == {r} && s'.accounts[email] == user;
    forall p | ActivePermission(s', p) ensures Holds(s'.grants, r, p) { assert ActivePermission(granted, p); }
    assert AdminAs(s', r, user);
  }

  lemma AdminStepWorks(s: State, name: string, email: string)
    requires RolesOk(s)
    ensures AdminStep(s, name, email).Some?
    ensures var s' := AdminStep(s, name, email).value;
            && RolesOk(s') && AdminDone(s', name, email) && AdminConfined(s, s', name, email)
            && (CodesOk(s) ==> CodesOk(s'))
  {
    AdminGranted(s, name);
    var (a, r) := EnsureRole(s, name).value;
    var granted := GrantAll(a, r);
    Linked(s, granted, name, r, email);
    LinkedIsDone(granted, name, r, email);
  }

  lemma AdminStepAgain(s: State, name: string, email: string)
    requires AdminDone(s, name, email)
    ensures AdminStep(s, name, email) == Some(s)
  {
    var user := s.accounts[email];
    var r :| Named(s, name) == {r} && AdminAs(s, r, user);
    assert r in Named(s, name);
    assert EnsureRole(s, name) == Some((s, r));
    forall k | k in Keys(r, set p | p in s.permissions && s.permissions[p].active)
      ensures k in s.grants && s.grants[k]
    {
      assert ActivePermission(s, k.1) && Holds(s.grants, r, k.1);
    }
    assert GrantAll(s, r).grants == s.grants;
    assert s.links[(user, r) := true] == s.links;
  }

  lemma AdminStays(s: State, s': State, names: set<string>, name: string, email: string)
    requires Confined(s, s', names) && name !in names && AdminDone(s, name, email)
    ensures AdminDone(s', name, email)
  {
    NamedStays(s, s', names, name);
    var r :| Named(s, name) == {r} && AdminAs(s, r, s.accounts[email]);
    assert r in Named(s, name);
    assert SameRows(s.grants, s'.grants, r);
    forall p | ActivePermission(s', p) ensures Holds(s'.grants, r, p) { assert ActivePermission(s, p); }
    assert AdminAs(s', r, s'.accounts[email]);
  }

  lemma CandidateStepWorks(s: State, name: string, codes: set<string>)
    requires RolesOk(s) && Matching(s, codes) != {}
    ensures CandidateStep(s, name, codes).Some?
    ensures var s' := CandidateStep(s, name, codes).value;
            && RolesOk(s') && ManagedExactly(s', name, codes, None) && Confined(s, s', {name})
            && s'.typeGrants == s.typeGrants
  {
    EnsureRoleWorks(s, name);
    var (c, r) := EnsureRole(s, name).value;
    assert Matching(c, codes) == Matching(s, codes);
    GrantPermissionsRows(c, r, codes);
    var s' := GrantPermissions(c, r, codes);
    GrantConfined(c, s', r, name);
    ConfinedTransitive(s, c, s', {name}, {name});
    assert {name} + {name} == {name};
    assert Matching(s', codes) == Matching(c, codes);
    assert ManagedAs(s', r, codes, None);
  }

  lemma CandidateStepAgain(s: State, name: string, codes: set<string>)
    requires ManagedExactly(s, name, codes, None) && Matching(s, codes) != {}
    ensures CandidateStep(s, name, codes) == Some(s)
  {
    var r :| Named(s, name) == {r} && ManagedAs(s, r, codes, None);
    assert r in Named(s, name);
    assert EnsureRole(s, name) == Some((s, r));
    GrantPermissionsRows(s, r, codes);
  }

  // ------------------------------------------------------------ the bootstrap as a whole

  /** Accounts stay, and at most one of that email is new. */
  ghost predicate AccountsKept(s: State, s': State, email: string) {
    && (forall e | e in s.accounts :: e in s'.accounts && s'.accounts[e] == s.accounts[e])
    && (forall e | e in s'.accounts && e !in s.accounts :: e == email)
  }

  /** Only links of the user with that email may have changed or appeared. */
  ghost predicate LinksKept(s: State, s': State, email: string)
    requires email in s'.accounts
  {
    && (forall l: (Id, Id) | l in s.links && l.0 != s'.accounts[email] :: l in s'.links && s'.links[l] == s.links[l])
    && (forall l: (Id, Id) | l in s'.links && l !in s.links :: l.0 == s'.accounts[email])
  }

  /** Roles the plan does not name keep both kinds of rows, admin and candidate keep their type
      rows, and only the admin user and their links may have changed. */
  ghost predicate OthersUntouched(s: State, s': State, plan: Plan) {
    && (forall r | r in s.roles :: r in s'.roles && s'.roles[r] == s.roles[r])
    && (forall r | r in s.roles && !(s.roles[r].active && s.roles[r].name
                                  in {plan.admin, plan.candidate} + Names(plan.internal)) ::
          SameRows(s.grants, s'.grants, r))
    && (forall r | r in s.roles && !(s.roles[r].active && s.roles[r].name in Names(plan.internal)) ::
          SameRows(s.typeGrants, s'.typeGrants, r))
    && AccountsKept(s, s', plan.email) && plan.email in s'.accounts && LinksKept(s, s', plan.email)
  }

  /** What the admin step may change. */
  ghost predicate AdminConfined(s: State, a: State, name: string, email: string) {
    && Confined(s, a.(links := s.links, accounts := s.accounts, nextUser := s.nextUser), {name})
    && a.typeGrants == s.typeGrants
    && AccountsKept(s, a, email) && email in a.accounts && LinksKept(s, a, email)
  }

  lemma AfterSync(s: State, plan: Plan)
    requires CodesOk(s) && RolesOk(s) && AllSynced(s, plan.catalog)
    ensures AdminStep(s, plan.admin, plan.email).Some?
    ensures var a := AdminStep(s, plan.admin, plan.email).value;
            && CodesOk(a) && RolesOk(a) && AllSynced(a, plan.catalog) && AdminDone(a, plan.admin, plan.email)
            && AdminConfined(s, a, plan.admin, plan.email)
  {
    AdminStepWorks(s, plan.admin, plan.email);
  }

  lemma AfterAdmin(a: State, plan: Plan)
    requires CodesOk(a) && RolesOk(a) && PlanOk(plan) && AllSynced(a, plan.catalog)
             && AdminDone(a, plan.admin, plan.email)
    ensures CandidateStep(a, plan.candidate, plan.candidateCodes).Some?
    ensures var c := CandidateStep(a, plan.candidate, plan.candidateCodes).value;
            && CodesOk(c) && RolesOk(c) && AllSynced(c, plan.catalog) && AdminDone(c, plan.admin, plan.email)
            && ManagedExactly(c, plan.candidate, plan.candidateCodes, None)
            && Confined(a, c, {plan.candidate}) && c.typeGrants == a.typeGrants
  {
    MatchedExactly(a, plan.catalog, plan.candidateCodes, 0);
    CandidateStepWorks(a, plan.candidate, plan.candidateCodes);
    var c := CandidateStep(a, plan.candidate, plan.candidateCodes).value;
    AdminStays(a, c, {plan.candidate}, plan.admin, plan.email);
  }

  lemma AfterCandidate(c: State, plan: Plan)
    requires CodesOk(c) && RolesOk(c) && PlanOk(plan) && AllSynced(c, plan.catalog)
             && AdminDone(c, plan.admin, plan.email)
    requires ManagedExactly(c, plan.candidate, plan.candidateCodes, None)
    ensures ManageAll(c, plan.internal).Some?
    ensures var e := ManageAll(c, plan.internal).value;
            CodesOk(e) && RolesOk(e) && Done(e, plan) && Confined(c, e, Names(plan.internal))
  {
    forall m | m in plan.internal ensures Matching(c, m.codes) != {} {
      MatchedExactly(c, plan.catalog, m.codes, 0);
    }
    ManageAllWorks(c, plan.internal);
    var e := ManageAll(c, plan.internal).value;
    AdminStays(c, e, Names(plan.internal), plan.admin, plan.email);
    ManagedStays(c, e, Names(plan.internal), plan.candidate, plan.candidateCodes, None);
  }

  /** What the bootstrap establishes. Compared with `true`, the conjunction stays one proof goal. */
  ghost predicate Settles(s: State, e: State, plan: Plan) {
    (CodesOk(e) && RolesOk(e) && Done(e, plan) && OthersUntouched(s, e, plan)) == true
  }

  lemma SettlesAfterSync(s: State, plan: Plan)
    requires CodesOk(s) && RolesOk(s) && PlanOk(plan) && AllSynced(s, plan.catalog)
    ensures Roles(s, plan).Some? && Settles(s, Roles(s, plan).value, plan)
  {
    AfterSync(s, plan);
    var a := AdminStep(s, plan.admin, plan.email).value;
    AfterAdmin(a, plan);
    var c := CandidateStep(a, plan.candidate, plan.candidateCodes).value;
    AfterCandidate(c, plan);
    var e := ManageAll(c, plan.internal).value;
    assert Settles(s, e, plan) by { UntouchedThrough(s, a, c, e, plan); }
    assert Roles(s, plan) == Some(e);
  }

  lemma UntouchedThrough(s: State, a: State, c: State, e: State, plan: Plan)
    requires AdminConfined(s, a, plan.admin, plan.email)
    requires Confined(a, c, {plan.candidate}) && c.typeGrants == a.typeGrants
    requires Confined(c, e, Names(plan.internal))
    ensures OthersUntouched(s, e, plan)
  {
    forall r | r in s.roles && !(s.roles[r].active && s.roles[r].name
                                  in {plan.admin, plan.candidate} + Names(plan.internal))
      ensures SameRows(s.grants, e.grants, r)
    {
      assert SameRows(s.grants, a.grants, r) && SameRows(a.grants, c.grants, r) && SameRows(c.grants, e.grants, r);
    }
  }

  lemma UntouchedBySync(s: State, synced: State, e: State, plan: Plan)
    requires SyncConfined(s, synced, plan.catalog) && OthersUntouched(synced, e, plan)
    ensures OthersUntouched(s, e, plan)
  {
  }

  /** From any state with unique active role names, and for a plan inside its catalog, the
      bootstrap succeeds, settles every role it manages and leaves the rest alone. */
  lemma BootstrapSettles(s: State, plan: Plan)
    requires CodesOk(s) && RolesOk(s) && PlanOk(plan)
    ensures Bootstrap(s, plan).Some?
    ensures var s' := Bootstrap(s, plan).value;
            && CodesOk(s') && RolesOk(s') && Done(s', plan) && OthersUntouched(s, s', plan)
  {
    SyncAll(s, plan.catalog);
    var synced := SyncPermissions(s, plan.catalog);
    SettlesAfterSync(synced, plan);
    UntouchedBySync(s, synced, Roles(synced, plan).value, plan);
  }

  /** What a bootstrap cannot do without: the portal, a catalog without repeats, and at most one active role
      of each name it looks up first. */
  lemma BootstrapNeeds(s: State, plan: Plan)
    requires Bootstrap(s, plan).Some?
    ensures plan.portalSeeded && (forall i, j | 0 <= i < j < |plan.catalog| :: plan.catalog[i] != plan.catalog[j])
    ensures forall q, r | q in Named(s, plan.admin) && r in Named(s, plan.admin) :: q == r
  {
    SyncLeavesRoles(s, plan.catalog);
    RoleLookUp(SyncPermissions(s, plan.catalog), plan.admin);
  }

  lemma {:induction false} SyncLeavesRoles(s: State, catalog: seq<string>)
    ensures SyncPermissions(s, catalog).roles == s.roles
    decreases |catalog|
  {
    if catalog != [] { SyncLeavesRoles(s, catalog[..|catalog| - 1]); }
  }

  /** Looking a role up fails exactly when two active roles have the name. */
  lemma RoleLookUp(s: State, name: string)
    ensures EnsureRole(s, name) == None <==> exists q, r :: q in Named(s, name) && r in Named(s, name) && q != r
    ensures forall r | Named(s, name) == {r} :: EnsureRole(s, name) == Some((s, r))
  {
    var found := Named(s, name);
    if q, r :| q in found && r in found && q != r {
      forall x | x in found ensures found != {x} { }
    } else if r :| r in found {
      assert found == {r};
    }
    forall r | found == {r} ensures EnsureRole(s, name) == Some((s, r)) {
      forall q | found == {q} ensures q == r { assert q in {r}; }
    }
  }

  /** A settled state is a fixed point. */
  lemma SettledIsFixed(s: State, plan: Plan)
    requires CodesOk(s) && PlanOk(plan) && Done(s, plan)
    ensures Bootstrap(s, plan) == Some(s)
  {
    SyncAgain(s, plan.catalog);
    AdminStepAgain(s, plan.admin, plan.email);
    MatchedExactly(s, plan.catalog, plan.candidateCodes, 0);
    CandidateStepAgain(s, plan.candidate, plan.candidateCodes);
    forall m | m in plan.internal ensures Matching(s, m.codes) != {} {
      MatchedExactly(s, plan.catalog, m.codes, 0);
    }
    ManageAllAgain(s, plan.internal);
  }

  lemma BootstrapIdempotent(s: State, plan: Plan)
    requires CodesOk(s) && RolesOk(s) && PlanOk(plan)
    ensures Bootstrap(s, plan).Some?
    ensures var s' := Bootstrap(s, plan).value; Bootstrap(s', plan) == Some(s')
  {
    BootstrapSettles(s, plan);
    SettledIsFixed(Bootstrap(s, plan).value, plan);
  }

  /** The permissions and types a managed role confers afterwards are its allowlists, whatever it
      conferred before. */
  lemma ManagedRolesHoldTheirLists(s: State, plan: Plan, r: Id)
    requires CodesOk(s) && RolesOk(s) && PlanOk(plan)
    ensures Bootstrap(s, plan).Some?
    ensures var s' := Bootstrap(s, plan).value;
            ActiveRole(s', r) ==>
              && (s'.roles[r].name == plan.candidate ==> RoleCodes(s', r) == plan.candidateCodes)
              && (forall m | m in plan.internal && m.name == s'.roles[r].name ::
                    RoleCodes(s', r) == m.codes && ActiveTypes(s', r) == m.types)
  {
    BootstrapSettles(s, plan);
    var s' := Bootstrap(s, plan).value;
    if ActiveRole(s', r) {
      assert r in Named(s', s'.roles[r].name);
      if s'.roles[r].name == plan.candidate {
        MatchedExactly(s', plan.catalog, plan.candidateCodes, r);
      }
      forall m | m in plan.internal && m.name == s'.roles[r].name
        ensures RoleCodes(s', r) == m.codes && ActiveTypes(s', r) == m.types
      {
        assert ManagedExactly(s', m.name, m.codes, Some(m.types));
        MatchedExactly(s', plan.catalog, m.codes, r);
        SettledTypes(s', r, m.types);
      }
    }
  }
}
