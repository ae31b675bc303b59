/** The bootstrap procedures as they change the tables, proved against `Rbac`. */
module BootstrapServices {
  import opened Wrappers
  import opened Rbac

  class BootstrapService {
    var roles: map<Id, Role>
    var nextRole: Id
    var accounts: map<string, Id>
    var nextUser: Id
    var permissions: map<Id, Permission>
    var codes: map<string, Id>
    var nextPermission: Id
    var grants: map<(Id, Id), bool>
    var typeGrants: map<(Id, string), bool>
    var links: map<(Id, Id), bool>

    function View(): State
      reads this
    {
      State(roles, nextRole, accounts, nextUser, permissions, codes, nextPermission, grants, typeGrants, links)
    }

    constructor (s: State)
      ensures View() == s
    {
      roles, nextRole, permissions, codes := s.roles, s.nextRole, s.permissions, s.codes;
      nextPermission, grants, typeGrants, links := s.nextPermission, s.grants, s.typeGrants, s.links;
      accounts, nextUser := s.accounts, s.nextUser;
    }

    /** One upserted row per catalog entry; the statement fails on a repeated code. */
    method SyncPermissions(catalog: seq<string>) returns (ok: bool)
      modifies this
      ensures ok <==> NoRepeats(catalog)
      ensures View() == if ok then Rbac.SyncPermissions(old(View()), catalog) else old(View())
    {
      if !NoRepeats(catalog) {
        return false;
      }
      for i := 0 to |catalog|
        invariant View() == Rbac.SyncPermissions(old(View()), catalog[..i])
      {
        assert catalog[..i + 1][..i] == catalog[..i];
        var code := catalog[i];
        if code in codes && codes[code] in permissions {
          permissions := permissions[codes[code] := Permission(code, true)];
        } else {
          permissions := permissions[nextPermission := Permission(code, true)];
          codes := codes[code := nextPermission];
          nextPermission := nextPermission + 1;
        }
      }
      assert catalog[..|catalog|] == catalog;
      return true;
    }

    /** An existing account is left as it is, whatever its password, portal or status. */
    method EnsureAdminUser(email: string) returns (user: Id)
      modifies this
      ensures (View(), user) == EnsureUser(old(View()), email)
    {
      if email in accounts {
        return accounts[email];
      }
      user := nextUser;
      accounts := accounts[email := user];
      nextUser := nextUser + 1;
    }

    /** `scalar_one_or_none`, then an insert when there was no row; None is the failed query. */
    method EnsureRole(name: string) returns (role: Option<Id>)
      modifies this
      ensures match Rbac.EnsureRole(old(View()), name)
              case None => role == None && View() == old(View())
              case Some((s, r)) => role == Some(r) && View() == s
    {
      var found := Named(View(), name);
      if found == {} {
        roles := roles[nextRole := Role(name, true)];
        nextRole := nextRole + 1;
        return Some(nextRole - 1);
      }
      var r :| r in found;
      if found == {r} {
        assert forall q | found == {q} :: q in found;
        return Some(r);
      }
      assert !exists q :: q in found && found == {q} by {
        forall q | q in found ensures found != {q} { assert found == {q} ==> r in {q}; }
      }
      return None;
    }

    /** The role then holds every active permission, and no other role gains or loses one. */
    method GrantAllPermissionsToRole(role: Id)
      modifies this
      ensures View() == GrantAll(old(View()), role)
      ensures forall p | ActivePermission(View(), p) :: p in ActiveGrants(View(), role)
      ensures forall other | other != role :: RoleCodes(View(), other) == RoleCodes(old(View()), other)
    {
      AllGranted(View(), role);
      grants := Upsert(grants, Keys(role, set p | p in permissions && permissions[p].active));
    }

    /** Upsert, then revoke the rest; an allowlist that matches nothing returns at once. */
    method GrantPermissionsToRole(role: Id, allowlist: set<string>)
      modifies this
      ensures View() == GrantPermissions(old(View()), role, allowlist)
      ensures Matching(old(View()), allowlist) != {} ==> ActiveGrants(View(), role) == Matching(old(View()), allowlist)
      ensures Matching(old(View()), allowlist) == {} ==> ActiveGrants(View(), role) == ActiveGrants(old(View()), role)
      ensures forall other | other != role :: RoleCodes(View(), other) == RoleCodes(old(View()), other)
    {
      GrantsAreExactIff(View(), role, allowlist);
      var ids := Matching(View(), allowlist);
      if ids == {} { return; }
      var upserted := Upsert(grants, Keys(role, ids));
      grants := Switched(upserted, Outside(upserted, role, ids));
    }

    /** Always exact, an empty allowlist included. */
    method GrantParameterTypesToRole(role: Id, allowlist: set<string>)
      modifies this
      ensures View() == GrantTypes(old(View()), role, allowlist)
      ensures ActiveTypes(View(), role) == allowlist
      ensures forall other | other != role :: ActiveTypes(View(), other) == ActiveTypes(old(View()), other)
    {
      TypesAreExact(View(), role, allowlist);
      var upserted := typeGrants;
      if allowlist != {} {
        upserted := Upsert(upserted, Keys(role, allowlist));
      }
      typeGrants := Switched(upserted, Outside(upserted, role, allowlist));
    }

    method AssignRoleToUser(user: Id, role: Id)
      modifies this
      ensures View() == old(View()).(links := old(links)[(user, role) := true])
    {
      links := links[(user, role) := true];
    }

    method Rollback(s: State)
      modifies this
      ensures View() == s
    {
      roles, nextRole, permissions, codes := s.roles, s.nextRole, s.permissions, s.codes;
      nextPermission, grants, typeGrants, links := s.nextPermission, s.grants, s.typeGrants, s.links;
      accounts, nextUser := s.accounts, s.nextUser;
    }

    /** A missing portal, a repeated code or a failed role query ends the transaction with nothing written. */
    method BootstrapAdmin(plan: Plan) returns (ok: bool)
      modifies this
      ensures ok <==> Bootstrap(old(View()), plan).Some?
      ensures View() == if ok then Bootstrap(old(View()), plan).value else old(View())
    {
      if !plan.portalSeeded {
        return false;
      }
      var before := View();
      ok := SyncPermissions(plan.catalog);
      if ok { ok := ManageAdmin(plan.admin, plan.email); }
      if ok { ok := ManageCandidate(plan.candidate, plan.candidateCodes); }
      if ok { ok := ManageInternal(plan.internal); }
      if !ok { Rollback(before); }
    }

    method ManageAdmin(name: string, email: string) returns (ok: bool)
      modifies this
      ensures ok <==> AdminStep(old(View()), name, email).Some?
      ensures ok ==> View() == AdminStep(old(View()), name, email).value
    {
      var admin := EnsureRole(name);
      if admin == None { return false; }
      GrantAllPermissionsToRole(admin.value);
      var user := EnsureAdminUser(email);
      AssignRoleToUser(user, admin.value);
      return true;
    }

    method ManageCandidate(name: string, codes: set<string>) returns (ok: bool)
      modifies this
      ensures ok <==> CandidateStep(old(View()), name, codes).Some?
      ensures ok ==> View() == CandidateStep(old(View()), name, codes).value
    {
      var candidate := EnsureRole(name);
      if candidate == None { return false; }
      GrantPermissionsToRole(candidate.value, codes);
      return true;
    }

    /** The loop over the internal staff roles. */
    method ManageInternal(internal: seq<Managed>) returns (ok: bool)
      modifies this
      ensures ok <==> ManageAll(old(View()), internal).Some?
      ensures ok ==> View() == ManageAll(old(View()), internal).value
    {
      for i := 0 to |internal|
        invariant ManageAll(old(View()), internal[..i]) == Some(View())
      {
        assert internal[..i + 1][..i] == internal[..i];
        var m := internal[i];
        var role := EnsureRole(m.name);
        if role == None {
          FailsOn(old(View()), internal, i + 1);
          return false;
        }
        GrantPermissionsToRole(role.value, m.codes);
        GrantParameterTypesToRole(role.value, m.types);
      }
      assert internal[..|internal|] == internal;
      return true;
    }
  }

  lemma {:induction false} FailsOn(s: State, ms: seq<Managed>, k: nat)
    requires k <= |ms| && ManageAll(s, ms[..k]) == None
    ensures ManageAll(s, ms) == None
    decreases |ms| - k
  {
    if k < |ms| {
      assert ms[..k + 1][..k] == ms[..k];
      FailsOn(s, ms, k + 1);
    } else {
      assert ms[..k] == ms;
    }
  }
}
