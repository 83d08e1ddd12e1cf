/** The PostgreSQL provisioner statement by statement: roles, databases, the session's role, and the administrator's
    membership in the deployment's role, which is elevated for a while and withdrawn by deferred cleanup. */
module Postgres {
  import opened Common
  import opened Faults
  import opened Names
  import Host

  /** `comment` is the deployment whose marker the comment is, if it is a marker; `elevated` tells whether the
      administrator is a member with SET and INHERIT. */
  datatype Role = Role(comment: Option<Id>, unsafe: bool, elevated: bool)

  datatype Base = Base(owner: string, comment: Option<Id>, granted: bool, content: Host.Content)

  /** `current` is the role set in the session, if any. */
  datatype Server = Server(roles: map<string, Role>, bases: map<string, Base>, current: Option<string>)

  // ---- What the procedures promise ----

  predicate RoleForeign(s: Server, id: Id, user: string) {
    user in s.roles && (s.roles[user].comment != Some(id) || s.roles[user].unsafe)
  }

  predicate BaseForeign(s: Server, id: Id, db: string, user: string) {
    db in s.bases && (s.bases[db].owner != user || s.bases[db].comment != Some(id))
  }

  /** What an ensure accepts. */
  predicate Acceptable(s: Server, id: Id, db: string, user: string) {
    && IsDatabaseIdentifier(db) && IsDatabaseIdentifier(user)
    && !RoleForeign(s, id, user) && !BaseForeign(s, id, db, user)
  }

  /** Made but not yet marked: what a failure between CREATE and COMMENT leaves. */
  predicate Stranded(s: Server, db: string, user: string) {
    (user in s.roles && s.roles[user].comment.None?) || (db in s.bases && s.bases[db].comment.None?)
  }

  predicate Ready(s: Server, id: Id, db: string, user: string) {
    && user in s.roles && s.roles[user].comment == Some(id) && !s.roles[user].unsafe && !s.roles[user].elevated
    && db in s.bases && s.bases[db].owner == user && s.bases[db].comment == Some(id) && s.bases[db].granted
    && s.current.None?
  }

  predicate Elevated(s: Server, user: string) {
    user in s.roles && s.roles[user].elevated
  }

  /** Nothing but the named role and database has changed. */
  predicate OthersSame(s: Server, t: Server, db: string, user: string) {
    s.roles - {user} == t.roles - {user} && s.bases - {db} == t.bases - {db}
  }

  /** The statements of EnsureRoleAndDatabase that raise privileges, and those that take them back. */
  const GRANT_SET := 6
  const SET_ROLE := 10
  const RESET_CLEANUP := 15
  const REVOKE_SET := 16

  /** The cleanup statements work, and no statement that raised a privilege reported an error although it had
      worked. */
  predicate CleanupWorks(fates: seq<Fate>) {
    At(fates, RESET_CLEANUP) == Works && At(fates, REVOKE_SET) == Works && At(fates, GRANT_SET) != Stops && At(fates, SET_ROLE) != Stops
  }

  ghost predicate EnsurePromise(s: Server, t: Server, id: Id, db: string, user: string, ok: bool, fates: seq<Fate>) {
    && OthersSame(s, t, db, user)
    && (!IsDatabaseIdentifier(db) || !IsDatabaseIdentifier(user) || RoleForeign(s, id, user) ==> t == s && !ok)
    && (BaseForeign(s, id, db, user) ==> t.bases == s.bases && !ok)
    && (user in t.roles && user !in s.roles ==> t.roles[user].comment.None? || t.roles[user].comment == Some(id))
    && (db in t.bases && db !in s.bases ==>
          t.bases[db].owner == user && (t.bases[db].comment.None? || t.bases[db].comment == Some(id)))
    && (if db in s.bases then db in t.bases && t.bases[db] == s.bases[db].(granted := t.bases[db].granted)
        else db in t.bases ==> t.bases[db].content == map[])
    && (user !in t.roles ==> t.bases == s.bases)
    && (user in s.roles ==> user in t.roles && t.roles[user].comment == s.roles[user].comment)
    && (user in t.roles && user !in s.roles && t.roles[user].comment.None? ==> t.bases == s.bases)
    && (ok ==> Ready(t, id, db, user))
    && (CleanupWorks(fates) ==> t.current.None? && (Elevated(t, user) ==> Elevated(s, user)))
    && (Acceptable(s, id, db, user) && ReachesGrant(fates) && At(fates, GRANT_SET) == Stops ==> Elevated(t, user) && !ok)
    && (Acceptable(s, id, db, user) && ReachesSetRole(fates) && At(fates, SET_ROLE) == Stops ==> t.current == Some(user) && !ok)
    && (Faultless(fates) ==> (ok <==> Acceptable(s, id, db, user)))
    && (Acceptable(s, id, db, user) ==> (Acceptable(t, id, db, user) <==> !Stranded(t, db, user)))
  }

  /** Every statement before the one that raises the membership works. */
  predicate ReachesGrant(fates: seq<Fate>) {
    forall i | 0 <= i < GRANT_SET :: At(fates, i) == Works
  }

  /** Every statement before the one that sets the session's role works. */
  predicate ReachesSetRole(fates: seq<Fate>) {
    forall i | 0 <= i < SET_ROLE :: At(fates, i) == Works
  }

  lemma SetRoleStatements(fates: seq<Fate>)
    ensures ReachesSetRole(fates) ==>
      ReachesGrant(fates) && At(fates, GRANT_SET) == Works && At(fates, 7) == Works && At(fates, 8) == Works && At(fates, 9) == Works
  {
  }

  lemma RoleStatements(fates: seq<Fate>)
    ensures Faultless(fates) || ReachesGrant(fates) ==>
      && At(fates, 0) == Works && At(fates, 1) == Works && At(fates, 2) == Works
      && At(fates, 3) == Works && At(fates, 4) == Works && At(fates, 5) == Works
  {
  }

  /** What a drop accepts: what exists carries the marker. */
  predicate Droppable(s: Server, id: Id, db: string, user: string) {
    && IsDatabaseIdentifier(db) && IsDatabaseIdentifier(user)
    && (user in s.roles ==> s.roles[user].comment == Some(id))
    && (db in s.bases ==> s.bases[db].comment == Some(id))
  }

  /** The role owns another database: the server then refuses DROP ROLE. */
  predicate Encumbered(s: Server, db: string, user: string) {
    user in s.roles && exists n :: n in s.bases && n != db && s.bases[n].owner == user
  }

  /** The statements of DropRoleAndDatabase that raise the membership and withdraw it. */
  const DROP_GRANT := 5
  const DROP_REVOKE := 8

  /** Every statement before the one that raises the membership works. */
  predicate ReachesDropGrant(fates: seq<Fate>) {
    forall i | 0 <= i < DROP_GRANT :: At(fates, i) == Works
  }

  lemma DropStatements(fates: seq<Fate>)
    ensures ReachesDropGrant(fates) ==>
      At(fates, 0) == Works && At(fates, 1) == Works && At(fates, 2) == Works && At(fates, 3) == Works && At(fates, 4) == Works
  {
  }

  ghost predicate DropPromise(s: Server, t: Server, id: Id, db: string, user: string, ok: bool, fates: seq<Fate>) {
    && OthersSame(s, t, db, user) && t.current == s.current
    && (!Droppable(s, id, db, user) ==> t == s && !ok)
    && (db in t.bases ==> db in s.bases && t.bases[db] == s.bases[db])
    && (user in t.roles ==> user in s.roles && t.roles[user] == s.roles[user].(elevated := t.roles[user].elevated))
    && (user in s.roles && user !in t.roles ==> db !in t.bases)
    && (ok ==> user !in t.roles && db !in t.bases)
    && (At(fates, DROP_GRANT) != Stops && At(fates, DROP_REVOKE) == Works && Elevated(t, user) ==> Elevated(s, user))
    && (Droppable(s, id, db, user) && user in s.roles && ReachesDropGrant(fates) && At(fates, DROP_GRANT) == Stops ==>
          Elevated(t, user) && !ok)
    && (Encumbered(s, db, user) ==> user in t.roles && !ok)
    && (Faultless(fates) ==> (ok <==> Droppable(s, id, db, user) && !Encumbered(s, db, user)))
    && (Faultless(fates) && Droppable(s, id, db, user) && Encumbered(s, db, user) ==> db !in t.bases && !Elevated(t, user))
  }

  predicate OwnsAny(bases: map<string, Base>, user: string) {
    exists n :: n in bases && bases[n].owner == user
  }

  lemma EncumberedAfter(s: Server, db: string, user: string, bases: map<string, Base>)
    requires bases == s.bases - {db}
    ensures Encumbered(s, db, user) <==> user in s.roles && OwnsAny(bases, user)
  {
    if Encumbered(s, db, user) {
      var n :| n in s.bases && n != db && s.bases[n].owner == user;
      assert n in bases;
    }
    if OwnsAny(bases, user) {
      var n :| n in bases && bases[n].owner == user;
      assert n in s.bases && n != db;
    }
  }

  class Provisioner {
    var roles: map<string, Role>
    var bases: map<string, Base>
    var current: Option<string>

    function State(): Server
      reads this
    {
      Server(roles, bases, current)
    }

    constructor (s: Server)
      ensures State() == s
    {
      roles, bases, current := s.roles, s.bases, s.current;
    }

    /** GRANT user TO administrator WITH SET ..., INHERIT ...: fails when the role is missing. */
    method SetRoleOption(user: string, enabled: bool, fate: Fate) returns (ok: bool)
      modifies this`roles
      ensures roles == if fate != Breaks && user in old(roles) then old(roles)[user := old(roles)[user].(elevated := enabled)] else old(roles)
      ensures ok <==> fate == Works && user in old(roles)
    {
      if fate != Breaks && user in roles {
        roles := roles[user := roles[user].(elevated := enabled)];
      }
      ok := fate == Works && user in roles;
    }

    /** The role: created, or adopted when it carries the marker; then marked. */
    method EnsureRole(id: Id, user: string, fates: seq<Fate>) returns (ok: bool)
      modifies this`roles
      ensures roles - {user} == old(roles) - {user}
      ensures RoleForeign(old(State()), id, user) ==> !ok && roles == old(roles)
      ensures user in old(roles) ==> user in roles && roles[user] == old(roles)[user]
      ensures user in roles && user !in old(roles) ==>
        !roles[user].unsafe && !roles[user].elevated && (roles[user].comment.None? || roles[user].comment == Some(id))
      ensures ok ==> user in roles && roles[user].comment == Some(id) && !roles[user].unsafe
      ensures Faultless(fates) || ReachesGrant(fates) ==> (ok <==> !RoleForeign(old(State()), id, user))
    {
      RoleStatements(fates);
      hide Faultless, At, ReachesGrant;
      if At(fates, 0) != Works {
        return false;
      }
      if user !in roles {
        if At(fates, 1) != Breaks {
          roles := roles[user := Role(None, false, false)];
        }
        if At(fates, 1) != Works {
          return false;
        }
      } else {
        if At(fates, 2) != Works || roles[user].comment != Some(id) || roles[user].unsafe {
          return false;
        }
        if At(fates, 3) != Works {
          return false;
        }
      }
      if At(fates, 4) != Breaks {
        roles := roles[user := roles[user].(comment := Some(id))];
      }
      ok := At(fates, 4) == Works;
    }

    /** The database: created or adopted, then, as its owner, marked and granted. Between SET ROLE and RESET ROLE
        `roleActive` is true. */
    method EnsureBase(id: Id, db: string, user: string, fates: seq<Fate>) returns (ok: bool, roleActive: bool)
      requires user in roles && roles[user].comment == Some(id) && roles[user].elevated && current.None?
      modifies this`bases, this`current
      ensures bases - {db} == old(bases) - {db}
      ensures BaseForeign(old(State()), id, db, user) ==> !ok && bases == old(bases)
      ensures db in old(bases) ==> db in bases && bases[db] == old(bases)[db].(granted := bases[db].granted)
      ensures db in bases && db !in old(bases) ==>
        bases[db].owner == user && bases[db].content == map[] && (bases[db].comment.None? || bases[db].comment == Some(id))
      ensures ok ==> db in bases && bases[db].owner == user && bases[db].comment == Some(id) && bases[db].granted
      ensures ok ==> current.None? && !roleActive
      ensures current.Some? ==> roleActive || At(fates, SET_ROLE) == Stops
      ensures !BaseForeign(old(State()), id, db, user) && ReachesSetRole(fates) && At(fates, SET_ROLE) == Stops ==>
        current == Some(user) && !roleActive && !ok
      ensures Faultless(fates) ==> (ok <==> !BaseForeign(old(State()), id, db, user)) && (ok || !roleActive) && current.None?
    {
      SetRoleStatements(fates);
      hide Faultless, At, ReachesSetRole;
      WorksIn(fates, 7);
      WorksIn(fates, 8);
      WorksIn(fates, 9);
      WorksIn(fates, 10);
      roleActive := false;
      if At(fates, 7) != Works {
        return false, roleActive;
      }
      if db !in bases {
        if At(fates, 8) != Breaks {
          bases := bases[db := Base(user, None, false, map[])];
        }
        if At(fates, 8) != Works {
          return false, roleActive;
        }
      } else if At(fates, 9) != Works || bases[db].owner != user || bases[db].comment != Some(id) {
        return false, roleActive;
      }
      if At(fates, SET_ROLE) != Breaks {
        current := Some(user);
      }
      if At(fates, SET_ROLE) != Works {
        return false, roleActive;
      }
      roleActive := true;
      ok := MarkBase(id, db, user, fates);
      if ok {
        roleActive := false;
      }
    }

    /** As the database's owner. */
    method MarkBase(id: Id, db: string, user: string, fates: seq<Fate>) returns (ok: bool)
      requires db in bases && bases[db].owner == user && current == Some(user)
      requires bases[db].comment.None? || bases[db].comment == Some(id)
      modifies this`bases, this`current
      ensures bases - {db} == old(bases) - {db} && db in bases
      ensures bases[db] == old(bases)[db].(granted := bases[db].granted, comment := bases[db].comment)
      ensures bases[db].comment == old(bases)[db].comment || bases[db].comment == Some(id)
      ensures ok ==> bases[db].comment == Some(id) && bases[db].granted && current.None?
      ensures Faultless(fates) ==> ok
    {
      hide Faultless, At;
      WorksIn(fates, 11);
      WorksIn(fates, 12);
      WorksIn(fates, 13);
      WorksIn(fates, 14);
      if At(fates, 11) != Breaks {
        bases := bases[db := bases[db].(comment := Some(id))];
      }
      if At(fates, 11) != Works {
        return false;
      }
      if At(fates, 12) != Works {
        return false;
      }
      if At(fates, 13) != Breaks {
        bases := bases[db := bases[db].(granted := true)];
      }
      if At(fates, 13) != Works {
        return false;
      }
      if At(fates, 14) != Breaks {
        current := None;
      }
      ok := At(fates, 14) == Works;
    }

    /** The database, and the deferred cleanup after it. */
    method EnsureAsMember(id: Id, db: string, user: string, fates: seq<Fate>) returns (ok: bool)
      requires user in roles && roles[user].comment == Some(id) && !roles[user].unsafe && roles[user].elevated && current.None?
      modifies this
      ensures user in roles && roles == old(roles)[user := roles[user]]
      ensures roles[user] == old(roles)[user].(elevated := roles[user].elevated)
      ensures bases - {db} == old(bases) - {db}
      ensures BaseForeign(old(State()), id, db, user) ==> !ok && bases == old(bases)
      ensures db in old(bases) ==> db in bases && bases[db] == old(bases)[db].(granted := bases[db].granted)
      ensures db in bases && db !in old(bases) ==>
        bases[db].owner == user && bases[db].content == map[] && (bases[db].comment.None? || bases[db].comment == Some(id))
      ensures ok ==> Ready(State(), id, db, user)
      ensures CleanupWorks(fates) ==> current.None? && !roles[user].elevated
      ensures !BaseForeign(old(State()), id, db, user) && ReachesSetRole(fates) && At(fates, SET_ROLE) == Stops ==>
        current == Some(user) && !ok
      ensures Faultless(fates) ==> (ok <==> !BaseForeign(old(State()), id, db, user))
    {
      hide Faultless, At, ReachesSetRole;
      WorksIn(fates, RESET_CLEANUP);
      WorksIn(fates, REVOKE_SET);
      var roleActive: bool;
      ok, roleActive := EnsureBase(id, db, user, fates);
      if roleActive {
        if At(fates, RESET_CLEANUP) != Breaks {
          current := None;
        }
        if At(fates, RESET_CLEANUP) != Works {
          return false;
        }
      }
      var withdrawn := SetRoleOption(user, false, At(fates, REVOKE_SET));
      ok := ok && withdrawn;
    }

    method EnsureRoleAndDatabase(id: Id, db: string, user: string, fates: seq<Fate>) returns (ok: bool)
      requires current.None?
      modifies this
      ensures EnsurePromise(old(State()), State(), id, db, user, ok, fates)
    {
      RoleStatements(fates);
      SetRoleStatements(fates);
      WorksIn(fates, GRANT_SET);
      hide Faultless, At, IsDatabaseIdentifier, ReachesGrant, ReachesSetRole;
      if !IsDatabaseIdentifier(db) || !IsDatabaseIdentifier(user) {
        return false;
      }
      ok := EnsureRole(id, user, fates);
      if !ok || At(fates, 5) != Works {
        return false;
      }
      ok := SetRoleOption(user, true, At(fates, GRANT_SET));
      if !ok {
        return;
      }
      ok := EnsureAsMember(id, db, user, fates);
    }

    /** DROP ROLE IF EXISTS, which the server refuses while the role owns a database. */
    method DropRole(user: string, fate: Fate) returns (ok: bool)
      modifies this`roles
      ensures roles == if fate != Breaks && !OwnsAny(bases, user) then old(roles) - {user} else old(roles)
      ensures ok <==> fate == Works && !(user in old(roles) && OwnsAny(bases, user))
    {
      if user !in roles {
        assert roles - {user} == roles;
        return fate == Works;
      }
      if OwnsAny(bases, user) {
        return false;
      }
      if fate != Breaks {
        roles := roles - {user};
      }
      ok := fate == Works;
    }

    /** The two drops, with the membership raised when the role exists, and the deferred cleanup. */
    method DropOwned(db: string, user: string, fates: seq<Fate>) returns (ok: bool)
      modifies this`roles, this`bases
      ensures roles - {user} == old(roles) - {user} && bases - {db} == old(bases) - {db}
      ensures db in bases ==> db in old(bases) && bases[db] == old(bases)[db]
      ensures user in roles ==> user in old(roles) && roles[user] == old(roles)[user].(elevated := roles[user].elevated)
      ensures user in old(roles) && user !in roles ==> db !in bases
      ensures ok ==> user !in roles && db !in bases
      ensures At(fates, DROP_GRANT) != Stops && At(fates, DROP_REVOKE) == Works && Elevated(State(), user) ==> Elevated(old(State()), user)
      ensures user in old(roles) && ReachesDropGrant(fates) && At(fates, DROP_GRANT) == Stops ==> Elevated(State(), user) && !ok
      ensures Encumbered(old(State()), db, user) ==> user in roles && !ok
      ensures Faultless(fates) ==> (ok <==> !Encumbered(old(State()), db, user))
      ensures Faultless(fates) && !ok ==> db !in bases && !Elevated(State(), user)
    {
      WorksIn(fates, DROP_REVOKE);
      DropStatements(fates);
      WorksIn(fates, 4);
      WorksIn(fates, DROP_GRANT);
      WorksIn(fates, 6);
      WorksIn(fates, 7);
      hide Faultless, At, ReachesDropGrant;
      var membershipElevated := user in roles;
      if membershipElevated {
        if At(fates, 4) != Works {
          return false;
        }
        ok := SetRoleOption(user, true, At(fates, DROP_GRANT));
        if !ok {
          return;
        }
      }
      if At(fates, 6) != Breaks {
        bases := bases - {db};
      }
      ok := At(fates, 6) == Works;
      if ok {
        EncumberedAfter(old(State()), db, user, bases);
        ok := DropRole(user, At(fates, 7));
        membershipElevated := membershipElevated && !ok;
      }
      if membershipElevated {
        var _ := SetRoleOption(user, false, At(fates, DROP_REVOKE));
      }
    }

    method DropRoleAndDatabase(id: Id, db: string, user: string, fates: seq<Fate>) returns (ok: bool)
      modifies this`roles, this`bases
      ensures DropPromise(old(State()), State(), id, db, user, ok, fates)
    {
      WorksIn(fates, 0);
      WorksIn(fates, 1);
      WorksIn(fates, 2);
      WorksIn(fates, 3);
      DropStatements(fates);
      hide Faultless, At, IsDatabaseIdentifier, ReachesDropGrant;
      if !IsDatabaseIdentifier(db) || !IsDatabaseIdentifier(user) || At(fates, 0) != Works {
        return false;
      }
      if user in roles && (At(fates, 1) != Works || roles[user].comment != Some(id)) {
        return false;
      }
      if At(fates, 2) != Works {
        return false;
      }
      if db in bases && (At(fates, 3) != Works || bases[db].comment != Some(id)) {
        return false;
      }
      ok := DropOwned(db, user, fates);
    }
  }

  // ---- What follows for runs and reruns ----

  /** Neither procedure changes a role or database that is not marked for the deployment. */
  lemma UnmarkedStaySame(s: Server, t: Server, id: Id, db: string, user: string, ok: bool, fates: seq<Fate>, name: string)
    requires EnsurePromise(s, t, id, db, user, ok, fates) || DropPromise(s, t, id, db, user, ok, fates)
    ensures name in s.roles && s.roles[name].comment != Some(id) ==> name in t.roles && t.roles[name] == s.roles[name]
    ensures name in s.bases && s.bases[name].comment != Some(id) ==> name in t.bases && t.bases[name] == s.bases[name]
  {
    hide At, Faultless, IsDatabaseIdentifier;
    assert name in s.roles && name != user ==> name in t.roles - {user} && (t.roles - {user})[name] == (s.roles - {user})[name];
    assert name in s.bases && name != db ==> name in t.bases - {db} && (t.bases - {db})[name] == (s.bases - {db})[name];
  }

  /** A role or database that was made but not marked stays that way: no later ensure or drop gets through. */
  lemma StrandedStays(s: Server, t: Server, id: Id, db: string, user: string, ok: bool, fates: seq<Fate>)
    requires EnsurePromise(s, t, id, db, user, ok, fates) || DropPromise(s, t, id, db, user, ok, fates)
    requires Stranded(s, db, user)
    ensures !ok && Stranded(t, db, user)
  {
    hide At, Faultless, IsDatabaseIdentifier, OthersSame, CleanupWorks;
  }

  /** One run of a procedure. */
  datatype Attempt = Attempt(before: Server, after: Server, ok: bool, fates: seq<Fate>)

  ghost predicate EnsureRuns(runs: seq<Attempt>, id: Id, db: string, user: string) {
    && (forall i | 0 <= i < |runs| :: EnsurePromise(runs[i].before, runs[i].after, id, db, user, runs[i].ok, runs[i].fates))
    && (forall i | 0 < i < |runs| :: runs[i].before == runs[i - 1].after)
  }

  ghost predicate DropRuns(runs: seq<Attempt>, id: Id, db: string, user: string) {
    && (forall i | 0 <= i < |runs| :: DropPromise(runs[i].before, runs[i].after, id, db, user, runs[i].ok, runs[i].fates))
    && (forall i | 0 < i < |runs| :: runs[i].before == runs[i - 1].after)
  }

  /** After any number of failed ensures, one whose statements all work succeeds exactly when none of them stopped
      between making and marking. */
  lemma {:induction false} EnsureRetries(runs: seq<Attempt>, id: Id, db: string, user: string)
    requires runs != [] && EnsureRuns(runs, id, db, user) && Acceptable(runs[0].before, id, db, user)
    requires Faultless(runs[|runs| - 1].fates)
    ensures runs[|runs| - 1].ok <==> !Stranded(runs[|runs| - 1].before, db, user)
  {
    AcceptableOrStranded(runs, id, db, user, |runs| - 1);
  }

  lemma {:induction false} AcceptableOrStranded(runs: seq<Attempt>, id: Id, db: string, user: string, n: nat)
    requires n < |runs| && EnsureRuns(runs, id, db, user) && Acceptable(runs[0].before, id, db, user)
    ensures Acceptable(runs[n].before, id, db, user) <==> !Stranded(runs[n].before, db, user)
  {
    hide At, Faultless, IsDatabaseIdentifier, OthersSame, CleanupWorks;
    if n > 0 {
      AcceptableOrStranded(runs, id, db, user, n - 1);
      var r := runs[n - 1];
      assert runs[n].before == r.after;
      if Stranded(r.before, db, user) {
        StrandedStays(r.before, r.after, id, db, user, r.ok, r.fates);
      }
    }
  }

  /** After any number of failed drops, one whose statements all work leaves no database, and it succeeds and leaves no
      role either exactly when the role owned no other database to begin with. */
  lemma {:induction false} DropRetries(runs: seq<Attempt>, id: Id, db: string, user: string)
    requires runs != [] && DropRuns(runs, id, db, user) && Droppable(runs[0].before, id, db, user)
    ensures var last := runs[|runs| - 1];
      && Droppable(last.before, id, db, user)
      && (Encumbered(last.before, db, user) <==> Encumbered(runs[0].before, db, user))
      && (Faultless(last.fates) ==>
            && db !in last.after.bases
            && (last.ok <==> !Encumbered(runs[0].before, db, user)) && (last.ok <==> user !in last.after.roles))
  {
    hide At, Faultless, IsDatabaseIdentifier, Encumbered;
    var n := |runs| - 1;
    if n > 0 {
      DropRetries(runs[..n], id, db, user);
      assert runs[..n][n - 1] == runs[n - 1] && runs[n].before == runs[n - 1].after && runs[..n][0] == runs[0];
      StaysEncumbered(runs[n - 1].before, runs[n].before, db, user);
    }
  }

  /** Neither the named database nor the membership matters to it. */
  lemma StaysEncumbered(s: Server, t: Server, db: string, user: string)
    requires OthersSame(s, t, db, user) && (user in t.roles ==> user in s.roles) && (Encumbered(s, db, user) ==> user in t.roles)
    ensures Encumbered(t, db, user) <==> Encumbered(s, db, user)
  {
    EncumberedAfter(s, db, user, s.bases - {db});
    EncumberedAfter(t, db, user, t.bases - {db});
  }

  // ---- Refinement of the one-call provisioner ----

  function ClusterOf(s: Server): Host.Cluster {
    Host.Cluster(
      map n | n in s.bases :: Host.Database(s.bases[n].owner, s.bases[n].comment, s.bases[n].content),
      map u | u in s.roles :: s.roles[u].comment)
  }

  function DatabaseOf(b: Base): Host.Database {
    Host.Database(b.owner, b.comment, b.content)
  }

  lemma DatabasesAfter(s: Server, t: Server, db: string)
    requires s.bases - {db} == t.bases - {db}
    ensures var c, d := ClusterOf(s).databases, ClusterOf(t).databases;
      if db in t.bases then d == c[db := DatabaseOf(t.bases[db])] else d == c - {db}
  {
    forall n | n != db
      ensures (n in s.bases <==> n in t.bases) && (n in s.bases ==> t.bases[n] == s.bases[n])
    {
      assert n in s.bases - {db} <==> n in t.bases - {db};
      assert n in s.bases ==> (t.bases - {db})[n] == (s.bases - {db})[n];
    }
  }

  lemma RolesAfter(s: Server, t: Server, user: string)
    requires s.roles - {user} == t.roles - {user}
    ensures var c, d := ClusterOf(s).roles, ClusterOf(t).roles;
      if user in t.roles then d == c[user := t.roles[user].comment] else d == c - {user}
  {
    forall u | u != user
      ensures (u in s.roles <==> u in t.roles) && (u in s.roles ==> t.roles[u] == s.roles[u])
    {
      assert u in s.roles - {user} <==> u in t.roles - {user};
      assert u in s.roles ==> (t.roles - {user})[u] == (s.roles - {user})[u];
    }
  }

  lemma ClusterTells(s: Server, db: string, user: string)
    ensures var c := ClusterOf(s);
      && (db in c.databases <==> db in s.bases) && (db in s.bases ==> c.databases[db] == DatabaseOf(s.bases[db]))
      && (user in c.roles <==> user in s.roles) && (user in s.roles ==> c.roles[user] == s.roles[user].comment)
  {
  }

  lemma EncumberedTells(s: Server, db: string, user: string)
    ensures Host.Encumbered(ClusterOf(s), db, user) <==> Encumbered(s, db, user)
  {
    var c := ClusterOf(s);
    forall n | n in s.bases ensures n in c.databases && c.databases[n].owner == s.bases[n].owner {}
    if Encumbered(s, db, user) {
      var n :| n in s.bases && n != db && s.bases[n].owner == user;
      assert n in c.databases;
    }
  }

  /** Every run of the drop, whatever fails, has an outcome of the one call the agent's procedures make. */
  lemma DropRefinesHost(s: Server, t: Server, id: Id, db: string, user: string, ok: bool, fates: seq<Fate>)
    requires DropPromise(s, t, id, db, user, ok, fates)
    ensures exists o :: Host.DropDatabase(ClusterOf(s), id, db, user, o) == Host.ClusterReply(ClusterOf(t), ok)
  {
    hide At, Faultless, IsDatabaseIdentifier;
    DatabasesAfter(s, t, db);
    RolesAfter(s, t, user);
    ClusterTells(s, db, user);
    EncumberedTells(s, db, user);
    hide ClusterOf, OthersSame, Encumbered, Host.Encumbered;
    var c, d := ClusterOf(s), ClusterOf(t);
    if !Droppable(s, id, db, user) || db in t.bases {
      assert d == c;
      assert Host.DropDatabase(c, id, db, user, Host.Fail) == Host.ClusterReply(d, ok);
    } else if user in t.roles {
      assert d == c.(databases := c.databases - {db});
      assert Host.DropDatabase(c, id, db, user, Host.Partial) == Host.ClusterReply(d, ok);
    } else {
      assert d == Host.Cluster(c.databases - {db}, c.roles - {user});
      assert Host.DropDatabase(c, id, db, user, if ok then Host.Ok else Host.Lost) == Host.ClusterReply(d, ok);
    }
  }

  /** Every run of the ensure, whatever it found and whatever failed, has an outcome of the one call: a foreign database
      is refused by both with the role made, anything else foreign with nothing changed, and a role or database that
      was made and not marked is left so by both. */
  lemma EnsureRefinesHost(s: Server, t: Server, id: Id, db: string, user: string, ok: bool, fates: seq<Fate>)
    requires EnsurePromise(s, t, id, db, user, ok, fates)
    ensures exists o :: Host.EnsureDatabase(ClusterOf(s), id, db, user, o) == Host.ClusterReply(ClusterOf(t), ok)
  {
    hide At, Faultless, IsDatabaseIdentifier, CleanupWorks, ReachesGrant, ReachesSetRole;
    DatabasesAfter(s, t, db);
    RolesAfter(s, t, user);
    ClusterTells(s, db, user);
    hide ClusterOf, OthersSame;
    var c, d := ClusterOf(s), ClusterOf(t);
    if (t == s && !ok) || user !in t.roles {
      assert d == c;
      assert Host.EnsureDatabase(c, id, db, user, Host.Fail) == Host.ClusterReply(d, ok);
    } else if user !in s.roles && t.roles[user].comment.None? {
      assert d.databases == c.databases && d == c.(roles := c.roles[user := None]);
      assert Host.EnsureDatabase(c, id, db, user, Host.Unmarked) == Host.ClusterReply(d, ok);
    } else if db !in t.bases || (db in s.bases && !ok) {
      assert d == c.(roles := c.roles[user := Some(id)]);
      assert Host.EnsureDatabase(c, id, db, user, Host.Partial) == Host.ClusterReply(d, ok);
    } else if db in s.bases {
      assert d == c.(roles := c.roles[user := Some(id)]);
      assert Host.EnsureDatabase(c, id, db, user, Host.Ok) == Host.ClusterReply(d, ok);
    } else {
      var o := if t.bases[db].comment.None? then Host.Torn else if ok then Host.Ok else Host.Lost;
      assert d == Host.Cluster(c.databases[db := Host.Database(user, t.bases[db].comment, map[])], c.roles[user := Some(id)]);
      assert Host.EnsureDatabase(c, id, db, user, o) == Host.ClusterReply(d, ok);
    }
  }
}
