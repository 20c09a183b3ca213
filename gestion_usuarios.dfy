/**
 * The user administration page: every profile with its role and barn, a role
 * editor per user that writes the role with a check-then-update-or-insert, and
 * a barn selector that writes the barn of a profile.
 */
module GestionUsuarios {
  import opened Base
  import opened Database
  import opened Persistence

  /** A row of the page's table. */
  datatype UserWithRole = UserWithRole(
    id: Id,
    email: Option<string>,
    nombre: Option<string>,
    naveAsignada: Option<string>,
    role: Option<AppRole>)

  /** `roles.find(r => r.user_id === userId)?.role || null`: the role of the first row of that user. */
  function FirstRole(roles: seq<UserRole>, userId: Id): (r: Option<AppRole>)
    ensures r.None? <==> forall i :: 0 <= i < |roles| ==> roles[i].userId != userId
    ensures r.Some? ==> exists i :: 0 <= i < |roles| && roles[i].userId == userId && roles[i].role == r.value
                                    && forall j :: 0 <= j < i ==> roles[j].userId != userId
  {
    if roles == [] then None
    else if roles[0].userId == userId then Some(roles[0].role)
    else
      var r := FirstRole(roles[1..], userId);
      if r.Some? then
        ghost var i :| 0 <= i < |roles[1..]| && roles[1..][i].userId == userId && roles[1..][i].role == r.value
                        && forall j :: 0 <= j < i ==> roles[1..][j].userId != userId;
        assert roles[i + 1].userId == userId && roles[i + 1].role == r.value;
        r
      else r
  }

  /** The join: one row per profile, in the profiles' order, each with its first role. */
  function Join(profiles: seq<Profile>, roles: seq<UserRole>): (r: seq<UserWithRole>)
    ensures |r| == |profiles|
    ensures forall i :: 0 <= i < |r| ==>
      && r[i].id == profiles[i].id && r[i].email == profiles[i].email && r[i].nombre == profiles[i].nombre
      && r[i].naveAsignada == profiles[i].naveAsignada && r[i].role == FirstRole(roles, profiles[i].id)
  {
    seq(|profiles|, i requires 0 <= i < |profiles| =>
      UserWithRole(profiles[i].id, profiles[i].email, profiles[i].nombre, profiles[i].naveAsignada,
                   FirstRole(roles, profiles[i].id)))
  }

  /** The `queryFn`: either read failing fails the query and the table shows no rows. */
  function LoadUsers(db: Tables, profilesFail: bool, rolesFail: bool): (r: Option<seq<UserWithRole>>)
    ensures r.None? <==> profilesFail || rolesFail
    ensures r.Some? ==> |r.value| == |db.profiles| && forall i :: 0 <= i < |r.value| ==> r.value[i].id == db.profiles[i].id
  {
    if profilesFail || rolesFail then None else Some(Join(db.profiles, db.userRoles))
  }

  /** The number of role rows of a user. */
  function RoleRowCount(roles: seq<UserRole>, userId: Id): (n: nat)
    ensures n <= |roles|
    ensures n == 0 <==> forall i :: 0 <= i < |roles| ==> roles[i].userId != userId
  {
    if roles == [] then 0 else (if roles[0].userId == userId then 1 else 0) + RoleRowCount(roles[1..], userId)
  }

  /**
   * The lookup `select('id').eq('user_id', userId).single()`: it yields a row
   * only when the user has exactly one; otherwise, and when the read fails, its
   * error is ignored and nothing is yielded.
   */
  predicate Existing(db: Tables, userId: Id, lookupFails: bool) {
    !lookupFails && RoleRowCount(db.userRoles, userId) == 1
  }

  /** `updateRoleMutation`: update the user's role rows when the lookup found one, otherwise insert a row. */
  function UpsertRole(db: Tables, userId: Id, newRole: AppRole, lookupFails: bool, writeFails: bool): (r: Submission)
    ensures r.outcome == Done <==> !writeFails
    ensures r.outcome == UpdateFailed <==> writeFails && Existing(db, userId, lookupFails)
    ensures r.outcome == InsertFailed <==> writeFails && !Existing(db, userId, lookupFails)
    ensures r.outcome != Done ==> r.db == db
    ensures r.db.cerdas == db.cerdas && r.db.eventos == db.eventos && r.db.incidencias == db.incidencias
    ensures r.db.verracos == db.verracos && r.db.profiles == db.profiles
    ensures r.outcome == Done && Existing(db, userId, lookupFails) ==>
      |r.db.userRoles| == |db.userRoles| && forall i :: 0 <= i < |db.userRoles| ==>
        r.db.userRoles[i] == if db.userRoles[i].userId == userId then db.userRoles[i].(role := newRole) else db.userRoles[i]
    ensures r.outcome == Done && !Existing(db, userId, lookupFails) ==>
      r.db.userRoles == db.userRoles + [UserRole(db.nextId, userId, newRole)]
    ensures ValidDb(db) ==> ValidDb(r.db)
  {
    if Existing(db, userId, lookupFails) then
      if writeFails then Submission(UpdateFailed, db) else Submission(Done, WithRoleUpdate(db, userId, newRole))
    else
      if writeFails then Submission(InsertFailed, db) else Submission(Done, WithRoleInsert(db, userId, newRole))
  }

  lemma {:induction false} FirstRoleAfterUpdate(roles: seq<UserRole>, userId: Id, newRole: AppRole, u: Id)
    ensures FirstRole(RolesWithUpdate(roles, userId, newRole), u) ==
      if u == userId && FirstRole(roles, u).Some? then Some(newRole) else FirstRole(roles, u)
  {
    if roles != [] {
      var w := RolesWithUpdate(roles, userId, newRole);
      assert w[1..] == RolesWithUpdate(roles[1..], userId, newRole);
      FirstRoleAfterUpdate(roles[1..], userId, newRole, u);
    }
  }

  lemma {:induction false} FirstRoleAfterAppend(roles: seq<UserRole>, row: UserRole, u: Id)
    ensures FirstRole(roles + [row], u) ==
      if FirstRole(roles, u).None? && row.userId == u then Some(row.role) else FirstRole(roles, u)
  {
    if roles == [] {
      assert roles + [row] == [row];
    } else {
      assert (roles + [row])[1..] == roles[1..] + [row];
      FirstRoleAfterAppend(roles[1..], row, u);
    }
  }

  /**
   * After a written upsert, every other user shows the role they showed before;
   * the user shows the new role whenever the write was the update, or the user had
   * no role row before.
   */
  lemma UpsertShowsNewRole(db: Tables, userId: Id, newRole: AppRole, lookupFails: bool)
    ensures var r := UpsertRole(db, userId, newRole, lookupFails, false);
      && (forall u :: u != userId ==> FirstRole(r.db.userRoles, u) == FirstRole(db.userRoles, u))
      && (Existing(db, userId, lookupFails) || RoleRowCount(db.userRoles, userId) == 0 ==>
            FirstRole(r.db.userRoles, userId) == Some(newRole))
  {
    var r := UpsertRole(db, userId, newRole, lookupFails, false);
    if Existing(db, userId, lookupFails) {
      forall u ensures FirstRole(r.db.userRoles, u) == if u == userId && FirstRole(db.userRoles, u).Some? then Some(newRole) else FirstRole(db.userRoles, u) {
        FirstRoleAfterUpdate(db.userRoles, userId, newRole, u);
      }
      assert FirstRole(db.userRoles, userId).Some?;
    } else {
      forall u ensures FirstRole(r.db.userRoles, u) == if FirstRole(db.userRoles, u).None? && userId == u then Some(newRole) else FirstRole(db.userRoles, u) {
        FirstRoleAfterAppend(db.userRoles, UserRole(db.nextId, userId, newRole), u);
      }
    }
  }

  /**
   * A user who already has a role row but whose lookup yields nothing (two rows,
   * or a failed read) gets a further row appended, behind the old one, so the page
   * goes on showing the old role.
   */
  lemma UpsertBehindExistingRow(db: Tables, userId: Id, newRole: AppRole, lookupFails: bool)
    requires RoleRowCount(db.userRoles, userId) > 0 && !Existing(db, userId, lookupFails)
    ensures var r := UpsertRole(db, userId, newRole, lookupFails, false);
      r.outcome == Done && |r.db.userRoles| == |db.userRoles| + 1 && FirstRole(r.db.userRoles, userId) == FirstRole(db.userRoles, userId)
  {
    FirstRoleAfterAppend(db.userRoles, UserRole(db.nextId, userId, newRole), userId);
  }

  /** The barn selector's options, as their values. */
  const NAVE_OPTIONS: seq<string> := ["none", "Nave 1", "Nave 2", "Nave 3"]

  /** The value written for a chosen option: null for 'none', the option's text otherwise. */
  function NaveSelection(value: string): (r: Option<string>)
    ensures r.None? <==> value == "none"
    ensures r.Some? ==> r.value == value
  {
    if value == "none" then None else Some(value)
  }

  /** The option the selector shows for a stored barn: `nave_asignada || 'none'`. */
  function NaveShown(nave: Option<string>): (s: string)
    ensures nave.None? || nave == Some("") ==> s == "none"
    ensures nave.Some? && nave.value != "" ==> s == nave.value
  {
    if nave.Some? && nave.value != "" then nave.value else "none"
  }

  /** Choosing an option and reading it back shows that option; a stored barn other than '' and 'none' reads back as itself. */
  lemma NaveRoundTrip(nave: Option<string>)
    ensures forall o :: o in NAVE_OPTIONS ==> NaveShown(NaveSelection(o)) == o
    ensures nave != Some("") && nave != Some("none") ==> NaveSelection(NaveShown(nave)) == nave
  {
  }

  /** `updateNaveMutation`: the barn of that profile, and nothing else. */
  function UpdateNave(db: Tables, userId: Id, value: string, fail: bool): (r: Submission)
    ensures r.outcome == (if fail then UpdateFailed else Done)
    ensures r.outcome != Done ==> r.db == db
    ensures r.db.cerdas == db.cerdas && r.db.eventos == db.eventos && r.db.userRoles == db.userRoles
    ensures r.db.incidencias == db.incidencias && r.db.verracos == db.verracos
    ensures |r.db.profiles| == |db.profiles|
    ensures forall i :: 0 <= i < |db.profiles| ==>
      r.db.profiles[i] == if r.outcome == Done && db.profiles[i].id == userId
                          then db.profiles[i].(naveAsignada := NaveSelection(value)) else db.profiles[i]
    ensures ValidDb(db) ==> ValidDb(r.db)
  {
    if fail then Submission(UpdateFailed, db) else Submission(Done, WithNave(db, userId, NaveSelection(value)))
  }

  /** The role selector's initial value: the user's role, or 'tecnico' for a user without one. */
  function DefaultRole(role: Option<AppRole>): (r: AppRole)
    ensures role.Some? ==> r == role.value
    ensures role.None? ==> r == Tecnico
  {
    role.GetOr(Tecnico)
  }

  /** A text cell: the value, or the placeholder when it is missing or empty. */
  /** The role badge: the stored role key, or 'Sin rol'. */
  function RoleShown(u: UserWithRole): (s: string)
    ensures u.role.Some? ==> RoleFromKey(s) == u.role
    ensures u.role.None? ==> s == "Sin rol" && RoleFromKey(s).None?
  {
    if u.role.Some? then RoleKey(u.role.value) else "Sin rol"
  }

  /** The page's state: which user's role editor is open, if any. */
  class Page {
    var editingUserId: Option<Id>

    constructor ()
      ensures editingUserId.None?
    {
      editingUserId := None;
    }

    /** The "Editar Rol" / "Cancelar" button of a row: open that row's editor, or close it when it is the open one. */
    method ToggleEditing(userId: Id)
      modifies this
      ensures editingUserId == if old(editingUserId) == Some(userId) then None else Some(userId)
    {
      editingUserId := if editingUserId == Some(userId) then None else Some(userId);
    }

    /** Choosing a role in the open editor: the upsert, then, on success, the editor closes. */
    method ChangeRole(store: Store, userId: Id, newRole: AppRole, lookupFails: bool, writeFails: bool) returns (o: Outcome)
      requires store.Valid()
      modifies this, store
      ensures store.Valid()
      ensures var r := UpsertRole(old(store.Db()), userId, newRole, lookupFails, writeFails);
        o == r.outcome && store.Db() == r.db
      ensures editingUserId == if o == Done then None else old(editingUserId)
    {
      var existing := !lookupFails && RoleRowCount(store.userRoles, userId) == 1;
      var ok;
      if existing {
        ok := store.UpdateRoles(userId, newRole, writeFails);
        o := if ok then Done else UpdateFailed;
      } else {
        ok := store.InsertRole(userId, newRole, writeFails);
        o := if ok then Done else InsertFailed;
      }
      if ok {
        editingUserId := None;
      }
    }

    /** Choosing a barn: one update of that profile; the editor state is not touched. */
    method ChangeNave(store: Store, userId: Id, value: string, fail: bool) returns (o: Outcome)
      requires store.Valid()
      modifies store
      ensures store.Valid()
      ensures var r := UpdateNave(old(store.Db()), userId, value, fail); o == r.outcome && store.Db() == r.db
    {
      var ok := store.UpdateNave(userId, NaveSelection(value), fail);
      o := if ok then Done else UpdateFailed;
    }
  }
}
