/** The user service: the self-or-matrix permission check, the listing
    and lookup of users that are not soft-deleted, and the writes to the
    user table (insert, update, soft delete, role change). */
module Users {
  import opened Common
  import opened Store

  const UserNotFound := "Usuário não encontrado"
  const EmailInUse := "Email já em uso"
  const DefaultRoleNotFound := "Role padrão não encontrado"
  const RoleNotFound := "Role não encontrada"
  /** The name of the role a new user receives. */
  const DefaultRoleName := "user"

  function NoPermission(action: string, subject: string): string {
    "Sem permissão para " + action + " " + subject
  }

  /** The user exists and carries no soft-delete marker. */
  predicate NotSoftDeleted(users: map<Id, User>, id: Id) {
    id in users && users[id].deletedAt.None?
  }

  // ---------------------------------------------------------------------
  // The permission check

  /** The target of the request is the caller. */
  predicate IsSelf(userId: Id, targetUserId: Option<Id>) {
    Given(targetUserId) && targetUserId.value == userId
  }

  /** `checkPermission`: acting on oneself passes at once; otherwise the
      caller must be an existing, not soft-deleted user whose role grants
      `action` on `subject`. */
  function CheckPermission(users: map<Id, User>, roles: map<nat, Role>, hasPermission: Matrix,
                           userId: Id, action: string, subject: string, targetUserId: Option<Id>): (g: Gate)
    requires UsersHaveRoles(users, roles)
    ensures IsSelf(userId, targetUserId) ==> g == Pass
    ensures !IsSelf(userId, targetUserId) ==>
              (g.Pass? <==>
                 NotSoftDeleted(users, userId) && hasPermission(roles[users[userId].roleId].permission, action, subject))
    ensures !IsSelf(userId, targetUserId) && !NotSoftDeleted(users, userId) ==> g == Deny(Unauthorized(UserNotFound))
    ensures g.Deny? && NotSoftDeleted(users, userId) ==> g == Deny(Unauthorized(NoPermission(action, subject)))
  {
    if Given(targetUserId) && userId == targetUserId.value then Pass
    else if userId !in users || users[userId].deletedAt.Some? then Deny(Unauthorized(UserNotFound))
    else if !hasPermission(roles[users[userId].roleId].permission, action, subject) then
      Deny(Unauthorized(NoPermission(action, subject)))
    else Pass
  }

  /** The self shortcut consults neither the user table nor the roles nor
      the matrix. */
  lemma SelfNeedsNoLookup(users: map<Id, User>, roles: map<nat, Role>, hasPermission: Matrix,
                          users': map<Id, User>, roles': map<nat, Role>, hasPermission': Matrix,
                          userId: Id, action: string, subject: string, targetUserId: Option<Id>)
    requires UsersHaveRoles(users, roles) && UsersHaveRoles(users', roles')
    requires IsSelf(userId, targetUserId)
    ensures CheckPermission(users, roles, hasPermission, userId, action, subject, targetUserId)
         == CheckPermission(users', roles', hasPermission', userId, action, subject, targetUserId)
  {
  }

  // ---------------------------------------------------------------------
  // Queries

  datatype UserFilters = UserFilters(
    name: Option<string>,
    email: Option<string>,
    page: Option<nat>,
    limit: Option<nat>)

  /** The optional filters of `getAll`: case-insensitive substring on name
      and e-mail. */
  predicate MatchesFilters(u: User, f: UserFilters) {
    && (Given(f.name) ==> ContainsInsensitive(u.name, f.name.value))
    && (Given(f.email) ==> ContainsInsensitive(u.email, f.email.value))
  }

  /** The ids `getAll` counts: users that are not soft-deleted and pass the
      filters. */
  ghost function Matching(users: map<Id, User>, f: UserFilters): (r: set<Id>)
    ensures r <= users.Keys
  {
    set id | id in users && users[id].deletedAt.None? && MatchesFilters(users[id], f)
  }

  /** The creation time of every stored user, by id. */
  function CreatedAt(users: map<Id, User>): (r: map<Id, Timestamp>)
    ensures r.Keys == users.Keys
    ensures forall id :: id in users ==> r[id] == users[id].createdAt
  {
    map id | id in users :: users[id].createdAt
  }

  /** A user's own key in the user table. */
  function UserId(u: User): Id {
    u.id
  }

  /** The query of `getAll`: one newest-first page of the matching users,
      the size of the whole matching set, and the page and limit used.
      What the page holds is stated by `ListedItemsMatch` and
      `ListedNewestFirst`. */
  ghost function Listed(users: map<Id, User>, filters: UserFilters): (r: Listing<User>)
    requires UsersKeyedById(users)
    requires PageOf(filters.page) >= 1
    ensures r.page == PageOf(filters.page) && r.limit == LimitOf(filters.limit)
    ensures r.total == |Matching(users, filters)|
    ensures |r.items| <= r.limit
    ensures Skip(r.page, r.limit) <= r.total ==>
              |r.items| == Min(r.limit, r.total - Skip(r.page, r.limit))
  {
    var matching := Matching(users, filters);
    var page, limit := PageOf(filters.page), LimitOf(filters.limit);
    Listing(PageRows(matching, CreatedAt(users), users, UserId, page, limit), |matching|, page, limit)
  }

  /** Every listed user is stored under its id, is not soft-deleted, and
      passes the filters. */
  lemma ListedItemsMatch(users: map<Id, User>, filters: UserFilters)
    requires UsersKeyedById(users)
    requires PageOf(filters.page) >= 1
    ensures var items := Listed(users, filters).items;
            forall i :: 0 <= i < |items| ==>
              && items[i].id in users && users[items[i].id] == items[i]
              && items[i].deletedAt.None?
              && MatchesFilters(items[i], filters)
  {
    var matching := Matching(users, filters);
    var ids := PageKeys(matching, CreatedAt(users), PageOf(filters.page), LimitOf(filters.limit));
    var items := Listed(users, filters).items;
    forall i | 0 <= i < |items|
      ensures items[i].id in users && users[items[i].id] == items[i]
      ensures items[i].deletedAt.None? && MatchesFilters(items[i], filters)
    {
      assert items[i].id == ids[i] && ids[i] in matching;
    }
  }

  /** The listed users are distinct and newest first: the item at position
      `i` is the one at offset `(page-1)*limit + i` of the newest-first
      order of all matches, so successive pages neither overlap nor skip a
      user. */
  lemma ListedNewestFirst(users: map<Id, User>, filters: UserFilters)
    requires UsersKeyedById(users)
    requires PageOf(filters.page) >= 1
    ensures var r := Listed(users, filters);
            forall i :: 0 <= i < |r.items| ==>
              && Skip(r.page, r.limit) + i < r.total
              && r.items[i].id == NewestFirst(Matching(users, filters), CreatedAt(users))[Skip(r.page, r.limit) + i]
    ensures var items := Listed(users, filters).items;
            forall i, j :: 0 <= i < j < |items| ==>
              items[i].id != items[j].id && items[i].createdAt >= items[j].createdAt
  {
    var matching := Matching(users, filters);
    var stamps := CreatedAt(users);
    var ids := PageKeys(matching, stamps, PageOf(filters.page), LimitOf(filters.limit));
    var items := Listed(users, filters).items;
    assert forall i :: 0 <= i < |items| ==> items[i].id == ids[i] && stamps[ids[i]] == items[i].createdAt;
  }

  /** `getAll`: needs `manage` on `all` (there is no target, so no self
      shortcut), then the listing. */
  ghost function GetAll(users: map<Id, User>, roles: map<nat, Role>, hasPermission: Matrix, userId: Id, filters: UserFilters): (r: Result<Listing<User>>)
    requires UsersKeyedById(users) && UsersHaveRoles(users, roles)
    requires PageOf(filters.page) >= 1
    ensures r.Ok? <==> NotSoftDeleted(users, userId) && hasPermission(roles[users[userId].roleId].permission, "manage", "all")
    ensures r.Err? ==> r.failure.Unauthorized?
    ensures r.Ok? ==> r.value == Listed(users, filters)
  {
    var gate := CheckPermission(users, roles, hasPermission, userId, "manage", "all", None);
    if gate.Deny? then Err(gate.failure) else Ok(Listed(users, filters))
  }

  /** `getById`: the caller themselves or a holder of `manage` on `all`;
      a soft-deleted or unknown target is not found. */
  function GetById(users: map<Id, User>, roles: map<nat, Role>, hasPermission: Matrix, userId: Id, targetUserId: Id): (r: Result<User>)
    requires UsersHaveRoles(users, roles)
    ensures var gate := CheckPermission(users, roles, hasPermission, userId, "manage", "all", Some(targetUserId));
            && (gate.Deny? ==> r == Err(gate.failure))
            && (gate.Pass? && !NotSoftDeleted(users, targetUserId) ==> r == Err(Failed(UserNotFound)))
            && (r.Ok? <==> gate.Pass? && NotSoftDeleted(users, targetUserId))
    ensures r.Ok? ==> r.value == users[targetUserId]
  {
    var gate := CheckPermission(users, roles, hasPermission, userId, "manage", "all", Some(targetUserId));
    if gate.Deny? then Err(gate.failure)
    else if targetUserId !in users || users[targetUserId].deletedAt.Some? then Err(Failed(UserNotFound))
    else Ok(users[targetUserId])
  }

  /** A soft-deleted user is neither listed nor found, for any caller,
      while the row is still in the table. */
  lemma SoftDeletedUserIsInvisible(users: map<Id, User>, roles: map<nat, Role>, hasPermission: Matrix,
                                   userId: Id, targetUserId: Id, filters: UserFilters)
    requires UsersKeyedById(users) && UsersHaveRoles(users, roles)
    requires PageOf(filters.page) >= 1
    requires targetUserId in users && users[targetUserId].deletedAt.Some?
    ensures GetById(users, roles, hasPermission, userId, targetUserId).Err?
    ensures targetUserId !in Matching(users, filters)
    ensures forall u :: u in Listed(users, filters).items ==> u.id != targetUserId
  {
    ListedItemsMatch(users, filters);
  }

  // ---------------------------------------------------------------------
  // Writes

  /** `password` is the plain password; its stored hash comes from outside
      the model. */
  datatype CreateUserBody = CreateUserBody(
    name: string,
    email: string,
    password: string,
    bio: Option<string>,
    image: Option<string>)

  datatype UpdateUserBody = UpdateUserBody(
    name: Option<string>,
    email: Option<string>,
    password: Option<string>,
    bio: Option<string>,
    image: Option<string>)

  /** Some user, soft-deleted or not, already has the e-mail. */
  predicate EmailTaken(users: map<Id, User>, email: string) {
    exists id :: id in users && users[id].email == email
  }

  predicate EmailHeldByOther(users: map<Id, User>, email: string, userId: Id) {
    exists id :: id in users && id != userId && users[id].email == email
  }

  /** An update submits an e-mail that a different user already holds. */
  predicate EmailClashes(users: map<Id, User>, email: Option<string>, userId: Id) {
    Given(email) && EmailHeldByOther(users, email.value, userId)
  }

  predicate HasDefaultRole(roles: map<nat, Role>) {
    exists id :: id in roles && roles[id].name == DefaultRoleName
  }

  /** The user after an update: the given fields replaced; a non-empty new
      password is stored as `passwordHash`, an empty one as it is. Never
      the id, role, creation time or soft-delete state. */
  function Patched(u: User, data: UpdateUserBody, passwordHash: string): (r: User)
    ensures r.id == u.id && r.roleId == u.roleId && r.createdAt == u.createdAt
    ensures r.deletedAt == u.deletedAt && r.isActive == u.isActive
    ensures r.email == data.email.GetOr(u.email)
    ensures Given(data.password) ==> r.password == passwordHash
  {
    u.(name := data.name.GetOr(u.name),
       email := data.email.GetOr(u.email),
       password := if Given(data.password) then passwordHash else data.password.GetOr(u.password),
       bio := if data.bio.Some? then data.bio else u.bio,
       image := if data.image.Some? then data.image else u.image)
  }

  class UserService {
    const db: Database
    const hasPermission: Matrix

    constructor (db: Database, hasPermission: Matrix)
      ensures this.db == db && this.hasPermission == hasPermission
    {
      this.db := db;
      this.hasPermission := hasPermission;
    }

    /** `checkPermission` over the current store. */
    function PermissionGate(userId: Id, action: string, subject: string, targetUserId: Option<Id>): Gate
      requires db.Valid()
      reads db
    {
      CheckPermission(db.users, db.roles, hasPermission, userId, action, subject, targetUserId)
    }

    /** `create`: the e-mail must be new among all users, soft-deleted ones
        included; a role named `user` must exist, and the new user gets it. */
    method Create(data: CreateUserBody, newId: Id, now: Timestamp, passwordHash: string) returns (r: Result<User>)
      requires db.Valid() && newId !in db.users
      modifies db
      ensures db.Valid()
      ensures EmailTaken(old(db.users), data.email) ==> r == Err(Failed(EmailInUse))
      ensures !EmailTaken(old(db.users), data.email) && !HasDefaultRole(old(db.roles)) ==>
                r == Err(Failed(DefaultRoleNotFound))
      ensures r.Ok? <==> !EmailTaken(old(db.users), data.email) && HasDefaultRole(old(db.roles))
      ensures r.Err? ==> unchanged(db)
      ensures r.Ok? ==>
                && r.value.roleId in db.roles && db.roles[r.value.roleId].name == DefaultRoleName
                && r.value == User(newId, data.name, data.email, passwordHash, data.bio, data.image,
                                   now, true, None, r.value.roleId)
                && db.users == old(db.users)[newId := r.value]
                && db.courses == old(db.courses) && db.instructors == old(db.instructors)
                && db.lessons == old(db.lessons) && db.roles == old(db.roles)
    {
      if EmailTaken(db.users, data.email) {
        return Err(Failed(EmailInUse));
      }
      if !HasDefaultRole(db.roles) {
        return Err(Failed(DefaultRoleNotFound));
      }
      var roleId :| roleId in db.roles && db.roles[roleId].name == DefaultRoleName;
      var user := User(newId, data.name, data.email, passwordHash, data.bio, data.image, now, true, None, roleId);
      db.users := db.users[newId := user];
      r := Ok(user);
    }

    /** `update`: the caller themselves or a holder of `manage` on `all`;
        a new e-mail must not belong to another user (re-submitting one's
        own is fine); only a target that is not soft-deleted is written. */
    method Update(userId: Id, targetUserId: Id, data: UpdateUserBody, passwordHash: string) returns (r: Result<User>)
      requires db.Valid()
      requires data.email != Some("")
      modifies db
      ensures db.Valid()
      ensures (old(PermissionGate(userId, "manage", "all", Some(targetUserId))).Deny? ==> r == Err(old(PermissionGate(userId, "manage", "all", Some(targetUserId))).failure))
      ensures (old(PermissionGate(userId, "manage", "all", Some(targetUserId))).Pass? && EmailClashes(old(db.users), data.email, targetUserId) ==> r == Err(Failed(EmailInUse)))
      ensures (old(PermissionGate(userId, "manage", "all", Some(targetUserId))).Pass? && !EmailClashes(old(db.users), data.email, targetUserId) && !NotSoftDeleted(old(db.users), targetUserId) ==> r == Err(Failed(RecordNotFound)))
      ensures (r.Ok? <==> old(PermissionGate(userId, "manage", "all", Some(targetUserId))).Pass? && !EmailClashes(old(db.users), data.email, targetUserId) && NotSoftDeleted(old(db.users), targetUserId))
      ensures r.Err? ==> unchanged(db)
      ensures r.Ok? ==>
                && r.value == Patched(old(db.users)[targetUserId], data, passwordHash)
                && db.users == old(db.users)[targetUserId := r.value]
                && db.courses == old(db.courses) && db.instructors == old(db.instructors)
                && db.lessons == old(db.lessons) && db.roles == old(db.roles)
    {
      var gate := PermissionGate(userId, "manage", "all", Some(targetUserId));
      if gate.Deny? {
        return Err(gate.failure);
      }
      if EmailClashes(db.users, data.email, targetUserId) {
        return Err(Failed(EmailInUse));
      }
      if !NotSoftDeleted(db.users, targetUserId) {
        return Err(Failed(RecordNotFound));
      }
      var user := Patched(db.users[targetUserId], data, passwordHash);
      db.users := db.users[targetUserId := user];
      r := Ok(user);
    }

    /** `delete`: a soft delete. The target must not be soft-deleted
        already; it gets the marker and is deactivated, its row stays, and
        no other user changes. */
    method Delete(userId: Id, targetUserId: Id, now: Timestamp) returns (r: Result<()>)
      requires db.Valid()
      modifies db
      ensures db.Valid()
      ensures (old(PermissionGate(userId, "manage", "all", Some(targetUserId))).Deny? ==> r == Err(old(PermissionGate(userId, "manage", "all", Some(targetUserId))).failure))
      ensures (old(PermissionGate(userId, "manage", "all", Some(targetUserId))).Pass? && !NotSoftDeleted(old(db.users), targetUserId) ==> r == Err(Failed(RecordNotFound)))
      ensures (r.Ok? <==> old(PermissionGate(userId, "manage", "all", Some(targetUserId))).Pass? && NotSoftDeleted(old(db.users), targetUserId))
      ensures r.Err? ==> unchanged(db)
      ensures r.Ok? ==>
                && db.users == old(db.users)[targetUserId := old(db.users)[targetUserId].(deletedAt := Some(now), isActive := false)]
                && db.users.Keys == old(db.users).Keys
                && !NotSoftDeleted(db.users, targetUserId)
                && db.courses == old(db.courses) && db.instructors == old(db.instructors)
                && db.lessons == old(db.lessons) && db.roles == old(db.roles)
    {
      var gate := PermissionGate(userId, "manage", "all", Some(targetUserId));
      if gate.Deny? {
        return Err(gate.failure);
      }
      if !NotSoftDeleted(db.users, targetUserId) {
        return Err(Failed(RecordNotFound));
      }
      db.users := db.users[targetUserId := db.users[targetUserId].(deletedAt := Some(now), isActive := false)];
      r := Ok(());
    }

    /** `manageRole`: needs `manage` on `roles` (no self shortcut); the
        role must exist; only the target's role changes. */
    method ManageRole(userId: Id, targetUserId: Id, roleId: nat) returns (r: Result<User>)
      requires db.Valid()
      modifies db
      ensures db.Valid()
      ensures (old(PermissionGate(userId, "manage", "roles", None)).Deny? ==> r == Err(old(PermissionGate(userId, "manage", "roles", None)).failure))
      ensures (old(PermissionGate(userId, "manage", "roles", None)).Pass? && roleId !in old(db.roles) ==> r == Err(Failed(RoleNotFound)))
      ensures (old(PermissionGate(userId, "manage", "roles", None)).Pass? && roleId in old(db.roles) && !NotSoftDeleted(old(db.users), targetUserId) ==>
                    r == Err(Failed(RecordNotFound)))
      ensures (r.Ok? <==> old(PermissionGate(userId, "manage", "roles", None)).Pass? && roleId in old(db.roles) && NotSoftDeleted(old(db.users), targetUserId))
      ensures r.Err? ==> unchanged(db)
      ensures r.Ok? ==>
                && r.value == old(db.users)[targetUserId].(roleId := roleId)
                && db.users == old(db.users)[targetUserId := r.value]
                && db.courses == old(db.courses) && db.instructors == old(db.instructors)
                && db.lessons == old(db.lessons) && db.roles == old(db.roles)
    {
      var gate := PermissionGate(userId, "manage", "roles", None);
      if gate.Deny? {
        return Err(gate.failure);
      }
      if roleId !in db.roles {
        return Err(Failed(RoleNotFound));
      }
      if !NotSoftDeleted(db.users, targetUserId) {
        return Err(Failed(RecordNotFound));
      }
      var user := db.users[targetUserId].(roleId := roleId);
      db.users := db.users[targetUserId := user];
      r := Ok(user);
    }
  }
}
