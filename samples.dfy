/** The sample service of the Base application: an owner-or-matrix
    permission check, the caller's own samples as a newest-first listing,
    and the writes to the sample table. It runs against its own store. */
module Samples {
  import opened Common

  datatype Sample = Sample(
    id: Id,
    name: string,
    description: Option<string>,
    userId: Id,
    createdAt: Timestamp)

  /** A user as the permission check sees it: an id and a role. */
  datatype User = User(id: Id, roleId: nat)

  ghost predicate SamplesKeyedById(samples: map<Id, Sample>) {
    forall id :: id in samples ==> samples[id].id == id
  }

  ghost predicate UsersHaveRoles(users: map<Id, User>, roles: map<nat, Role>) {
    forall id :: id in users ==> users[id].roleId in roles
  }

  /** The Base store: samples, users and roles. */
  class SampleDatabase {
    var samples: map<Id, Sample>
    var users: map<Id, User>
    var roles: map<nat, Role>

    ghost predicate Valid()
      reads this
    {
      SamplesKeyedById(samples) && UsersHaveRoles(users, roles)
    }

    /** A store with the given users and roles and no samples. */
    constructor (users: map<Id, User>, roles: map<nat, Role>)
      requires UsersHaveRoles(users, roles)
      ensures Valid()
      ensures samples == map[] && this.users == users && this.roles == roles
    {
      samples, this.users, this.roles := map[], users, roles;
    }
  }

  const UserNotFound := "User not found"
  const SampleNotFound := "Sample not found"
  /** The subject every sample operation asks the matrix about. */
  const SamplesSubject := "samples"

  function NoPermission(action: string, subject: string): string {
    "No " + action + " permission for " + subject
  }

  // ---------------------------------------------------------------------
  // The permission check

  /** A target sample is named, exists, and belongs to the caller. */
  predicate OwnsTarget(samples: map<Id, Sample>, userId: Id, targetSampleId: Option<Id>) {
    Given(targetSampleId) && targetSampleId.value in samples && samples[targetSampleId.value].userId == userId
  }

  /** The caller is a known user whose role grants `action` on `subject`. */
  predicate MatrixGrants(users: map<Id, User>, roles: map<nat, Role>, hasPermission: Matrix,
                         userId: Id, action: string, subject: string)
    requires UsersHaveRoles(users, roles)
  {
    userId in users && hasPermission(roles[users[userId].roleId].permission, action, subject)
  }

  /** `checkPermission`: the owner of a named target passes at once;
      otherwise an unknown caller is refused, and a known one passes only
      if the matrix grants the action. */
  function CheckPermission(samples: map<Id, Sample>, users: map<Id, User>, roles: map<nat, Role>, hasPermission: Matrix,
                           userId: Id, action: string, subject: string, targetSampleId: Option<Id>): (g: Gate)
    requires UsersHaveRoles(users, roles)
    ensures g.Pass? <==>
              OwnsTarget(samples, userId, targetSampleId) || MatrixGrants(users, roles, hasPermission, userId, action, subject)
    ensures g.Deny? && userId !in users ==> g == Deny(Unauthorized(UserNotFound))
    ensures g.Deny? && userId in users ==> g == Deny(Unauthorized(NoPermission(action, subject)))
  {
    if Given(targetSampleId) && targetSampleId.value in samples && samples[targetSampleId.value].userId == userId then
      Pass
    else if userId !in users then Deny(Unauthorized(UserNotFound))
    else if !hasPermission(roles[users[userId].roleId].permission, action, subject) then
      Deny(Unauthorized(NoPermission(action, subject)))
    else Pass
  }

  /** The owner shortcut consults neither the user table nor the roles nor
      the matrix. */
  lemma OwnerNeedsNoLookup(samples: map<Id, Sample>, users: map<Id, User>, roles: map<nat, Role>, hasPermission: Matrix,
                           users': map<Id, User>, roles': map<nat, Role>, hasPermission': Matrix,
                           userId: Id, action: string, subject: string, targetSampleId: Option<Id>)
    requires UsersHaveRoles(users, roles) && UsersHaveRoles(users', roles')
    requires OwnsTarget(samples, userId, targetSampleId)
    ensures CheckPermission(samples, users, roles, hasPermission, userId, action, subject, targetSampleId)
         == CheckPermission(samples, users', roles', hasPermission', userId, action, subject, targetSampleId)
  {
  }

  // ---------------------------------------------------------------------
  // Queries

  datatype SampleFilters = SampleFilters(
    name: Option<string>,
    description: Option<string>,
    createdFrom: Option<Timestamp>,
    createdTo: Option<Timestamp>,
    page: Option<nat>,
    limit: Option<nat>)

  /** The optional filters of `getAll`: case-sensitive substring on name
      and description (a sample without a description never matches a
      description filter), inclusive bounds on the creation time. */
  predicate MatchesFilters(s: Sample, f: SampleFilters) {
    && (Given(f.name) ==> Contains(s.name, f.name.value))
    && (Given(f.description) ==> s.description.Some? && Contains(s.description.value, f.description.value))
    && InRange(s.createdAt, f.createdFrom, f.createdTo)
  }

  /** The ids `getAll` counts: the caller's own samples that pass the
      filters. */
  ghost function Matching(samples: map<Id, Sample>, userId: Id, f: SampleFilters): (r: set<Id>)
    ensures r <= samples.Keys
  {
    set id | id in samples && samples[id].userId == userId && MatchesFilters(samples[id], f)
  }

  /** The creation time of every stored sample, by id. */
  function CreatedAt(samples: map<Id, Sample>): (r: map<Id, Timestamp>)
    ensures r.Keys == samples.Keys
    ensures forall id :: id in samples ==> r[id] == samples[id].createdAt
  {
    map id | id in samples :: samples[id].createdAt
  }

  /** A sample's own key in the sample table. */
  function SampleId(s: Sample): Id {
    s.id
  }

  /** The query of `getAll`: one newest-first page of the caller's matching
      samples, the size of the whole matching set, and the page and limit
      used. What the page holds is stated by `ListedItemsMatch` and
      `ListedNewestFirst`. */
  ghost function Listed(samples: map<Id, Sample>, userId: Id, filters: SampleFilters): (r: Listing<Sample>)
    requires SamplesKeyedById(samples)
    requires PageOf(filters.page) >= 1
    ensures r.page == PageOf(filters.page) && r.limit == LimitOf(filters.limit)
    ensures r.total == |Matching(samples, userId, filters)|
    ensures |r.items| <= r.limit
    ensures Skip(r.page, r.limit) <= r.total ==>
              |r.items| == Min(r.limit, r.total - Skip(r.page, r.limit))
  {
    var matching := Matching(samples, userId, filters);
    var page, limit := PageOf(filters.page), LimitOf(filters.limit);
    Listing(PageRows(matching, CreatedAt(samples), samples, SampleId, page, limit), |matching|, page, limit)
  }

  /** Every listed sample is stored under its id, belongs to the caller
      and passes the filters. */
  lemma ListedItemsMatch(samples: map<Id, Sample>, userId: Id, filters: SampleFilters)
    requires SamplesKeyedById(samples)
    requires PageOf(filters.page) >= 1
    ensures var items := Listed(samples, userId, filters).items;
            forall i :: 0 <= i < |items| ==>
              && items[i].id in samples && samples[items[i].id] == items[i]
              && items[i].userId == userId
              && MatchesFilters(items[i], filters)
  {
    var matching := Matching(samples, userId, filters);
    var ids := PageKeys(matching, CreatedAt(samples), PageOf(filters.page), LimitOf(filters.limit));
    var items := Listed(samples, userId, filters).items;
    forall i | 0 <= i < |items|
      ensures items[i].id in samples && samples[items[i].id] == items[i]
      ensures items[i].userId == userId && MatchesFilters(items[i], filters)
    {
      assert items[i].id == ids[i] && ids[i] in matching;
    }
  }

  /** The listed samples are distinct and newest first: the item at
      position `i` is the one at offset `(page-1)*limit + i` of the
      newest-first order of all matches, so successive pages neither
      overlap nor skip a sample. */
  lemma ListedNewestFirst(samples: map<Id, Sample>, userId: Id, filters: SampleFilters)
    requires SamplesKeyedById(samples)
    requires PageOf(filters.page) >= 1
    ensures var r := Listed(samples, userId, filters);
            forall i :: 0 <= i < |r.items| ==>
              && Skip(r.page, r.limit) + i < r.total
              && r.items[i].id == NewestFirst(Matching(samples, userId, filters), CreatedAt(samples))[Skip(r.page, r.limit) + i]
    ensures var items := Listed(samples, userId, filters).items;
            forall i, j :: 0 <= i < j < |items| ==>
              items[i].id != items[j].id && items[i].createdAt >= items[j].createdAt
  {
    var matching := Matching(samples, userId, filters);
    var stamps := CreatedAt(samples);
    var ids := PageKeys(matching, stamps, PageOf(filters.page), LimitOf(filters.limit));
    var items := Listed(samples, userId, filters).items;
    assert forall i :: 0 <= i < |items| ==> items[i].id == ids[i] && stamps[ids[i]] == items[i].createdAt;
  }

  /** `getAll`: the matrix must grant `manage` on `samples` (there is no
      target, so owning samples is no shortcut), then the listing. */
  ghost function GetAll(samples: map<Id, Sample>, users: map<Id, User>, roles: map<nat, Role>, hasPermission: Matrix,
                        userId: Id, filters: SampleFilters): (r: Result<Listing<Sample>>)
    requires SamplesKeyedById(samples) && UsersHaveRoles(users, roles)
    requires PageOf(filters.page) >= 1
    ensures r.Ok? <==> MatrixGrants(users, roles, hasPermission, userId, "manage", SamplesSubject)
    ensures r.Err? ==> r.failure.Unauthorized?
    ensures r.Ok? ==> r.value == Listed(samples, userId, filters)
  {
    var gate := CheckPermission(samples, users, roles, hasPermission, userId, "manage", SamplesSubject, None);
    if gate.Deny? then Err(gate.failure) else Ok(Listed(samples, userId, filters))
  }

  /** `getById`: authorization comes first, so a caller without the grant
      learns nothing about a missing sample; a permitted caller asking for
      a missing one is told it is not found. */
  function GetById(samples: map<Id, Sample>, users: map<Id, User>, roles: map<nat, Role>, hasPermission: Matrix,
                   userId: Id, sampleId: Id): (r: Result<Sample>)
    requires UsersHaveRoles(users, roles)
    ensures r.Ok? <==>
              sampleId in samples
              && (OwnsTarget(samples, userId, Some(sampleId)) || MatrixGrants(users, roles, hasPermission, userId, "manage", SamplesSubject))
    ensures r.Ok? ==> r.value == samples[sampleId]
    ensures !OwnsTarget(samples, userId, Some(sampleId))
            && !MatrixGrants(users, roles, hasPermission, userId, "manage", SamplesSubject) ==>
              r.Err? && r.failure.Unauthorized?
    ensures sampleId !in samples && MatrixGrants(users, roles, hasPermission, userId, "manage", SamplesSubject) ==>
              r == Err(Failed(SampleNotFound))
  {
    var gate := CheckPermission(samples, users, roles, hasPermission, userId, "manage", SamplesSubject, Some(sampleId));
    if gate.Deny? then Err(gate.failure)
    else if sampleId !in samples then Err(Failed(SampleNotFound))
    else Ok(samples[sampleId])
  }

  // ---------------------------------------------------------------------
  // Writes

  datatype CreateSampleBody = CreateSampleBody(name: string, description: Option<string>)

  datatype UpdateSampleBody = UpdateSampleBody(name: Option<string>, description: Option<string>)

  /** The sample after an update: the given fields replaced, and never its
      id, owner or creation time. */
  function Patched(s: Sample, data: UpdateSampleBody): (r: Sample)
    ensures r.id == s.id && r.userId == s.userId && r.createdAt == s.createdAt
    ensures r.name == data.name.GetOr(s.name)
  {
    s.(name := data.name.GetOr(s.name),
       description := if data.description.Some? then data.description else s.description)
  }

  class SampleService {
    const db: SampleDatabase
    const hasPermission: Matrix

    constructor (db: SampleDatabase, hasPermission: Matrix)
      ensures this.db == db && this.hasPermission == hasPermission
    {
      this.db := db;
      this.hasPermission := hasPermission;
    }

    /** `checkPermission` for `manage` on `samples` over the current store. */
    function ManageGate(userId: Id, targetSampleId: Option<Id>): Gate
      requires db.Valid()
      reads db
    {
      CheckPermission(db.samples, db.users, db.roles, hasPermission, userId, "manage", SamplesSubject, targetSampleId)
    }

    /** `create`: the matrix must grant `manage` on `samples`; the caller
        owns the new sample. */
    method Create(userId: Id, data: CreateSampleBody, newId: Id, now: Timestamp) returns (r: Result<Sample>)
      requires db.Valid() && newId !in db.samples
      modifies db
      ensures db.Valid()
      ensures (old(ManageGate(userId, None)).Deny? ==> r == Err(old(ManageGate(userId, None)).failure))
      ensures (r.Ok? <==> old(ManageGate(userId, None)).Pass?)
      ensures r.Err? ==> unchanged(db)
      ensures r.Ok? ==>
                && r.value == Sample(newId, data.name, data.description, userId, now)
                && db.samples == old(db.samples)[newId := r.value]
                && db.users == old(db.users) && db.roles == old(db.roles)
    {
      var gate := ManageGate(userId, None);
      if gate.Deny? {
        return Err(gate.failure);
      }
      var sample := Sample(newId, data.name, data.description, userId, now);
      db.samples := db.samples[newId := sample];
      r := Ok(sample);
    }

    /** `update`: the owner or a holder of the grant; a missing sample
        makes the store's write fail; no other sample changes. */
    method Update(userId: Id, sampleId: Id, data: UpdateSampleBody) returns (r: Result<Sample>)
      requires db.Valid()
      modifies db
      ensures db.Valid()
      ensures (old(ManageGate(userId, Some(sampleId))).Deny? ==> r == Err(old(ManageGate(userId, Some(sampleId))).failure))
      ensures (old(ManageGate(userId, Some(sampleId))).Pass? && sampleId !in old(db.samples) ==> r == Err(Failed(RecordNotFound)))
      ensures (r.Ok? <==> old(ManageGate(userId, Some(sampleId))).Pass? && sampleId in old(db.samples))
      ensures r.Err? ==> unchanged(db)
      ensures r.Ok? ==>
                && r.value == Patched(old(db.samples)[sampleId], data)
                && db.samples == old(db.samples)[sampleId := r.value]
                && db.users == old(db.users) && db.roles == old(db.roles)
    {
      var gate := ManageGate(userId, Some(sampleId));
      if gate.Deny? {
        return Err(gate.failure);
      }
      if sampleId !in db.samples {
        return Err(Failed(RecordNotFound));
      }
      var sample := Patched(db.samples[sampleId], data);
      db.samples := db.samples[sampleId := sample];
      r := Ok(sample);
    }

    /** `delete`: the owner or a holder of the grant; exactly that sample
        goes, and the deleted row is returned. */
    method Delete(userId: Id, sampleId: Id) returns (r: Result<Sample>)
      requires db.Valid()
      modifies db
      ensures db.Valid()
      ensures (old(ManageGate(userId, Some(sampleId))).Deny? ==> r == Err(old(ManageGate(userId, Some(sampleId))).failure))
      ensures (old(ManageGate(userId, Some(sampleId))).Pass? && sampleId !in old(db.samples) ==> r == Err(Failed(RecordNotFound)))
      ensures (r.Ok? <==> old(ManageGate(userId, Some(sampleId))).Pass? && sampleId in old(db.samples))
      ensures r.Err? ==> unchanged(db)
      ensures r.Ok? ==>
                && r.value == old(db.samples)[sampleId]
                && db.samples == old(db.samples) - {sampleId}
                && db.users == old(db.users) && db.roles == old(db.roles)
      ensures r.Ok? ==> GetById(db.samples, db.users, db.roles, hasPermission, userId, sampleId).Err?
    {
      var gate := ManageGate(userId, Some(sampleId));
      if gate.Deny? {
        return Err(gate.failure);
      }
      if sampleId !in db.samples {
        return Err(Failed(RecordNotFound));
      }
      r := Ok(db.samples[sampleId]);
      db.samples := db.samples - {sampleId};
    }
  }
}
