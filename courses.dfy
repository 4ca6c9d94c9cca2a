/** The course service: the creator gate and the creator-or-instructor
    gate, the scoped newest-first course listing, and the writes to the
    course table and the course-instructor join table. */
module Courses {
  import opened Common
  import opened Store

  const CourseNotFound := "Course not found"
  const OnlyCreator := "Only the course creator can perform this action"
  const NotInstructorOrCreator := "User is not an instructor or creator of this course"
  const NameNotUnique := "Course name must be unique"
  const InstructorNotFound := "Instructor not found"
  const CandidateFetchFailed := "Failed to fetch instructor candidate"
  const InstructorNotInCourse := "Instructor not found in course"
  const CreatorCannotBeRemoved := "Creator cannot be removed as instructor"

  // ---------------------------------------------------------------------
  // Gates

  /** `checkCreatorPermission`: an unknown course is reported first, then
      anyone but the creator is refused. */
  function CheckCreatorPermission(courses: map<Id, Course>, userId: Id, courseId: Id): (g: Gate)
    ensures g.Pass? <==> courseId in courses && IsCourseCreator(courses[courseId], userId)
    ensures courseId !in courses ==> g == Deny(Failed(CourseNotFound))
    ensures courseId in courses && !IsCourseCreator(courses[courseId], userId) ==>
              g == Deny(Unauthorized(OnlyCreator))
  {
    if courseId !in courses then Deny(Failed(CourseNotFound))
    else if courses[courseId].creatorId != userId then Deny(Unauthorized(OnlyCreator))
    else Pass
  }

  /** `checkInstructorPermission`: an unknown course is reported first,
      then anyone who is neither the creator nor an instructor is refused. */
  function CheckInstructorPermission(courses: map<Id, Course>, instructors: set<Edge>, userId: Id, courseId: Id): (g: Gate)
    requires CoursesKeyedById(courses)
    ensures g.Pass? <==> courseId in courses && IsInstructorOrCreator(courses[courseId], instructors, userId)
    ensures courseId !in courses ==> g == Deny(Failed(CourseNotFound))
    ensures courseId in courses && !IsInstructorOrCreator(courses[courseId], instructors, userId) ==>
              g == Deny(Unauthorized(NotInstructorOrCreator))
  {
    var courseInstructor := Edge(courseId, userId) in instructors;
    if courseId !in courses then Deny(Failed(CourseNotFound))
    else if courses[courseId].creatorId != userId && !courseInstructor then
      Deny(Unauthorized(NotInstructorOrCreator))
    else Pass
  }

  /** The creator passes the instructor gate even without an edge. */
  lemma CreatorPassesInstructorGate(courses: map<Id, Course>, instructors: set<Edge>, userId: Id, courseId: Id)
    requires CoursesKeyedById(courses)
    requires CheckCreatorPermission(courses, userId, courseId).Pass?
    ensures CheckInstructorPermission(courses, instructors, userId, courseId).Pass?
  {
  }

  // ---------------------------------------------------------------------
  // Queries

  datatype CourseFilters = CourseFilters(
    name: Option<string>,
    description: Option<string>,
    createdFrom: Option<Timestamp>,
    createdTo: Option<Timestamp>,
    page: Option<nat>,
    limit: Option<nat>)

  /** The optional filters of `getAll`: case-insensitive substring on name
      and description (a course without a description never matches a
      description filter), inclusive bounds on the creation time. */
  predicate MatchesFilters(c: Course, f: CourseFilters) {
    && (Given(f.name) ==> ContainsInsensitive(c.name, f.name.value))
    && (Given(f.description) ==>
          c.description.Some? && ContainsInsensitive(c.description.value, f.description.value))
    && InRange(c.createdAt, f.createdFrom, f.createdTo)
  }

  /** The ids `getAll` counts: courses the caller creates or instructs that
      pass the filters. */
  ghost function Matching(courses: map<Id, Course>, instructors: set<Edge>, userId: Id, f: CourseFilters): (r: set<Id>)
    ensures r <= courses.Keys
  {
    set id | id in courses && IsInstructorOrCreator(courses[id], instructors, userId)
                           && MatchesFilters(courses[id], f)
  }

  /** The creation time of every stored course, by id. */
  function CreatedAt(courses: map<Id, Course>): (r: map<Id, Timestamp>)
    ensures r.Keys == courses.Keys
    ensures forall id :: id in courses ==> r[id] == courses[id].createdAt
  {
    map id | id in courses :: courses[id].createdAt
  }

  /** A course's own key in the course table. */
  function CourseId(c: Course): Id {
    c.id
  }

  /** `getAll`: one newest-first page of the caller's matching courses,
      the size of the whole matching set, and the page and limit used.
      What the page holds is stated by `GetAllItemsMatch` and
      `GetAllNewestFirst`. */
  ghost function GetAll(courses: map<Id, Course>, instructors: set<Edge>, userId: Id, filters: CourseFilters): (r: Listing<Course>)
    requires CoursesKeyedById(courses)
    requires PageOf(filters.page) >= 1
    ensures r.page == PageOf(filters.page) && r.limit == LimitOf(filters.limit)
    ensures r.total == |Matching(courses, instructors, userId, filters)|
    ensures |r.items| <= r.limit
    ensures Skip(r.page, r.limit) <= r.total ==>
              |r.items| == Min(r.limit, r.total - Skip(r.page, r.limit))
  {
    var matching := Matching(courses, instructors, userId, filters);
    var page, limit := PageOf(filters.page), LimitOf(filters.limit);
    Listing(PageRows(matching, CreatedAt(courses), courses, CourseId, page, limit), |matching|, page, limit)
  }

  /** Every listed course is stored under its id, is created or
      instructed by the caller, and passes the filters. */
  lemma GetAllItemsMatch(courses: map<Id, Course>, instructors: set<Edge>, userId: Id, filters: CourseFilters)
    requires CoursesKeyedById(courses)
    requires PageOf(filters.page) >= 1
    ensures var items := GetAll(courses, instructors, userId, filters).items;
            forall i :: 0 <= i < |items| ==>
              && items[i].id in courses && courses[items[i].id] == items[i]
              && IsInstructorOrCreator(items[i], instructors, userId)
              && MatchesFilters(items[i], filters)
  {
    var matching := Matching(courses, instructors, userId, filters);
    var ids := PageKeys(matching, CreatedAt(courses), PageOf(filters.page), LimitOf(filters.limit));
    var items := GetAll(courses, instructors, userId, filters).items;
    forall i | 0 <= i < |items|
      ensures items[i].id in courses && courses[items[i].id] == items[i]
      ensures IsInstructorOrCreator(items[i], instructors, userId) && MatchesFilters(items[i], filters)
    {
      assert items[i].id == ids[i] && ids[i] in matching;
    }
  }

  /** The listed courses are distinct and newest first: the item at
      position `i` is the one at offset `(page-1)*limit + i` of the
      newest-first order of all matches, so successive pages neither
      overlap nor skip a course. */
  lemma GetAllNewestFirst(courses: map<Id, Course>, instructors: set<Edge>, userId: Id, filters: CourseFilters)
    requires CoursesKeyedById(courses)
    requires PageOf(filters.page) >= 1
    ensures var r := GetAll(courses, instructors, userId, filters);
            forall i :: 0 <= i < |r.items| ==>
              && Skip(r.page, r.limit) + i < r.total
              && r.items[i].id == NewestFirst(Matching(courses, instructors, userId, filters), CreatedAt(courses))[Skip(r.page, r.limit) + i]
    ensures var items := GetAll(courses, instructors, userId, filters).items;
            forall i, j :: 0 <= i < j < |items| ==>
              items[i].id != items[j].id && items[i].createdAt >= items[j].createdAt
  {
    var matching := Matching(courses, instructors, userId, filters);
    var stamps := CreatedAt(courses);
    var ids := PageKeys(matching, stamps, PageOf(filters.page), LimitOf(filters.limit));
    var items := GetAll(courses, instructors, userId, filters).items;
    assert forall i :: 0 <= i < |items| ==> items[i].id == ids[i] && stamps[ids[i]] == items[i].createdAt;
  }

  /** A first page whose limit covers the matching set lists all of it. */
  lemma FirstPageListsEveryMatch(courses: map<Id, Course>, instructors: set<Edge>, userId: Id, filters: CourseFilters, id: Id)
    requires CoursesKeyedById(courses)
    requires PageOf(filters.page) == 1
    requires |Matching(courses, instructors, userId, filters)| <= LimitOf(filters.limit)
    requires id in Matching(courses, instructors, userId, filters)
    ensures courses[id] in GetAll(courses, instructors, userId, filters).items
  {
    var matching := Matching(courses, instructors, userId, filters);
    var ids := PageKeys(matching, CreatedAt(courses), 1, LimitOf(filters.limit));
    FirstPageIsComplete(matching, CreatedAt(courses), LimitOf(filters.limit), id);
    var i :| 0 <= i < |ids| && ids[i] == id;
    assert GetAll(courses, instructors, userId, filters).items[i] == courses[id];
  }

  /** `getById`: the instructor gate, then the course. */
  function GetById(courses: map<Id, Course>, instructors: set<Edge>, userId: Id, courseId: Id): (r: Result<Course>)
    requires CoursesKeyedById(courses)
    ensures r.Ok? <==> courseId in courses && IsInstructorOrCreator(courses[courseId], instructors, userId)
    ensures r.Ok? ==> r.value == courses[courseId]
    ensures r.Err? ==> r.failure == CheckInstructorPermission(courses, instructors, userId, courseId).failure
  {
    var gate := CheckInstructorPermission(courses, instructors, userId, courseId);
    if gate.Deny? then Err(gate.failure) else Ok(courses[courseId])
  }

  /** Whatever page it appears on, a listed course can also be fetched by
      id by the same caller. */
  lemma ListedCoursesAreFetchable(courses: map<Id, Course>, instructors: set<Edge>, userId: Id, filters: CourseFilters, i: nat)
    requires CoursesKeyedById(courses) && PageOf(filters.page) >= 1
    requires i < |GetAll(courses, instructors, userId, filters).items|
    ensures var c := GetAll(courses, instructors, userId, filters).items[i];
            GetById(courses, instructors, userId, c.id) == Ok(c)
  {
    GetAllItemsMatch(courses, instructors, userId, filters);
  }

  // ---------------------------------------------------------------------
  // Writes

  datatype CreateCourseBody = CreateCourseBody(
    name: string,
    description: Option<string>,
    startDate: Timestamp,
    endDate: Timestamp)

  /** Absent fields of an update are left as they are. */
  datatype UpdateCourseBody = UpdateCourseBody(
    name: Option<string>,
    description: Option<string>,
    startDate: Option<Timestamp>,
    endDate: Option<Timestamp>)

  predicate NameTaken(courses: map<Id, Course>, name: string) {
    exists id :: id in courses && courses[id].name == name
  }

  predicate NameHeldByOther(courses: map<Id, Course>, name: string, courseId: Id) {
    exists id :: id in courses && id != courseId && courses[id].name == name
  }

  /** The course after an update: the given fields replaced, and never its
      id, creator or creation time. */
  function Patched(c: Course, data: UpdateCourseBody): (r: Course)
    ensures r.id == c.id && r.creatorId == c.creatorId && r.createdAt == c.createdAt
    ensures r.name == data.name.GetOr(c.name)
  {
    c.(name := data.name.GetOr(c.name),
       description := if data.description.Some? then data.description else c.description,
       startDate := data.startDate.GetOr(c.startDate),
       endDate := data.endDate.GetOr(c.endDate))
  }

  class CourseService {
    const db: Database

    constructor (db: Database)
      ensures this.db == db
    {
      this.db := db;
    }

    /** The creator gate over the current store. */
    function CreatorGate(userId: Id, courseId: Id): Gate
      reads db
    {
      CheckCreatorPermission(db.courses, userId, courseId)
    }

    /** `create`: a globally unique name; the caller becomes the creator
        and the course's only instructor. */
    method Create(userId: Id, data: CreateCourseBody, newId: Id, now: Timestamp) returns (r: Result<Course>)
      requires db.Valid() && newId !in db.courses
      modifies db
      ensures db.Valid()
      ensures r.Err? <==> NameTaken(old(db.courses), data.name)
      ensures r.Err? ==> r.failure == Failed(NameNotUnique) && unchanged(db)
      ensures r.Ok? ==>
                && r.value == Course(newId, data.name, data.description, data.startDate, data.endDate, userId, now)
                && db.courses == old(db.courses)[newId := r.value]
                && db.instructors == old(db.instructors) + {Edge(newId, userId)}
                && db.lessons == old(db.lessons) && db.users == old(db.users) && db.roles == old(db.roles)
      ensures r.Ok? ==> InstructorsOf(db.instructors, newId) == {userId}
      ensures r.Ok? ==> GetById(db.courses, db.instructors, userId, newId) == Ok(r.value)
    {
      if NameTaken(db.courses, data.name) {
        return Err(Failed(NameNotUnique));
      }
      var course := Course(newId, data.name, data.description, data.startDate, data.endDate, userId, now);
      db.courses := db.courses[newId := course];
      db.instructors := db.instructors + {Edge(newId, userId)};
      assert InstructorsOf(db.instructors, newId) == {userId} by {
        forall u | u in InstructorsOf(db.instructors, newId) ensures u == userId {
          var e :| e in db.instructors && e.courseId == newId && e.userId == u;
          assert e !in old(db.instructors);
        }
      }
      r := Ok(course);
    }

    /** `update`: creator only; a new name must not belong to another
        course (keeping the current name is fine); no other course
        changes. */
    method Update(userId: Id, courseId: Id, data: UpdateCourseBody) returns (r: Result<Course>)
      requires db.Valid()
      requires data.name != Some("")
      modifies db
      ensures db.Valid()
      ensures (old(CreatorGate(userId, courseId)).Deny? ==> r == Err(old(CreatorGate(userId, courseId)).failure))
      ensures (old(CreatorGate(userId, courseId)).Pass? && Given(data.name) && NameHeldByOther(old(db.courses), data.name.value, courseId) ==>
                    r == Err(Failed(NameNotUnique)))
      ensures (r.Ok? <==> old(CreatorGate(userId, courseId)).Pass? && !(Given(data.name) && NameHeldByOther(old(db.courses), data.name.value, courseId)))
      ensures r.Err? ==> unchanged(db)
      ensures r.Ok? ==>
                && r.value == Patched(old(db.courses)[courseId], data)
                && db.courses == old(db.courses)[courseId := r.value]
                && db.instructors == old(db.instructors) && db.lessons == old(db.lessons)
                && db.users == old(db.users) && db.roles == old(db.roles)
    {
      var gate := CreatorGate(userId, courseId);
      if gate.Deny? {
        return Err(gate.failure);
      }
      if Given(data.name) && NameHeldByOther(db.courses, data.name.value, courseId) {
        return Err(Failed(NameNotUnique));
      }
      var course := Patched(db.courses[courseId], data);
      db.courses := db.courses[courseId := course];
      r := Ok(course);
    }

    /** `delete`: creator only; the course goes, together with its
        instructor edges and lessons; every other row stays. */
    method Delete(userId: Id, courseId: Id) returns (r: Result<()>)
      requires db.Valid()
      modifies db
      ensures db.Valid()
      ensures (old(CreatorGate(userId, courseId)).Deny? ==> r == Err(old(CreatorGate(userId, courseId)).failure))
      ensures (r.Ok? <==> old(CreatorGate(userId, courseId)).Pass?)
      ensures r.Err? ==> unchanged(db)
      ensures r.Ok? ==>
                && db.courses == old(db.courses) - {courseId}
                && db.instructors == (set e | e in old(db.instructors) && e.courseId != courseId)
                && db.lessons == (map id | id in old(db.lessons) && old(db.lessons)[id].courseId != courseId
                                     :: old(db.lessons)[id])
                && db.users == old(db.users) && db.roles == old(db.roles)
    {
      var gate := CreatorGate(userId, courseId);
      if gate.Deny? {
        return Err(gate.failure);
      }
      db.courses := db.courses - {courseId};
      db.instructors := set e | e in db.instructors && e.courseId != courseId;
      db.lessons := map id | id in db.lessons && db.lessons[id].courseId != courseId :: db.lessons[id];
      r := Ok(());
    }

    /** `addInstructor`: creator only; the new instructor must be a known
        user (soft-deleted ones included); `candidateFetched` is the outcome
        of the external candidate lookup; the join table's `(courseId,
        userId)` key rejects a second edge for the same pair. */
    method AddInstructor(userId: Id, courseId: Id, instructorId: Id, candidateFetched: bool) returns (r: Result<Edge>)
      requires db.Valid()
      modifies db
      ensures db.Valid()
      ensures (old(CreatorGate(userId, courseId)).Deny? ==> r == Err(old(CreatorGate(userId, courseId)).failure))
      ensures (old(CreatorGate(userId, courseId)).Pass? && instructorId !in old(db.users) ==> r == Err(Failed(InstructorNotFound)))
      ensures (old(CreatorGate(userId, courseId)).Pass? && instructorId in old(db.users) && !candidateFetched ==>
                    r == Err(Failed(CandidateFetchFailed)))
      ensures (r.Ok? <==> old(CreatorGate(userId, courseId)).Pass? && instructorId in old(db.users) && candidateFetched
                             && Edge(courseId, instructorId) !in old(db.instructors))
      ensures Edge(courseId, instructorId) in old(db.instructors) ==> r.Err?
      ensures r.Err? ==> unchanged(db)
      ensures r.Ok? ==>
                && r.value == Edge(courseId, instructorId)
                && db.instructors == old(db.instructors) + {r.value}
                && db.courses == old(db.courses) && db.lessons == old(db.lessons)
                && db.users == old(db.users) && db.roles == old(db.roles)
      ensures r.Ok? ==> GetById(db.courses, db.instructors, instructorId, courseId).Ok?
    {
      var gate := CreatorGate(userId, courseId);
      if gate.Deny? {
        return Err(gate.failure);
      }
      if instructorId !in db.users {
        return Err(Failed(InstructorNotFound));
      }
      if !candidateFetched {
        return Err(Failed(CandidateFetchFailed));
      }
      var edge := Edge(courseId, instructorId);
      if edge in db.instructors {
        return Err(Failed(UniqueConstraintFailed));
      }
      db.instructors := db.instructors + {edge};
      r := Ok(edge);
    }

    /** `removeInstructor`: creator only; the edge must exist (checked
        first); the creator cannot remove themselves; exactly that edge
        goes. */
    method RemoveInstructor(userId: Id, courseId: Id, instructorId: Id) returns (r: Result<()>)
      requires db.Valid()
      modifies db
      ensures db.Valid()
      ensures (old(CreatorGate(userId, courseId)).Deny? ==> r == Err(old(CreatorGate(userId, courseId)).failure))
      ensures (old(CreatorGate(userId, courseId)).Pass? && Edge(courseId, instructorId) !in old(db.instructors) ==>
                    r == Err(Failed(InstructorNotInCourse)))
      ensures (old(CreatorGate(userId, courseId)).Pass? && Edge(courseId, instructorId) in old(db.instructors) && instructorId == userId ==>
                    r == Err(Failed(CreatorCannotBeRemoved)))
      ensures (r.Ok? <==> old(CreatorGate(userId, courseId)).Pass? && Edge(courseId, instructorId) in old(db.instructors) && instructorId != userId)
      ensures courseId in old(db.courses) && instructorId == old(db.courses)[courseId].creatorId ==> r.Err?
      ensures r.Err? ==> unchanged(db)
      ensures r.Ok? ==>
                && db.instructors == old(db.instructors) - {Edge(courseId, instructorId)}
                && db.courses == old(db.courses) && db.lessons == old(db.lessons)
                && db.users == old(db.users) && db.roles == old(db.roles)
    {
      var gate := CreatorGate(userId, courseId);
      if gate.Deny? {
        return Err(gate.failure);
      }
      var edge := Edge(courseId, instructorId);
      if edge !in db.instructors {
        return Err(Failed(InstructorNotInCourse));
      }
      if instructorId == userId {
        return Err(Failed(CreatorCannotBeRemoved));
      }
      db.instructors := db.instructors - {edge};
      r := Ok(());
    }
  }
}
