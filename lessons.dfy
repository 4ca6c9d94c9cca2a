/** The lesson service: the lesson-edit gate (lesson creator or course
    creator), the course-membership gate, the scoped newest-first lesson
    listing, and the writes to the lesson table. */
module Lessons {
  import opened Common
  import opened Store
  import Courses

  const LessonNotFound := "Lesson not found"
  const NotInstructorOrCreator := "O usuário não é um instrutor ou criador do curso"
  const OnlyLessonOrCourseCreator := "Apenas o criador da lição ou o criador do curso pode realizar esta ação"
  const CourseNotFound := "Curso não encontrado"
  const LessonNotFoundById := "Lição não encontrada"
  const TitleNotUnique := "Título da lição deve ser único dentro do curso"

  // ---------------------------------------------------------------------
  // Gates

  /** The gate of `update` and `delete` (`checkInstructorOrCreatorPermission`):
      an unknown lesson is reported first; the lesson's creator and the
      course's creator pass; everyone else is refused, a course instructor
      included (with a different message). */
  function CheckInstructorOrCreatorPermission(lessons: map<Id, Lesson>, courses: map<Id, Course>, instructors: set<Edge>, userId: Id, lessonId: Id): (g: Gate)
    requires LessonsReferToCourses(lessons, courses)
    ensures g.Pass? <==>
              && lessonId in lessons
              && (lessons[lessonId].creatorId == userId || IsCourseCreator(courses[lessons[lessonId].courseId], userId))
    ensures lessonId !in lessons ==> g == Deny(Failed(LessonNotFound))
    ensures lessonId in lessons && g.Deny? ==>
              g == Deny(Unauthorized(
                     if Edge(lessons[lessonId].courseId, userId) in instructors
                     then OnlyLessonOrCourseCreator else NotInstructorOrCreator))
  {
    if lessonId !in lessons then Deny(Failed(LessonNotFound))
    else
      var lesson := lessons[lessonId];
      if lesson.creatorId == userId then Pass
      else if courses[lesson.courseId].creatorId == userId then Pass
      else
        var courseInstructor := Edge(lesson.courseId, userId) in instructors;
        if !courseInstructor then Deny(Unauthorized(NotInstructorOrCreator))
        else Deny(Unauthorized(OnlyLessonOrCourseCreator))
  }

  /** A caller who is only an instructor of the lesson's course may not
      update or delete it. */
  lemma InstructorMayNotEditLesson(lessons: map<Id, Lesson>, courses: map<Id, Course>, instructors: set<Edge>, userId: Id, lessonId: Id)
    requires LessonsReferToCourses(lessons, courses)
    requires lessonId in lessons && lessons[lessonId].creatorId != userId
    requires !IsCourseCreator(courses[lessons[lessonId].courseId], userId)
    ensures CheckInstructorOrCreatorPermission(lessons, courses, instructors, userId, lessonId).Deny?
  {
  }

  /** `checkCourseInstructor`: an unknown course is reported first; the
      creator and anyone in the course's instructor list pass. */
  function CheckCourseInstructor(courses: map<Id, Course>, instructors: set<Edge>, userId: Id, courseId: Id): (g: Gate)
    requires CoursesKeyedById(courses)
    ensures g.Pass? <==> courseId in courses && IsInstructorOrCreator(courses[courseId], instructors, userId)
    ensures courseId !in courses ==> g == Deny(Failed(CourseNotFound))
    ensures courseId in courses && g.Deny? ==> g == Deny(Unauthorized(NotInstructorOrCreator))
  {
    if courseId !in courses then Deny(Failed(CourseNotFound))
    else if courses[courseId].creatorId == userId then Pass
    else if userId in InstructorsOf(instructors, courseId) then Pass
    else Deny(Unauthorized(NotInstructorOrCreator))
  }

  /** The lesson service's membership gate and the course service's
      instructor gate decide alike, and fail with the same kind of error. */
  lemma MembershipGatesAgree(courses: map<Id, Course>, instructors: set<Edge>, userId: Id, courseId: Id)
    requires CoursesKeyedById(courses)
    ensures var mine := CheckCourseInstructor(courses, instructors, userId, courseId);
            var theirs := Courses.CheckInstructorPermission(courses, instructors, userId, courseId);
            && (mine.Pass? <==> theirs.Pass?)
            && (mine.Deny? ==> mine.failure.Unauthorized? == theirs.failure.Unauthorized?)
  {
  }

  // ---------------------------------------------------------------------
  // Queries

  datatype LessonFilters = LessonFilters(
    title: Option<string>,
    status: Option<LessonStatus>,
    courseId: Option<Id>,
    page: Option<nat>,
    limit: Option<nat>)

  /** The optional filters of `getAll`: case-insensitive substring on the
      title, exact status, exact course. */
  predicate MatchesFilters(l: Lesson, f: LessonFilters) {
    && (Given(f.title) ==> ContainsInsensitive(l.title, f.title.value))
    && (f.status.Some? ==> l.status == f.status.value)
    && (Given(f.courseId) ==> l.courseId == f.courseId.value)
  }

  /** The ids `getAll` counts: lessons of courses the caller creates or
      instructs that pass the filters. */
  ghost function Matching(lessons: map<Id, Lesson>, courses: map<Id, Course>, instructors: set<Edge>, userId: Id, f: LessonFilters): (r: set<Id>)
    requires LessonsReferToCourses(lessons, courses)
    ensures r <= lessons.Keys
  {
    set id | id in lessons && IsInstructorOrCreator(courses[lessons[id].courseId], instructors, userId)
                           && MatchesFilters(lessons[id], f)
  }

  /** The creation time of every stored lesson, by id. */
  function CreatedAt(lessons: map<Id, Lesson>): (r: map<Id, Timestamp>)
    ensures r.Keys == lessons.Keys
    ensures forall id :: id in lessons ==> r[id] == lessons[id].createdAt
  {
    map id | id in lessons :: lessons[id].createdAt
  }

  /** A lesson's own key in the lesson table. */
  function LessonId(l: Lesson): Id {
    l.id
  }

  /** The query of `getAll`: one newest-first page of the matching
      lessons, the size of the whole matching set, and the page and limit
      used. What the page holds is stated by `ListedItemsMatch` and
      `ListedNewestFirst`. */
  ghost function Listed(lessons: map<Id, Lesson>, courses: map<Id, Course>, instructors: set<Edge>, userId: Id, filters: LessonFilters): (r: Listing<Lesson>)
    requires LessonsKeyedById(lessons) && LessonsReferToCourses(lessons, courses)
    requires PageOf(filters.page) >= 1
    ensures r.page == PageOf(filters.page) && r.limit == LimitOf(filters.limit)
    ensures r.total == |Matching(lessons, courses, instructors, userId, filters)|
    ensures |r.items| <= r.limit
    ensures Skip(r.page, r.limit) <= r.total ==>
              |r.items| == Min(r.limit, r.total - Skip(r.page, r.limit))
  {
    var matching := Matching(lessons, courses, instructors, userId, filters);
    var page, limit := PageOf(filters.page), LimitOf(filters.limit);
    Listing(PageRows(matching, CreatedAt(lessons), lessons, LessonId, page, limit), |matching|, page, limit)
  }

  /** Every listed lesson is stored under its id, belongs to a course the
      caller creates or instructs, and passes the filters. */
  lemma ListedItemsMatch(lessons: map<Id, Lesson>, courses: map<Id, Course>, instructors: set<Edge>, userId: Id, filters: LessonFilters)
    requires LessonsKeyedById(lessons) && LessonsReferToCourses(lessons, courses)
    requires PageOf(filters.page) >= 1
    ensures var items := Listed(lessons, courses, instructors, userId, filters).items;
            forall i :: 0 <= i < |items| ==>
              && items[i].id in lessons && lessons[items[i].id] == items[i]
              && IsInstructorOrCreator(courses[items[i].courseId], instructors, userId)
              && MatchesFilters(items[i], filters)
  {
    var matching := Matching(lessons, courses, instructors, userId, filters);
    var ids := PageKeys(matching, CreatedAt(lessons), PageOf(filters.page), LimitOf(filters.limit));
    var items := Listed(lessons, courses, instructors, userId, filters).items;
    forall i | 0 <= i < |items|
      ensures items[i].id in lessons && lessons[items[i].id] == items[i]
      ensures IsInstructorOrCreator(courses[items[i].courseId], instructors, userId) && MatchesFilters(items[i], filters)
    {
      assert items[i].id == ids[i] && ids[i] in matching;
    }
  }

  /** The listed lessons are distinct and newest first: the item at
      position `i` is the one at offset `(page-1)*limit + i` of the
      newest-first order of all matches, so successive pages neither
      overlap nor skip a lesson. */
  lemma ListedNewestFirst(lessons: map<Id, Lesson>, courses: map<Id, Course>, instructors: set<Edge>, userId: Id, filters: LessonFilters)
    requires LessonsKeyedById(lessons) && LessonsReferToCourses(lessons, courses)
    requires PageOf(filters.page) >= 1
    ensures var r := Listed(lessons, courses, instructors, userId, filters);
            forall i :: 0 <= i < |r.items| ==>
              && Skip(r.page, r.limit) + i < r.total
              && r.items[i].id == NewestFirst(Matching(lessons, courses, instructors, userId, filters), CreatedAt(lessons))[Skip(r.page, r.limit) + i]
    ensures var items := Listed(lessons, courses, instructors, userId, filters).items;
            forall i, j :: 0 <= i < j < |items| ==>
              items[i].id != items[j].id && items[i].createdAt >= items[j].createdAt
  {
    var matching := Matching(lessons, courses, instructors, userId, filters);
    var stamps := CreatedAt(lessons);
    var ids := PageKeys(matching, stamps, PageOf(filters.page), LimitOf(filters.limit));
    var items := Listed(lessons, courses, instructors, userId, filters).items;
    assert forall i :: 0 <= i < |items| ==> items[i].id == ids[i] && stamps[ids[i]] == items[i].createdAt;
  }

  /** `getAll`: with a course filter, the caller must create or instruct
      that course (the failure is the gate's); otherwise the listing. */
  ghost function GetAll(lessons: map<Id, Lesson>, courses: map<Id, Course>, instructors: set<Edge>, userId: Id, filters: LessonFilters): (r: Result<Listing<Lesson>>)
    requires CoursesKeyedById(courses) && LessonsKeyedById(lessons)
    requires LessonsReferToCourses(lessons, courses)
    requires PageOf(filters.page) >= 1
    ensures Given(filters.courseId) && filters.courseId.value !in courses ==> r == Err(Failed(CourseNotFound))
    ensures r.Ok? <==>
              !Given(filters.courseId)
              || (filters.courseId.value in courses
                  && IsInstructorOrCreator(courses[filters.courseId.value], instructors, userId))
    ensures r.Err? ==> r == Err(CheckCourseInstructor(courses, instructors, userId, filters.courseId.value).failure)
    ensures r.Ok? ==> r.value == Listed(lessons, courses, instructors, userId, filters)
  {
    if Given(filters.courseId) && CheckCourseInstructor(courses, instructors, userId, filters.courseId.value).Deny? then
      Err(CheckCourseInstructor(courses, instructors, userId, filters.courseId.value).failure)
    else
      Ok(Listed(lessons, courses, instructors, userId, filters))
  }

  /** `getById`: a missing lesson is reported before any authorization;
      then the caller must create or instruct the lesson's course. */
  function GetById(lessons: map<Id, Lesson>, courses: map<Id, Course>, instructors: set<Edge>, userId: Id, lessonId: Id): (r: Result<Lesson>)
    requires CoursesKeyedById(courses) && LessonsReferToCourses(lessons, courses)
    ensures lessonId !in lessons ==> r == Err(Failed(LessonNotFoundById))
    ensures r.Ok? <==>
              lessonId in lessons && IsInstructorOrCreator(courses[lessons[lessonId].courseId], instructors, userId)
    ensures r.Ok? ==> r.value == lessons[lessonId]
    ensures lessonId in lessons && r.Err? ==> r.failure == Unauthorized(NotInstructorOrCreator)
  {
    if lessonId !in lessons then Err(Failed(LessonNotFoundById))
    else
      var gate := CheckCourseInstructor(courses, instructors, userId, lessons[lessonId].courseId);
      if gate.Deny? then Err(gate.failure) else Ok(lessons[lessonId])
  }

  /** A listed lesson can also be fetched by id by the same caller. */
  lemma ListedLessonsAreFetchable(lessons: map<Id, Lesson>, courses: map<Id, Course>, instructors: set<Edge>, userId: Id, filters: LessonFilters, i: nat)
    requires CoursesKeyedById(courses) && LessonsKeyedById(lessons)
    requires LessonsReferToCourses(lessons, courses)
    requires PageOf(filters.page) >= 1
    requires i < |Listed(lessons, courses, instructors, userId, filters).items|
    ensures var l := Listed(lessons, courses, instructors, userId, filters).items[i];
            GetById(lessons, courses, instructors, userId, l.id) == Ok(l)
  {
    ListedItemsMatch(lessons, courses, instructors, userId, filters);
  }

  // ---------------------------------------------------------------------
  // Writes

  datatype CreateLessonBody = CreateLessonBody(
    title: string,
    status: LessonStatus,
    publishDate: Timestamp,
    videoUrl: string,
    youtubeId: Option<string>,
    thumbnailUrl: Option<string>,
    courseId: Id)

  /** Absent fields of an update are left as they are; the course of a
      lesson cannot be changed. */
  datatype UpdateLessonBody = UpdateLessonBody(
    title: Option<string>,
    status: Option<LessonStatus>,
    publishDate: Option<Timestamp>,
    videoUrl: Option<string>,
    youtubeId: Option<string>,
    thumbnailUrl: Option<string>)

  predicate TitleTaken(lessons: map<Id, Lesson>, courseId: Id, title: string) {
    exists id :: id in lessons && lessons[id].courseId == courseId && lessons[id].title == title
  }

  /** The new title of an update belongs to another lesson of the same
      course. */
  predicate RetitleClashes(lessons: map<Id, Lesson>, lessonId: Id, title: Option<string>)
    requires lessonId in lessons
  {
    && Given(title)
    && exists id :: id in lessons && id != lessonId && lessons[id].courseId == lessons[lessonId].courseId
                                  && lessons[id].title == title.value
  }

  /** The lesson after an update: the given fields replaced, and never its
      id, course, creator or creation time. */
  function Patched(l: Lesson, data: UpdateLessonBody): (r: Lesson)
    ensures r.id == l.id && r.courseId == l.courseId && r.creatorId == l.creatorId && r.createdAt == l.createdAt
    ensures r.title == data.title.GetOr(l.title)
  {
    l.(title := data.title.GetOr(l.title),
       status := data.status.GetOr(l.status),
       publishDate := data.publishDate.GetOr(l.publishDate),
       videoUrl := data.videoUrl.GetOr(l.videoUrl),
       youtubeId := if data.youtubeId.Some? then data.youtubeId else l.youtubeId,
       thumbnailUrl := if data.thumbnailUrl.Some? then data.thumbnailUrl else l.thumbnailUrl)
  }

  class LessonService {
    const db: Database

    constructor (db: Database)
      ensures this.db == db
    {
      this.db := db;
    }

    /** The course-membership gate over the current store. */
    function MemberGate(userId: Id, courseId: Id): Gate
      requires db.Valid()
      reads db
    {
      CheckCourseInstructor(db.courses, db.instructors, userId, courseId)
    }

    /** The update/delete gate over the current store. */
    function EditGate(userId: Id, lessonId: Id): Gate
      requires db.Valid()
      reads db
    {
      CheckInstructorOrCreatorPermission(db.lessons, db.courses, db.instructors, userId, lessonId)
    }

    /** `create`: the caller must create or instruct the target course,
        and the title must be new within that course (the same title in
        another course is fine); the caller becomes the lesson's creator. */
    method Create(userId: Id, data: CreateLessonBody, newId: Id, now: Timestamp) returns (r: Result<Lesson>)
      requires db.Valid() && newId !in db.lessons
      modifies db
      ensures db.Valid()
      ensures (old(MemberGate(userId, data.courseId)).Deny? ==> r == Err(old(MemberGate(userId, data.courseId)).failure))
      ensures (old(MemberGate(userId, data.courseId)).Pass? && TitleTaken(old(db.lessons), data.courseId, data.title) ==>
                    r == Err(Failed(TitleNotUnique)))
      ensures (r.Ok? <==> old(MemberGate(userId, data.courseId)).Pass? && !TitleTaken(old(db.lessons), data.courseId, data.title))
      ensures r.Err? ==> unchanged(db)
      ensures r.Ok? ==>
                && r.value == Lesson(newId, data.title, data.status, data.publishDate, data.videoUrl,
                                     data.youtubeId, data.thumbnailUrl, data.courseId, userId, now)
                && db.lessons == old(db.lessons)[newId := r.value]
                && db.courses == old(db.courses) && db.instructors == old(db.instructors)
                && db.users == old(db.users) && db.roles == old(db.roles)
      ensures r.Ok? ==> GetById(db.lessons, db.courses, db.instructors, userId, newId) == Ok(r.value)
    {
      var gate := MemberGate(userId, data.courseId);
      if gate.Deny? {
        return Err(gate.failure);
      }
      if TitleTaken(db.lessons, data.courseId, data.title) {
        return Err(Failed(TitleNotUnique));
      }
      var lesson := Lesson(newId, data.title, data.status, data.publishDate, data.videoUrl,
                           data.youtubeId, data.thumbnailUrl, data.courseId, userId, now);
      db.lessons := db.lessons[newId := lesson];
      r := Ok(lesson);
    }

    /** `update`: the lesson-edit gate; a new title must not belong to
        another lesson of the same course (keeping the current title is
        fine); no other lesson changes. */
    method Update(userId: Id, lessonId: Id, data: UpdateLessonBody) returns (r: Result<Lesson>)
      requires db.Valid()
      requires data.title != Some("")
      modifies db
      ensures db.Valid()
      ensures (old(EditGate(userId, lessonId)).Deny? ==> r == Err(old(EditGate(userId, lessonId)).failure))
      ensures (old(EditGate(userId, lessonId)).Pass? && RetitleClashes(old(db.lessons), lessonId, data.title) ==>
                    r == Err(Failed(TitleNotUnique)))
      ensures (r.Ok? <==> old(EditGate(userId, lessonId)).Pass? && !RetitleClashes(old(db.lessons), lessonId, data.title))
      ensures r.Err? ==> unchanged(db)
      ensures r.Ok? ==>
                && r.value == Patched(old(db.lessons)[lessonId], data)
                && db.lessons == old(db.lessons)[lessonId := r.value]
                && db.courses == old(db.courses) && db.instructors == old(db.instructors)
                && db.users == old(db.users) && db.roles == old(db.roles)
    {
      var gate := EditGate(userId, lessonId);
      if gate.Deny? {
        return Err(gate.failure);
      }
      if RetitleClashes(db.lessons, lessonId, data.title) {
        return Err(Failed(TitleNotUnique));
      }
      var lesson := Patched(db.lessons[lessonId], data);
      db.lessons := db.lessons[lessonId := lesson];
      r := Ok(lesson);
    }

    /** `delete`: the lesson-edit gate; exactly that lesson goes. */
    method Delete(userId: Id, lessonId: Id) returns (r: Result<()>)
      requires db.Valid()
      modifies db
      ensures db.Valid()
      ensures (old(EditGate(userId, lessonId)).Deny? ==> r == Err(old(EditGate(userId, lessonId)).failure))
      ensures (r.Ok? <==> old(EditGate(userId, lessonId)).Pass?)
      ensures r.Err? ==> unchanged(db)
      ensures r.Ok? ==>
                && db.lessons == old(db.lessons) - {lessonId}
                && db.courses == old(db.courses) && db.instructors == old(db.instructors)
                && db.users == old(db.users) && db.roles == old(db.roles)
    {
      var gate := EditGate(userId, lessonId);
      if gate.Deny? {
        return Err(gate.failure);
      }
      db.lessons := db.lessons - {lessonId};
      r := Ok(());
    }
  }
}
