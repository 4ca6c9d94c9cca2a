/** The CourseSphere store as the course, lesson and user services see it:
    tables keyed by id, the course-instructor join table keyed by the
    `(courseId, userId)` pair, and the roles with their permission lists.
    The invariants are the ones the services' checks keep (unique course
    names, unique lesson titles within a course, unique e-mails, the
    creator's own instructor edge) together with the store's referential
    integrity. */
module Store {
  import opened Common

  datatype LessonStatus = Draft | Published | Archived

  datatype Course = Course(
    id: Id,
    name: string,
    description: Option<string>,
    startDate: Timestamp,
    endDate: Timestamp,
    creatorId: Id,
    createdAt: Timestamp)

  datatype Lesson = Lesson(
    id: Id,
    title: string,
    status: LessonStatus,
    publishDate: Timestamp,
    videoUrl: string,
    youtubeId: Option<string>,
    thumbnailUrl: Option<string>,
    courseId: Id,
    creatorId: Id,
    createdAt: Timestamp)

  /** `password` holds the stored hash; `deletedAt` is the soft-delete
      marker. */
  datatype User = User(
    id: Id,
    name: string,
    email: string,
    password: string,
    bio: Option<string>,
    image: Option<string>,
    createdAt: Timestamp,
    isActive: bool,
    deletedAt: Option<Timestamp>,
    roleId: nat)

  /** A row of the course-instructor join table. */
  datatype Edge = Edge(courseId: Id, userId: Id)

  // ---------------------------------------------------------------------
  // Who may act on a course

  /** The caller created the course. */
  predicate IsCourseCreator(course: Course, userId: Id) {
    course.creatorId == userId
  }

  /** The caller created the course or holds an instructor edge to it. */
  predicate IsInstructorOrCreator(course: Course, instructors: set<Edge>, userId: Id) {
    course.creatorId == userId || Edge(course.id, userId) in instructors
  }

  /** The users holding an instructor edge to `courseId`. */
  function InstructorsOf(instructors: set<Edge>, courseId: Id): set<Id> {
    set e | e in instructors && e.courseId == courseId :: e.userId
  }

  // ---------------------------------------------------------------------
  // Invariants of the tables

  ghost predicate CoursesKeyedById(courses: map<Id, Course>) {
    forall id :: id in courses ==> courses[id].id == id
  }

  ghost predicate LessonsKeyedById(lessons: map<Id, Lesson>) {
    forall id :: id in lessons ==> lessons[id].id == id
  }

  ghost predicate UsersKeyedById(users: map<Id, User>) {
    forall id :: id in users ==> users[id].id == id
  }

  /** `name` is a unique column of the course table. */
  ghost predicate CourseNamesUnique(courses: map<Id, Course>) {
    forall a, b :: a in courses && b in courses && courses[a].name == courses[b].name ==> a == b
  }

  /** Every instructor edge points at an existing course. */
  ghost predicate EdgesReferToCourses(instructors: set<Edge>, courses: map<Id, Course>) {
    forall e :: e in instructors ==> e.courseId in courses
  }

  /** Every course creator holds an instructor edge to their course. */
  ghost predicate CreatorsAreInstructors(courses: map<Id, Course>, instructors: set<Edge>) {
    forall id :: id in courses ==> Edge(id, courses[id].creatorId) in instructors
  }

  /** Every lesson belongs to an existing course. */
  ghost predicate LessonsReferToCourses(lessons: map<Id, Lesson>, courses: map<Id, Course>) {
    forall id :: id in lessons ==> lessons[id].courseId in courses
  }

  /** No two lessons of one course share a title. */
  ghost predicate LessonTitlesUniquePerCourse(lessons: map<Id, Lesson>) {
    forall a, b ::
      (a in lessons && b in lessons && lessons[a].courseId == lessons[b].courseId
       && lessons[a].title == lessons[b].title) ==> a == b
  }

  /** `email` is a unique column of the user table (soft-deleted rows
      included). */
  ghost predicate EmailsUnique(users: map<Id, User>) {
    forall a, b :: a in users && b in users && users[a].email == users[b].email ==> a == b
  }

  ghost predicate UsersHaveRoles(users: map<Id, User>, roles: map<nat, Role>) {
    forall id :: id in users ==> users[id].roleId in roles
  }

  /** The store shared by the services. */
  class Database {
    var courses: map<Id, Course>
    var instructors: set<Edge>
    var lessons: map<Id, Lesson>
    var users: map<Id, User>
    var roles: map<nat, Role>

    ghost predicate Valid()
      reads this
    {
      && CoursesKeyedById(courses)
      && CourseNamesUnique(courses)
      && EdgesReferToCourses(instructors, courses)
      && CreatorsAreInstructors(courses, instructors)
      && LessonsKeyedById(lessons)
      && LessonsReferToCourses(lessons, courses)
      && LessonTitlesUniquePerCourse(lessons)
      && UsersKeyedById(users)
      && EmailsUnique(users)
      && UsersHaveRoles(users, roles)
    }

    /** A store with the given roles and no other rows. */
    constructor (roles: map<nat, Role>)
      ensures Valid()
      ensures courses == map[] && instructors == {} && lessons == map[]
      ensures users == map[] && this.roles == roles
    {
      courses, instructors, lessons := map[], {}, map[];
      users, this.roles := map[], roles;
    }
  }
}
