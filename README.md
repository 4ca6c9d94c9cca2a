# Authorization and store invariants of the CourseSphere and Base services

This project models, in Dafny, the server-side service layer of two
applications:

- the CourseSphere course platform: its course, lesson and user services;
- the Base template: its sample service.

Every service call does the same few things, in this order:

1. It reads some rows.
2. It decides whether the caller may act. The rules are creator-only gates,
   creator-or-instructor membership, a self or owner shortcut, a soft-delete
   filter, and a role-permission matrix.
3. It checks a uniqueness or existence rule.
4. It writes to the store.

The store is modelled in memory:

- CourseSphere: a `Database` class holding maps keyed by id (courses, lessons,
  users, roles) and a set of `(courseId, userId)` instructor edges.
- Base: a separate `SampleDatabase` holding samples, users and roles.

Files:

- `common.dfy` (module `Common`): ids and timestamps, `Option`, and the
  `Result`/`Gate` failure types. A failure is either `Unauthorized`, for the
  services' `UnauthorizedException`, or `Failed`, for a plain error.
  The file also holds the shared query machinery:
  - substring and ASCII case-insensitive matching;
  - inclusive date bounds;
  - defaults of 1 for page and 10 for limit;
  - newest-first ordering, and the page of keys at `skip = (page-1)*limit`,
    `take = limit`.
- `store.dfy` (module `Store`): the CourseSphere rows, the membership
  predicates, and the invariants that `Database.Valid()` keeps:
  - ids are keys;
  - course names are unique;
  - lesson titles are unique within a course;
  - e-mails are unique;
  - edges and lessons refer to existing courses;
  - every creator holds their own instructor edge;
  - every user's role exists.
- `courses.dfy`, `lessons.dfy`, `users.dfy`, `samples.dfy`: one module per
  service.
  - Each permission check is a pure function returning a `Gate`.
  - Each read (`getAll`, `getById`) is a function of the store.
  - Each write is a method of a service class whose `const db` is the store.
    The method states its whole effect on the store, including that a failed
    call changes nothing, and that it keeps `Valid()`.

Inputs from outside the service are parameters of the methods that use them:

- the id the store assigns to a new row (`newId`, required fresh);
- the clock (`now`);
- the argon2 hash of a submitted password (`passwordHash`);
- whether the `randomuser.me` fetch in `addInstructor` produced results
  (`candidateFetched`).

The role-permission matrix `hasPermission(permissions, action, subject)` is
defined outside the services. It is a parameter of type `Matrix` throughout.

## Model

| member | source | states |
|---|---|---|
| Courses.CheckCreatorPermission | CourseSphere/apps/server/src/entities/course/services/course.service.ts:15-23 | Passes iff the course exists and the caller is its creator. A missing course fails with "Course not found" (plain error). Otherwise an existing course fails with Unauthorized "Only the course creator can perform this action". |
| Courses.CheckInstructorPermission | CourseSphere/apps/server/src/entities/course/services/course.service.ts:25-36 | Passes iff the course exists and the caller is its creator or holds an instructor edge `(courseId, caller)`. A missing course fails with "Course not found"; any other denial is Unauthorized. |
| Courses.CreatorPassesInstructorGate | CourseSphere/apps/server/src/entities/course/services/course.service.ts:15-36 | Whoever passes the creator gate also passes the instructor gate. |
| Courses.GetAll | CourseSphere/apps/server/src/entities/course/services/course.service.ts:38-75 | `page` and `limit` are echoed, with defaults 1 and 10. `total` is the size of the whole matching set: the courses the caller creates or instructs whose name and description contain the filters case-insensitively and whose `createdAt` lies in the inclusive bounds. The page holds at most `limit` items, exactly `min(limit, total-(page-1)*limit)` when the offset is within range. |
| Courses.GetAllItemsMatch | CourseSphere/apps/server/src/entities/course/services/course.service.ts:51-67 | Every listed course is the stored course under its id, is created or instructed by the caller, and passes the filters. |
| Courses.GetAllNewestFirst | CourseSphere/apps/server/src/entities/course/services/course.service.ts:64-67 | The item at position `i` is the match at offset `(page-1)*limit + i` of the newest-first order of all matches, so consecutive pages neither overlap nor skip. The listed ids are distinct and their `createdAt` descends. |
| Courses.FirstPageListsEveryMatch | CourseSphere/apps/server/src/entities/course/services/course.service.ts:63-74 | When every match fits in one page, the first page lists each matching course. |
| Courses.GetById | CourseSphere/apps/server/src/entities/course/services/course.service.ts:77-88 | Returns the stored course iff it exists and the caller creates or instructs it. Otherwise it returns the instructor gate's failure. |
| Courses.ListedCoursesAreFetchable | CourseSphere/apps/server/src/entities/course/services/course.service.ts:38-88 | Every course that `getAll` lists, `getById` returns to the same caller. |
| Courses.CourseService.Create | CourseSphere/apps/server/src/entities/course/services/course.service.ts:90-109 | Fails with "Course name must be unique" iff some course already has the name, and then changes nothing. Otherwise it adds exactly the new course with `creatorId` = caller and exactly one instructor edge, for the caller; the new course can then be fetched by its creator. |
| Courses.CourseService.Update | CourseSphere/apps/server/src/entities/course/services/course.service.ts:111-129 | Creator-only. The new name fails iff another course (a different id) holds it, so re-submitting the course's own name succeeds. Only that course changes, and its id, creator and creation time are kept. |
| Courses.CourseService.Delete | CourseSphere/apps/server/src/entities/course/services/course.service.ts:131-136 | Creator-only. Afterwards the course id is absent and every other course is unchanged. Its instructor edges and lessons go with it. |
| Courses.CourseService.AddInstructor | CourseSphere/apps/server/src/entities/course/services/course.service.ts:138-157 | Creator-only. It then fails with "Instructor not found" for an unknown user, with "Failed to fetch instructor candidate" when the fetch has no results, and on a duplicate edge. Otherwise it adds exactly the edge `(courseId, instructorId)`, after which the instructor can fetch the course. |
| Courses.CourseService.RemoveInstructor | CourseSphere/apps/server/src/entities/course/services/course.service.ts:159-172 | Creator-only. A missing edge fails with "Instructor not found in course"; this is checked first. The caller (the creator) removing themselves fails with "Creator cannot be removed as instructor". Otherwise exactly that edge is removed. |
| Lessons.CheckInstructorOrCreatorPermission | CourseSphere/apps/server/src/entities/lesson/services/lesson.service.ts:15-33 | An unknown lesson fails with "Lesson not found". Otherwise the gate passes iff the caller created the lesson or its course. Every other caller is denied, with one message for a course instructor and another for everyone else. |
| Lessons.InstructorMayNotEditLesson | CourseSphere/apps/server/src/entities/lesson/services/lesson.service.ts:24-32 | A caller who created neither the lesson nor its course is denied, even when they hold an instructor edge to the course. |
| Lessons.CheckCourseInstructor | CourseSphere/apps/server/src/entities/lesson/services/lesson.service.ts:35-44 | An unknown course fails with "Curso não encontrado". Otherwise the gate passes iff the caller is the course creator or one of its instructors, and is Unauthorized when not. |
| Lessons.MembershipGatesAgree | CourseSphere/apps/server/src/entities/lesson/services/lesson.service.ts:35-44 | The lesson service's membership gate allows and denies exactly the callers that the course service's instructor gate does. |
| Lessons.Listed | CourseSphere/apps/server/src/entities/lesson/services/lesson.service.ts:55-86 | `page` and `limit` are echoed with defaults 1 and 10. `total` counts every lesson of a course the caller creates or instructs that matches the title (case-insensitive substring), the exact status and the exact course. The page holds at most `limit` lessons, sized as in `Courses.GetAll`. |
| Lessons.ListedItemsMatch | CourseSphere/apps/server/src/entities/lesson/services/lesson.service.ts:62-80 | Every listed lesson is the stored lesson under its id, belongs to a course the caller creates or instructs, and passes the filters. |
| Lessons.ListedNewestFirst | CourseSphere/apps/server/src/entities/lesson/services/lesson.service.ts:76-80 | The item at position `i` is the match at offset `(page-1)*limit + i` of the newest-first order of all matches. The listed ids are distinct and their `createdAt` descends. |
| Lessons.GetAll | CourseSphere/apps/server/src/entities/lesson/services/lesson.service.ts:46-90 | With a `courseId` filter it succeeds iff that course's membership gate passes, and otherwise returns the gate's failure. An unknown course gives "Curso não encontrado". On success the result is the listing. |
| Lessons.GetById | CourseSphere/apps/server/src/entities/lesson/services/lesson.service.ts:92-100 | A missing lesson fails with "Lição não encontrada" before any authorization. Otherwise it returns the lesson iff the caller creates or instructs its course, and is Unauthorized when not. |
| Lessons.ListedLessonsAreFetchable | CourseSphere/apps/server/src/entities/lesson/services/lesson.service.ts:46-100 | Every lesson that the listing returns, `getById` returns to the same caller. |
| Lessons.LessonService.Create | CourseSphere/apps/server/src/entities/lesson/services/lesson.service.ts:102-115 | Requires the course membership gate. It fails iff a lesson with the same title exists in the same course; a lesson of that title in another course does not block it. Otherwise it adds exactly the new lesson, with `creatorId` = caller, and the caller can fetch it. |
| Lessons.LessonService.Update | CourseSphere/apps/server/src/entities/lesson/services/lesson.service.ts:117-134 | Passes the update/delete gate as written. A new title fails only when a different lesson of the same course holds it. Only that lesson changes; its id, course, creator and creation time are kept. |
| Lessons.LessonService.Delete | CourseSphere/apps/server/src/entities/lesson/services/lesson.service.ts:136-141 | Passes the update/delete gate. Afterwards exactly that lesson is gone and all other tables are unchanged. |
| Users.CheckPermission | CourseSphere/apps/server/src/entities/user/services/user.service.ts:17-28 | A named target equal to the caller passes at once. Otherwise a missing or soft-deleted caller is Unauthorized "Usuário não encontrado". A caller that is not soft-deleted passes iff the matrix grants the action on the subject for their role, and is otherwise denied with "Sem permissão para <action> <subject>". |
| Users.SelfNeedsNoLookup | CourseSphere/apps/server/src/entities/user/services/user.service.ts:17-18 | Under the self shortcut, the result does not depend on the user table, the roles or the matrix. |
| Users.Listed | CourseSphere/apps/server/src/entities/user/services/user.service.ts:36-60 | `page` and `limit` are echoed. `total` counts the users that are not soft-deleted and match the name and e-mail filters (case-insensitive substring). The page holds at most `limit` users, sized as in `Courses.GetAll`. |
| Users.ListedItemsMatch | CourseSphere/apps/server/src/entities/user/services/user.service.ts:37-46 | Every listed user is the stored user under its id, is not soft-deleted, and passes the filters. |
| Users.ListedNewestFirst | CourseSphere/apps/server/src/entities/user/services/user.service.ts:42-46 | The item at position `i` is the match at offset `(page-1)*limit + i` of the newest-first order of all matches. The listed ids are distinct and their `createdAt` descends. |
| Users.GetAll | CourseSphere/apps/server/src/entities/user/services/user.service.ts:30-61 | Succeeds iff the caller exists, is not soft-deleted, and their role is granted `manage`/`all`; there is no self shortcut. A denial is Unauthorized. On success the result is the listing. |
| Users.GetById | CourseSphere/apps/server/src/entities/user/services/user.service.ts:63-81 | Self, or `manage`/`all`, is required. A missing or soft-deleted target then fails with "Usuário não encontrado". Otherwise it returns the stored user. |
| Users.SoftDeletedUserIsInvisible | CourseSphere/apps/server/src/entities/user/services/user.service.ts:30-81 | A soft-deleted user is never fetched by id, never counted, and never listed. |
| Users.UserService.Create | CourseSphere/apps/server/src/entities/user/services/user.service.ts:83-113 | Fails with "Email já em uso" when any stored user, soft-deleted ones included, has the e-mail. It then fails with "Role padrão não encontrado" when no role is named `user`. Otherwise it adds exactly the new user, with the password hash and that role's id. |
| Users.UserService.Update | CourseSphere/apps/server/src/entities/user/services/user.service.ts:115-147 | Self, or `manage`/`all`. An e-mail held by a different user then fails with "Email já em uso"; one's own e-mail succeeds. A missing or soft-deleted target fails the store's write. Otherwise only the target's row changes; its id, role, creation time and deletion state are kept, and a new password is stored as its hash. |
| Users.UserService.Delete | CourseSphere/apps/server/src/entities/user/services/user.service.ts:149-155 | Self, or `manage`/`all`. A missing or already soft-deleted target fails the store's write. Otherwise it is a soft delete: the row stays, `deletedAt` becomes the clock and `isActive` false, and no other row changes. |
| Users.UserService.ManageRole | CourseSphere/apps/server/src/entities/user/services/user.service.ts:157-179 | Requires `manage`/`roles` with no self shortcut. An unknown role fails with "Role não encontrada", and a missing or soft-deleted target then fails the store's write. Otherwise only the target's role id changes. |
| Samples.CheckPermission | Base/apps/server/src/entities/sample/services/sample.service.ts:18-37 | Passes iff the named target exists and belongs to the caller, or the caller is a known user whose role the matrix grants. An unknown caller is Unauthorized "User not found"; a known one is denied with "No <action> permission for <subject>". |
| Samples.OwnerNeedsNoLookup | Base/apps/server/src/entities/sample/services/sample.service.ts:24-27 | Under the owner shortcut, the result does not depend on the users, the roles or the matrix. |
| Samples.Listed | Base/apps/server/src/entities/sample/services/sample.service.ts:45-68 | `page` and `limit` are echoed. `total` counts the caller's own samples that match the name and description filters (case-sensitive substring) and the inclusive date bounds. The page holds at most `limit` samples, sized as in `Courses.GetAll`. |
| Samples.ListedItemsMatch | Base/apps/server/src/entities/sample/services/sample.service.ts:54-65 | Every listed sample is the stored sample under its id, is owned by the caller, and passes the filters. |
| Samples.ListedNewestFirst | Base/apps/server/src/entities/sample/services/sample.service.ts:61-65 | The item at position `i` is the match at offset `(page-1)*limit + i` of the newest-first order of all matches. The listed ids are distinct and their `createdAt` descends. |
| Samples.GetAll | Base/apps/server/src/entities/sample/services/sample.service.ts:39-69 | Succeeds iff the matrix grants `manage`/`samples` to the known caller, since there is no target and so no owner shortcut. On success the result is the listing. |
| Samples.GetById | Base/apps/server/src/entities/sample/services/sample.service.ts:78-83 | Returns the stored sample iff it exists and the caller owns it or has the grant. Authorization comes first: a caller with neither gets Unauthorized, even for a missing id. A permitted caller asking for a missing id gets "Sample not found". |
| Samples.SampleService.Create | Base/apps/server/src/entities/sample/services/sample.service.ts:71-76 | Requires the matrix grant. It adds exactly one sample, owned by the caller. |
| Samples.SampleService.Update | Base/apps/server/src/entities/sample/services/sample.service.ts:85-95 | Owner or grant. A missing sample then fails the store's write. Only that sample changes; its id, owner and creation time are kept. |
| Samples.SampleService.Delete | Base/apps/server/src/entities/sample/services/sample.service.ts:97-100 | Owner or grant. A missing sample then fails the store's write. Otherwise exactly that sample is removed and returned, and it can no longer be fetched. |
| Common.ContainsIff | CourseSphere/apps/server/src/entities/course/services/course.service.ts:57-58 | The recursive substring test used by the `contains` filters holds iff the needle occurs at some index of the haystack. |
| Common.CaseSensitiveMatchIsInsensitiveMatch | CourseSphere/apps/server/src/entities/course/services/course.service.ts:57-58 | A case-sensitive match is also a case-insensitive match. |
| Common.NewestFirst | CourseSphere/apps/server/src/entities/course/services/course.service.ts:67 | An ordering of the keys by `createdAt` descending: it lists every key exactly once and no other. |
| Common.PageKeys | CourseSphere/apps/server/src/entities/course/services/course.service.ts:65-67 | The slice at `skip = (page-1)*limit`, `take = limit` of the newest-first order. Its key at position `i` is the key at offset `skip + i` of the newest-first order, so pages of one order are disjoint. It holds at most `limit` distinct keys, exactly `min(limit, n-skip)` when `skip <= n`, and they are still sorted newest first. |
| Common.SkipTake | CourseSphere/apps/server/src/entities/course/services/course.service.ts:65-66 | Gives exactly the elements at offsets `skip .. skip+take` that exist, and nothing past the end. |

## Left out

- `hasPermission` is defined outside these services, so the model keeps it as the parameter `Matrix`. The sample service asks the matrix about subject `samples`, while the CourseSphere seed names its subject `Sample`. The model does not reconcile the two.
- The seed names its roles `Administrador` and `Usuario Padrão`, but user creation looks up a role named `user`. The model keeps the lookup as written, so with the seeded roles creation fails.
- The `randomuser.me` fetch in `addInstructor` is network I/O, so it is the boolean `candidateFetched`. A fetch that throws (a network error) is not distinguished from one without results.
- Argon2 hashing is a foreign crypto call, so the hash is the parameter `passwordHash`.
- Row ids and `now()` are parameters.
- `updatedAt` is not tracked.
- Prisma's `include`/`select` shaping is not modelled; results are whole rows. User creation, for example, returns the stored row rather than a projection without the password.
- `mode: 'insensitive'` is modelled with ASCII lower-casing only. Unicode case folding and collation are left out.
- Prisma's order among rows with equal `createdAt` is unspecified. The model does not say which order it is, but it assumes ONE shared order: `NewestFirst` fixes a single tie order, and the count and every page of every call use it. So in the model consecutive pages never overlap or skip a row. Separate `findMany` calls against the store promise no such thing when `createdAt` values are equal.
- Courses.CourseService.Delete: the course's instructor edges and lessons are removed with it. This assumes the schema's referential actions cascade; the schema is not part of this model.
- Users.UserService.Create: `isActive` starts as true, the column's default. Whether `bio` and `image` are set is taken from the request as given.
- Courses.CourseService.Update, Lessons.LessonService.Update and Users.UserService.Update require that a given name, title or e-mail is not the empty string. The request schemas reject empty values before the service is called. An empty value would skip the uniqueness check, because the service tests it for truthiness.
- Courses.GetAll, Lessons.Listed and Samples.Listed require `page >= 1`, because the service does not validate the page. For users the controller enforces it.
- Courses.GetAll, Lessons.Listed, Samples.Listed: a negative or non-integer `limit`, and a non-integer `page`, are not modelled, because both are `nat` here. Their routes only declare the query values as numbers, and the services pass them on unchecked as `skip`/`take`. The store would read a negative `take` as counting back from the end of the order and would reject a non-integer. For users the controller admits only integers, a page of at least 1 and a limit from 10 to 20.
- Prisma's "record not found" error on updating or deleting a missing row is `Failed("Record not found")`. A violated unique key is `Failed("Unique constraint failed")`. The model does not reproduce Prisma's exact messages.
- The controllers, routes, the web client and its forms, and the seed script are outside the service layer and are not modelled. The mapping of failures to HTTP status codes is left out with them.
- Every service call is one atomic step. Races between a check and the write that follows it are not modelled.
