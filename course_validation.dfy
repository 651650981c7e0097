/** The course schemas, as predicates over the fields of a parsed JSON body. String lengths
    are counted in characters. */
module CourseValidation {
  import opened Common

  datatype CourseBody = CourseBody(
    title: JsonField, description: JsonField, price: JsonField,
    duration: JsonField, level: JsonField, capacity: JsonField)

  /** `courseLevelEnum`. */
  const CourseLevels: set<string> := {"BEGINNER", "INTERMEDIATE", "ADVANCED", "ALL_LEVELS"}

  predicate MinLength(f: JsonField, n: nat)
  {
    f.Str? && |f.s| >= n
  }

  predicate PositiveNumber(f: JsonField)
  {
    f.Num? && f.x > 0.0
  }

  /** `z.number().int().positive()`. */
  predicate PositiveInteger(f: JsonField)
  {
    f.Num? && f.x > 0.0 && f.x.Floor as real == f.x
  }

  predicate ValidTitle(f: JsonField) { MinLength(f, 2) }
  predicate ValidDescription(f: JsonField) { MinLength(f, 10) }
  predicate ValidPrice(f: JsonField) { PositiveNumber(f) }
  predicate ValidDuration(f: JsonField) { PositiveInteger(f) }
  predicate ValidLevel(f: JsonField) { f.Str? && f.s in CourseLevels }
  predicate ValidCapacity(f: JsonField) { PositiveInteger(f) }

  /** `createCourseSchema`: every field present and valid. */
  predicate ValidCreateCourse(b: CourseBody)
    ensures ValidCreateCourse(b) ==> AllPresent(b)
  {
    ValidTitle(b.title) && ValidDescription(b.description) && ValidPrice(b.price) &&
    ValidDuration(b.duration) && ValidLevel(b.level) && ValidCapacity(b.capacity)
  }

  /** `updateCourseSchema = createCourseSchema.partial()`: every field optional, and a
      present field must pass the creation check. */
  predicate ValidUpdateCourse(b: CourseBody)
    ensures b == CourseBody(Absent, Absent, Absent, Absent, Absent, Absent) ==> ValidUpdateCourse(b)
  {
    (b.title.Absent? || ValidTitle(b.title)) &&
    (b.description.Absent? || ValidDescription(b.description)) &&
    (b.price.Absent? || ValidPrice(b.price)) &&
    (b.duration.Absent? || ValidDuration(b.duration)) &&
    (b.level.Absent? || ValidLevel(b.level)) &&
    (b.capacity.Absent? || ValidCapacity(b.capacity))
  }

  predicate AllPresent(b: CourseBody)
  {
    !b.title.Absent? && !b.description.Absent? && !b.price.Absent? &&
    !b.duration.Absent? && !b.level.Absent? && !b.capacity.Absent?
  }

  /** The partial schema is the full one with presence dropped: a body passes creation
      exactly when it has every field and passes the update check; the empty body passes
      the update check. */
  lemma PartialIsCreateWithoutPresence(b: CourseBody)
    ensures ValidCreateCourse(b) <==> AllPresent(b) && ValidUpdateCourse(b)
    ensures ValidUpdateCourse(CourseBody(Absent, Absent, Absent, Absent, Absent, Absent))
  {
  }

  /** What a valid course guarantees: a title of at least 2 and a description of at least 10
      characters, a positive price, a whole positive duration and capacity, and a level among
      the four. */
  lemma CreateCourseGuarantees(b: CourseBody)
    requires ValidCreateCourse(b)
    ensures b.title.Str? && |b.title.s| >= 2 && b.description.Str? && |b.description.s| >= 10
    ensures b.price.Num? && b.price.x > 0.0
    ensures b.duration.Num? && b.duration.x >= 1.0 && b.capacity.Num? && b.capacity.x >= 1.0
    ensures b.duration.x.Floor as real == b.duration.x && b.capacity.x.Floor as real == b.capacity.x
    ensures b.level in {Str("BEGINNER"), Str("INTERMEDIATE"), Str("ADVANCED"), Str("ALL_LEVELS")}
  {
    assert b.duration.x.Floor >= 1 && b.capacity.x.Floor >= 1;
  }
}
