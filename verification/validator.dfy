/**
 * The input rules for a course (the course form and the edit action) and
 * for an upload request (the presigned-upload route). Each rule is a check
 * with its own issue message; a record passes when no check fails.
 */
module Validator {
  import opened Wrappers

  const CourseLevels: seq<string> := ["Beginner", "Intermediate", "Advanced"]
  const CourseStatuses: seq<string> := ["Draft", "Published", "Archived"]
  const CourseCategories: seq<string> := [
    "Development",
    "Business",
    "Finance",
    "IT & Software",
    "Office Productivity",
    "Personal Development",
    "Design",
    "Marketing",
    "Health & Fitness",
    "Music",
    "Teaching & Academics"
  ]

  // ---------------------------------------------------------------------
  // Courses
  // ---------------------------------------------------------------------

  /** A course as the form submits it; price and duration after coercion to numbers. */
  datatype CourseInput = CourseInput(
    title: string,
    description: string,
    fileKey: string,
    price: real,
    duration: real,
    level: string,
    category: string,
    smallDescription: string,
    slug: string,
    status: string)

  /** One check of the course schema, each with the field it reports on and its message. */
  datatype CourseCheck =
    | TitleMin | TitleMax | DescriptionMin | FileKeyMin | PriceMin | DurationMin | DurationMax
    | LevelEnum | CategoryEnum | SmallDescriptionMin | SmallDescriptionMax | SlugMin | StatusEnum
  {
    function Path(): string {
      match this
      case TitleMin | TitleMax => "title"
      case DescriptionMin => "description"
      case FileKeyMin => "fileKey"
      case PriceMin => "price"
      case DurationMin | DurationMax => "duration"
      case LevelEnum => "level"
      case CategoryEnum => "category"
      case SmallDescriptionMin | SmallDescriptionMax => "smallDescription"
      case SlugMin => "slug"
      case StatusEnum => "status"
    }

    function Message(): string {
      match this
      case TitleMin => "Please provide a title for the course"
      case TitleMax => "The title shouldn't exceed 100 characters"
      case DescriptionMin => "Please provide a description for the course"
      case FileKeyMin => "File is required"
      case PriceMin => "The price must be a positive number"
      case DurationMin => "Duration must be at least 1 hour long"
      case DurationMax => "Duration shouldn't exceed 500 hours long"
      case LevelEnum => "Level is required"
      case CategoryEnum => "Category is required"
      case SmallDescriptionMin => "Please provide a small description for the course"
      // The enforced bound is 100; the message speaks of 200.
      case SmallDescriptionMax => "The small description shouldn't exceed 200 characters"
      case SlugMin => "Please provide a slug"
      case StatusEnum => "Status is required"
    }
  }

  /** The checks in the order the schema declares them, which is the order issues are reported in. */
  const CourseChecks: seq<CourseCheck> := [
    TitleMin, TitleMax, DescriptionMin, FileKeyMin, PriceMin, DurationMin, DurationMax,
    LevelEnum, CategoryEnum, SmallDescriptionMin, SmallDescriptionMax, SlugMin, StatusEnum
  ]

  /** Whether one check rejects the course. */
  predicate CourseCheckFails(c: CourseInput, k: CourseCheck) {
    match k
    case TitleMin => |c.title| < 1
    case TitleMax => |c.title| > 100
    case DescriptionMin => |c.description| < 1
    case FileKeyMin => |c.fileKey| < 1
    case PriceMin => c.price < 1.0
    case DurationMin => c.duration < 1.0
    case DurationMax => c.duration > 500.0
    case LevelEnum => c.level !in CourseLevels
    case CategoryEnum => c.category !in CourseCategories
    case SmallDescriptionMin => |c.smallDescription| < 1
    case SmallDescriptionMax => |c.smallDescription| > 100
    case SlugMin => |c.slug| < 3
    case StatusEnum => c.status !in CourseStatuses
  }

  /** A course the schema accepts, field by field. */
  predicate ValidCourse(c: CourseInput) {
    && 1 <= |c.title| <= 100
    && 1 <= |c.description|
    && 1 <= |c.fileKey|
    && 1.0 <= c.price
    && 1.0 <= c.duration <= 500.0
    && c.level in CourseLevels
    && c.category in CourseCategories
    && 1 <= |c.smallDescription| <= 100
    && 3 <= |c.slug|
    && c.status in CourseStatuses
  }

  /** The checks of `checks` that reject the course, in their order. */
  function FailingCourseChecks(c: CourseInput, checks: seq<CourseCheck>): (r: seq<CourseCheck>)
    ensures forall k :: k in r <==> k in checks && CourseCheckFails(c, k)
    ensures |r| <= |checks|
  {
    if checks == [] then []
    else
      var rest := FailingCourseChecks(c, checks[1..]);
      if CourseCheckFails(c, checks[0]) then [checks[0]] + rest else rest
  }

  lemma AllCourseChecksListed(k: CourseCheck)
    ensures k in CourseChecks
  {
  }

  /**
   * Parsing a course: the issues it raises, one per failing check. There
   * are none exactly when the course is valid.
   */
  function CourseIssues(c: CourseInput): (r: seq<CourseCheck>)
    ensures forall k :: k in r <==> CourseCheckFails(c, k)
    ensures r == [] <==> ValidCourse(c)
  {
    var r := FailingCourseChecks(c, CourseChecks);
    forall k | true ensures k in r <==> CourseCheckFails(c, k) {
      AllCourseChecksListed(k);
    }
    if r == [] then
      assert !CourseCheckFails(c, TitleMin) && !CourseCheckFails(c, TitleMax);
      assert !CourseCheckFails(c, DescriptionMin) && !CourseCheckFails(c, FileKeyMin);
      assert !CourseCheckFails(c, PriceMin) && !CourseCheckFails(c, DurationMin) && !CourseCheckFails(c, DurationMax);
      assert !CourseCheckFails(c, LevelEnum) && !CourseCheckFails(c, CategoryEnum);
      assert !CourseCheckFails(c, SmallDescriptionMin) && !CourseCheckFails(c, SmallDescriptionMax);
      assert !CourseCheckFails(c, SlugMin) && !CourseCheckFails(c, StatusEnum);
      r
    else
      assert CourseCheckFails(c, r[0]);
      r
  }

  /** A small description of 101 to 200 characters is refused, with a message that speaks of 200. */
  lemma SmallDescriptionBoundIsHundred(c: CourseInput)
    requires 100 < |c.smallDescription| <= 200
    ensures !ValidCourse(c)
    ensures SmallDescriptionMax in CourseIssues(c)
    ensures SmallDescriptionMax.Message() == "The small description shouldn't exceed 200 characters"
  {
  }

  // ---------------------------------------------------------------------
  // Upload requests
  // ---------------------------------------------------------------------

  /** A field of a parsed JSON body. NaN and the infinities are not represented. */
  datatype JsonValue = JString(str: string) | JNumber(num: real) | JBool(flag: bool) | JNull | JAbsent

  /** The fields of an upload request body the schema looks at. */
  datatype UploadBody = UploadBody(fileName: JsonValue, contentType: JsonValue, fileSize: JsonValue, isImage: JsonValue)

  /** The body once it is known to be well-typed and within bounds. */
  datatype UploadRequest = UploadRequest(fileName: string, contentType: string, fileSize: real, isImage: bool)

  /**
   * One check of the upload schema. A field of the wrong type fails its
   * type check only; its bound is not looked at.
   */
  datatype UploadCheck =
    | FileNameType | FileNameMin | ContentTypeType | ContentTypeMin | FileSizeType | FileSizeMin | IsImageType
  {
    /** The message written in the schema; the type checks use the library's default wording. */
    function CustomMessage(): Option<string> {
      match this
      case FileNameMin => Some("File Name if required")
      case ContentTypeMin => Some("Content Type is required")
      case FileSizeMin => Some("File size if required")
      case _ => None
    }
  }

  const UploadChecks: seq<UploadCheck> :=
    [FileNameType, FileNameMin, ContentTypeType, ContentTypeMin, FileSizeType, FileSizeMin, IsImageType]

  predicate UploadCheckFails(u: UploadBody, k: UploadCheck) {
    match k
    case FileNameType => !u.fileName.JString?
    case FileNameMin => u.fileName.JString? && |u.fileName.str| < 1
    case ContentTypeType => !u.contentType.JString?
    case ContentTypeMin => u.contentType.JString? && |u.contentType.str| < 1
    case FileSizeType => !u.fileSize.JNumber?
    case FileSizeMin => u.fileSize.JNumber? && u.fileSize.num < 1.0
    case IsImageType => !u.isImage.JBool?
  }

  /** An upload body the schema accepts. */
  predicate ValidUpload(u: UploadBody) {
    && u.fileName.JString? && 1 <= |u.fileName.str|
    && u.contentType.JString? && 1 <= |u.contentType.str|
    && u.fileSize.JNumber? && 1.0 <= u.fileSize.num
    && u.isImage.JBool?
  }

  function FailingUploadChecks(u: UploadBody, checks: seq<UploadCheck>): (r: seq<UploadCheck>)
    ensures forall k :: k in r <==> k in checks && UploadCheckFails(u, k)
  {
    if checks == [] then []
    else
      var rest := FailingUploadChecks(u, checks[1..]);
      if UploadCheckFails(u, checks[0]) then [checks[0]] + rest else rest
  }

  lemma AllUploadChecksListed(k: UploadCheck)
    ensures k in UploadChecks
  {
  }

  /** The body a well-typed request is sent as. */
  function ToBody(req: UploadRequest): UploadBody {
    UploadBody(JString(req.fileName), JString(req.contentType), JNumber(req.fileSize), JBool(req.isImage))
  }

  /**
   * Parsing an upload body: the typed request when every check passes,
   * otherwise the failing checks, one per rule broken.
   */
  function ParseUpload(u: UploadBody): (r: Result<UploadRequest, seq<UploadCheck>>)
    ensures r.Success? <==> ValidUpload(u)
    ensures r.Success? ==> ToBody(r.value) == u
    ensures r.Failure? ==> r.error != [] && forall k :: k in r.error <==> UploadCheckFails(u, k)
  {
    var failing := FailingUploadChecks(u, UploadChecks);
    forall k | true ensures k in failing <==> UploadCheckFails(u, k) {
      AllUploadChecksListed(k);
    }
    if failing == [] then
      assert !UploadCheckFails(u, FileNameType) && !UploadCheckFails(u, FileNameMin);
      assert !UploadCheckFails(u, ContentTypeType) && !UploadCheckFails(u, ContentTypeMin);
      assert !UploadCheckFails(u, FileSizeType) && !UploadCheckFails(u, FileSizeMin);
      assert !UploadCheckFails(u, IsImageType);
      Success(UploadRequest(u.fileName.str, u.contentType.str, u.fileSize.num, u.isImage.flag))
    else
      assert UploadCheckFails(u, failing[0]);
      Failure(failing)
  }

  /** A request with a named file, a content type and a size of at least 1 survives being sent and parsed. */
  lemma UploadRoundTrip(req: UploadRequest)
    requires req.fileName != "" && req.contentType != "" && 1.0 <= req.fileSize
    ensures ParseUpload(ToBody(req)) == Success(req)
  {
  }
}
