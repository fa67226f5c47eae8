/**
 * The protobuf messages the student aggregate works with: the stored record
 * (`StudentAggregate`) and the four event payloads, plus a field-level view of
 * the record used to say which fields an event writes.
 */
module StudentProto {
  import opened Wrappers

  newtype byte = b: int | 0 <= b < 256
  type Bytes = seq<byte>

  /** Wall-clock time, supplied by the caller instead of read from a clock. */
  type Timestamp = int

  /** The wire value of the student status enumeration; the zero value is the proto default. */
  type StatusCode = int

  /** The `StudentAggregate` message: the materialised fields of one student. */
  datatype StudentRecord = StudentRecord(
    firstName: string,
    lastName: string,
    dateOfBirth: string,
    schoolId: string,
    dateOfEnrollment: string,
    status: StatusCode,
    codeUniqueId: string)

  /** The zero value of `StudentAggregate`: every field at its proto default. */
  const EMPTY_RECORD := StudentRecord("", "", "", "", "", 0, "")

  datatype AddStudentEvent = AddStudentEvent(
    firstName: string,
    lastName: string,
    dateOfBirth: string,
    schoolId: string,
    dateOfEnrollment: string)

  datatype SetStudentStatusEvent = SetStudentStatusEvent(status: StatusCode, version: nat)

  datatype UpdateStudentEvent = UpdateStudentEvent(
    firstName: string,
    lastName: string,
    dateOfBirth: string,
    schoolId: string,
    dateOfEnrollment: string,
    version: nat)

  datatype EnrollStudentEvent = EnrollStudentEvent(schoolId: string, dateOfEnrollment: string, version: nat)

  /** The closed set of event kinds the aggregate routes. */
  datatype EventKind = AddStudent | SetStudentStatus | UpdateStudent | EnrollStudent

  /** A decoded payload, typed by its kind, so no handler needs a downcast. */
  datatype Payload =
    | Add(add: AddStudentEvent)
    | SetStatus(setStatus: SetStudentStatusEvent)
    | Update(update: UpdateStudentEvent)
    | Enroll(enroll: EnrollStudentEvent)
  {
    function Kind(): EventKind {
      match this
      case Add(_) => AddStudent
      case SetStatus(_) => SetStudentStatus
      case Update(_) => UpdateStudent
      case Enroll(_) => EnrollStudent
    }
  }

  /** The fields of a student record, named so that frame properties can quantify over them. */
  datatype Field = FirstName | LastName | DateOfBirth | SchoolId | DateOfEnrollment | Status | CodeUniqueId

  datatype Value = Text(text: string) | Code(code: StatusCode)

  function Get(r: StudentRecord, f: Field): Value {
    match f
    case FirstName => Text(r.firstName)
    case LastName => Text(r.lastName)
    case DateOfBirth => Text(r.dateOfBirth)
    case SchoolId => Text(r.schoolId)
    case DateOfEnrollment => Text(r.dateOfEnrollment)
    case Status => Code(r.status)
    case CodeUniqueId => Text(r.codeUniqueId)
  }

  /** Two records that agree on every field are the same record. */
  lemma RecordExtensional(a: StudentRecord, b: StudentRecord)
    requires forall f :: Get(a, f) == Get(b, f)
    ensures a == b
  {
    assert Get(a, FirstName) == Get(b, FirstName);
    assert Get(a, LastName) == Get(b, LastName);
    assert Get(a, DateOfBirth) == Get(b, DateOfBirth);
    assert Get(a, SchoolId) == Get(b, SchoolId);
    assert Get(a, DateOfEnrollment) == Get(b, DateOfEnrollment);
    assert Get(a, Status) == Get(b, Status);
    assert Get(a, CodeUniqueId) == Get(b, CodeUniqueId);
  }

  /** The fields each kind of event is allowed to write; every other field is left as it was. */
  function WrittenBy(k: EventKind): set<Field> {
    match k
    case AddStudent => {FirstName, LastName, DateOfBirth, SchoolId, DateOfEnrollment}
    case SetStudentStatus => {Status}
    case UpdateStudent => {FirstName, LastName, DateOfBirth, SchoolId, DateOfEnrollment}
    case EnrollStudent => {SchoolId, DateOfEnrollment}
  }

  /** The values a payload carries, by the field they are destined for. */
  function Writes(p: Payload): (w: map<Field, Value>)
    ensures w.Keys == WrittenBy(p.Kind())
    ensures CodeUniqueId !in w
  {
    match p
    case Add(a) =>
      map[FirstName := Text(a.firstName), LastName := Text(a.lastName), DateOfBirth := Text(a.dateOfBirth),
          SchoolId := Text(a.schoolId), DateOfEnrollment := Text(a.dateOfEnrollment)]
    case SetStatus(s) => map[Status := Code(s.status)]
    case Update(u) =>
      map[FirstName := Text(u.firstName), LastName := Text(u.lastName), DateOfBirth := Text(u.dateOfBirth),
          SchoolId := Text(u.schoolId), DateOfEnrollment := Text(u.dateOfEnrollment)]
    case Enroll(e) => map[SchoolId := Text(e.schoolId), DateOfEnrollment := Text(e.dateOfEnrollment)]
  }
}
