/**
 * Event envelopes, the type tags that name event kinds, and the protobuf codec.
 * The codec is foreign code: it is given as a value of total functions that may
 * fail, and nothing is assumed about it unless a lemma states so.
 */
module StudentEvents {
  import opened Wrappers
  import opened StudentProto

  const EVENT_ADD_STUDENT := "AddStudent"
  const EVENT_SET_STUDENT_STATUS := "SetStudentStatus"
  const EVENT_UPDATE_STUDENT := "UpdateStudent"
  const EVENT_ENROLL_STUDENT := "EnrollStudent"

  /** The type tag written into envelopes of each kind. */
  function TagOf(k: EventKind): string {
    match k
    case AddStudent => EVENT_ADD_STUDENT
    case SetStudentStatus => EVENT_SET_STUDENT_STATUS
    case UpdateStudent => EVENT_UPDATE_STUDENT
    case EnrollStudent => EVENT_ENROLL_STUDENT
  }

  /** The routing switch: the kind a type tag names, or None for a tag the aggregate does not know. */
  function KindOf(tag: string): (k: Option<EventKind>)
    ensures k.Some? <==> tag in {EVENT_ADD_STUDENT, EVENT_SET_STUDENT_STATUS, EVENT_UPDATE_STUDENT, EVENT_ENROLL_STUDENT}
    ensures k.Some? ==> TagOf(k.value) == tag
  {
    if tag == EVENT_ADD_STUDENT then Some(AddStudent)
    else if tag == EVENT_SET_STUDENT_STATUS then Some(SetStudentStatus)
    else if tag == EVENT_UPDATE_STUDENT then Some(UpdateStudent)
    else if tag == EVENT_ENROLL_STUDENT then Some(EnrollStudent)
    else None
  }

  /** Every kind's tag routes back to that kind, and no two kinds share a tag. */
  lemma TagRoundTrip(k: EventKind)
    ensures KindOf(TagOf(k)) == Some(k)
  {
  }

  /** The envelope (`gosignal.Event`) that carries one event. */
  datatype Event = Event(
    eventType: string,
    timestamp: Timestamp,
    data: Bytes,
    version: nat,
    aggregateId: string)

  /**
   * The protobuf codec as the aggregate uses it. Unmarshalling may fail with a
   * reason; marshalling returns bytes together with an optional error, as Go's
   * `proto.Marshal` does.
   */
  datatype Codec = Codec(
    unmarshalAdd: Bytes -> Result<AddStudentEvent, string>,
    unmarshalSetStatus: Bytes -> Result<SetStudentStatusEvent, string>,
    unmarshalUpdate: Bytes -> Result<UpdateStudentEvent, string>,
    unmarshalEnroll: Bytes -> Result<EnrollStudentEvent, string>,
    marshalPayload: Payload -> (Bytes, Option<string>),
    unmarshalSnapshot: Bytes -> Result<StudentRecord, string>,
    marshalSnapshot: Option<StudentRecord> -> (Bytes, Option<string>))

  /** Decodes a payload into the message type registered for `k`. */
  function Decode(codec: Codec, k: EventKind, data: Bytes): (r: Result<Payload, string>)
    ensures r.Success? ==> r.value.Kind() == k
  {
    match k
    case AddStudent =>
      (match codec.unmarshalAdd(data) case Success(a) => Success(Add(a)) case Failure(e) => Failure(e))
    case SetStudentStatus =>
      (match codec.unmarshalSetStatus(data) case Success(s) => Success(SetStatus(s)) case Failure(e) => Failure(e))
    case UpdateStudent =>
      (match codec.unmarshalUpdate(data) case Success(u) => Success(Update(u)) case Failure(e) => Failure(e))
    case EnrollStudent =>
      (match codec.unmarshalEnroll(data) case Success(n) => Success(Enroll(n)) case Failure(e) => Failure(e))
  }

  /** A command ready to be issued: the tag to stamp, the payload to marshal, and the version to record. */
  datatype StudentEvent = StudentEvent(eventType: string, data: Payload, version: nat)
}
