/**
 * What one event does to the aggregate's record, as pure functions: the four
 * handlers' guarded transitions, and the routing of an envelope through tag
 * lookup and payload decoding to its handler.
 */
module StudentHandlers {
  import opened Wrappers
  import opened StudentProto
  import opened StudentErrors
  import opened StudentEvents

  /** The record an event patches: the current one, or the zero value when there is none yet. */
  function Base(s: Option<StudentRecord>): StudentRecord {
    s.GetOr(EMPTY_RECORD)
  }

  /** The aggregate's record after an outcome: the new record on success, the old state otherwise. */
  function Next(s: Option<StudentRecord>, r: Result<StudentRecord, Error>): Option<StudentRecord> {
    if r.Success? then Some(r.value) else s
  }

  function ErrorOf<T>(r: Result<T, Error>): Option<Error> {
    if r.Success? then None else Some(r.error)
  }

  /**
   * The handler for one decoded payload. Creation is legal only on an empty
   * aggregate, every other event only on a populated one; a legal event
   * overwrites exactly the fields its kind writes.
   */
  function Transition(s: Option<StudentRecord>, p: Payload): (r: Result<StudentRecord, Error>)
    ensures r.Success? <==> (p.Add? <==> s.None?)
    ensures r.Failure? ==> r.error == if p.Add? then StudentAlreadyExists else StudentNotFound
    ensures r.Success? ==> forall f ::
      Get(r.value, f) == if f in WrittenBy(p.Kind()) then Writes(p)[f] else Get(Base(s), f)
  {
    match p
    case Add(a) =>
      if s.Some? then Failure(StudentAlreadyExists)
      else Success(EMPTY_RECORD.(firstName := a.firstName, lastName := a.lastName, dateOfBirth := a.dateOfBirth,
                                 schoolId := a.schoolId, dateOfEnrollment := a.dateOfEnrollment))
    case SetStatus(x) =>
      if s.None? then Failure(StudentNotFound)
      else Success(s.value.(status := x.status))
    case Update(u) =>
      if s.None? then Failure(StudentNotFound)
      else Success(s.value.(firstName := u.firstName, lastName := u.lastName, dateOfBirth := u.dateOfBirth,
                            schoolId := u.schoolId, dateOfEnrollment := u.dateOfEnrollment))
    case Enroll(e) =>
      if s.None? then Failure(StudentNotFound)
      else Success(s.value.(schoolId := e.schoolId, dateOfEnrollment := e.dateOfEnrollment))
  }

  /**
   * Routing of one envelope, before the error is given its context: an unknown
   * tag fails without decoding, a payload that does not decode fails without
   * running a handler, and otherwise the handler for the decoded payload runs.
   */
  function Dispatch(s: Option<StudentRecord>, evt: Event, codec: Codec): (r: Result<StudentRecord, Error>)
    ensures r == Failure(EventNotFound) <==> KindOf(evt.eventType).None?
    ensures (r.Failure? && r.error.EventDataError?) <==>
              KindOf(evt.eventType).Some? && Decode(codec, KindOf(evt.eventType).value, evt.data).Failure?
    ensures r.Success? ==> (s.None? <==> evt.eventType == EVENT_ADD_STUDENT)
    ensures r == Failure(StudentAlreadyExists) <==>
              s.Some? && evt.eventType == EVENT_ADD_STUDENT && Decode(codec, AddStudent, evt.data).Success?
    ensures r == Failure(StudentNotFound) <==>
              s.None? && KindOf(evt.eventType).Some? && evt.eventType != EVENT_ADD_STUDENT &&
              Decode(codec, KindOf(evt.eventType).value, evt.data).Success?
    ensures r.Success? <==>
              KindOf(evt.eventType).Some? && Decode(codec, KindOf(evt.eventType).value, evt.data).Success? &&
              (evt.eventType == EVENT_ADD_STUDENT <==> s.None?)
    ensures r.Success? ==> forall f ::
              Get(r.value, f) ==
                if f in WrittenBy(KindOf(evt.eventType).value)
                then Writes(Decode(codec, KindOf(evt.eventType).value, evt.data).value)[f]
                else Get(Base(s), f)
  {
    match KindOf(evt.eventType)
    case None => Failure(EventNotFound)
    case Some(k) =>
      match Decode(codec, k, evt.data)
      case Failure(reason) => Failure(EventDataError(reason))
      case Success(p) => Transition(s, p)
  }

  /**
   * The field-level contract of `Transition` pins its result down completely:
   * any record that takes the payload's value on the written fields and the
   * old value elsewhere is the handler's result.
   */
  lemma TransitionDeterminedByFields(s: Option<StudentRecord>, p: Payload, rec: StudentRecord)
    requires Transition(s, p).Success?
    requires forall f :: Get(rec, f) == if f in WrittenBy(p.Kind()) then Writes(p)[f] else Get(Base(s), f)
    ensures rec == Transition(s, p).value
  {
    RecordExtensional(rec, Transition(s, p).value);
  }

  /** An update after an enrolment leaves the same record as the update alone: it overwrites every field enrolment writes. */
  lemma UpdateSubsumesEnroll(s: Option<StudentRecord>, e: EnrollStudentEvent, u: UpdateStudentEvent)
    requires s.Some?
    ensures Transition(s, Enroll(e)).Success?
    ensures Transition(Next(s, Transition(s, Enroll(e))), Update(u)) == Transition(s, Update(u))
  {
  }

  /** A status change and an enrolment write disjoint fields, so their order does not matter. */
  lemma SetStatusEnrollCommute(s: Option<StudentRecord>, x: SetStudentStatusEvent, e: EnrollStudentEvent)
    ensures var a := Transition(s, SetStatus(x));
            var b := Transition(s, Enroll(e));
            Transition(Next(s, a), Enroll(e)) == Transition(Next(s, b), SetStatus(x))
  {
  }
}
