/**
 * The student aggregate: one optional record that changes only when an event
 * is applied, the commands that build and self-apply events, and snapshot
 * import and export.
 */
module StudentAggregate {
  import opened Wrappers
  import opened StudentProto
  import opened StudentErrors
  import opened StudentEvents
  import opened StudentHandlers

  /** The error a routed event reports: the handler's, decoder's or router's error with the event's context added. */
  function RouteError(r: Result<StudentRecord, Error>, evt: Event): (e: Option<Error>)
    ensures e.None? <==> r.Success?
    ensures r.Failure? ==> Is(e.value, r.error) && e.value.Processing? &&
                           e.value.eventType == evt.eventType && e.value.aggregateId == evt.aggregateId
  {
    if r.Success? then None else Some(Wrap(evt.eventType, evt.aggregateId, r.error))
  }

  /** The error `proto.Marshal` returns, given the reason the codec reported, if any. */
  function MarshalFailure(reason: Option<string>): Option<Error> {
    if reason.Some? then Some(MarshalError(reason.value)) else None
  }

  class StudentData {
    /** The student record; None until the creation event has been applied. */
    var data: Option<StudentRecord>
    /** The aggregate's identifier, as the underlying aggregate reports it. */
    const id: string

    constructor (id: string)
      ensures data == None && this.id == id
    {
      this.data := None;
      this.id := id;
    }

    method HandleCreateStudent(a: AddStudentEvent) returns (err: Option<Error>)
      modifies this
      ensures data == Next(old(data), Transition(old(data), Add(a)))
      ensures err == ErrorOf(Transition(old(data), Add(a)))
    {
      if data.Some? {
        return Some(StudentAlreadyExists);
      }
      data := Some(StudentRecord(a.firstName, a.lastName, a.dateOfBirth, a.schoolId, a.dateOfEnrollment,
                                 EMPTY_RECORD.status, EMPTY_RECORD.codeUniqueId));
      return None;
    }

    method HandleSetStudentStatus(x: SetStudentStatusEvent) returns (err: Option<Error>)
      modifies this
      ensures data == Next(old(data), Transition(old(data), SetStatus(x)))
      ensures err == ErrorOf(Transition(old(data), SetStatus(x)))
    {
      if data.None? {
        return Some(StudentNotFound);
      }
      data := Some(data.value.(status := x.status));
      return None;
    }

    method HandleUpdateStudent(u: UpdateStudentEvent) returns (err: Option<Error>)
      modifies this
      ensures data == Next(old(data), Transition(old(data), Update(u)))
      ensures err == ErrorOf(Transition(old(data), Update(u)))
    {
      if data.None? {
        return Some(StudentNotFound);
      }
      var record := data.value;
      record := record.(firstName := u.firstName);
      record := record.(lastName := u.lastName);
      record := record.(dateOfBirth := u.dateOfBirth);
      record := record.(schoolId := u.schoolId);
      record := record.(dateOfEnrollment := u.dateOfEnrollment);
      data := Some(record);
      return None;
    }

    method HandleEnrollStudent(e: EnrollStudentEvent) returns (err: Option<Error>)
      modifies this
      ensures data == Next(old(data), Transition(old(data), Enroll(e)))
      ensures err == ErrorOf(Transition(old(data), Enroll(e)))
    {
      if data.None? {
        return Some(StudentNotFound);
      }
      var record := data.value;
      record := record.(schoolId := e.schoolId);
      record := record.(dateOfEnrollment := e.dateOfEnrollment);
      data := Some(record);
      return None;
    }

    /**
     * Routes an envelope to its handler. The record changes only when the
     * handler succeeds; every error is returned wrapped with the event's type
     * and aggregate id.
     */
    method RouteEvent(evt: Event, codec: Codec) returns (err: Option<Error>)
      modifies this
      ensures data == Next(old(data), Dispatch(old(data), evt, codec))
      ensures err == RouteError(Dispatch(old(data), evt, codec), evt)
    {
      var kind := KindOf(evt.eventType);
      if kind.None? {
        err := Some(EventNotFound);
      } else {
        var decoded := Decode(codec, kind.value, evt.data);
        if decoded.Failure? {
          err := Some(EventDataError(decoded.error));
        } else {
          match decoded.value
          case Add(a) => err := HandleCreateStudent(a);
          case SetStatus(x) => err := HandleSetStudentStatus(x);
          case Update(u) => err := HandleUpdateStudent(u);
          case Enroll(n) => err := HandleEnrollStudent(n);
        }
      }
      if err.Some? {
        err := Some(Wrap(evt.eventType, evt.aggregateId, err.value));
      }
    }

    /** Applies an event, from replay or from a command just issued. */
    method Apply(evt: Event, codec: Codec) returns (err: Option<Error>)
      modifies this
      ensures data == Next(old(data), Dispatch(old(data), evt, codec))
      ensures err == RouteError(Dispatch(old(data), evt, codec), evt)
    {
      err := RouteEvent(evt, codec);
    }

    /**
     * Marshals the command's payload, stamps an envelope with this aggregate's
     * id and applies it. The error joins the apply error and the marshalling
     * error; it is nil exactly when neither occurred.
     */
    method ApplyEvent(sEvt: StudentEvent, codec: Codec, now: Timestamp) returns (evt: Event, err: Option<Error>)
      modifies this
      ensures evt.eventType == sEvt.eventType && evt.version == sEvt.version && evt.aggregateId == id
      ensures evt.timestamp == now && evt.data == codec.marshalPayload(sEvt.data).0
      ensures data == Next(old(data), Dispatch(old(data), evt, codec))
      ensures err == Join(RouteError(Dispatch(old(data), evt, codec), evt), MarshalFailure(codec.marshalPayload(sEvt.data).1))
      ensures err.None? <==> Dispatch(old(data), evt, codec).Success? && codec.marshalPayload(sEvt.data).1.None?
    {
      var (bytes, marshalReason) := codec.marshalPayload(sEvt.data);
      var marshalErr := MarshalFailure(marshalReason);
      evt := Event(sEvt.eventType, now, bytes, sEvt.version, id);
      var applyErr := Apply(evt, codec);
      err := Join(applyErr, marshalErr);
    }

    method CreateStudent(a: AddStudentEvent, codec: Codec, now: Timestamp) returns (evt: Event, err: Option<Error>)
      modifies this
      ensures evt.eventType == EVENT_ADD_STUDENT && evt.version == 0 && evt.aggregateId == id && evt.timestamp == now
      ensures evt.data == codec.marshalPayload(Add(a)).0
      ensures data == Next(old(data), Dispatch(old(data), evt, codec))
      ensures err.None? <==> Dispatch(old(data), evt, codec).Success? && codec.marshalPayload(Add(a)).1.None?
      ensures err == Join(RouteError(Dispatch(old(data), evt, codec), evt), MarshalFailure(codec.marshalPayload(Add(a)).1))
    {
      evt, err := ApplyEvent(StudentEvent(EVENT_ADD_STUDENT, Add(a), 0), codec, now);
    }

    method SetStudentStatus(x: SetStudentStatusEvent, codec: Codec, now: Timestamp) returns (evt: Event, err: Option<Error>)
      modifies this
      ensures evt.eventType == EVENT_SET_STUDENT_STATUS && evt.version == x.version && evt.aggregateId == id
      ensures evt.timestamp == now && evt.data == codec.marshalPayload(SetStatus(x)).0
      ensures data == Next(old(data), Dispatch(old(data), evt, codec))
      ensures err.None? <==> Dispatch(old(data), evt, codec).Success? && codec.marshalPayload(SetStatus(x)).1.None?
      ensures err == Join(RouteError(Dispatch(old(data), evt, codec), evt), MarshalFailure(codec.marshalPayload(SetStatus(x)).1))
    {
      evt, err := ApplyEvent(StudentEvent(EVENT_SET_STUDENT_STATUS, SetStatus(x), x.version), codec, now);
    }

    method UpdateStudent(u: UpdateStudentEvent, codec: Codec, now: Timestamp) returns (evt: Event, err: Option<Error>)
      modifies this
      ensures evt.eventType == EVENT_UPDATE_STUDENT && evt.version == u.version && evt.aggregateId == id
      ensures evt.timestamp == now && evt.data == codec.marshalPayload(Update(u)).0
      ensures data == Next(old(data), Dispatch(old(data), evt, codec))
      ensures err.None? <==> Dispatch(old(data), evt, codec).Success? && codec.marshalPayload(Update(u)).1.None?
      ensures err == Join(RouteError(Dispatch(old(data), evt, codec), evt), MarshalFailure(codec.marshalPayload(Update(u)).1))
    {
      evt, err := ApplyEvent(StudentEvent(EVENT_UPDATE_STUDENT, Update(u), u.version), codec, now);
    }

    method EnrollStudent(e: EnrollStudentEvent, codec: Codec, now: Timestamp) returns (evt: Event, err: Option<Error>)
      modifies this
      ensures evt.eventType == EVENT_ENROLL_STUDENT && evt.version == e.version && evt.aggregateId == id
      ensures evt.timestamp == now && evt.data == codec.marshalPayload(Enroll(e)).0
      ensures data == Next(old(data), Dispatch(old(data), evt, codec))
      ensures err.None? <==> Dispatch(old(data), evt, codec).Success? && codec.marshalPayload(Enroll(e)).1.None?
      ensures err == Join(RouteError(Dispatch(old(data), evt, codec), evt), MarshalFailure(codec.marshalPayload(Enroll(e)).1))
    {
      evt, err := ApplyEvent(StudentEvent(EVENT_ENROLL_STUDENT, Enroll(e), e.version), codec, now);
    }

    /** Replaces the record wholesale with a decoded snapshot; on a decode failure the record is untouched. */
    method ImportState(bytes: Bytes, codec: Codec) returns (err: Option<Error>)
      modifies this
      ensures codec.unmarshalSnapshot(bytes).Success? ==>
                err.None? && data == Some(codec.unmarshalSnapshot(bytes).value)
      ensures codec.unmarshalSnapshot(bytes).Failure? ==>
                err == Some(SnapshotDataError(codec.unmarshalSnapshot(bytes).error)) && data == old(data)
    {
      var decoded := codec.unmarshalSnapshot(bytes);
      if decoded.Failure? {
        return Some(SnapshotDataError(decoded.error));
      }
      data := Some(decoded.value);
      return None;
    }

    /** Serialises the current record (or its absence) with the codec; the aggregate is not changed. */
    method ExportState(codec: Codec) returns (bytes: Bytes, err: Option<Error>)
      ensures bytes == codec.marshalSnapshot(data).0
      ensures err.None? <==> codec.marshalSnapshot(data).1.None?
      ensures err.Some? ==> err.value == MarshalError(codec.marshalSnapshot(data).1.value)
    {
      var (out, reason) := codec.marshalSnapshot(data);
      bytes := out;
      err := MarshalFailure(reason);
    }
  }
}
