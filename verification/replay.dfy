/**
 * Replay: feeding a stored event stream, one event at a time, through Apply.
 * The loop that does so lives in the repository, outside this model; here it
 * is a specification function, and the lemmas state what the handlers'
 * guards imply for whole streams and for snapshots.
 */
module StudentReplay {
  import opened Wrappers
  import opened StudentProto
  import opened StudentErrors
  import opened StudentEvents
  import opened StudentHandlers

  /** The record after applying `evts` in order, or the (wrapped) error of the first event that fails. */
  function Replay(s: Option<StudentRecord>, evts: seq<Event>, codec: Codec): Result<Option<StudentRecord>, Error>
    decreases |evts|
  {
    if evts == [] then Success(s)
    else
      match Dispatch(s, evts[0], codec)
      case Failure(e) => Failure(Wrap(evts[0].eventType, evts[0].aggregateId, e))
      case Success(r) => Replay(Some(r), evts[1..], codec)
  }

  /** Replaying a stream in two parts gives the same outcome as replaying it whole. */
  lemma {:induction false} ReplayAppend(s: Option<StudentRecord>, a: seq<Event>, b: seq<Event>, codec: Codec)
    ensures Replay(s, a + b, codec) ==
            match Replay(s, a, codec)
            case Failure(e) => Failure(e)
            case Success(t) => Replay(t, b, codec)
    decreases |a|
  {
    if a == [] {
      assert a + b == b;
    } else {
      assert (a + b)[0] == a[0];
      assert (a + b)[1..] == a[1..] + b;
      match Dispatch(s, a[0], codec)
      case Failure(_) =>
      case Success(r) => ReplayAppend(Some(r), a[1..], b, codec);
    }
  }

  /** No successful replay empties a populated aggregate, and none contains a creation event. */
  lemma {:induction false} ReplayFromPopulated(s: Option<StudentRecord>, evts: seq<Event>, codec: Codec)
    requires s.Some?
    requires Replay(s, evts, codec).Success?
    ensures Replay(s, evts, codec).value.Some?
    ensures forall i :: 0 <= i < |evts| ==> evts[i].eventType != EVENT_ADD_STUDENT
    decreases |evts|
  {
    if evts != [] {
      var r := Dispatch(s, evts[0], codec);
      ReplayFromPopulated(Some(r.value), evts[1..], codec);
      forall i | 1 <= i < |evts| ensures evts[i].eventType != EVENT_ADD_STUDENT {
        assert evts[i] == evts[1..][i - 1];
      }
    }
  }

  /**
   * A stream that replays without error from an empty aggregate is either
   * empty, or starts with the creation event, never repeats it, and leaves
   * the aggregate populated.
   */
  lemma ReplayFromEmpty(evts: seq<Event>, codec: Codec)
    requires Replay(None, evts, codec).Success?
    ensures Replay(None, evts, codec).value.Some? <==> evts != []
    ensures evts != [] ==> evts[0].eventType == EVENT_ADD_STUDENT
    ensures forall i :: 1 <= i < |evts| ==> evts[i].eventType != EVENT_ADD_STUDENT
  {
    if evts != [] {
      var r := Dispatch(None, evts[0], codec);
      ReplayFromPopulated(Some(r.value), evts[1..], codec);
      forall i | 1 <= i < |evts| ensures evts[i].eventType != EVENT_ADD_STUDENT {
        assert evts[i] == evts[1..][i - 1];
      }
    }
  }

  /**
   * Snapshot-and-replay equivalence: if the codec gives back the record it
   * serialised, importing the snapshot taken after `a` and replaying `b`
   * yields the same record as replaying `a + b` from the start.
   */
  lemma SnapshotReplayEquivalence(codec: Codec, a: seq<Event>, b: seq<Event>, rec: StudentRecord)
    requires Replay(None, a, codec) == Success(Some(rec))
    requires codec.marshalSnapshot(Some(rec)).1.None?
    requires codec.unmarshalSnapshot(codec.marshalSnapshot(Some(rec)).0) == Success(rec)
    ensures Replay(Some(codec.unmarshalSnapshot(codec.marshalSnapshot(Some(rec)).0).value), b, codec)
            == Replay(None, a + b, codec)
  {
    ReplayAppend(None, a, b, codec);
  }

  /**
   * A snapshot of an aggregate with no record, under protobuf's usual
   * behaviour (a nil message marshals to no bytes, and no bytes unmarshal to
   * the zero message), imports as a populated all-default record, on which a
   * creation event is then refused.
   */
  lemma EmptySnapshotImportsPopulated(codec: Codec, add: Event)
    requires codec.marshalSnapshot(None) == ([], None)
    requires codec.unmarshalSnapshot([]) == Success(EMPTY_RECORD)
    requires add.eventType == EVENT_ADD_STUDENT && codec.unmarshalAdd(add.data).Success?
    ensures Dispatch(None, add, codec).Success?
    ensures Dispatch(Some(codec.unmarshalSnapshot(codec.marshalSnapshot(None).0).value), add, codec)
            == Failure(StudentAlreadyExists)
  {
  }
}
