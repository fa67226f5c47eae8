# Student aggregate — a Dafny model

This project models the event-sourced student aggregate of the geevly service
(`student.go`). A `StudentData` aggregate holds at most one student record,
absent until the first event. The record changes only when an event envelope
is applied. Applying an event does three things in order:

1. It looks up the envelope's type tag (`AddStudent`, `SetStudentStatus`,
   `UpdateStudent`, `EnrollStudent`).
2. It decodes the payload into that tag's message.
3. It runs the matching handler.

Each handler is a guarded transition. Creation needs an empty aggregate.
Status changes, updates and enrolments need a populated one. Each of them
overwrites a fixed set of fields. Every error returned from routing carries
the event type and aggregate id, and the original cause can still be matched.

The command issuers (`CreateStudent`, `SetStudentStatus`, `UpdateStudent`,
`EnrollStudent`) build an envelope through `ApplyEvent`, which marshals the
payload, stamps the aggregate id, and applies the envelope to the aggregate
itself. Snapshot import replaces the record wholesale; export serialises it.

Layout:

- `wrappers.dfy` — `Option` and `Result`.
- `proto.dfy` (`StudentProto`) — the record, the four payload messages, the
  closed `EventKind` and typed `Payload`, and a field-level view of the
  record: `Get`, the table `WrittenBy` of fields each kind writes, and
  `Writes`, the values a payload carries.
- `errors.dfy` (`StudentErrors`) — the error values, `Is` (Go's `errors.Is`),
  `Wrap` (`%w` with context) and `Join` (`errors.Join`).
- `events.dfy` (`StudentEvents`) — the tag constants, the routing switch
  `KindOf`, the envelope, and the protobuf codec as a value of functions that
  may fail. `Decode` is the typed decoder: a decoded payload always has the
  kind its tag names, so the handlers' type assertions cannot fail.
- `handlers.dfy` (`StudentHandlers`) — `Transition`, the pure meaning of one
  handler, and `Dispatch`, the pure meaning of routing one envelope.
- `student.dfy` (`StudentAggregate`) — the `StudentData` class. Its one
  mutable field is `data: Option<StudentRecord>`. The handlers, `RouteEvent`,
  `Apply`, `ApplyEvent`, the issuers and snapshot import and export are
  methods. The postconditions of the handlers, `RouteEvent`, `Apply`,
  `ApplyEvent` and the issuers give the new `data` and the returned error in
  terms of `Transition` or `Dispatch`. `ImportState`'s postcondition is in
  terms of the codec's snapshot decoder.
- `replay.dfy` (`StudentReplay`) — `Replay`, applying a stored stream in
  order, and what the guards imply for whole streams and snapshots.

The protobuf codec, the clock and the aggregate id are inputs: the codec is
passed to each method that marshals or unmarshals, the time is passed as
`now`, and the id is fixed when the aggregate is constructed.

## Model

| member | source | states |
|---|---|---|
| `StudentEvents.KindOf` | student.go:56-71 | a tag routes to a kind iff it is one of the four event-type constants, and a routed tag is exactly that kind's tag |
| `StudentEvents.TagRoundTrip` | student.go:19-22 | every kind's tag constant routes back to that kind |
| `StudentEvents.Decode` | student.go:53-75 | a payload decoded for a kind is a message of that kind, so the handler's type assertion always holds |
| `StudentProto.Writes` | student.go:98-156 | the fields a payload carries are exactly those its kind may write, and no event carries the lookup code |
| `StudentHandlers.Transition` | student.go:98-156 | an event succeeds iff it is a creation on an empty aggregate or another event on a populated one; a refused creation fails with "already exists", any other refused event with "not found"; on success every field the kind writes takes the payload's value and every other field keeps the old value (for creation: the zero value) |
| `StudentHandlers.Dispatch` | student.go:53-79 | an unknown tag, and only an unknown tag, fails with the event-not-found error; a decode failure, and only that, fails with an event-data error and runs no handler; "already exists" and "not found" arise exactly from a decoded creation on a populated aggregate and a decoded other event on an empty one; a success from empty is exactly a creation; a known tag whose payload decodes and passes the handler's guard succeeds, with every field the kind writes taking the decoded payload's value and every other field keeping its old (or zero) value |
| `StudentHandlers.TransitionDeterminedByFields` | student.go:98-156 | the field-level contract of a handler determines its resulting record uniquely |
| `StudentHandlers.UpdateSubsumesEnroll` | student.go:129-156 | an update after an enrolment leaves the same record as the update alone |
| `StudentHandlers.SetStatusEnrollCommute` | student.go:99-156 | a status change and an enrolment give the same outcome in either order |
| `StudentErrors.Wrap` | student.go:48-50 | the wrapped error matches everything its cause matches (the cause included) under `errors.Is`, and differs from the cause |
| `StudentErrors.Join` | student.go:177 | the joined error is nil iff both are nil, and matches everything either non-nil argument matches |
| `StudentAggregate.RouteError` | student.go:42-51 | routing reports an error iff dispatch failed; that error carries the event type and aggregate id and matches the dispatch error |
| `StudentAggregate.StudentData.constructor` | student.go:29-32 | a new aggregate has no record and the given id |
| `StudentAggregate.StudentData.HandleCreateStudent` | student.go:111-127 | the new record and error are those of `Transition` on a creation; a refused creation leaves `data` unchanged |
| `StudentAggregate.StudentData.HandleSetStudentStatus` | student.go:99-109 | the new record and error are those of `Transition` on a status change |
| `StudentAggregate.StudentData.HandleUpdateStudent` | student.go:129-143 | the new record and error are those of `Transition` on an update |
| `StudentAggregate.StudentData.HandleEnrollStudent` | student.go:145-156 | the new record and error are those of `Transition` on an enrolment |
| `StudentAggregate.StudentData.RouteEvent` | student.go:42-80 | `data` becomes the dispatched record on success and is unchanged on any failure; the error is the dispatch error wrapped with the event type and aggregate id |
| `StudentAggregate.StudentData.Apply` | student.go:36-38 | same outcome as routing the event |
| `StudentAggregate.StudentData.ApplyEvent` | student.go:166-178 | returns an envelope carrying the requested tag, the command's version, the aggregate id, the marshalled bytes and the supplied time; applies it to the aggregate even when marshalling failed; returns the join of the wrapped apply error and the marshalling error, nil iff both succeeded |
| `StudentAggregate.StudentData.CreateStudent` | student.go:82-84 | issues an `AddStudent` envelope with version 0 and the aggregate id, applies it, and returns `ApplyEvent`'s error: the join of the wrapped apply error and the marshalling error |
| `StudentAggregate.StudentData.SetStudentStatus` | student.go:86-88 | issues a `SetStudentStatus` envelope with the payload's version and the aggregate id, applies it, and returns `ApplyEvent`'s error: the join of the wrapped apply error and the marshalling error |
| `StudentAggregate.StudentData.UpdateStudent` | student.go:90-92 | issues an `UpdateStudent` envelope with the payload's version and the aggregate id, applies it, and returns `ApplyEvent`'s error: the join of the wrapped apply error and the marshalling error |
| `StudentAggregate.StudentData.EnrollStudent` | student.go:94-96 | issues an `EnrollStudent` envelope with the payload's version and the aggregate id, applies it, and returns `ApplyEvent`'s error: the join of the wrapped apply error and the marshalling error |
| `StudentAggregate.StudentData.ImportState` | student.go:180-190 | a snapshot that decodes replaces the record wholesale; one that does not leaves it untouched and reports a snapshot error |
| `StudentAggregate.StudentData.ExportState` | student.go:191-193 | returns the codec's bytes for the current record and an error iff the codec reported one |
| `StudentReplay.ReplayAppend` | student.go:34-38 | replaying a stream in two parts gives the same outcome as replaying it whole |
| `StudentReplay.ReplayFromPopulated` | student.go:111-156 | no successful replay from a populated aggregate empties it or contains a creation event |
| `StudentReplay.ReplayFromEmpty` | student.go:111-156 | a stream that replays from empty is empty or starts with the only creation event and leaves the aggregate populated |
| `StudentReplay.SnapshotReplayEquivalence` | student.go:180-193 | if the codec returns the record it serialised, importing the snapshot taken after `a` and replaying `b` matches replaying `a + b` from empty |
| `StudentReplay.EmptySnapshotImportsPopulated` | student.go:180-193 | with protobuf's usual nil and empty-bytes behaviour, a snapshot of an aggregate with no record imports as an all-default record, which then refuses creation |

## Left out

- `sourcing.SafeApply` and `sourcing.DefaultAggregate` are a foreign library that is not part of this model. `Apply` passes straight through to `RouteEvent`. Any version check or version advance the library performs is not modelled, so nothing here claims version monotonicity or conflict detection.
- `GetID()` comes from the same library. The id is a constant fixed at construction; assigning it later is not modelled.
- The protobuf codec is foreign. It is a parameter of function values. Marshalling returns bytes with an optional error, as Go's `proto.Marshal` does. The snapshot round trip is a lemma hypothesis, not a fact about the codec.
- SetStudentStatus, UpdateStudent, EnrollStudent: payloads are values and are never nil. In Go, a nil payload makes these issuers read `Version` through a nil pointer (student.go:87, 91, 95). That panics before `ApplyEvent` runs and outside any `recover`, so the caller crashes. `CreateStudent` with a nil payload does not panic there: it marshals a nil message (student.go:83, 167).
- The panic recovery in `routeEvent` is not modelled. The typed payloads remove the unchecked downcasts, and Dafny code cannot panic.
- `time.Now()` is the parameter `now`. `String()` is display only.
- `internal/student/event_handlers.go` (the projection router) is not part of this model. It loads from the repository, writes to the database and logs; its only logic is a three-way switch and an empty-code check.
- The repository port is not part of this model: optimistic-concurrency append, history loading and snapshot storage. The loop that replays a stored stream lives there, so `Replay` is a specification function, not a method of the aggregate.
- `ErrApplyingEvent`, `ErrMarshallingEvent` and `ErrVersionMismatch` are declared at student.go:15-17 but never returned by this file, so they have no counterpart.
- Field types of the protobuf messages are simplified. Names, dates, school id and lookup code are strings. The status is its integer wire value, whose zero is the default. Only the fields the code reads or writes are modelled.
- Versions are `nat`. The `uint(...)` conversion of the payload's version is taken as value-preserving.
- `StudentErrors.Is` models Go's `errors.Is` for errors without custom `Is` or `As` methods: an error matches a target when it is that target or unwraps to it through `%w` or `errors.Join`. Go compares error values by identity where they are pointers. That covers errors built with `fmt.Errorf`, the `%w` wrapper (`Processing`) and the `errors.Join` result (`Joined`). The model compares all of them structurally, so two separately built errors with the same content match in the model but not in Go. A decode error's cause is formatted with `%s`, so the cause is kept only as text and is not matchable, as in the source.
- The aggregate's own version is not modelled. student.go never advances it and reads it only in `String()` (student.go:197), and whatever `SafeApply` does with it is foreign. Envelope and payload versions are modelled as `nat`, and the issuers stamp them as student.go:83-95 does. `ApplyEvent` applies the envelope even when marshalling failed (student.go:167-177), so it applies the codec's bytes either way and joins both errors.
