/** The append-only event table and its monotonic clock
    (src/db/mod.rs:48-108, resources/migrations/01_create_source_event_table.sql). */
module EventStore {
  import opened Ids
  import opened Messages

  /** The event as the client sent it. The client's own event id is not stored. */
  datatype NewEvent = NewEvent(aggregateId: string, aggregateType: string, payload: seq<byte>)

  /** What the database decides about one save: whether each stage works, the generated id, the timestamp. */
  datatype Storage = Storage(begins: bool, inserts: bool, commits: bool, id: EventId, createdAt: int)

  datatype SaveResult = Saved(event: SourceEvent) | SaveFailed

  function MaxClock(rows: seq<SourceEvent>): nat {
    if rows == [] then 0
    else
      var rest := MaxClock(rows[..|rows| - 1]);
      var last := rows[|rows| - 1].clock;
      if last > rest then last else rest
  }

  /** The table's constraints: the primary key and the length of the aggregate type. */
  predicate Accepts(rows: seq<SourceEvent>, row: SourceEvent) {
    && 3 <= |row.aggregateType| < 255
    && forall i | 0 <= i < |rows| :: rows[i].id != row.id && rows[i].clock != row.clock
  }

  function RowFor(rows: seq<SourceEvent>, e: NewEvent, st: Storage): SourceEvent {
    SourceEvent(st.id, st.createdAt, MaxClock(rows) + 1, e.aggregateId, e.aggregateType, e.payload)
  }

  function Save(rows: seq<SourceEvent>, e: NewEvent, st: Storage): (seq<SourceEvent>, SaveResult) {
    var row := RowFor(rows, e, st);
    if st.begins && st.inserts && Accepts(rows, row) && st.commits
    then (rows + [row], Saved(row))
    else (rows, SaveFailed)
  }

  /** Clocks are exactly 1..n in commit order, and ids are unique. */
  ghost predicate GapFree(rows: seq<SourceEvent>) {
    && (forall i :: 0 <= i < |rows| ==> rows[i].clock == i + 1)
    && (forall i, j :: 0 <= i < j < |rows| ==> rows[i].id != rows[j].id)
  }

  class EventRepository {
    var rows: seq<SourceEvent>

    constructor ()
      ensures rows == []
    {
      rows := [];
    }

    method SaveSourceEvent(e: NewEvent, st: Storage) returns (result: SaveResult)
      modifies this
      ensures (rows, result) == Save(old(rows), e, st)
      ensures old(GapFree(rows)) ==> GapFree(rows)
      ensures rows == if result.Saved? then old(rows) + [result.event] else old(rows)
    {
      if GapFree(rows) {
        MaxClockOfGapFree(rows);
      }
      if !st.begins {
        return SaveFailed;
      }
      var row := RowFor(rows, e, st);
      if !st.inserts || !Accepts(rows, row) {
        return SaveFailed; // rolled back
      }
      var uncommitted := rows + [row];
      if !st.commits {
        return SaveFailed;
      }
      rows := uncommitted;
      result := Saved(row);
    }
  }

  lemma {:induction false} MaxClockOfGapFree(rows: seq<SourceEvent>)
    requires GapFree(rows)
    ensures MaxClock(rows) == |rows|
  {
    if rows != [] {
      MaxClockOfGapFree(rows[..|rows| - 1]);
    }
  }

  /** A save appends one row, with the next clock, the generated id and the content of the new event, or changes
      nothing; so the clocks stay gap-free. */
  lemma SaveAppendsNextRow(rows: seq<SourceEvent>, e: NewEvent, st: Storage)
    requires GapFree(rows)
    ensures GapFree(Save(rows, e, st).0)
    ensures match Save(rows, e, st).1
            case SaveFailed => Save(rows, e, st).0 == rows
            case Saved(row) =>
              && Save(rows, e, st).0 == rows + [row] && row.clock == |rows| + 1 && row.id == st.id
              && NewEvent(row.aggregateId, row.aggregateType, row.payload) == e
  {
    MaxClockOfGapFree(rows);
  }

  /** A save succeeds exactly when every stage works, the aggregate type has 3 to 254 characters and the generated id is
      new; the row is dated as generated. */
  lemma SaveSucceedsExactly(rows: seq<SourceEvent>, e: NewEvent, st: Storage)
    requires GapFree(rows)
    ensures Save(rows, e, st).1.Saved? <==>
              && st.begins && st.inserts && st.commits
              && 3 <= |e.aggregateType| <= 254 && forall i :: 0 <= i < |rows| ==> rows[i].id != st.id
    ensures Save(rows, e, st).1.Saved? ==> Save(rows, e, st).1.event.createdAt == st.createdAt
  {
    MaxClockOfGapFree(rows);
  }
}
