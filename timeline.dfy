/**
 * The "Timeline" worksheet: one row per procedural event with its scheduled
 * date, responsible party and status. The page reads the whole sheet into a
 * table, rewrites matching rows in place and writes the whole table back.
 */
module Timeline {

  /** One row of the worksheet; every cell is the text the sheet stores. */
  datatype Event = Event(event: string, date: string, owner: string, status: string)

  const RescheduledStatus := "Rescheduled"

  /** Some row of `rows` has `name` in its `event` column. */
  predicate HasEvent(rows: seq<Event>, name: string)
  {
    exists i :: 0 <= i < |rows| && rows[i].event == name
  }

  /** The effect of the update on a single row. */
  function Reschedule(e: Event, name: string, date: string): Event
  {
    if e.event == name then e.(date := date, status := RescheduledStatus) else e
  }

  /** The table after every row named `name` has been moved to `date`. */
  function Rescheduled(rows: seq<Event>, name: string, date: string): (r: seq<Event>)
    ensures |r| == |rows|
    ensures forall i :: 0 <= i < |rows| ==> r[i].event == rows[i].event && r[i].owner == rows[i].owner
  {
    if rows == [] then [] else [Reschedule(rows[0], name, date)] + Rescheduled(rows[1..], name, date)
  }

  lemma {:induction false} RescheduledAt(rows: seq<Event>, name: string, date: string)
    ensures |Rescheduled(rows, name, date)| == |rows|
    ensures forall i :: 0 <= i < |rows| ==> Rescheduled(rows, name, date)[i] == Reschedule(rows[i], name, date)
  {
    if rows != [] {
      RescheduledAt(rows[1..], name, date);
    }
  }

  /** Every row named `name` gets the new date and the status "Rescheduled". */
  lemma {:induction false} RescheduledMatches(rows: seq<Event>, name: string, date: string)
    ensures |Rescheduled(rows, name, date)| == |rows|
    ensures forall i :: 0 <= i < |rows| && rows[i].event == name ==>
              Rescheduled(rows, name, date)[i].date == date &&
              Rescheduled(rows, name, date)[i].status == RescheduledStatus
  {
    RescheduledAt(rows, name, date);
  }

  /** Rows with another name are untouched; the event and owner columns never change. */
  lemma {:induction false} RescheduledFrame(rows: seq<Event>, name: string, date: string)
    ensures |Rescheduled(rows, name, date)| == |rows|
    ensures forall i :: 0 <= i < |rows| && rows[i].event != name ==>
              Rescheduled(rows, name, date)[i] == rows[i]
    ensures forall i :: 0 <= i < |rows| ==>
              Rescheduled(rows, name, date)[i].event == rows[i].event &&
              Rescheduled(rows, name, date)[i].owner == rows[i].owner
  {
    RescheduledAt(rows, name, date);
  }

  /** When no row carries the name, the table is left exactly as it was. */
  lemma {:induction false} RescheduledAbsent(rows: seq<Event>, name: string, date: string)
    requires !HasEvent(rows, name)
    ensures Rescheduled(rows, name, date) == rows
  {
    RescheduledAt(rows, name, date);
  }

  /** Applying the same update twice gives the table that applying it once gives. */
  lemma {:induction false} RescheduledIdempotent(rows: seq<Event>, name: string, date: string)
    ensures Rescheduled(Rescheduled(rows, name, date), name, date) == Rescheduled(rows, name, date)
  {
    var once := Rescheduled(rows, name, date);
    RescheduledAt(rows, name, date);
    RescheduledAt(once, name, date);
  }

  /** `df.loc[df['event'] == name, 'date'] = date` on the table in memory. */
  method SetDates(df: array<Event>, name: string, date: string)
    modifies df
    ensures forall k :: 0 <= k < df.Length ==>
              df[k] == if old(df[k]).event == name then old(df[k]).(date := date) else old(df[k])
  {
    for i := 0 to df.Length
      invariant forall k :: 0 <= k < i ==>
                  df[k] == if old(df[k]).event == name then old(df[k]).(date := date) else old(df[k])
      invariant forall k :: i <= k < df.Length ==> df[k] == old(df[k])
    {
      if df[i].event == name {
        df[i] := df[i].(date := date);
      }
    }
  }

  /** `df.loc[df['event'] == name, 'status'] = 'Rescheduled'` on the table in memory. */
  method SetStatuses(df: array<Event>, name: string)
    modifies df
    ensures forall k :: 0 <= k < df.Length ==>
              df[k] == if old(df[k]).event == name then old(df[k]).(status := RescheduledStatus) else old(df[k])
  {
    for i := 0 to df.Length
      invariant forall k :: 0 <= k < i ==>
                  df[k] == if old(df[k]).event == name then old(df[k]).(status := RescheduledStatus) else old(df[k])
      invariant forall k :: i <= k < df.Length ==> df[k] == old(df[k])
    {
      if df[i].event == name {
        df[i] := df[i].(status := RescheduledStatus);
      }
    }
  }

  /** The worksheet as the page sees it through the spreadsheet connection. */
  class TimelineSheet {
    /** The rows currently stored in the worksheet. */
    var rows: seq<Event>
    /** How many times the whole worksheet has been written back. */
    var writes: nat

    constructor (seed: seq<Event>)
      ensures rows == seed && writes == 0
    {
      rows := seed;
      writes := 0;
    }

    /**
     * `update_timeline_event`: reads the sheet into a table, sets the date and
     * then the status of every row named `name`, and writes the table back;
     * reports whether the name occurs. Nothing is written when it does not.
     */
    method UpdateEvent(name: string, newDate: string) returns (found: bool)
      modifies this
      ensures found == HasEvent(old(rows), name)
      ensures rows == Rescheduled(old(rows), name, newDate)
      ensures found ==> writes == old(writes) + 1
      ensures !found ==> writes == old(writes)
    {
      var snapshot := rows;
      var df := new Event[|snapshot|](i requires 0 <= i < |snapshot| => snapshot[i]);
      var events := seq(df.Length, i requires 0 <= i < df.Length reads df => df[i].event);
      found := name in events;
      assert forall i :: 0 <= i < |events| ==> events[i] == snapshot[i].event;
      assert found == HasEvent(snapshot, name) by {
        if HasEvent(snapshot, name) {
          var j :| 0 <= j < |snapshot| && snapshot[j].event == name;
          assert events[j] == name;
        }
      }
      if !found {
        RescheduledAbsent(snapshot, name, newDate);
        return;
      }
      SetDates(df, name, newDate);
      SetStatuses(df, name);
      RescheduledAt(snapshot, name, newDate);
      assert df[..] == Rescheduled(snapshot, name, newDate);
      rows := df[..];
      writes := writes + 1;
    }
  }
}
