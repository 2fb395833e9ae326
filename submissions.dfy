/**
 * The "Submissions" worksheet: one row per procedural request filed by a
 * party, with a `status` cell that starts as "Pending" and is later
 * overwritten with the tribunal's decision. An empty cell is the empty string;
 * a sheet without a `status` column is one whose status cells are all empty.
 */
module Submissions {

  datatype Submission = Submission(party: string, docType: string, summary: string,
                                   proposedDate: string, status: string)

  const Pending := "Pending"

  /** The row `add_submission` appends: the given fields and status "Pending". */
  function NewRow(party: string, docType: string, summary: string, proposedDate: string): Submission
  {
    Submission(party, docType, summary, proposedDate, Pending)
  }

  /**
   * The table after its row at `index` has its status cell set to `status`.
   * Setting a cell at an index the table does not have appends a row whose
   * other cells are empty (the table grows to take the new label).
   */
  function WithStatus(rows: seq<Submission>, index: nat, status: string): (r: seq<Submission>)
    ensures |rows| <= |r| <= |rows| + 1
    ensures forall i :: 0 <= i < |rows| && i != index ==> r[i] == rows[i]
    ensures index < |rows| ==> |r| == |rows| && r[index] == rows[index].(status := status)
    ensures index >= |rows| ==> |r| == |rows| + 1 && r[|rows|].status == status
  {
    if index < |rows| then rows[index := rows[index].(status := status)]
    else rows + [Submission("", "", "", "", status)]
  }

  /** One row of the tribunal's inbox: its position in the sheet and its cells. */
  datatype Entry = Entry(index: nat, row: Submission)

  /** The pending filter: the Pending rows with their positions, in sheet order. */
  function PendingView(rows: seq<Submission>): (view: seq<Entry>)
    ensures |view| <= |rows|
  {
    if rows == [] then []
    else
      var last := |rows| - 1;
      PendingView(rows[..last]) + if rows[last].status == Pending then [Entry(last, rows[last])] else []
  }

  /** The positions of the Pending rows, as a set. */
  function PendingIndices(rows: seq<Submission>): set<nat>
  {
    set i: nat | i < |rows| && rows[i].status == Pending
  }

  /** The positions an inbox lists, as a set. */
  function ViewIndices(view: seq<Entry>): set<nat>
  {
    set k | 0 <= k < |view| :: view[k].index
  }

  /** Every inbox entry is a Pending row of the sheet, at the position it gives. */
  lemma {:induction false} PendingViewSound(rows: seq<Submission>)
    ensures forall k :: 0 <= k < |PendingView(rows)| ==>
              PendingView(rows)[k].index < |rows| &&
              rows[PendingView(rows)[k].index] == PendingView(rows)[k].row &&
              PendingView(rows)[k].row.status == Pending
  {
    if rows != [] {
      var last := |rows| - 1;
      PendingViewSound(rows[..last]);
    }
  }

  /** The inbox lists its rows in the order of the sheet, each at most once. */
  lemma {:induction false} PendingViewOrdered(rows: seq<Submission>)
    ensures forall k, l :: 0 <= k < l < |PendingView(rows)| ==>
              PendingView(rows)[k].index < PendingView(rows)[l].index
  {
    if rows != [] {
      var last := |rows| - 1;
      PendingViewOrdered(rows[..last]);
      PendingViewSound(rows[..last]);
    }
  }

  /** The inbox lists exactly the Pending rows of the sheet. */
  lemma {:induction false} PendingViewExact(rows: seq<Submission>)
    ensures ViewIndices(PendingView(rows)) == PendingIndices(rows)
  {
    if rows != [] {
      var last := |rows| - 1;
      var init := rows[..last];
      PendingViewExact(init);
      var tail := if rows[last].status == Pending then [Entry(last, rows[last])] else [];
      var view := PendingView(rows);
      assert view == PendingView(init) + tail;
      forall i | i in PendingIndices(rows) ensures i in ViewIndices(view) {
        if i < last {
          assert i in PendingIndices(init);
          var k :| 0 <= k < |PendingView(init)| && PendingView(init)[k].index == i;
          assert view[k].index == i;
        } else {
          assert view[|view| - 1].index == i;
        }
      }
      forall i | i in ViewIndices(view) ensures i in PendingIndices(rows) {
        var k :| 0 <= k < |view| && view[k].index == i;
        if k < |PendingView(init)| {
          assert PendingView(init)[k].index == i;
          assert i in ViewIndices(PendingView(init));
        }
      }
    }
  }

  /** The inbox is empty exactly when no row is Pending; so in particular for an empty sheet or one without a status column. */
  lemma {:induction false} PendingViewEmpty(rows: seq<Submission>)
    ensures PendingView(rows) == [] <==> forall i :: 0 <= i < |rows| ==> rows[i].status != Pending
    ensures (rows == [] || forall i :: 0 <= i < |rows| ==> rows[i].status == "") ==> PendingView(rows) == []
  {
    PendingViewExact(rows);
    if PendingView(rows) != [] {
      assert PendingView(rows)[0].index in ViewIndices(PendingView(rows));
    }
    if i :| 0 <= i < |rows| && rows[i].status == Pending {
      assert i in PendingIndices(rows);
    }
  }

  /** A row appended to the sheet joins the end of the inbox exactly when it is Pending. */
  lemma PendingViewAppend(rows: seq<Submission>, r: Submission)
    ensures PendingView(rows + [r]) ==
              PendingView(rows) + if r.status == Pending then [Entry(|rows|, r)] else []
  {
    assert (rows + [r])[..|rows|] == rows;
  }

  /** Deciding a row (any status other than "Pending") removes exactly that row from the inbox. */
  lemma DecidedLeavesInbox(rows: seq<Submission>, index: nat, status: string)
    requires status != Pending
    ensures PendingIndices(WithStatus(rows, index, status)) == PendingIndices(rows) - {index}
  {
    var after := WithStatus(rows, index, status);
    forall i | i in PendingIndices(after) ensures i in PendingIndices(rows) - {index} {
      assert i < |rows|;
    }
  }

  /** The sheet as the page sees it through the spreadsheet connection. */
  class SubmissionSheet {
    /** The rows currently stored in the worksheet. */
    var rows: seq<Submission>
    /** How many times the whole worksheet has been written back. */
    var writes: nat

    constructor (seed: seq<Submission>)
      ensures rows == seed && writes == 0
    {
      rows := seed;
      writes := 0;
    }

    /** `add_submission`: appends one Pending row after the existing ones and writes the sheet back. */
    method Add(party: string, docType: string, summary: string, proposedDate: string)
      modifies this
      ensures |rows| == |old(rows)| + 1
      ensures rows[..|old(rows)|] == old(rows)
      ensures rows[|old(rows)|] == Submission(party, docType, summary, proposedDate, Pending)
      ensures writes == old(writes) + 1
    {
      var newRow := NewRow(party, docType, summary, proposedDate);
      rows := rows + [newRow];
      writes := writes + 1;
    }

    /** `update_submission_status`: overwrites the status cell of row `index` and writes the sheet back. */
    method SetStatus(index: nat, status: string)
      modifies this
      ensures rows == WithStatus(old(rows), index, status)
      ensures index < |old(rows)| ==> |rows| == |old(rows)|
      ensures index < |old(rows)| ==> rows[index] == old(rows)[index].(status := status)
      ensures forall i :: 0 <= i < |old(rows)| && i != index ==> rows[i] == old(rows)[i]
      ensures writes == old(writes) + 1
    {
      var snapshot := rows;
      if index < |snapshot| {
        var df := new Submission[|snapshot|](i requires 0 <= i < |snapshot| => snapshot[i]);
        df[index] := df[index].(status := status);
        rows := df[..];
      } else {
        rows := snapshot + [Submission("", "", "", "", status)];
      }
      writes := writes + 1;
    }
  }
}
