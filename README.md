# Smart Timeline request workflow — a Dafny model

This project models the procedural-timeline workflow of the ArbOS "Smart
Timeline" page (`pages/2_Smart_Timeline.py`): parties file requests to move a
procedural deadline, the tribunal (the `arbitrator` role) sees the Pending
requests in an inbox and approves or rejects each one, and an approval
reschedules an event in the official timeline.

The page keeps its state in two spreadsheet worksheets. Each helper reads a
whole worksheet into a table, changes it, and writes the whole table back. The
model keeps that shape:

- `Timeline.TimelineSheet` and `Submissions.SubmissionSheet` are the two
  worksheets. Each is a class holding the stored rows (`rows`) and a count of
  whole-sheet write-backs (`writes`). The count is how the model states that a
  helper did or did not write the sheet.
- `TimelineSheet.UpdateEvent` (`update_timeline_event`) copies the rows into an
  array (the DataFrame). It then sets the date column and, in a second pass,
  the status column of every row whose `event` matches. Finally it stores the
  array's contents back. `SubmissionSheet.SetStatus` (`update_submission_status`)
  copies the rows into an array in the same way and overwrites one status cell.
  `SubmissionSheet.Add` (`add_submission`) is the concatenation
  `rows := rows + [newRow]`, as `pd.concat` builds a new table.
- Pure specification functions state what the helpers compute:
  `Timeline.Rescheduled`, `Submissions.WithStatus` and `Submissions.PendingView`
  (the pending filter). The lemmas about them prove the listed properties.
- `Workflow.Step` is the decision step as a state machine over both tables.
  `Workflow.Decide` runs the Approve and Reject handlers on the two sheets.
  `Workflow.InboxRun` is the inbox loop. `Workflow.PortalRun` is the party's
  request form. `Workflow.PageRun` is one run of the page, and chooses between
  them by role.
- `Dates` gives the text form in which the form stores the picked date (Python's
  `str(date)`, "YYYY-MM-DD"). It proves that this form reads back as the same
  date.

Cells are strings, as the sheet stores them. An empty cell is `""`. A
submissions sheet without a `status` column is one whose status cells are all
empty.

Behaviour of the code that the model keeps on purpose:

- An approval always reschedules the hard-coded event "Statement of Defence".
  It does not use the event the request names; the summary carries that name
  only as text.
- The result of `update_timeline_event` is ignored. If "Statement of Defence" is
  absent, the timeline is neither changed nor written, but the request is still
  marked Approved.
- The decision handlers (`Step`, `Decide`) do not re-check the status of the
  row they decide. The inbox draws the Approve and Reject buttons only for rows
  that were Pending when the run read the sheet, so a press for any other row
  does nothing (`StaleClickIgnored`). Deciding a row a second time therefore
  takes a second session or a hand edit of the sheet (see the concurrency line
  under "## Left out").
- The inbox shows a fixed cost banner of $225,000. It does not call
  `calculate_cost_impact`. The value equals the formula for 15 days.
- Setting the status of a row index the table does not have appends a new row.
  The new row's other cells are empty. This is what the pandas `.at` setter
  does with a missing label.
- A request row has no column naming its target event, and no columns for a
  decision reason or a decision date.
- The code raises no typed errors.
- Nothing checks that the approved event exists before the request is marked
  Approved.

## Model

| member | source | states |
|---|---|---|
| `Timeline.Rescheduled` | pages/2_Smart_Timeline.py:56-57 | defines the timeline after both `df.loc` assignments: every row named `name` gets the new date and status "Rescheduled"; its contract keeps the row count and the `event` and `owner` columns |
| `Timeline.TimelineSheet.UpdateEvent` | pages/2_Smart_Timeline.py:49-60 | returns true exactly when some row's `event` equals the name; the sheet then holds `Rescheduled(old rows)` and has been written once; when the name is absent the rows are unchanged and nothing is written |
| `Timeline.SetDates` | pages/2_Smart_Timeline.py:56 | on the in-memory table, every row whose `event` equals the name gets the new date and every other row is unchanged |
| `Timeline.SetStatuses` | pages/2_Smart_Timeline.py:57 | on the in-memory table, every row whose `event` equals the name gets status "Rescheduled" and every other row is unchanged |
| `Timeline.RescheduledAt` | pages/2_Smart_Timeline.py:56-57 | the update keeps the row count, and each row becomes its single-row update: date and status set when the event matches, otherwise unchanged |
| `Timeline.RescheduledMatches` | pages/2_Smart_Timeline.py:55-57 | every row whose `event` equals the name ends with the new date and status "Rescheduled" |
| `Timeline.RescheduledFrame` | pages/2_Smart_Timeline.py:55-57 | rows with any other event are unchanged, and the `event` and `owner` columns of every row are unchanged |
| `Timeline.RescheduledAbsent` | pages/2_Smart_Timeline.py:55-60 | when no row carries the name, the table is exactly the old one |
| `Timeline.RescheduledIdempotent` | pages/2_Smart_Timeline.py:56-57 | applying the update twice with the same arguments gives the same table as applying it once |
| `Submissions.WithStatus` | pages/2_Smart_Timeline.py:66 | defines the table after `df.at[index, 'status'] = status`: for an index in the table only that row's status changes; any other index appends one row with that status; every other existing row is kept |
| `Submissions.PendingView` | pages/2_Smart_Timeline.py:114-117 | defines the pending filter: the Pending rows with their positions, in sheet order; it is never longer than the sheet |
| `Submissions.SubmissionSheet.Add` | pages/2_Smart_Timeline.py:31-47 | the table is one row longer, the existing rows are unchanged and in order, the last row holds the given party, doc type, summary and proposed date with status "Pending", and the sheet is written once |
| `Submissions.SubmissionSheet.SetStatus` | pages/2_Smart_Timeline.py:62-67 | for an index in the table, only that row's status changes, to the given value; the row count and every other row stay the same; a missing index appends a row with empty cells and that status; the sheet is written once |
| `Submissions.PendingViewSound` | pages/2_Smart_Timeline.py:114-115 | each inbox entry gives a position in the sheet whose row is the entry's row, and that row's status is "Pending" |
| `Submissions.PendingViewOrdered` | pages/2_Smart_Timeline.py:114-115 | inbox entries appear in the sheet's order, with strictly increasing positions |
| `Submissions.PendingViewExact` | pages/2_Smart_Timeline.py:114-115 | the positions in the inbox are exactly the positions of the Pending rows |
| `Submissions.PendingViewEmpty` | pages/2_Smart_Timeline.py:114-117 | the inbox is empty if and only if no row is Pending, hence empty for an empty sheet or a sheet without a status column |
| `Submissions.PendingViewAppend` | pages/2_Smart_Timeline.py:46 | appending a row adds it at the end of the inbox exactly when its status is "Pending", and leaves the earlier entries as they were |
| `Submissions.DecidedLeavesInbox` | pages/2_Smart_Timeline.py:66 | setting any status other than "Pending" at an index removes exactly that index from the Pending positions |
| `Workflow.Step` | pages/2_Smart_Timeline.py:146-159 | defines the decision step over both tables: Approve reschedules "Statement of Defence" to the row's proposed date and marks the row Approved; Reject only marks the row Rejected; its contract keeps the timeline's length, keeps the timeline on Reject and touches no other submission row |
| `Workflow.Decide` | pages/2_Smart_Timeline.py:146-159 | the two sheets end as `Step` of their old contents; the submissions sheet is written once; the timeline is written only on an approval when "Statement of Defence" occurs |
| `Workflow.ApproveReschedules` | pages/2_Smart_Timeline.py:146-153 | after an approval every "Statement of Defence" row has the request's proposed date and status "Rescheduled", and the decided row has status "Approved" with its other cells kept |
| `Workflow.ApproveIgnoresTarget` | pages/2_Smart_Timeline.py:148-150 | an approval changes no timeline row other than "Statement of Defence", whatever the request asked to move, and changes nothing when that event is absent |
| `Workflow.RejectKeepsTimeline` | pages/2_Smart_Timeline.py:157-158 | a rejection leaves the timeline exactly as it was and sets the decided row's status to "Rejected" |
| `Workflow.DecisionLeavesInbox` | pages/2_Smart_Timeline.py:146-159 | either decision removes exactly the decided position from the Pending positions |
| `Workflow.ApproveTwiceIsApproveOnce` | pages/2_Smart_Timeline.py:146-153 | approving the same row twice leaves both tables as a single approval does |
| `Workflow.DecisionOverwritesDecision` | pages/2_Smart_Timeline.py:146-159 | a second decision on an already decided row is not refused: its status becomes the second verdict |
| `Workflow.InboxEffect` | pages/2_Smart_Timeline.py:124-159 | defines one inbox run: a press takes effect only for a row Pending in this run, and then applies `Step` with that row's cells; no press changes nothing; the Pending positions never grow |
| `Workflow.StaleClickIgnored` | pages/2_Smart_Timeline.py:114-124 | a press for a row that is not Pending leaves both tables unchanged, because that row has no buttons |
| `Workflow.InboxRun` | pages/2_Smart_Timeline.py:124-159 | the sheets end as `InboxEffect` of their old contents; without an effective press neither sheet is written; an effective press writes the submissions once, and the timeline once exactly when it approves and "Statement of Defence" occurs |
| `Workflow.RequestRow` | pages/2_Smart_Timeline.py:196-201 | defines the row the form files: the session's role, "Extension Request", the "Request to move ..." summary, the date's text, status "Pending" |
| `Workflow.RequestRowShape` | pages/2_Smart_Timeline.py:196-201 | a filed request has the session's role as party, doc type "Extension Request", status "Pending", a summary that starts with "Request to move <event>. ", and a proposed date that reads back as the picked date |
| `Workflow.PortalRun` | pages/2_Smart_Timeline.py:192-201 | a submitted form appends exactly the request row to the submissions and writes the sheet once; an unsubmitted form changes nothing and writes nothing |
| `Workflow.FiledRequestJoinsInbox` | pages/2_Smart_Timeline.py:196-201 | after filing, the inbox is the old inbox plus one new entry: the request at the new last position |
| `Workflow.SceneFor` | pages/2_Smart_Timeline.py:11-108 | defines the role gate: no role is denied, exactly the role "arbitrator" gets the inbox, and every other role gets the request portal |
| `Workflow.PageEffect` | pages/2_Smart_Timeline.py:11-201 | defines one run of the page by scene; a run without a role changes nothing, a non-arbitrator run keeps the timeline, and a run adds at most one submission row |
| `Workflow.PageRun` | pages/2_Smart_Timeline.py:11-201 | the sheets end as `PageEffect` of their old contents; a run without a role writes neither sheet; a party's run never writes the timeline |
| `Workflow.OnlyTribunalMovesTimeline` | pages/2_Smart_Timeline.py:105-201 | a run by a session that is not the arbitrator never changes the timeline and never removes a Pending request; a run without a role changes nothing |
| `Workflow.CostImpact` | pages/2_Smart_Timeline.py:70-76 | defines `calculate_cost_impact`: the cost is a whole multiple of 15000 whose quotient by 15000 is the number of days |
| `Workflow.CostImpactMonotone` | pages/2_Smart_Timeline.py:70-76 | the cost is 0 for no delay, strictly increasing in the number of days, and grows by 15000 per day |
| `Workflow.StatementOfDefenceExample` | pages/2_Smart_Timeline.py:146-159 | a worked case: approving a request for 2026-01-29 moves the "Statement of Defence" row from 2026-01-15 to 2026-01-29 with status "Rescheduled"; rejecting it leaves the timeline unchanged |
| `Dates.Format` | pages/2_Smart_Timeline.py:200 | defines `str(date)`: ten characters, digits around dashes at positions 4 and 7 |
| `Dates.ParseFormat` | pages/2_Smart_Timeline.py:177-200 | the stored text of a picked date is ten characters long and reads back as that date |
| `Dates.FormatParse` | pages/2_Smart_Timeline.py:177-200 | any text that reads as a date is exactly that date's stored form, so the stored form is canonical |

## Left out

- Spreadsheet I/O is not modelled: the connection and its `read` and `update` calls become the `rows` field and the `writes` count. The broad `except` fallbacks to empty tables are left out too.
- The column check in `get_submissions` is left out. It replaces a sheet without a `party` column with an empty table, and is part of the same I/O fallback.
- Rendering is left out: the Gantt chart, the colour map, the `to_datetime` parse of the timeline dates and the three-day `finish` column. All of them work only on the page's local copy and never reach a sheet.
- Workflow.PageRun: assumes every run reaches its scene. In the code the `to_datetime` parse of the timeline dates (line 84) runs first and can raise. A timeline date that does not parse, for example an approved request's date written into the timeline, stops the page for every role before either scene.
- The Streamlit widgets are not modelled. A button press is an `Option<Click>` parameter and a submitted form is an `Option<RequestForm>` parameter. The parse of `proposed_date` in the inbox card only chooses a message, so it is left out.
- The event choice is any `Option<string>` with `None` for an empty timeline. The model does not restrict it to the events of the timeline, as the select box does.
- The uploaded PDF is left out, because the page never stores it.
- Workflow.CostImpactMonotone: `days_delayed` is taken as an integer, so a float argument is not modelled.
- Concurrency is not modelled. Two sessions deciding the same request are out of scope, as is the race between the inbox's read and the handlers' re-reads.
- `pages/1_Drafting_PO1.py` is not part of this model. It extracts PDF text, calls a hosted language model and renders a document template.
- `main.py` is not part of this model. It is a static landing page.
