/**
 * The Smart Timeline page: the tribunal's decision on a pending request, the
 * tribunal inbox that offers Approve and Reject for each Pending row, the
 * party's request portal, the role gate choosing between them, and the
 * cost-of-delay formula.
 */
module Workflow {
  import opened Options
  import opened Dates
  import opened Timeline
  import opened Submissions

  /** The event that every approval reschedules, whatever the request names. */
  const ApprovedEvent := "Statement of Defence"
  const Approved := "Approved"
  const Rejected := "Rejected"
  const ArbitratorRole := "arbitrator"
  const ExtensionRequest := "Extension Request"
  /** Fee burn per day of delay, in dollars. */
  const DailyCost := 15000

  datatype Action = Approve | Reject

  /** Both worksheets, as values. */
  datatype Tables = Tables(timeline: seq<Event>, submissions: seq<Submission>)

  /** The status a decision writes. */
  function Verdict(a: Action): string
  {
    match a
    case Approve => Approved
    case Reject => Rejected
  }

  /**
   * The decision on the inbox row `row` found at position `index`: an approval
   * moves the hard-coded event to the row's proposed date and then marks the
   * row Approved; a rejection only marks the row Rejected. Nothing checks that
   * the row is still Pending.
   */
  function Step(t: Tables, index: nat, row: Submission, a: Action): (r: Tables)
    ensures |r.timeline| == |t.timeline|
    ensures a == Reject ==> r.timeline == t.timeline
    ensures |t.submissions| <= |r.submissions| <= |t.submissions| + 1
    ensures index < |t.submissions| ==>
              |r.submissions| == |t.submissions| && r.submissions[index] == t.submissions[index].(status := Verdict(a))
    ensures forall i :: 0 <= i < |t.submissions| && i != index ==> r.submissions[i] == t.submissions[i]
  {
    match a
    case Approve =>
      Tables(Rescheduled(t.timeline, ApprovedEvent, row.proposedDate), WithStatus(t.submissions, index, Approved))
    case Reject =>
      Tables(t.timeline, WithStatus(t.submissions, index, Rejected))
  }

  /** The Approve/Reject buttons' handler, over the two worksheets. */
  method Decide(timeline: TimelineSheet, subs: SubmissionSheet, index: nat, row: Submission, a: Action)
    modifies timeline, subs
    ensures Tables(timeline.rows, subs.rows) == Step(Tables(old(timeline.rows), old(subs.rows)), index, row, a)
    ensures subs.writes == old(subs.writes) + 1
    ensures timeline.writes == if a == Approve && HasEvent(old(timeline.rows), ApprovedEvent)
                               then old(timeline.writes) + 1 else old(timeline.writes)
  {
    if a == Approve {
      var _ := timeline.UpdateEvent(ApprovedEvent, row.proposedDate);
      subs.SetStatus(index, Approved);
    } else {
      subs.SetStatus(index, Rejected);
    }
  }

  /** An approval sets the date and status of every "Statement of Defence" row and marks the request Approved. */
  lemma ApproveReschedules(t: Tables, index: nat, row: Submission)
    requires index < |t.submissions|
    ensures var after := Step(t, index, row, Approve);
      |after.timeline| == |t.timeline| &&
      (forall i :: 0 <= i < |t.timeline| && t.timeline[i].event == ApprovedEvent ==>
         after.timeline[i].date == row.proposedDate && after.timeline[i].status == RescheduledStatus) &&
      |after.submissions| == |t.submissions| &&
      after.submissions[index] == t.submissions[index].(status := Approved)
  {
    RescheduledMatches(t.timeline, ApprovedEvent, row.proposedDate);
  }

  /**
   * An approval touches no other timeline row, whichever event the request
   * asked to move, and leaves the timeline as it was when no row is named
   * "Statement of Defence".
   */
  lemma ApproveIgnoresTarget(t: Tables, index: nat, row: Submission)
    ensures var after := Step(t, index, row, Approve);
      |after.timeline| == |t.timeline| &&
      (forall i :: 0 <= i < |t.timeline| && t.timeline[i].event != ApprovedEvent ==>
         after.timeline[i] == t.timeline[i]) &&
      (!HasEvent(t.timeline, ApprovedEvent) ==> after.timeline == t.timeline)
  {
    RescheduledFrame(t.timeline, ApprovedEvent, row.proposedDate);
    if !HasEvent(t.timeline, ApprovedEvent) {
      RescheduledAbsent(t.timeline, ApprovedEvent, row.proposedDate);
    }
  }

  /** A rejection leaves the timeline unchanged and marks the request Rejected. */
  lemma RejectKeepsTimeline(t: Tables, index: nat, row: Submission)
    requires index < |t.submissions|
    ensures var after := Step(t, index, row, Reject);
      after.timeline == t.timeline &&
      |after.submissions| == |t.submissions| &&
      after.submissions[index] == t.submissions[index].(status := Rejected)
  {
  }

  /** Either decision takes exactly the decided row out of the tribunal's inbox. */
  lemma DecisionLeavesInbox(t: Tables, index: nat, row: Submission, a: Action)
    ensures PendingIndices(Step(t, index, row, a).submissions) == PendingIndices(t.submissions) - {index}
  {
    DecidedLeavesInbox(t.submissions, index, Verdict(a));
  }

  /** Approving the same row twice leaves both sheets as approving it once did. */
  lemma ApproveTwiceIsApproveOnce(t: Tables, index: nat, row: Submission)
    requires index < |t.submissions|
    ensures Step(Step(t, index, row, Approve), index, row, Approve) == Step(t, index, row, Approve)
  {
    RescheduledIdempotent(t.timeline, ApprovedEvent, row.proposedDate);
  }

  /** No guard on the current status: a later decision on an already decided row overwrites it. */
  lemma DecisionOverwritesDecision(t: Tables, index: nat, row: Submission, first: Action, second: Action)
    requires index < |t.submissions|
    ensures Step(Step(t, index, row, first), index, row, second).submissions[index].status == Verdict(second)
  {
  }

  /** Which part of the page a session sees. */
  datatype Scene = AccessDenied | TribunalInbox | RequestPortal

  /** The role gate: no role stops the page; "arbitrator" sees the inbox; any other role the portal. */
  function SceneFor(role: Option<string>): (s: Scene)
    ensures s == AccessDenied <==> role.None?
    ensures s == TribunalInbox <==> role == Some(ArbitratorRole)
    ensures s == RequestPortal <==> role.Some? && role.value != ArbitratorRole
  {
    match role
    case None => AccessDenied
    case Some(r) => if r == ArbitratorRole then TribunalInbox else RequestPortal
  }

  /** A press of one inbox button, identified by the row position in its key. */
  datatype Click = Click(index: nat, action: Action)

  /**
   * What one run of the inbox does: the pressed button exists only for a row in
   * this run's pending view, and its handler decides that row with the cells
   * the view holds for it.
   */
  function InboxEffect(t: Tables, click: Option<Click>): (r: Tables)
    ensures click.None? ==> r == t
    ensures click.Some? && click.value.index in PendingIndices(t.submissions) ==>
              click.value.index < |r.submissions| &&
              r.submissions[click.value.index].status == Verdict(click.value.action)
    ensures PendingIndices(r.submissions) <= PendingIndices(t.submissions)
  {
    if click.Some? && click.value.index in PendingIndices(t.submissions)
    then
      DecisionLeavesInbox(t, click.value.index, t.submissions[click.value.index], click.value.action);
      Step(t, click.value.index, t.submissions[click.value.index], click.value.action)
    else t
  }

  /**
   * A button press for a row that is not Pending in this run does nothing: its
   * button is not on the page, so an already decided row cannot be decided
   * again from the inbox of a run that read it as decided.
   */
  lemma StaleClickIgnored(t: Tables, index: nat, a: Action)
    requires index < |t.submissions| && t.submissions[index].status != Pending
    ensures InboxEffect(t, Some(Click(index, a))) == t
  {
  }

  /**
   * The tribunal inbox: walks the pending view in order, and on the row whose
   * button was pressed runs the decision and ends the run (`st.rerun`).
   */
  method InboxRun(timeline: TimelineSheet, subs: SubmissionSheet, click: Option<Click>)
    modifies timeline, subs
    ensures Tables(timeline.rows, subs.rows) == InboxEffect(Tables(old(timeline.rows), old(subs.rows)), click)
    ensures !(click.Some? && click.value.index in PendingIndices(old(subs.rows))) ==>
              timeline.writes == old(timeline.writes) && subs.writes == old(subs.writes)
    ensures click.Some? && click.value.index in PendingIndices(old(subs.rows)) ==>
              subs.writes == old(subs.writes) + 1 &&
              timeline.writes == if click.value.action == Approve && HasEvent(old(timeline.rows), ApprovedEvent)
                                 then old(timeline.writes) + 1 else old(timeline.writes)
  {
    var view := PendingView(subs.rows);
    PendingViewSound(subs.rows);
    PendingViewExact(subs.rows);
    for k := 0 to |view|
      invariant timeline.rows == old(timeline.rows) && subs.rows == old(subs.rows)
      invariant timeline.writes == old(timeline.writes) && subs.writes == old(subs.writes)
      invariant forall j :: 0 <= j < k ==> click.None? || view[j].index != click.value.index
    {
      var e := view[k];
      if click.Some? && click.value.index == e.index {
        // The pressed button is this row's "app_" or "rej_" button.
        Decide(timeline, subs, e.index, e.row, click.value.action);
        return;
      }
    }
    if click.Some? {
      assert click.value.index !in ViewIndices(view);
    }
  }

  /** What the portal form holds when it is submitted. */
  datatype RequestForm = RequestForm(target: Option<string>, date: Date, text: string)

  /** How the page writes the chosen event into text; no choice (an empty timeline) prints as "None". */
  function Shown(target: Option<string>): string
  {
    match target
    case None => "None"
    case Some(name) => name
  }

  /** The summary line of a request. */
  function RequestSummary(target: Option<string>, text: string): string
  {
    "Request to move " + Shown(target) + ". " + text
  }

  /** The row the portal files for a submitted form. */
  function RequestRow(role: string, form: RequestForm): (r: Submission)
    requires Valid(form.date)
    ensures r.party == role && r.docType == ExtensionRequest && r.status == Pending
    ensures |r.proposedDate| == 10
  {
    NewRow(role, ExtensionRequest, RequestSummary(form.target, form.text), Format(form.date))
  }

  /**
   * A filed request is a Pending "Extension Request" from the session's role, its
   * summary opens with the event it names, and its proposed date reads back as
   * the picked date.
   */
  lemma RequestRowShape(role: string, form: RequestForm)
    requires Valid(form.date)
    ensures var r := RequestRow(role, form);
      r.party == role && r.docType == ExtensionRequest && r.status == Pending &&
      |r.summary| >= |"Request to move " + Shown(form.target) + ". "| &&
      r.summary[..|"Request to move " + Shown(form.target) + ". "|] == "Request to move " + Shown(form.target) + ". " &&
      Parse(r.proposedDate) == Some(form.date)
  {
    ParseFormat(form.date);
  }

  /** The request portal: on submission, files the request row. */
  method PortalRun(subs: SubmissionSheet, role: string, submitted: Option<RequestForm>)
    requires submitted.Some? ==> Valid(submitted.value.date)
    modifies subs
    ensures submitted.None? ==> subs.rows == old(subs.rows) && subs.writes == old(subs.writes)
    ensures submitted.Some? ==> subs.rows == old(subs.rows) + [RequestRow(role, submitted.value)]
    ensures submitted.Some? ==> subs.writes == old(subs.writes) + 1
  {
    if submitted.Some? {
      var form := submitted.value;
      subs.Add(role, ExtensionRequest, RequestSummary(form.target, form.text), Format(form.date));
      assert subs.rows == old(subs.rows) + [RequestRow(role, form)];
    }
  }

  /** A filed request is the one new entry at the end of the tribunal's inbox. */
  lemma FiledRequestJoinsInbox(rows: seq<Submission>, role: string, form: RequestForm)
    requires Valid(form.date)
    ensures PendingView(rows + [RequestRow(role, form)]) ==
              PendingView(rows) + [Entry(|rows|, RequestRow(role, form))]
  {
    PendingViewAppend(rows, RequestRow(role, form));
  }

  /** What one run of the page does to the two worksheets. */
  function PageEffect(role: Option<string>, t: Tables, click: Option<Click>, submitted: Option<RequestForm>): (r: Tables)
    requires submitted.Some? ==> Valid(submitted.value.date)
    ensures |r.timeline| == |t.timeline|
    ensures role.None? ==> r == t
    ensures role != Some(ArbitratorRole) ==> r.timeline == t.timeline
    ensures |t.submissions| <= |r.submissions| <= |t.submissions| + 1
  {
    match SceneFor(role)
    case AccessDenied => t
    case TribunalInbox => InboxEffect(t, click)
    case RequestPortal =>
      if submitted.Some? then Tables(t.timeline, t.submissions + [RequestRow(role.value, submitted.value)]) else t
  }

  /** One run of the page for a session with role `role`. */
  method PageRun(role: Option<string>, timeline: TimelineSheet, subs: SubmissionSheet,
                 click: Option<Click>, submitted: Option<RequestForm>)
    requires submitted.Some? ==> Valid(submitted.value.date)
    modifies timeline, subs
    ensures Tables(timeline.rows, subs.rows) ==
              PageEffect(role, Tables(old(timeline.rows), old(subs.rows)), click, submitted)
    ensures role.None? ==> timeline.writes == old(timeline.writes) && subs.writes == old(subs.writes)
    ensures role.Some? && role.value != ArbitratorRole ==> timeline.writes == old(timeline.writes)
  {
    match SceneFor(role)
    case AccessDenied =>
    case TribunalInbox =>
      InboxRun(timeline, subs, click);
    case RequestPortal =>
      PortalRun(subs, role.value, submitted);
  }

  /**
   * Only the tribunal changes the timeline: a session without a role changes
   * nothing, and a party's run only appends its request to the submissions.
   */
  lemma OnlyTribunalMovesTimeline(role: Option<string>, t: Tables, click: Option<Click>, submitted: Option<RequestForm>)
    requires submitted.Some? ==> Valid(submitted.value.date)
    requires role != Some(ArbitratorRole)
    ensures PageEffect(role, t, click, submitted).timeline == t.timeline
    ensures role.None? ==> PageEffect(role, t, click, submitted) == t
    ensures PendingIndices(t.submissions) <= PendingIndices(PageEffect(role, t, click, submitted).submissions)
  {
    var after := PageEffect(role, t, click, submitted).submissions;
    forall i | i in PendingIndices(t.submissions) ensures i in PendingIndices(after) {
      assert i < |t.submissions| && after[i] == t.submissions[i];
    }
  }

  /** `calculate_cost_impact`: the estimated cost of a delay of `days` days. */
  function CostImpact(days: int): (cost: int)
    ensures cost % DailyCost == 0 && cost / DailyCost == days
  {
    days * DailyCost
  }

  /** No delay costs nothing, and a longer delay always costs more. */
  lemma CostImpactMonotone(d1: int, d2: int)
    ensures CostImpact(0) == 0
    ensures d1 < d2 ==> CostImpact(d1) < CostImpact(d2)
    ensures CostImpact(d2) - CostImpact(d1) == (d2 - d1) * DailyCost
  {
  }

  /** The worked example: one "Statement of Defence" row and one Pending request for 2026-01-29. */
  lemma StatementOfDefenceExample()
    ensures var t := Tables([Event(ApprovedEvent, "2026-01-15", "Respondent", "Scheduled")],
                            [Submission("respondent", ExtensionRequest, "Request to move Statement of Defence. ",
                                        "2026-01-29", Pending)]);
      Step(t, 0, t.submissions[0], Approve) ==
        Tables([Event(ApprovedEvent, "2026-01-29", "Respondent", RescheduledStatus)],
               [t.submissions[0].(status := Approved)]) &&
      Step(t, 0, t.submissions[0], Reject) ==
        Tables(t.timeline, [t.submissions[0].(status := Rejected)])
  {
    var timeline := [Event(ApprovedEvent, "2026-01-15", "Respondent", "Scheduled")];
    RescheduledAt(timeline, ApprovedEvent, "2026-01-29");
  }
}
