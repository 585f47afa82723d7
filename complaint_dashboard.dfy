/** The operator dashboard's decision logic: the priority chip colour, when "Mark Resolved"
    is disabled, and the resolve dialog's state. */
module ComplaintDashboard {
  import Wrappers
  import opened ComplaintModel
  import PredictionApi

  /** The chip colours getPriorityColor chooses from. */
  datatype ChipColor = ErrorColor | WarningColor | InfoColor | SuccessColor

  /** Rank of a colour by urgency, 3 for "error" down to 0 for "success". */
  function Urgency(c: ChipColor): nat {
    match c
    case ErrorColor => 3
    case WarningColor => 2
    case InfoColor => 1
    case SuccessColor => 0
  }

  /** getPriorityColor. A complaint without a score passes null, which compares as below
      every band, so it is shown as "success". */
  function GetPriorityColor(score: Wrappers.Option<real>): (c: ChipColor)
    ensures c == ErrorColor <==> score.Some? && score.value >= 80.0
    ensures c == WarningColor <==> score.Some? && 60.0 <= score.value < 80.0
    ensures c == InfoColor <==> score.Some? && 40.0 <= score.value < 60.0
    ensures c == SuccessColor <==> score.None? || score.value < 40.0
  {
    match score
    case None => SuccessColor
    case Some(s) =>
      if s >= 80.0 then ErrorColor
      else if s >= 60.0 then WarningColor
      else if s >= 40.0 then InfoColor
      else SuccessColor
  }

  /** A higher score never gets a less urgent colour. */
  lemma PriorityColorMonotone(a: real, b: real)
    requires a <= b
    ensures Urgency(GetPriorityColor(Wrappers.Some(a))) <= Urgency(GetPriorityColor(Wrappers.Some(b)))
  {
  }

  /** The colour bands cut at the same points as the scoring service's risk levels:
      "error" is CRITICAL, "warning" HIGH, "info" MEDIUM, "success" LOW or MINOR. */
  lemma PriorityColorMatchesRiskLevel(score: real)
    ensures GetPriorityColor(Wrappers.Some(score)) == ErrorColor <==> PredictionApi.GetRiskLevel(score) == PredictionApi.Critical
    ensures GetPriorityColor(Wrappers.Some(score)) == WarningColor <==> PredictionApi.GetRiskLevel(score) == PredictionApi.High
    ensures GetPriorityColor(Wrappers.Some(score)) == InfoColor <==> PredictionApi.GetRiskLevel(score) == PredictionApi.Medium
    ensures GetPriorityColor(Wrappers.Some(score)) == SuccessColor <==>
      PredictionApi.GetRiskLevel(score) in {PredictionApi.Low, PredictionApi.Minor}
  {
  }

  /** The `disabled` property of a row's "Mark Resolved" action. */
  predicate MarkResolvedDisabled(row: Complaint) {
    StatusName(row.status) == "resolved"
  }

  lemma MarkResolvedDisabledExactly(row: Complaint)
    ensures MarkResolvedDisabled(row) <==> row.status == Resolved
  {
  }

  /** `complaints.find(c => c.id === id)`: the first row with that id, or none. */
  function FindById(rows: seq<Complaint>, id: nat): (r: Wrappers.Option<Complaint>)
    ensures r.None? <==> forall i :: 0 <= i < |rows| ==> rows[i].id != id
    ensures r.Some? ==> exists i :: 0 <= i < |rows| && rows[i] == r.value && r.value.id == id
                                    && forall j :: 0 <= j < i ==> rows[j].id != id
  {
    if rows == [] then Wrappers.None
    else if rows[0].id == id then Wrappers.Some(rows[0])
    else
      var r := FindById(rows[1..], id);
      if r.Some? then
        var i :| 0 <= i < |rows[1..]| && rows[1..][i] == r.value && r.value.id == id
                 && forall j :: 0 <= j < i ==> rows[1..][j].id != id;
        assert rows[i + 1] == r.value;
        r
      else r
  }

  /** The body POST /:id/respond receives from the dialog. */
  datatype RespondRequest = RespondRequest(complaintId: nat, actionTaken: string)

  /** The dashboard component's state. */
  class Dashboard {
    var complaints: seq<Complaint>
    var selectedComplaint: Wrappers.Option<Complaint>
    var responseDialog: bool
    var responseText: string

    constructor (rows: seq<Complaint>)
      ensures complaints == rows && selectedComplaint.None? && !responseDialog && responseText == ""
    {
      complaints := rows;
      selectedComplaint := Wrappers.None;
      responseDialog := false;
      responseText := "";
    }

    /** "View Details": selects the row. */
    method ViewDetails(row: Complaint)
      modifies this
      ensures selectedComplaint == Wrappers.Some(row)
      ensures complaints == old(complaints) && responseDialog == old(responseDialog) && responseText == old(responseText)
    {
      selectedComplaint := Wrappers.Some(row);
    }

    /** handleResolve: selects the first row with that id (none if absent) and opens the dialog. */
    method HandleResolve(id: nat)
      modifies this
      ensures selectedComplaint == FindById(complaints, id)
      ensures responseDialog
      ensures complaints == old(complaints) && responseText == old(responseText)
    {
      selectedComplaint := FindById(complaints, id);
      responseDialog := true;
    }

    /** The text field's onChange. */
    method SetResponseText(text: string)
      modifies this
      ensures responseText == text
      ensures complaints == old(complaints) && selectedComplaint == old(selectedComplaint) && responseDialog == old(responseDialog)
    {
      responseText := text;
    }

    /** submitResponse. With no selected complaint reading its id throws before anything is
        sent; otherwise the text is posted for the selected id, and the dialog closes only when
        the post succeeds (`posted`). Returns the request sent, if any. */
    method SubmitResponse(posted: bool) returns (sent: Wrappers.Option<RespondRequest>)
      modifies this
      ensures sent.Some? <==> old(selectedComplaint).Some?
      ensures sent.Some? ==> sent.value == RespondRequest(old(selectedComplaint).value.id, old(responseText))
      ensures responseDialog == (old(responseDialog) && !(sent.Some? && posted))
      ensures complaints == old(complaints) && selectedComplaint == old(selectedComplaint) && responseText == old(responseText)
    {
      if selectedComplaint.None? {
        return Wrappers.None;
      }
      sent := Wrappers.Some(RespondRequest(selectedComplaint.value.id, responseText));
      if posted {
        responseDialog := false;
      }
    }

    /** The dialog's onClose. */
    method CloseDialog()
      modifies this
      ensures !responseDialog
      ensures complaints == old(complaints) && selectedComplaint == old(selectedComplaint) && responseText == old(responseText)
    {
      responseDialog := false;
    }
  }
}
