/** The records the complaint routes store: one per complaint, one per officer response. */
module ComplaintModel {
  import opened Wrappers

  /** Lifecycle status of a complaint. The routes write only "pending" (on submission)
      and "resolved" (on an officer's response); no route writes any other value. */
  datatype Status = Pending | Resolved

  /** The string the store keeps and the list filter and the dashboard compare against. */
  function StatusName(s: Status): string {
    match s
    case Pending => "pending"
    case Resolved => "resolved"
  }

  /** A stored complaint. Timestamps are clock readings (nat), `images` the upload paths in
      upload order, and `priorityScore` is None until the scorer's answer has been saved. */
  datatype Complaint = Complaint(
    id: nat,
    title: string,
    description: string,
    issueType: string,
    latitude: real,
    longitude: real,
    images: seq<string>,
    status: Status,
    priorityScore: Option<int>,
    createdAt: nat,
    updatedAt: nat)

  /** An officer's response, appended to the response ledger and never edited. */
  datatype Response = Response(
    complaintId: nat,
    officerId: string,
    actionTaken: string,
    imageUrls: seq<string>)
}
