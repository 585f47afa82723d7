/** The complaint routes as a store object: POST /submit, GET /list and POST /:id/respond.
    The store holds the complaints by id, the response ledger, and a ghost trace of the
    writes and scorer calls in the order the handlers perform them. */
module ComplaintRoutes {
  import opened Wrappers
  import opened ComplaintModel
  import ComplaintQuery

  /** Multer's limit on the number of uploaded images per submission. */
  const MaxImages: nat := 5

  /** The body sent to the scoring service. */
  datatype ScoreRequest = ScoreRequest(latitude: real, longitude: real, issueType: string, timestamp: nat)

  /** What happened, in order: a record created (its id), the scorer called (with the ids
      stored at that moment), a score saved. */
  datatype Event =
    | Stored(id: nat)
    | ScorerCalled(request: ScoreRequest, storedIds: set<nat>)
    | ScoreSaved(id: nat, score: int)

  /** The reply of POST /submit. `UploadRejected`: more than MaxImages files, nothing stored.
      `ScoringAborted`: the scorer's promise rejected, the handler ends without a reply. */
  datatype SubmitReply =
    | Created(data: Complaint, priorityScore: int)
    | UploadRejected
    | ScoringAborted

  /** The record POST /submit creates before it calls the scorer. */
  function PendingRecord(id: nat, title: string, description: string, issueType: string,
                         latitude: real, longitude: real, uploads: seq<string>, now: nat): (c: Complaint)
    ensures c.id == id && c.status == Pending && c.priorityScore.None?
    ensures c.images == uploads && c.createdAt == now && c.updatedAt == now
    ensures c.title == title && c.description == description && c.issueType == issueType
    ensures c.latitude == latitude && c.longitude == longitude
  {
    Complaint(id, title, description, issueType, latitude, longitude, uploads, Pending, None, now, now)
  }

  class ComplaintStore {
    var complaints: map<nat, Complaint>
    var responses: seq<Response>
    var nextId: nat
    ghost var trace: seq<Event>

    /** Ids are 0 .. nextId-1 in creation order; each record carries its own id and at most
        MaxImages images. */
    ghost predicate Valid()
      reads this
    {
      && (forall id: nat :: id in complaints <==> id < nextId)
      && (forall id :: id in complaints ==> complaints[id].id == id && |complaints[id].images| <= MaxImages)
    }

    constructor ()
      ensures Valid()
      ensures complaints == map[] && responses == [] && nextId == 0 && trace == []
    {
      complaints, responses, nextId := map[], [], 0;
      trace := [];
    }

    /** The stored complaints in their natural (creation) order. */
    function Records(): (rs: seq<Complaint>)
      reads this
      requires Valid()
      ensures |rs| == nextId
      ensures forall i :: 0 <= i < nextId ==> rs[i] == complaints[i]
      ensures forall c :: c in rs <==> c in complaints.Values
    {
      var rs := seq(nextId, i requires i in complaints reads this => complaints[i]);
      assert forall c :: c in complaints.Values ==> c in rs by {
        forall c | c in complaints.Values ensures c in rs {
          var id :| id in complaints && complaints[id] == c;
          assert rs[id] == c;
        }
      }
      rs
    }

    /** POST /submit. The pending record is stored first, then the scorer is called with the
        submitted location and issue type, then the returned score is saved on the record. */
    method Submit(title: string, description: string, issueType: string,
                  latitude: real, longitude: real, uploads: seq<string>,
                  now: nat, timestamp: nat, callMLService: ScoreRequest -> Option<int>)
      returns (reply: SubmitReply)
      requires Valid()
      modifies this
      ensures Valid()
      ensures responses == old(responses)
      ensures forall id :: id in old(complaints) ==> id in complaints && complaints[id] == old(complaints)[id]
      ensures |uploads| > MaxImages ==>
        reply == UploadRejected && complaints == old(complaints) && nextId == old(nextId) && trace == old(trace)
      ensures |uploads| <= MaxImages ==>
        var id := old(nextId);
        var pending := PendingRecord(id, title, description, issueType, latitude, longitude, uploads, now);
        var request := ScoreRequest(latitude, longitude, issueType, timestamp);
        && id !in old(complaints)
        && nextId == id + 1
        && match callMLService(request)
           case None =>
             && complaints == old(complaints)[id := pending]
             && trace == old(trace) + [Stored(id), ScorerCalled(request, old(complaints).Keys + {id})]
             && reply == ScoringAborted
           case Some(score) =>
             && complaints == old(complaints)[id := pending.(priorityScore := Some(score))]
             && trace == old(trace) + [Stored(id), ScorerCalled(request, old(complaints).Keys + {id}), ScoreSaved(id, score)]
             && reply == Created(complaints[id], score)
    {
      if |uploads| > MaxImages {
        return UploadRejected;
      }
      // 1. save the complaint
      var id := nextId;
      var complaint := PendingRecord(id, title, description, issueType, latitude, longitude, uploads, now);
      complaints := complaints[id := complaint];
      nextId := nextId + 1;
      trace := trace + [Stored(id)];
      // 2. call the scoring service
      var request := ScoreRequest(latitude, longitude, issueType, timestamp);
      assert complaints.Keys == old(complaints).Keys + {id};
      trace := trace + [ScorerCalled(request, complaints.Keys)];
      assert trace == old(trace) + [Stored(id), ScorerCalled(request, old(complaints).Keys + {id})];
      var priorityScore := callMLService(request);
      if priorityScore.None? {
        return ScoringAborted;
      }
      // 3. save the score on the record
      complaint := complaint.(priorityScore := priorityScore);
      complaints := complaints[id := complaint];
      trace := trace + [ScoreSaved(id, priorityScore.value)];
      reply := Created(complaint, priorityScore.value);
    }

    /** GET /list over the stored complaints. */
    method List(params: ComplaintQuery.ListParams) returns (reply: Result<ComplaintQuery.ListPage>)
      requires Valid()
      ensures reply == ComplaintQuery.List(Records(), params)
    {
      reply := ComplaintQuery.List(Records(), params);
    }

    /** POST /:id/respond. The response is appended whether or not `id` names a stored
        complaint; the status update then touches that complaint only, if it exists. */
    method Respond(id: nat, officerId: string, actionTaken: string, images: seq<string>, now: nat)
      returns (response: Response)
      requires Valid()
      modifies this
      ensures Valid()
      ensures response == Response(id, officerId, actionTaken, images)
      ensures responses == old(responses) + [response]
      ensures nextId == old(nextId) && trace == old(trace)
      ensures complaints.Keys == old(complaints).Keys
      ensures forall k :: k in complaints && k != id ==> complaints[k] == old(complaints)[k]
      ensures id in complaints ==>
        complaints[id] == old(complaints)[id].(status := Resolved, updatedAt := now)
    {
      response := Response(id, officerId, actionTaken, images);
      responses := responses + [response];
      if id in complaints {
        complaints := complaints[id := complaints[id].(status := Resolved, updatedAt := now)];
      }
    }
  }

  /** A complaint about a leak is submitted and the scorer answers 72; an officer then
      responds twice. The score is saved with the status still "pending"; the first response
      resolves the complaint, the second adds a second ledger entry and leaves it resolved. */
  method LeakScenario() returns (submitted: SubmitReply, final: Complaint, ledger: seq<Response>)
    ensures submitted.Created? && submitted.priorityScore == 72
    ensures submitted.data.status == Pending && submitted.data.priorityScore == Some(72)
    ensures final.status == Resolved && final.priorityScore == Some(72) && final.updatedAt == 3
    ensures |ledger| == 2 && ledger[0].actionTaken == "Pipe replaced" && ledger[1].complaintId == final.id
  {
    var store := new ComplaintStore();
    submitted := store.Submit("Leak on 5th", "", "water_leakage", 23.26, 77.41, [], 1, 1, request => Some(72));
    var id := submitted.data.id;
    var first := store.Respond(id, "officer-1", "Pipe replaced", [], 2);
    assert store.complaints[id].status == Resolved;
    var second := store.Respond(id, "officer-1", "Site inspected again", [], 3);
    final := store.complaints[id];
    ledger := store.responses;
  }
}
