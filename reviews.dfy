/** The review handlers of frontend/App.tsx: each one maps over the review list
    and rewrites the review(s) with the given id by an object spread. */
module ReviewActions {
  import opened Domain
  import opened Seqs

  /** The five per-review handlers: vote, report, clear report, approve, reject. */
  datatype ReviewAction = Vote | Report(reason: string) | ClearReport | Approve | Reject

  /** What one action does to one review. Author, facility, text, stars, date
      and AI moderation reason are never touched. */
  function Apply(a: ReviewAction, r: Review): (r': Review)
    ensures r'.id == r.id && r'.facilityId == r.facilityId && r'.userId == r.userId
    ensures r'.userName == r.userName && r'.rating == r.rating && r'.title == r.title
    ensures r'.content == r.content && r'.createdAt == r.createdAt
    ensures r'.moderationReason == r.moderationReason
    // only a vote counts, by exactly one
    ensures r'.helpfulVotes == if a.Vote? then r.helpfulVotes + 1 else r.helpfulVotes
    // only approve and reject move the status
    ensures r'.status == match a
      case Approve => APPROVED
      case Reject => ReviewStatus.REJECTED
      case _ => r.status
    // report raises the flag, clear and reject lower it
    ensures r'.isReported == match a
      case Report(_) => Some(true)
      case ClearReport | Reject => Some(false)
      case _ => r.isReported
    // report sets the reason, clear removes it; reject leaves it behind
    ensures r'.reportReason == match a
      case Report(reason) => Some(reason)
      case ClearReport => None
      case _ => r.reportReason
  {
    match a
    case Vote => r.(helpfulVotes := r.helpfulVotes + 1)
    case Report(reason) => r.(isReported := Some(true), reportReason := Some(reason))
    case ClearReport => r.(isReported := Some(false), reportReason := None)
    case Approve => r.(status := APPROVED)
    case Reject => r.(status := ReviewStatus.REJECTED, isReported := Some(false))
  }

  /** `setReviews(prev => prev.map(r => r.id === id ? ... : r))`: the action is
      applied to every review with that id; the others, the length and the order
      are kept. */
  function UpdateReviews(reviews: seq<Review>, id: string, a: ReviewAction): (r: seq<Review>)
    ensures |r| == |reviews|
    ensures forall i :: 0 <= i < |r| && reviews[i].id == id ==> r[i] == Apply(a, reviews[i])
    ensures forall i :: 0 <= i < |r| && reviews[i].id != id ==> r[i] == reviews[i]
  {
    MapWhere(reviews, HasId(id), Acting(a))
  }

  /** The `r.id === id` test of the handlers. */
  function HasId(id: string): Review -> bool {
    (x: Review) => x.id == id
  }

  /** The action as a function on reviews. */
  function Acting(a: ReviewAction): Review -> Review {
    (x: Review) => Apply(a, x)
  }

  /** An id that no review carries changes nothing. */
  lemma UnknownIdChangesNothing(reviews: seq<Review>, id: string, a: ReviewAction)
    requires forall i :: 0 <= i < |reviews| ==> reviews[i].id != id
    ensures UpdateReviews(reviews, id, a) == reviews
  {
    var r := UpdateReviews(reviews, id, a);
    assert forall i :: 0 <= i < |r| ==> r[i] == reviews[i];
  }

  /** A second report replaces the reason of the first. */
  lemma ReportOverwritesReason(r: Review, first: string, second: string)
    ensures Apply(Report(second), Apply(Report(first), r)) == Apply(Report(second), r)
  {
  }

  /** Clearing a report undoes it, except that the flag is now explicitly false. */
  lemma ClearUndoesReport(r: Review, reason: string)
    ensures Apply(ClearReport, Apply(Report(reason), r)) == r.(isReported := Some(false), reportReason := None)
  {
  }

  /** Votes are independent of moderation: a vote commutes with every action. */
  lemma VoteCommutes(r: Review, a: ReviewAction)
    ensures Apply(Vote, Apply(a, r)) == Apply(a, Apply(Vote, r))
  {
  }

  /** The helpful votes summed over a list. */
  function TotalVotes(reviews: seq<Review>): nat {
    if reviews == [] then 0 else reviews[0].helpfulVotes + TotalVotes(reviews[1..])
  }

  /** The number of reviews with the given id. */
  function CountId(reviews: seq<Review>, id: string): nat {
    |Filter(reviews, HasId(id))|
  }

  /** A vote adds one to the total per review carrying the id; every other action
      leaves the total alone. */
  lemma {:induction false} TotalVotesAfter(reviews: seq<Review>, id: string, a: ReviewAction)
    ensures TotalVotes(UpdateReviews(reviews, id, a))
         == TotalVotes(reviews) + if a.Vote? then CountId(reviews, id) else 0
    decreases |reviews|
  {
    if reviews != [] {
      var t := reviews[1..];
      TotalVotesAfter(t, id, a);
      assert UpdateReviews(reviews, id, a)[1..] == UpdateReviews(t, id, a);
    }
  }
}
