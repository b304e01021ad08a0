/** The moderation page (frontend/pages/Moderation.tsx): two read-only queues
    over the review list, and which review handler each card button calls. */
module Moderation {
  import opened Domain
  import opened Seqs
  import opened ReviewActions

  /** A review the AI moderation left pending or flagged. */
  predicate InAIQueue(r: Review) {
    r.status == ReviewStatus.PENDING || r.status == FLAGGED
  }

  /** A published review a user has reported. */
  predicate InReportQueue(r: Review) {
    IsReported(r) && r.status == APPROVED
  }

  /** `pendingOrFlagged`: the "AI Automated Flags" column. */
  function PendingOrFlagged(reviews: seq<Review>): (q: seq<Review>)
    ensures forall r :: r in q <==> r in reviews && (r.status == ReviewStatus.PENDING || r.status == FLAGGED)
  {
    Filter(reviews, InAIQueue)
  }

  /** `reportedReviews`: the "User Incident Reports" column. */
  function ReportedReviews(reviews: seq<Review>): (q: seq<Review>)
    ensures forall r :: r in q <==> r in reviews && r.isReported == Some(true) && r.status == APPROVED
  {
    Filter(reviews, InReportQueue)
  }

  /** No review is in both columns, so the two counts in the header together
      never exceed the number of reviews. */
  lemma QueuesDisjoint(reviews: seq<Review>)
    ensures forall r :: !(r in PendingOrFlagged(reviews) && r in ReportedReviews(reviews))
    ensures |PendingOrFlagged(reviews)| + |ReportedReviews(reviews)| <= |reviews|
  {
    FilterDisjointLength(reviews, InAIQueue, InReportQueue);
  }

  /** Each column lists its reviews in the order of the review list. */
  lemma QueuesKeepOrder(reviews: seq<Review>)
    ensures IsSubsequence(PendingOrFlagged(reviews), reviews)
    ensures IsSubsequence(ReportedReviews(reviews), reviews)
  {
    FilterIsSubsequence(reviews, InAIQueue);
    FilterIsSubsequence(reviews, InReportQueue);
  }

  /** Each column holds every copy of a qualifying review and nothing else. */
  lemma QueueCounts(reviews: seq<Review>)
    ensures forall r :: multiset(PendingOrFlagged(reviews))[r] == if InAIQueue(r) then multiset(reviews)[r] else 0
    ensures forall r :: multiset(ReportedReviews(reviews))[r] == if InReportQueue(r) then multiset(reviews)[r] else 0
  {
    FilterCount(reviews, InAIQueue);
    FilterCount(reviews, InReportQueue);
  }

  /** A rejected review is in neither column, reported or not. */
  lemma RejectedInNoQueue(reviews: seq<Review>, r: Review)
    requires r.status == ReviewStatus.REJECTED
    ensures r !in PendingOrFlagged(reviews) && r !in ReportedReviews(reviews)
  {
  }

  // ----- the cards' buttons

  /** The two columns of the page. */
  datatype Panel = AIFlags | UserReports

  /** The two buttons of a card. */
  datatype Button = ApproveButton | BanButton

  function Queue(panel: Panel, reviews: seq<Review>): seq<Review> {
    match panel
    case AIFlags => PendingOrFlagged(reviews)
    case UserReports => ReportedReviews(reviews)
  }

  function InPanel(panel: Panel): Review -> bool {
    match panel
    case AIFlags => InAIQueue
    case UserReports => InReportQueue
  }

  /** The caption of a button. */
  function ButtonLabel(panel: Panel, button: Button): (caption: string)
    ensures caption == "Dismiss Report" <==> ButtonAction(panel, button) == ClearReport
    ensures caption == "Permanent Ban" <==> ButtonAction(panel, button) == Reject
    ensures caption == "Force Approve" <==> ButtonAction(panel, button) == Approve
  {
    match button
    case ApproveButton => if panel == UserReports then "Dismiss Report" else "Force Approve"
    case BanButton => "Permanent Ban"
  }

  /** The handler a button calls: in the report column the approve-side button
      only clears the report; "Permanent Ban" rejects in both columns. */
  function ButtonAction(panel: Panel, button: Button): (a: ReviewAction)
    ensures button == BanButton ==> a == Reject
    ensures button == ApproveButton ==> (a == Approve <==> panel == AIFlags)
    ensures button == ApproveButton ==> (a == ClearReport <==> panel == UserReports)
  {
    match (panel, button)
    case (_, BanButton) => Reject
    case (AIFlags, ApproveButton) => Approve
    case (UserReports, ApproveButton) => ClearReport
  }

  /** "Dismiss Report" keeps the review's status and lowers its report flag. */
  lemma DismissKeepsStatus(r: Review)
    ensures Apply(ButtonAction(UserReports, ApproveButton), r).status == r.status
    ensures !IsReported(Apply(ButtonAction(UserReports, ApproveButton), r))
  {
  }

  /** The review a button acts on is no longer in the column of its card. */
  lemma ButtonTakesOffPanel(panel: Panel, button: Button, r: Review)
    ensures !InPanel(panel)(Apply(ButtonAction(panel, button), r))
  {
    var r' := Apply(ButtonAction(panel, button), r);
    match (panel, button)
    case (AIFlags, _) => assert !InAIQueue(r');
    case (UserReports, _) => assert !InReportQueue(r');
  }

  /** The `r.id !== id` test. */
  function OtherThan(id: string): Review -> bool {
    (x: Review) => x.id != id
  }

  /** If the action takes every review out of a queue, the queue after the
      update is the queue before it without the reviews carrying the id. */
  lemma {:induction false} UpdateLeavesQueue(reviews: seq<Review>, id: string, act: ReviewAction, q: Review -> bool)
    requires forall x :: !q(Apply(act, x))
    ensures Filter(UpdateReviews(reviews, id, act), q) == Filter(Filter(reviews, q), OtherThan(id))
    decreases |reviews|
  {
    if reviews != [] {
      var h, t := reviews[0], reviews[1..];
      var after := UpdateReviews(reviews, id, act);
      UpdateLeavesQueue(t, id, act, q);
      assert after[1..] == UpdateReviews(t, id, act);
      var kept := Filter(t, q);
      if q(h) {
        assert Filter(reviews, q) == [h] + kept;
        assert ([h] + kept)[1..] == kept;
      }
    }
  }

  /** Whatever button is pressed on a card, the column it sits in then holds
      exactly its former reviews minus those with the card's id. */
  lemma ButtonRemovesFromPanel(panel: Panel, button: Button, reviews: seq<Review>, id: string)
    ensures Queue(panel, UpdateReviews(reviews, id, ButtonAction(panel, button)))
         == Filter(Queue(panel, reviews), OtherThan(id))
  {
    forall x ensures !InPanel(panel)(Apply(ButtonAction(panel, button), x)) {
      ButtonTakesOffPanel(panel, button, x);
    }
    UpdateLeavesQueue(reviews, id, ButtonAction(panel, button), InPanel(panel));
  }

  /** Banning removes a review from both columns, not only the one it was
      banned from. */
  lemma BanClearsBothPanels(reviews: seq<Review>, id: string)
    ensures PendingOrFlagged(UpdateReviews(reviews, id, Reject)) == Filter(PendingOrFlagged(reviews), OtherThan(id))
    ensures ReportedReviews(UpdateReviews(reviews, id, Reject)) == Filter(ReportedReviews(reviews), OtherThan(id))
  {
    ButtonRemovesFromPanel(AIFlags, BanButton, reviews, id);
    ButtonRemovesFromPanel(UserReports, BanButton, reviews, id);
  }

  /** "Force Approve" on a flagged review that a user has also reported moves it
      from the AI column into the report column. */
  lemma ForceApproveMovesReported(r: Review)
    requires InAIQueue(r) && IsReported(r)
    ensures !InAIQueue(Apply(ButtonAction(AIFlags, ApproveButton), r))
    ensures InReportQueue(Apply(ButtonAction(AIFlags, ApproveButton), r))
  {
  }

  /** A report on a published review puts it in the report column; a report on
      a review still awaiting moderation does not. */
  lemma ReportEntersQueue(reviews: seq<Review>, id: string, reason: string, i: int)
    requires 0 <= i < |reviews| && reviews[i].id == id
    ensures var after := UpdateReviews(reviews, id, Report(reason));
      after[i] in ReportedReviews(after) <==> reviews[i].status == APPROVED
  {
    var after := UpdateReviews(reviews, id, Report(reason));
    assert after[i] in after;
  }
}
