/** The application state of frontend/App.tsx: facilities, reviews, the user
    registry, the signed-in user and the e-mail awaiting verification, with the
    handlers that replace them. Ids and timestamps, drawn by the source from
    `Math.random()` and `new Date()`, are parameters here. */
module AppStore {
  import opened Domain
  import opened Seqs
  import opened Ratings
  import opened ReviewActions
  import opened Accounts
  import opened Moderation

  /** The administrator the registry starts with when nothing was saved. */
  function SeedAdmin(): (admin: User)
    ensures admin.role == ADMIN
    ensures Login([admin], admin.email) == Some(admin)
  {
    User("admin-1", "admin@scout.com", "Admin Scout", ADMIN, true, VERIFIED, None, None)
  }

  /** The review `handleAddReview` builds: published at once, no votes, no
      report and no moderation reason. */
  function NewReview(id: string, facilityId: string, author: User, stars: nat, title: string, content: string, createdAt: string): (r: Review)
    ensures r.facilityId == facilityId && r.userId == author.id && r.userName == author.displayName
    ensures r.id == id && r.rating == stars && r.title == title && r.content == content && r.createdAt == createdAt
    ensures r.status == APPROVED && r.moderationReason == None
    ensures r.helpfulVotes == 0 && r.isReported == None && r.reportReason == None
    ensures !InAIQueue(r) && !InReportQueue(r)
  {
    Review(id, facilityId, author.id, author.displayName, stars, title, content, APPROVED, None, createdAt, None, None, 0)
  }

  /** A new review is in neither moderation column, so adding it leaves both
      columns as they were. */
  lemma NewReviewInNoQueue(rv: Review, reviews: seq<Review>)
    requires rv.status == APPROVED && rv.isReported == None
    ensures PendingOrFlagged([rv] + reviews) == PendingOrFlagged(reviews)
    ensures ReportedReviews([rv] + reviews) == ReportedReviews(reviews)
  {
    assert ([rv] + reviews)[1..] == reviews;
  }

  /** `reviews.filter(r => r.facilityId === selectedFacilityId)`: the reviews the
      detail page lists. */
  function ReviewsFor(reviews: seq<Review>, facilityId: string): (r: seq<Review>)
    ensures forall x :: x in r <==> x in reviews && x.facilityId == facilityId
  {
    Filter(reviews, (x: Review) => x.facilityId == facilityId)
  }

  /** A new review heads its facility's list and leaves the other facilities'
      lists alone. */
  lemma NewReviewHeadsItsFacility(rv: Review, reviews: seq<Review>, facilityId: string)
    ensures ReviewsFor([rv] + reviews, facilityId)
         == if rv.facilityId == facilityId then [rv] + ReviewsFor(reviews, facilityId) else ReviewsFor(reviews, facilityId)
  {
    assert ([rv] + reviews)[1..] == reviews;
  }

  class Store {
    var facilities: seq<Facility>
    var reviews: seq<Review>
    var userRegistry: seq<User>
    var currentUser: Option<User>
    var pendingVerificationEmail: Option<string>

    /** E-mails and ids are unique, and the signed-in user is a registered one. */
    ghost predicate Valid()
      reads this
    {
      UniqueEmails(userRegistry) && UniqueIds(userRegistry) &&
      (currentUser.Some? ==> currentUser.value in userRegistry)
    }

    /** The moderation page is shown to administrators only. */
    predicate IsAdmin()
      reads this
    {
      currentUser.Some? && currentUser.value.role == ADMIN
    }

    /** A fresh start: the given catalogue, the seed administrator, nobody
        signed in. */
    constructor (initialFacilities: seq<Facility>, initialReviews: seq<Review>)
      ensures Valid()
      ensures facilities == initialFacilities && reviews == initialReviews
      ensures userRegistry == [SeedAdmin()]
      ensures currentUser == None && pendingVerificationEmail == None
    {
      facilities := initialFacilities;
      reviews := initialReviews;
      userRegistry := [SeedAdmin()];
      currentUser := None;
      pendingVerificationEmail := None;
    }

    /** `handleSignup`: a taken e-mail changes nothing; otherwise the new user is
        appended and its e-mail awaits verification. `id` stands for the random
        id and is taken to be fresh. */
    method Signup(email: string, id: string)
      requires Valid()
      requires forall u :: u in userRegistry ==> u.id != id
      modifies this
      ensures Valid()
      ensures userRegistry == Accounts.Signup(old(userRegistry), id, email)
      ensures pendingVerificationEmail ==
        if exists u :: u in old(userRegistry) && u.email == email then old(pendingVerificationEmail) else Some(email)
      ensures currentUser == old(currentUser) && facilities == old(facilities) && reviews == old(reviews)
    {
      SignupKeepsUnique(userRegistry, id, email);
      if FindByEmail(userRegistry, email).Some? {
        return;
      }
      userRegistry := userRegistry + [NewUser(id, email)];
      pendingVerificationEmail := Some(email);
    }

    /** `handleVerify`: the users with that e-mail are verified and the first of
        them is signed in; for an unknown e-mail nobody is signed in. */
    method Verify(email: string)
      requires Valid()
      modifies this
      ensures Valid()
      ensures userRegistry == Accounts.Verify(old(userRegistry), email)
      ensures currentUser == FindByEmail(userRegistry, email)
      ensures currentUser.Some? ==> currentUser.value.isVerified
      ensures pendingVerificationEmail == None
      ensures facilities == old(facilities) && reviews == old(reviews)
    {
      VerifyKeepsUnique(userRegistry, email);
      userRegistry := Accounts.Verify(userRegistry, email);
      currentUser := FindByEmail(userRegistry, email);
      pendingVerificationEmail := None;
    }

    /** `handleLogin`: a verified registered user is signed in and returned; an
        unverified one is sent back to verification; an unknown e-mail changes
        nothing. The role argument is ignored. */
    method Login(email: string, role: UserRole) returns (u: Option<User>)
      requires Valid()
      modifies this
      ensures Valid()
      ensures u == Accounts.Login(old(userRegistry), email)
      ensures currentUser == if u.Some? then u else old(currentUser)
      ensures pendingVerificationEmail ==
        if FindByEmail(old(userRegistry), email).Some? && u.None? then Some(email) else old(pendingVerificationEmail)
      ensures userRegistry == old(userRegistry) && facilities == old(facilities) && reviews == old(reviews)
    {
      var found := FindByEmail(userRegistry, email);
      if found.None? {
        return None;
      }
      if !found.value.isVerified {
        pendingVerificationEmail := Some(email);
        return None;
      }
      currentUser := found;
      return found;
    }

    /** `handleLogout`. */
    method Logout()
      requires Valid()
      modifies this
      ensures Valid()
      ensures currentUser == None
      ensures userRegistry == old(userRegistry) && pendingVerificationEmail == old(pendingVerificationEmail)
      ensures facilities == old(facilities) && reviews == old(reviews)
    {
      currentUser := None;
    }

    /** `handleUpdateProfile`: without a signed-in user nothing happens;
        otherwise the signed-in user and its registry entry become the merge. */
    method UpdateProfile(updates: ProfileUpdate)
      requires Valid()
      modifies this
      ensures old(currentUser).None? ==> currentUser == None && userRegistry == old(userRegistry)
      ensures old(currentUser).Some? ==>
        currentUser == Some(Merge(old(currentUser).value, updates)) &&
        userRegistry == Accounts.UpdateProfile(old(userRegistry), old(currentUser).value.id, currentUser.value)
      ensures (old(currentUser).None? || KeepsKeys(old(userRegistry), old(currentUser).value, updates)) ==> Valid()
      ensures pendingVerificationEmail == old(pendingVerificationEmail)
      ensures facilities == old(facilities) && reviews == old(reviews)
    {
      if currentUser.None? {
        return;
      }
      var current := currentUser.value;
      var updated := Merge(current, updates);
      if KeepsKeys(userRegistry, current, updates) {
        UpdateProfileKeepsUnique(userRegistry, current, updates);
      }
      currentUser := Some(updated);
      userRegistry := Accounts.UpdateProfile(userRegistry, current.id, updated);
    }

    /** `updateFacilityRating`. */
    method UpdateFacilityRating(facilityId: string, stars: nat)
      modifies this
      ensures facilities == Ratings.UpdateFacilityRating(old(facilities), facilityId, stars)
      ensures reviews == old(reviews) && userRegistry == old(userRegistry)
      ensures currentUser == old(currentUser) && pendingVerificationEmail == old(pendingVerificationEmail)
    {
      facilities := Ratings.UpdateFacilityRating(facilities, facilityId, stars);
    }

    /** `handleAddReview`, reached only from the review form of a verified
        signed-in user: the review is prepended, then folded into its facility's
        rating. */
    method AddReview(id: string, facilityId: string, stars: nat, title: string, content: string, createdAt: string)
      requires currentUser.Some? && currentUser.value.isVerified
      modifies this
      ensures reviews == [NewReview(id, facilityId, old(currentUser).value, stars, title, content, createdAt)] + old(reviews)
      ensures facilities == Ratings.UpdateFacilityRating(old(facilities), facilityId, stars)
      ensures PendingOrFlagged(reviews) == PendingOrFlagged(old(reviews))
      ensures ReportedReviews(reviews) == ReportedReviews(old(reviews))
      ensures userRegistry == old(userRegistry)
      ensures currentUser == old(currentUser) && pendingVerificationEmail == old(pendingVerificationEmail)
    {
      NewReviewInNoQueue(NewReview(id, facilityId, currentUser.value, stars, title, content, createdAt), reviews);
      reviews := [NewReview(id, facilityId, currentUser.value, stars, title, content, createdAt)] + reviews;
      UpdateFacilityRating(facilityId, stars);
    }

    /** The five review handlers share one shape: map the action over the reviews
        with the given id. */
    method UpdateReviewsWith(id: string, a: ReviewAction)
      modifies this
      ensures reviews == UpdateReviews(old(reviews), id, a)
      ensures facilities == old(facilities) && userRegistry == old(userRegistry)
      ensures currentUser == old(currentUser) && pendingVerificationEmail == old(pendingVerificationEmail)
    {
      reviews := UpdateReviews(reviews, id, a);
    }

    /** `handleVoteReview`. */
    method VoteReview(id: string)
      modifies this
      ensures reviews == UpdateReviews(old(reviews), id, Vote)
      ensures TotalVotes(reviews) == TotalVotes(old(reviews)) + ReviewActions.CountId(old(reviews), id)
      ensures facilities == old(facilities) && userRegistry == old(userRegistry)
      ensures currentUser == old(currentUser) && pendingVerificationEmail == old(pendingVerificationEmail)
    {
      TotalVotesAfter(reviews, id, Vote);
      UpdateReviewsWith(id, Vote);
    }

    /** `handleReportReview`, reached only with a non-empty reason. */
    method ReportReview(id: string, reason: string)
      requires |reason| > 0
      modifies this
      ensures reviews == UpdateReviews(old(reviews), id, Report(reason))
      ensures facilities == old(facilities) && userRegistry == old(userRegistry)
      ensures currentUser == old(currentUser) && pendingVerificationEmail == old(pendingVerificationEmail)
    {
      UpdateReviewsWith(id, Report(reason));
    }

    /** `handleClearReport`, wired to the moderation page only. */
    method ClearReport(id: string)
      requires IsAdmin()
      modifies this
      ensures reviews == UpdateReviews(old(reviews), id, ReviewAction.ClearReport)
      ensures facilities == old(facilities) && userRegistry == old(userRegistry)
      ensures currentUser == old(currentUser) && pendingVerificationEmail == old(pendingVerificationEmail)
    {
      UpdateReviewsWith(id, ReviewAction.ClearReport);
    }

    /** `handleApproveReview`, wired to the moderation page only. */
    method ApproveReview(id: string)
      requires IsAdmin()
      modifies this
      ensures reviews == UpdateReviews(old(reviews), id, Approve)
      ensures facilities == old(facilities) && userRegistry == old(userRegistry)
      ensures currentUser == old(currentUser) && pendingVerificationEmail == old(pendingVerificationEmail)
    {
      UpdateReviewsWith(id, Approve);
    }

    /** `handleRejectReview`, wired to the moderation page only. */
    method RejectReview(id: string)
      requires IsAdmin()
      modifies this
      ensures reviews == UpdateReviews(old(reviews), id, Reject)
      ensures facilities == old(facilities) && userRegistry == old(userRegistry)
      ensures currentUser == old(currentUser) && pendingVerificationEmail == old(pendingVerificationEmail)
    {
      UpdateReviewsWith(id, Reject);
    }

    /** A button press on a moderation card: the handler it is wired to runs,
        and the card's review leaves the column the card sits in. */
    method PressModerationButton(panel: Panel, button: Button, id: string)
      requires IsAdmin()
      modifies this
      ensures reviews == UpdateReviews(old(reviews), id, ButtonAction(panel, button))
      ensures Queue(panel, reviews) == Filter(Queue(panel, old(reviews)), OtherThan(id))
      ensures facilities == old(facilities) && userRegistry == old(userRegistry)
      ensures currentUser == old(currentUser) && pendingVerificationEmail == old(pendingVerificationEmail)
    {
      ButtonRemovesFromPanel(panel, button, reviews, id);
      match (panel, button)
      case (_, BanButton) => RejectReview(id);
      case (AIFlags, ApproveButton) => ApproveReview(id);
      case (UserReports, ApproveButton) => ClearReport(id);
    }
  }
}
