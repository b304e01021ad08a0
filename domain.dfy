/** The records of the frontend (frontend/types.ts). Optional TypeScript fields
    are `Option`s; a facility's `rating` is kept in integer tenths of a star
    (4.8 is 48), the precision the rating update rounds to. */
module Domain {

  datatype Option<T> = None | Some(value: T)

  datatype UserRole = USER | ADMIN

  datatype VerificationStatus = UNVERIFIED | PENDING | VERIFIED | REJECTED

  datatype User = User(
    id: string,
    email: string,
    displayName: string,
    role: UserRole,
    isVerified: bool,                 // e-mail verification
    verificationStatus: VerificationStatus, // professional licence verification
    licenseNumber: Option<string>,
    avatar: Option<string>)

  datatype FacilityCategory = Hospital | Clinic | Agency

  datatype Facility = Facility(
    id: string,
    name: string,
    category: FacilityCategory,
    address: string,
    city: string,
    state: string,
    zipCode: string,
    county: Option<string>,
    telephone: Option<string>,
    hospitalType: Option<string>,
    ownership: Option<string>,
    emergencyServices: Option<bool>,
    description: string,
    tags: seq<string>,
    rating: nat,                      // tenths of a star
    reviewCount: nat,
    imageUrl: string)

  datatype ReviewStatus = PENDING | APPROVED | REJECTED | FLAGGED

  datatype Review = Review(
    id: string,
    facilityId: string,
    userId: string,
    userName: string,
    rating: nat,                      // whole stars
    title: string,
    content: string,
    status: ReviewStatus,
    moderationReason: Option<string>,
    createdAt: string,
    isReported: Option<bool>,
    reportReason: Option<string>,
    helpfulVotes: nat)

  /** `r.isReported` is truthy: an absent flag reads as false. */
  predicate IsReported(r: Review) {
    r.isReported == Some(true)
  }
}
