/** The rows of the hosted store that the pages read, as declared in
    src/integrations/supabase/types.ts. */
module Schema {
  import opened Js

  /** The `location_type` enum of the `campus_map` table. */
  datatype LocationType =
    | Classroom | Lab | Office | Hostel | Canteen | Library
    | Auditorium | Sports | Parking | Department | Other

  /** The enum value as the string the store sends. */
  function TypeName(t: LocationType): string {
    match t
    case Classroom => "classroom"
    case Lab => "lab"
    case Office => "office"
    case Hostel => "hostel"
    case Canteen => "canteen"
    case Library => "library"
    case Auditorium => "auditorium"
    case Sports => "sports"
    case Parking => "parking"
    case Department => "department"
    case Other => "other"
  }

  /** Distinct enum values have distinct names. */
  lemma TypeNameInjective(a: LocationType, b: LocationType)
    ensures TypeName(a) == TypeName(b) <==> a == b
  {
  }

  /** A row of `profiles`; every column but `id` may be null. The time stamps are not modelled. */
  datatype ProfileRow = ProfileRow(
    id: string,
    fullName: Option<string>,
    avatarUrl: Option<string>,
    points: Option<int>,
    reviewsCount: Option<int>,
    streakDays: Option<int>)

  // The optional chains `profile?.full_name`, `profile?.points`, ... on a
  // profile that may itself be null: undefined when the profile is missing,
  // the column (possibly null) otherwise.

  function FullNameOf(p: Option<ProfileRow>): (r: Option<string>)
    ensures p.None? ==> r.None?
    ensures p.Some? ==> r == p.value.fullName
  {
    if p.Some? then p.value.fullName else None
  }

  function PointsOf(p: Option<ProfileRow>): (r: Option<int>)
    ensures p.None? ==> r.None?
    ensures p.Some? ==> r == p.value.points
  {
    if p.Some? then p.value.points else None
  }

  function ReviewsCountOf(p: Option<ProfileRow>): (r: Option<int>)
    ensures p.None? ==> r.None?
    ensures p.Some? ==> r == p.value.reviewsCount
  {
    if p.Some? then p.value.reviewsCount else None
  }

  function StreakDaysOf(p: Option<ProfileRow>): (r: Option<int>)
    ensures p.None? ==> r.None?
    ensures p.Some? ==> r == p.value.streakDays
  {
    if p.Some? then p.value.streakDays else None
  }
}
