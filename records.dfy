/**
 * The entities the application reads from and writes to its document store
 * (types.ts), plus the signed-in user and the router location that the auth
 * flow passes around.
 */
module Records {

  datatype Option<T> = None | Some(value: T)

  /** The five roles a profile may carry. */
  datatype Role = Member | Editor | Viewer | Admin | PowerAdmin

  /** The role as the string stored in the profile document and exported to CSV. */
  function RoleName(r: Role): (name: string)
    ensures name != ""
  {
    match r
    case Member => "member"
    case Editor => "editor"
    case Viewer => "viewer"
    case Admin => "admin"
    case PowerAdmin => "power-admin"
  }

  lemma RoleNameInjective(a: Role, b: Role)
    requires RoleName(a) == RoleName(b)
    ensures a == b
  {
  }

  datatype Profile = Profile(uid: string, name: string, email: string, role: Role)

  datatype ApplicationStatus = Pending | Approved | Rejected

  datatype MembershipApplication = MembershipApplication(
    id: string,
    name: string,
    email: string,
    phone: string,
    farmLocation: string,
    farmSize: string,
    status: ApplicationStatus,
    submittedAt: string)

  datatype Trend = Up | Down | Stable

  /** Prices are JavaScript numbers; they are modelled as reals (no NaN, no rounding). */
  datatype MarketPrice = MarketPrice(id: string, name: string, price: real, trend: Trend)

  datatype Listing = Listing(id: string, productName: string, quantity: string, price: real, userId: string)

  datatype Announcement = Announcement(id: string, date: string, author: string, title: string, body: string)

  datatype FlockStatus = PeakProduction | Growing | EndOfLay | New

  datatype LivestockFlock = LivestockFlock(id: string, flockType: string, age: int, headcount: int, status: FlockStatus)

  /** The signed-in user as the auth provider reports it. */
  datatype User = User(uid: string, email: string)

  /** A router location and the state a redirect carries with it. */
  datatype Location = Location(pathname: string)
  datatype NavState = NavState(from: Option<Location>)
}
