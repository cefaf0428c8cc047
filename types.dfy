/**
 * The records of the back office and their closed enumerations.
 * Dates are instants in milliseconds; JavaScript numbers are integers here.
 */
module Types {
  import opened Wrappers

  /** A `Date`, as milliseconds since the epoch. */
  type Instant = int

  /** `Candidate.status` */
  datatype Status = New | Interview | Offer | Hired | Rejected

  /** The string a status is stored and compared as. */
  function StatusName(s: Status): string {
    match s
    case New => "new"
    case Interview => "interview"
    case Offer => "offer"
    case Hired => "hired"
    case Rejected => "rejected"
  }

  /** The status a string names, if it names one. */
  function ParseStatus(name: string): Option<Status> {
    if name == "new" then Some(New)
    else if name == "interview" then Some(Interview)
    else if name == "offer" then Some(Offer)
    else if name == "hired" then Some(Hired)
    else if name == "rejected" then Some(Rejected)
    else None
  }

  /** The five names and the five statuses correspond one to one, and "waiting" is not one of them. */
  lemma StatusNamesBijective()
    ensures forall s :: ParseStatus(StatusName(s)) == Some(s)
    ensures forall name, s :: ParseStatus(name) == Some(s) ==> StatusName(s) == name
    ensures forall s :: StatusName(s) != "waiting"
  {
  }

  /** `Job.status` */
  datatype JobStatus = Open | Filled | Closed

  function JobStatusName(s: JobStatus): string {
    match s
    case Open => "open"
    case Filled => "filled"
    case Closed => "closed"
  }

  function ParseJobStatus(name: string): Option<JobStatus> {
    if name == "open" then Some(Open)
    else if name == "filled" then Some(Filled)
    else if name == "closed" then Some(Closed)
    else None
  }

  lemma JobStatusNamesBijective()
    ensures forall s :: ParseJobStatus(JobStatusName(s)) == Some(s)
    ensures forall name, s :: ParseJobStatus(name) == Some(s) ==> JobStatusName(s) == name
  {
  }

  /** `User.role` */
  datatype Role = SuperAdmin | Admin | Employee

  function RoleName(r: Role): string {
    match r
    case SuperAdmin => "super_admin"
    case Admin => "admin"
    case Employee => "employee"
  }

  function ParseRole(name: string): Option<Role> {
    if name == "super_admin" then Some(SuperAdmin)
    else if name == "admin" then Some(Admin)
    else if name == "employee" then Some(Employee)
    else None
  }

  lemma RoleNamesBijective()
    ensures forall r :: ParseRole(RoleName(r)) == Some(r)
    ensures forall name, r :: ParseRole(name) == Some(r) ==> RoleName(r) == name
  {
  }

  datatype Candidate = Candidate(
    id: string,
    firstName: string,
    lastName: string,
    email: string,
    phone: string,
    position: string,
    status: Status,
    cvUrl: Option<string>,
    createdAt: Instant,
    updatedAt: Instant,
    tags: seq<string>,
    rating: Option<int>,
    assignedTo: Option<string>,
    officeId: string)

  datatype Company = Company(
    id: string,
    name: string,
    industry: string,
    website: Option<string>,
    contactPerson: string,
    contactEmail: string,
    contactPhone: Option<string>,
    address: Option<string>,
    notes: Option<string>,
    createdAt: Instant,
    updatedAt: Instant,
    openPositions: int,
    officeId: string)

  datatype Job = Job(
    id: string,
    title: string,
    companyId: string,
    companyName: string,
    description: string,
    requirements: seq<string>,
    location: string,
    salaryRange: Option<string>,
    status: JobStatus,
    createdAt: Instant,
    updatedAt: Instant,
    deadline: Option<Instant>,
    officeId: string)

  datatype User = User(
    id: string,
    name: string,
    email: string,
    role: Role,
    officeId: string,
    createdAt: Instant,
    updatedAt: Instant,
    lastLogin: Option<Instant>)

  datatype Office = Office(
    id: string,
    name: string,
    location: string,
    contactEmail: string,
    contactPhone: Option<string>,
    createdAt: Instant,
    updatedAt: Instant)
}
