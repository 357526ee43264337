/**
 * The fixed demo seed (constants.tsx, plus the one visitor the provider adds
 * when it loads the seed). The seed's times are offsets from an instant: for
 * the notices and complaints, the instant the constants were loaded; for the
 * visitor, the instant the seed is installed. The collections that carry
 * times are therefore functions of that instant.
 */
module Constants {
  import opened Types
  import opened Seqs

  // The seed's longer texts are named constants of their own.
  const AdminAvatar: string :=
    "https://images.unsplash.com/photo-1494790108377-be9c29b29330?auto=format&fit=crop&w=200&q=80"
  const ResidentAvatar: string :=
    "https://images.unsplash.com/photo-1507003211169-0a1dd7228f2d?auto=format&fit=crop&w=200&q=80"
  const ElevatorTitle: string := "Elevator Maintenance Scheduled"
  const ElevatorContent: string :=
    "Elevator in Block B will be under maintenance this Friday from 10 AM to 4 PM."
  const YogaTitle: string := "Weekend Yoga Session"
  const YogaContent: string :=
    "Join us for a community yoga session in the central park this Sunday at 7 AM."
  const LeakageTitle: string := "Water Leakage in Kitchen"
  const LeakageDescription: string := "There is a persistent drip from the main sink pipe."
  const LobbyLightTitle: string := "Broken Lobby Light"
  const LobbyLightDescription: string := "The light near the entrance of Block A is flickering."

  const MockAdmin: User := User(
    "admin-1", "Sarah Connor", "admin@civichub.com", ADMIN, None,
    Some("+1 234 567 8900"), Some(AdminAvatar))

  const MockResident: User := User(
    "res-1", "John Doe", "john@example.com", RESIDENT, Some("B-402"),
    Some("+1 987 654 3210"), Some(ResidentAvatar))

  const OneDay: int := 86400000

  function InitialNotices(now: Timestamp): seq<Notice>
  {
    [ Notice("n1", ElevatorTitle, ElevatorContent, "Admin Team", now - OneDay, Urgent),
      Notice("n2", YogaTitle, YogaContent, "Society Secretary", now - 2 * OneDay, Event) ]
  }

  function InitialComplaints(now: Timestamp): seq<Complaint>
  {
    [ Complaint("c1", "res-1", "John Doe", "B-402", LeakageTitle, LeakageDescription, "Plumbing",
                HIGH, OPEN, now - 43200000, None),
      Complaint("c2", "res-2", "Alice Smith", "A-101", LobbyLightTitle, LobbyLightDescription,
                "Electrical", LOW, IN_PROGRESS, now - 3 * OneDay, None) ]
  }

  const InitialPayments: seq<Payment> := [
    Payment("p1", "res-1", "John Doe", "B-402", 250, "October 2023", "2023-10-10", PAID),
    Payment("p2", "res-1", "John Doe", "B-402", 250, "November 2023", "2023-11-10", PENDING)
  ]

  /** The visitor the provider's seed loader adds beside the constants. */
  function MockVisitors(now: Timestamp): seq<Visitor>
  {
    [ Visitor("v1", "Michael Scott", "555-0199", "Delivery", "res-1", "John Doe", "B-402",
              now - 3600000, None, IN) ]
  }

  /** The residents list of the seed: both demo identities. */
  const MockResidents: seq<User> := [MockAdmin, MockResident]

  /** The two demo identities are told apart by id and by email. */
  lemma MockIdentitiesDistinct()
    ensures MockAdmin.id != MockResident.id
    ensures MockAdmin.email != MockResident.email
    ensures MockAdmin.role == ADMIN && MockResident.role == RESIDENT
  {
  }

  /** The admin has no unit; the resident lives in B-402. */
  lemma MockUnits()
    ensures MockAdmin.unitNumber.None?
    ensures MockResident.unitNumber == Some("B-402")
  {
  }

  /** Two notices, two complaints, two payments, one visitor, ids unique in each. */
  lemma SeedShape(now: Timestamp)
    ensures |InitialNotices(now)| == 2 && UniqueKeys(InitialNotices(now), NoticeKey)
    ensures |InitialComplaints(now)| == 2 && UniqueKeys(InitialComplaints(now), ComplaintKey)
    ensures |InitialPayments| == 2 && UniqueKeys(InitialPayments, PaymentKey)
    ensures |MockVisitors(now)| == 1
  {
  }

  /** No seed complaint is resolved or carries a resolution time. */
  lemma SeedComplaintsUnresolved(now: Timestamp)
    ensures InitialComplaints(now)[0].status == OPEN
    ensures InitialComplaints(now)[1].status == IN_PROGRESS
    ensures forall c :: c in InitialComplaints(now) ==> c.status != RESOLVED && c.resolvedAt.None?
  {
  }

  /** p1 is paid; p2, of 250, is the one pending bill. */
  lemma SeedPaymentStatuses()
    ensures InitialPayments[0].id == "p1" && InitialPayments[0].status == PAID
    ensures InitialPayments[1].id == "p2" && InitialPayments[1].status == PENDING
    ensures InitialPayments[1].amount == 250
  {
  }
}
