/**
 * The state provider (AppContext.tsx): seven state cells and the operations
 * that change them. Each mutator builds a record with defaults, applies it to
 * local state at once (prepending it under a temporary id for creates), calls
 * the remote store and then reconciles. The remote call is an explicit
 * outcome parameter and every method returns the request it issues; the
 * clock reading `now` is a parameter too, and the temporary ids are built
 * from it as the source builds them from `Date.now()`.
 */
module AppContext {
  import opened Types
  import opened Seqs
  import opened Strings
  import opened Constants
  import opened Records

  /** What `addComplaint` receives from the complaint form. */
  datatype ComplaintDraft = ComplaintDraft(
    title: string,
    description: string,
    unitNumber: Option<string>,
    category: Option<string>,
    priority: Option<ComplaintPriority>)

  /** The row inserted remotely for a new complaint: it has no id and no createdAt. */
  datatype ComplaintPayload = ComplaintPayload(
    userId: string,
    userName: string,
    unitNumber: string,
    title: string,
    description: string,
    category: string,
    priority: ComplaintPriority,
    status: ComplaintStatus)

  /** What `addNotice` receives from the notice form. */
  datatype NoticeDraft = NoticeDraft(title: string, content: string, category: Option<NoticeCategory>)

  /** The row inserted remotely for a new notice. */
  datatype NoticePayload = NoticePayload(
    title: string, content: string, category: NoticeCategory, postedBy: string)

  /** What `addVisitor` receives: a partial visitor, inserted remotely as it is. */
  datatype VisitorDraft = VisitorDraft(
    name: string,
    phone: string,
    purpose: string,
    residentId: string,
    residentName: string,
    unitNumber: string,
    entryTime: Option<Timestamp>,
    exitTime: Option<Timestamp>,
    status: Option<VisitorStatus>)

  /** The request an operation sends to the remote store. */
  datatype RemoteCall =
    | NoCall
    | SignOutCall
    | InsertComplaintRow(complaint: ComplaintPayload)
      /** The update payload carries the status only, never a resolution time. */
    | UpdateComplaintRow(complaintId: string, status: ComplaintStatus)
    | InsertNoticeRow(notice: NoticePayload)
    | DeleteNoticeRow(noticeId: string)
    | InsertVisitorRow(visitor: VisitorDraft)
    | UpdateVisitorRow(visitorId: string, visitorStatus: VisitorStatus, exitTime: Timestamp)
    | UpdatePaymentRow(paymentId: string, paymentStatus: PaymentStatus)
    | InsertProfileRow(profile: User)

  /** The answer to the five parallel reads of a data load. */
  datatype FetchResult =
    | Threw
    | Fetched(
        complaints: Option<seq<Complaint>>,
        notices: Option<seq<Notice>>,
        visitors: Option<seq<Visitor>>,
        residents: Option<seq<User>>,
        payments: Option<seq<Payment>>)

  /** The answer to a profile read: a row, no row at all, or another failure. */
  datatype ProfileResult = ProfileRow(profile: User) | NoProfileRow | ProfileError

  // ---------------------------------------------------------------------
  // Identifiers built from the clock

  function TempComplaintId(now: nat): string { "temp-" + Digits(now) }
  function TempNoticeId(now: nat): string { "temp-notice-" + Digits(now) }
  function TempVisitorId(now: nat): string { "temp-visitor-" + Digits(now) }
  function NotificationId(now: nat): string { "notif-" + Digits(now) }

  /** Creates at different instants get different temporary ids. */
  lemma TempIdsDiffer(t1: nat, t2: nat)
    requires t1 != t2
    ensures TempComplaintId(t1) != TempComplaintId(t2)
    ensures TempNoticeId(t1) != TempNoticeId(t2)
    ensures TempVisitorId(t1) != TempVisitorId(t2)
  {
    StampedIdsDiffer("temp-", t1, t2);
    StampedIdsDiffer("temp-notice-", t1, t2);
    StampedIdsDiffer("temp-visitor-", t1, t2);
  }

  // ---------------------------------------------------------------------
  // Demo identities

  /**
   * `[MOCK_ADMIN, MOCK_RESIDENT].find(u => u.email === email)`: the first demo
   * identity with that address.
   */
  function MockUserByEmail(email: string): (r: Option<User>)
    ensures r.Some? ==> (r.value == MockAdmin || r.value == MockResident) && r.value.email == email
    ensures r.None? <==> email != MockAdmin.email && email != MockResident.email
  {
    if email == MockAdmin.email then Some(MockAdmin)
    else if email == MockResident.email then Some(MockResident)
    else None
  }

  /** The two seeded addresses select the two seeded identities. */
  lemma MockEmailsSelectMockUsers()
    ensures MockUserByEmail(MockAdmin.email) == Some(MockAdmin)
    ensures MockUserByEmail(MockResident.email) == Some(MockResident)
  {
  }

  /**
   * The state after the demo seed is installed: five collections replaced,
   * user and notifications kept. The seed complaints and notices were stamped
   * once, when the constants were loaded at `loaded`; the seed visitor is
   * stamped afresh at `now`, each time the seed is installed.
   */
  function WithSeed(s: AppState, loaded: Timestamp, now: Timestamp): (r: AppState)
    ensures r.user == s.user && r.notifications == s.notifications
    ensures r.complaints == InitialComplaints(loaded) && r.notices == InitialNotices(loaded)
    ensures r.payments == InitialPayments && r.residents == MockResidents
    ensures r.visitors == MockVisitors(now)
  {
    s.(complaints := InitialComplaints(loaded), notices := InitialNotices(loaded),
       payments := InitialPayments, residents := MockResidents, visitors := MockVisitors(now))
  }

  /**
   * Installing the seed again later shows the same complaints and notices,
   * with their original times; only the seed visitor's entry time moves.
   */
  lemma ReloadKeepsSeedTimes(s: AppState, loaded: Timestamp, t1: Timestamp, t2: Timestamp)
    ensures WithSeed(s, loaded, t1).complaints == WithSeed(s, loaded, t2).complaints
    ensures WithSeed(s, loaded, t1).notices == WithSeed(s, loaded, t2).notices
    ensures t1 != t2 ==> WithSeed(s, loaded, t1).visitors != WithSeed(s, loaded, t2).visitors
  {
    if t1 != t2 {
      assert MockVisitors(t1)[0].entryTime != MockVisitors(t2)[0].entryTime;
    }
  }

  /** The data loader's test for the demo identities: the user's id is one of the two demo ids. */
  predicate IsDemoUser(u: Option<User>)
  {
    u.Some? && (u.value.id == MockAdmin.id || u.value.id == MockResident.id)
  }

  /**
   * The profile row written when an authenticated account has none: the name
   * is the part of the address before the first '@'.
   */
  function HealedProfile(userId: string, email: string): (p: User)
    ensures p.id == userId && p.email == email
    ensures p.name <= email && '@' !in p.name
    ensures p.name == email || email[|p.name|] == '@'
    ensures p.role == RESIDENT && p.unitNumber == Some("N/A")
  {
    User(userId, EmailLocalPart(email), email, RESIDENT, Some("N/A"), None, None)
  }

  /** A profile read keeps id, name, email, role and unit; phone and avatar are dropped. */
  function ProfileUser(row: User): (u: User)
    ensures u.id == row.id && u.name == row.name && u.email == row.email
    ensures u.role == row.role && u.unitNumber == row.unitNumber
    ensures u.phone.None? && u.avatar.None?
  {
    User(row.id, row.name, row.email, row.role, row.unitNumber, None, None)
  }

  // ---------------------------------------------------------------------
  // Record construction with defaults

  /**
   * The complaint row of `addComplaint`: owner from the acting user, status
   * OPEN, category "General" and priority MEDIUM unless given, and the unit
   * from the draft, else the user's, else "N/A".
   */
  function ComplaintPayloadFor(u: User, d: ComplaintDraft): (p: ComplaintPayload)
    ensures p.userId == u.id && p.userName == u.name
    ensures p.title == d.title && p.description == d.description
    ensures p.status == OPEN
    ensures p.unitNumber != "" && p.category != ""
    ensures d.unitNumber.Some? && d.unitNumber.value != "" ==> p.unitNumber == d.unitNumber.value
    ensures (d.unitNumber.None? || d.unitNumber.value == "") && u.unitNumber.Some? && u.unitNumber.value != "" ==>
              p.unitNumber == u.unitNumber.value
    ensures p.unitNumber == "N/A" <==>
              (d.unitNumber.Some? && d.unitNumber.value == "N/A") ||
              ((d.unitNumber.None? || d.unitNumber.value == "") &&
               (u.unitNumber.None? || u.unitNumber.value == "" || u.unitNumber.value == "N/A"))
    ensures d.category.Some? && d.category.value != "" ==> p.category == d.category.value
    ensures (d.category.None? || d.category.value == "") ==> p.category == "General"
    ensures p.priority == (if d.priority.Some? then d.priority.value else MEDIUM)
  {
    ComplaintPayload(
      u.id, u.name,
      OrElse(d.unitNumber, OrElse(u.unitNumber, "N/A")),
      d.title, d.description,
      OrElse(d.category, "General"),
      d.priority.GetOr(MEDIUM),
      OPEN)
  }

  /**
   * A complaint filed without a unit: the demo admin, who has none, files it
   * under "N/A"; the demo resident files it under B-402.
   */
  lemma DemoComplaintUnits(d: ComplaintDraft)
    requires d.unitNumber.None? || d.unitNumber == Some("")
    ensures ComplaintPayloadFor(MockAdmin, d).unitNumber == "N/A"
    ensures ComplaintPayloadFor(MockResident, d).unitNumber == "B-402"
  {
  }

  /** `{ ...payload, id: tempId, createdAt: now }`: the payload under the temporary id, unresolved. */
  function OptimisticComplaint(p: ComplaintPayload, id: string, now: Timestamp): (c: Complaint)
    ensures c.id == id && c.createdAt == now && c.resolvedAt.None?
    ensures c.userId == p.userId && c.unitNumber == p.unitNumber && c.status == p.status
    ensures c.title == p.title && c.description == p.description && c.priority == p.priority
    ensures c.userName == p.userName && c.category == p.category
  {
    Complaint(id, p.userId, p.userName, p.unitNumber, p.title, p.description,
              p.category, p.priority, p.status, now, None)
  }

  /** The unread COMPLAINT notification naming the unit the ticket was raised for. */
  function ComplaintRaised(userId: string, unitNumber: string, now: nat): (n: Notification)
    ensures n.id == NotificationId(now) && n.userId == userId && n.createdAt == now
    ensures n.kind == COMPLAINT && !n.isRead && n.targetTab.None?
    ensures n.title == "Complaint Raised"
    ensures |n.message| > |unitNumber| && n.message[|n.message| - |unitNumber| - 1..] == unitNumber + "."
  {
    Notification(NotificationId(now), userId, "Complaint Raised",
                 "Ticket has been created successfully for " + unitNumber + ".",
                 COMPLAINT, false, now, None)
  }

  /** The unread PAYMENT notification of a paid bill. */
  function PaymentReceived(userId: string, now: nat): (n: Notification)
    ensures n.id == NotificationId(now) && n.userId == userId && n.createdAt == now
    ensures n.kind == PAYMENT && !n.isRead && n.targetTab.None?
    ensures n.title == "Payment Successful"
  {
    Notification(NotificationId(now), userId, "Payment Successful",
                 "Thank you! Your payment has been marked as received.",
                 PAYMENT, false, now, None)
  }

  /** The notice row of `addNotice`: category "General" unless given, author the acting user. */
  function NoticePayloadFor(u: User, d: NoticeDraft): (p: NoticePayload)
    ensures p.title == d.title && p.content == d.content && p.postedBy == u.name
    ensures p.category == (if d.category.Some? then d.category.value else General)
  {
    NoticePayload(d.title, d.content, d.category.GetOr(General), u.name)
  }

  /** `{ ...payload, id: tempId, createdAt: now }`. */
  function OptimisticNotice(p: NoticePayload, id: string, now: Timestamp): (n: Notice)
    ensures n.id == id && n.createdAt == now
    ensures n.title == p.title && n.content == p.content && n.postedBy == p.postedBy && n.category == p.category
  {
    Notice(id, p.title, p.content, p.postedBy, now, p.category)
  }

  /**
   * `{ ...v, id: tempId, status: 'IN', entryTime: now }`: the caller's status
   * and entry time are overridden, its exit time is kept.
   */
  function OptimisticVisitor(v: VisitorDraft, id: string, now: Timestamp): (r: Visitor)
    ensures r.id == id && r.status == IN && r.entryTime == now
    ensures r.exitTime == v.exitTime
    ensures r.name == v.name && r.residentId == v.residentId && r.unitNumber == v.unitNumber
    ensures r.phone == v.phone && r.purpose == v.purpose && r.residentName == v.residentName
  {
    Visitor(id, v.name, v.phone, v.purpose, v.residentId, v.residentName, v.unitNumber,
            now, v.exitTime, IN)
  }

  // ---------------------------------------------------------------------
  // Per-collection transforms

  /**
   * `prev.map(x => x.id === tempId ? saved : x)`: the reconciliation step of
   * every create.
   */
  function Reconcile<T>(s: seq<T>, key: T -> string, tempId: string, saved: T): (r: seq<T>)
    ensures |r| == |s|
    ensures forall i :: 0 <= i < |s| ==> r[i] == (if key(s[i]) == tempId then saved else s[i])
  {
    UpdateWhere(s, key, tempId, _ => saved)
  }

  /**
   * After an optimistic prepend under a fresh temporary id, reconciliation
   * replaces exactly that element and keeps the rest.
   */
  lemma ReconcileFreshHead<T>(x: T, s: seq<T>, key: T -> string, saved: T)
    requires Fresh(s, key, key(x))
    ensures Reconcile([x] + s, key, key(x), saved) == [saved] + s
  {
    UpdateFreshHead(x, s, key, key(x), _ => saved);
  }

  /** A reconciliation whose temporary record is gone (the list was reloaded) changes nothing. */
  lemma ReconcileAbsent<T>(s: seq<T>, key: T -> string, tempId: string, saved: T)
    requires Fresh(s, key, tempId)
    ensures Reconcile(s, key, tempId, saved) == s
  {
    UpdateAbsent(s, key, tempId, _ => saved);
  }

  /**
   * The complaints with the given id get the new status and, when one is
   * given, the resolution time; every other field and every other complaint
   * is unchanged.
   */
  function SetComplaintStatus(cs: seq<Complaint>, id: string, status: ComplaintStatus,
                              resolvedAt: Option<Timestamp>): (r: seq<Complaint>)
    ensures |r| == |cs|
    ensures forall i :: 0 <= i < |cs| && cs[i].id != id ==> r[i] == cs[i]
    ensures forall i :: 0 <= i < |cs| && cs[i].id == id ==>
              r[i].status == status &&
              r[i].resolvedAt == (if resolvedAt.Some? then resolvedAt else cs[i].resolvedAt) &&
              r[i] == cs[i].(status := r[i].status, resolvedAt := r[i].resolvedAt)
  {
    UpdateWhere(cs, ComplaintKey, id, (c: Complaint) => WithStatus(c, status, resolvedAt))
  }

  /** `{ ...v, status: 'OUT', exitTime: now }` on the visitors with the id. */
  function MarkExited(vs: seq<Visitor>, id: string, now: Timestamp): (r: seq<Visitor>)
    ensures |r| == |vs|
    ensures forall i :: 0 <= i < |vs| && vs[i].id != id ==> r[i] == vs[i]
    ensures forall i :: 0 <= i < |vs| && vs[i].id == id ==>
              r[i] == vs[i].(status := OUT, exitTime := Some(now))
  {
    UpdateWhere(vs, VisitorKey, id, (v: Visitor) => v.(status := OUT, exitTime := Some(now)))
  }

  /**
   * Exit is not guarded against re-entry: a second exit of the same visitor
   * overwrites the first exit time.
   */
  lemma ExitTwiceOverwrites(vs: seq<Visitor>, id: string, t1: Timestamp, t2: Timestamp)
    ensures MarkExited(MarkExited(vs, id, t1), id, t2) == MarkExited(vs, id, t2)
  {
    var a := MarkExited(MarkExited(vs, id, t1), id, t2);
    var b := MarkExited(vs, id, t2);
    forall i | 0 <= i < |vs| ensures a[i] == b[i] {
    }
  }

  /** `{ ...p, status: 'PAID' }` on the payments with the id. */
  function MarkPaid(ps: seq<Payment>, id: string): (r: seq<Payment>)
    ensures |r| == |ps|
    ensures forall i :: 0 <= i < |ps| && ps[i].id != id ==> r[i] == ps[i]
    ensures forall i :: 0 <= i < |ps| && ps[i].id == id ==> r[i] == ps[i].(status := PAID)
  {
    UpdateWhere(ps, PaymentKey, id, (p: Payment) => p.(status := PAID))
  }

  /** No later payment unpays a bill: a paid bill stays paid whatever is paid next. */
  lemma PaidStaysPaid(ps: seq<Payment>, id: string, i: nat)
    requires i < |ps| && ps[i].status == PAID
    ensures MarkPaid(ps, id)[i].status == PAID
  {
  }

  /**
   * Installing the seed does unpay a bill: after the demo resident pays p2,
   * the seed (installed again, for instance by the demo sign-in fallback)
   * shows p2 as PENDING once more.
   */
  lemma SeedReloadUnpays(s: AppState, loaded: Timestamp, now: Timestamp)
    ensures MarkPaid(InitialPayments, "p2")[1].id == "p2" && MarkPaid(InitialPayments, "p2")[1].status == PAID
    ensures var r := WithSeed(s.(payments := MarkPaid(InitialPayments, "p2")), loaded, now);
            r.payments[1].id == "p2" && r.payments[1].status == PENDING
  {
    SeedPaymentStatuses();
  }

  /** `isRead: true` on the notifications with the id. */
  function MarkRead(ns: seq<Notification>, id: string): (r: seq<Notification>)
    ensures |r| == |ns|
    ensures forall i :: 0 <= i < |ns| && ns[i].id != id ==> r[i] == ns[i]
    ensures forall i :: 0 <= i < |ns| && ns[i].id == id ==> r[i] == ns[i].(isRead := true)
  {
    UpdateWhere(ns, NotificationKey, id, (n: Notification) => n.(isRead := true))
  }

  /** `prev.map(n => ({ ...n, isRead: true }))`. */
  function MarkAllRead(ns: seq<Notification>): (r: seq<Notification>)
    ensures |r| == |ns|
    ensures forall i :: 0 <= i < |ns| ==> r[i] == ns[i].(isRead := true)
  {
    seq(|ns|, i requires 0 <= i < |ns| => ns[i].(isRead := true))
  }

  /** Marking everything read leaves nothing unread, and doing it again changes nothing. */
  lemma MarkAllReadIdempotent(ns: seq<Notification>)
    ensures forall n :: n in MarkAllRead(ns) ==> n.isRead
    ensures MarkAllRead(MarkAllRead(ns)) == MarkAllRead(ns)
  {
  }

  // ---------------------------------------------------------------------
  // The provider

  class Provider {
    var user: Option<User>
    var complaints: seq<Complaint>
    var notices: seq<Notice>
    var payments: seq<Payment>
    var notifications: seq<Notification>
    var visitors: seq<Visitor>
    var residents: seq<User>
    /** When the seed constants were loaded: the seed complaints and notices are stamped from it. */
    const seedTime: Timestamp

    /** The application state the provider exposes. */
    function State(): AppState
      reads this
    {
      AppState(user, complaints, notices, payments, residents, notifications, visitors)
    }

    /** Every cell starts empty and no one is signed in; the seed constants were loaded at `loaded`. */
    constructor (loaded: Timestamp)
      ensures seedTime == loaded
      ensures State() == AppState(None, [], [], [], [], [], [])
    {
      seedTime := loaded;
      user := None;
      complaints := [];
      notices := [];
      payments := [];
      notifications := [];
      visitors := [];
      residents := [];
    }

    /** Installs the demo seed in five collections; user and notifications stay. */
    method LoadMockData(now: Timestamp)
      modifies this
      ensures State() == WithSeed(old(State()), seedTime, now)
    {
      var seed := WithSeed(State(), seedTime, now);
      complaints, notices, payments, residents, visitors :=
        seed.complaints, seed.notices, seed.payments, seed.residents, seed.visitors;
    }

    /**
     * Loads the seed for a demo user or when the reads throw; otherwise
     * replaces exactly the collections whose response carried data.
     */
    method FetchData(now: Timestamp, response: FetchResult)
      modifies this
      ensures IsDemoUser(old(user)) || response.Threw? ==>
        State() == WithSeed(old(State()), seedTime, now)
      ensures !IsDemoUser(old(user)) && response.Fetched? ==>
        State() == old(State()).(
          complaints := response.complaints.GetOr(old(complaints)),
          notices := response.notices.GetOr(old(notices)),
          visitors := response.visitors.GetOr(old(visitors)),
          residents := response.residents.GetOr(old(residents)),
          payments := response.payments.GetOr(old(payments)))
    {
      if IsDemoUser(user) {
        LoadMockData(now);
        return;
      }
      match response {
        case Threw =>
          LoadMockData(now);
        case Fetched(rc, rn, rv, rr, rp) =>
          if rc.Some? { complaints := rc.value; }
          if rn.Some? { notices := rn.value; }
          if rv.Some? { visitors := rv.value; }
          if rr.Some? { residents := rr.value; }
          if rp.Some? { payments := rp.value; }
      }
    }

    /**
     * Signing in. A remote success changes nothing here (the session
     * listener loads the profile). On a remote failure a seeded address signs
     * in as that demo identity with the seed loaded; any other address fails
     * and nothing changes.
     */
    method Login(email: string, signIn: Remote<()>, now: Timestamp) returns (ok: bool)
      modifies this
      ensures signIn.Ok? ==> ok && State() == old(State())
      ensures signIn.Err? && MockUserByEmail(email).Some? ==>
        ok && State() == WithSeed(old(State()).(user := MockUserByEmail(email)), seedTime, now)
      ensures signIn.Err? && MockUserByEmail(email).None? ==> !ok && State() == old(State())
    {
      if signIn.Ok? {
        return true;
      }
      ok := SignInAsDemo(email, now);
    }

    /**
     * Resolving the signed-in account to a profile: a row becomes the user;
     * on failure a seeded address falls back to its demo identity and the
     * seed, and a missing row is healed by inserting a minimal profile.
     */
    method FetchProfile(userId: string, email: string, profile: ProfileResult, now: Timestamp)
      returns (call: RemoteCall)
      modifies this
      ensures profile.ProfileRow? ==>
        call == NoCall && State() == old(State()).(user := Some(ProfileUser(profile.profile)))
      ensures !profile.ProfileRow? && MockUserByEmail(email).Some? ==>
        call == NoCall && State() == WithSeed(old(State()).(user := MockUserByEmail(email)), seedTime, now)
      ensures !profile.ProfileRow? && MockUserByEmail(email).None? ==>
        State() == old(State()) &&
        call == (if profile.NoProfileRow? then InsertProfileRow(HealedProfile(userId, email)) else NoCall)
    {
      call := NoCall;
      match profile
      case ProfileRow(row) =>
        user := Some(ProfileUser(row));
      case _ =>
        var found := SignInAsDemo(email, now);
        if !found && profile.NoProfileRow? {
          call := InsertProfileRow(HealedProfile(userId, email));
        }
    }

    /**
     * The shared fallback of sign-in and profile lookup: a seeded address
     * becomes its demo identity with the seed loaded; any other address
     * changes nothing.
     */
    method SignInAsDemo(email: string, now: Timestamp) returns (found: bool)
      modifies this
      ensures found <==> MockUserByEmail(email).Some?
      ensures found ==> State() == WithSeed(old(State()).(user := MockUserByEmail(email)), seedTime, now)
      ensures !found ==> State() == old(State())
    {
      var mock := MockUserByEmail(email);
      found := mock.Some?;
      if found {
        ghost var before := State();
        user := mock;
        assert State() == before.(user := mock);
        LoadMockData(now);
      }
    }

    /**
     * Signing out clears the user, complaints, notices, visitors and
     * residents; payments and notifications are left as they were.
     */
    method Logout() returns (call: RemoteCall)
      modifies this
      ensures call == SignOutCall
      ensures State() == old(State()).(
        user := None, complaints := [], notices := [], visitors := [], residents := [])
    {
      call := SignOutCall;
      user := None;
      complaints := [];
      notices := [];
      visitors := [];
      residents := [];
    }

    method MarkNotificationAsRead(id: string)
      modifies this
      ensures State() == old(State()).(notifications := MarkRead(old(notifications), id))
    {
      notifications := MarkRead(notifications, id);
    }

    method MarkAllNotificationsAsRead()
      modifies this
      ensures State() == old(State()).(notifications := MarkAllRead(old(notifications)))
    {
      notifications := MarkAllRead(notifications);
    }

    /**
     * Filing a complaint. Without a user nothing happens. Otherwise one
     * complaint and one COMPLAINT notification are prepended; after a
     * successful insert the complaint is the server's record, after a failed
     * one the optimistic record stays.
     */
    method AddComplaint(draft: ComplaintDraft, now: nat, outcome: Remote<Complaint>)
      returns (call: RemoteCall)
      requires Fresh(complaints, ComplaintKey, TempComplaintId(now))
      modifies this
      ensures old(user).None? ==> call == NoCall && State() == old(State())
      ensures old(user).Some? ==>
        var p := ComplaintPayloadFor(old(user).value, draft);
        var shown := if outcome.Ok? then outcome.value else OptimisticComplaint(p, TempComplaintId(now), now);
        call == InsertComplaintRow(p) &&
        State() == old(State()).(
          complaints := [shown] + old(complaints),
          notifications := [ComplaintRaised(old(user).value.id, p.unitNumber, now)] + old(notifications))
    {
      if user.None? {
        return NoCall;
      }
      var u := user.value;
      var p := ComplaintPayloadFor(u, draft);
      var tempId := TempComplaintId(now);
      var optimistic := OptimisticComplaint(p, tempId, now);
      ghost var before := complaints;
      complaints := [optimistic] + complaints;
      notifications := [ComplaintRaised(u.id, p.unitNumber, now)] + notifications;
      call := InsertComplaintRow(p);
      if outcome.Ok? {
        ReconcileFreshHead(optimistic, before, ComplaintKey, outcome.value);
        complaints := Reconcile(complaints, ComplaintKey, tempId, outcome.value);
      }
    }

    /**
     * Setting a status locally: the complaints with the id get it, and a
     * resolution time only when the status is RESOLVED. The remote update
     * carries the status alone; its outcome is ignored.
     */
    method UpdateComplaintStatus(id: string, status: ComplaintStatus, now: Timestamp)
      returns (call: RemoteCall)
      modifies this
      ensures call == UpdateComplaintRow(id, status)
      ensures State() == old(State()).(complaints :=
        SetComplaintStatus(old(complaints), id, status, if status == RESOLVED then Some(now) else None))
    {
      var resolvedAt := if status == RESOLVED then Some(now) else None;
      complaints := SetComplaintStatus(complaints, id, status, resolvedAt);
      call := UpdateComplaintRow(id, status);
    }

    /**
     * The guarded resolve: snapshot, mark RESOLVED with a resolution time,
     * and on a remote failure restore the snapshot and alert the user.
     */
    method HandleSolveComplaint(id: string, now: Timestamp, outcome: Remote<()>)
      returns (call: RemoteCall, alerted: bool)
      modifies this
      ensures call == UpdateComplaintRow(id, RESOLVED)
      ensures alerted <==> outcome.Err?
      ensures outcome.Err? ==> State() == old(State())
      ensures outcome.Ok? ==>
        State() == old(State()).(complaints := SetComplaintStatus(old(complaints), id, RESOLVED, Some(now)))
    {
      var previous := complaints;
      complaints := SetComplaintStatus(complaints, id, RESOLVED, Some(now));
      call := UpdateComplaintRow(id, RESOLVED);
      alerted := false;
      if outcome.Err? {
        complaints := previous;
        alerted := true;
      }
    }

    /**
     * Posting a notice. Without a user nothing happens. Otherwise one notice
     * is prepended, replaced by the server's record on success and kept on
     * failure.
     */
    method AddNotice(draft: NoticeDraft, now: nat, outcome: Remote<Notice>)
      returns (call: RemoteCall)
      requires Fresh(notices, NoticeKey, TempNoticeId(now))
      modifies this
      ensures old(user).None? ==> call == NoCall && State() == old(State())
      ensures old(user).Some? ==>
        var p := NoticePayloadFor(old(user).value, draft);
        var shown := if outcome.Ok? then outcome.value else OptimisticNotice(p, TempNoticeId(now), now);
        call == InsertNoticeRow(p) &&
        State() == old(State()).(notices := [shown] + old(notices))
    {
      if user.None? {
        return NoCall;
      }
      var p := NoticePayloadFor(user.value, draft);
      var tempId := TempNoticeId(now);
      var optimistic := OptimisticNotice(p, tempId, now);
      ghost var before := notices;
      notices := [optimistic] + notices;
      call := InsertNoticeRow(p);
      if outcome.Ok? {
        ReconcileFreshHead(optimistic, before, NoticeKey, outcome.value);
        notices := Reconcile(notices, NoticeKey, tempId, outcome.value);
      }
    }

    /** Removes every notice with the id at once; a failed remote delete restores nothing. */
    method DeleteNotice(id: string) returns (call: RemoteCall)
      modifies this
      ensures call == DeleteNoticeRow(id)
      ensures State() == old(State()).(notices := NoticesWithout(old(notices), id))
    {
      notices := NoticesWithout(notices, id);
      call := DeleteNoticeRow(id);
    }

    /**
     * Logging a visitor: prepended with status IN and the current entry time
     * whatever the draft says; the draft itself is what is inserted remotely.
     */
    method AddVisitor(v: VisitorDraft, now: nat, outcome: Remote<Visitor>)
      returns (call: RemoteCall)
      requires Fresh(visitors, VisitorKey, TempVisitorId(now))
      modifies this
      ensures call == InsertVisitorRow(v)
      ensures State() == old(State()).(visitors :=
        [if outcome.Ok? then outcome.value else OptimisticVisitor(v, TempVisitorId(now), now)] + old(visitors))
    {
      var tempId := TempVisitorId(now);
      var optimistic := OptimisticVisitor(v, tempId, now);
      ghost var before := visitors;
      visitors := [optimistic] + visitors;
      call := InsertVisitorRow(v);
      if outcome.Ok? {
        ReconcileFreshHead(optimistic, before, VisitorKey, outcome.value);
        visitors := Reconcile(visitors, VisitorKey, tempId, outcome.value);
      }
    }

    /** Marks the visitors with the id OUT with the current exit time, already OUT or not. */
    method UpdateVisitorExit(id: string, now: Timestamp) returns (call: RemoteCall)
      modifies this
      ensures call == UpdateVisitorRow(id, OUT, now)
      ensures State() == old(State()).(visitors := MarkExited(old(visitors), id, now))
    {
      visitors := MarkExited(visitors, id, now);
      call := UpdateVisitorRow(id, OUT, now);
    }

    /** Marks the payments with the id PAID and, with a user, prepends a PAYMENT notification. */
    method PayBill(id: string, now: nat) returns (call: RemoteCall)
      modifies this
      ensures call == UpdatePaymentRow(id, PAID)
      ensures State() == old(State()).(
        payments := MarkPaid(old(payments), id),
        notifications := if old(user).Some?
                         then [PaymentReceived(old(user).value.id, now)] + old(notifications)
                         else old(notifications))
    {
      payments := MarkPaid(payments, id);
      if user.Some? {
        notifications := [PaymentReceived(user.value.id, now)] + notifications;
      }
      call := UpdatePaymentRow(id, PAID);
    }
  }
}
