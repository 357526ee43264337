/**
 * Entities of the society-management application (types.ts).
 *
 * Every enum of the source becomes a datatype, so "a complaint status is one
 * of OPEN, IN_PROGRESS, RESOLVED" and the like hold by construction.
 * Timestamps are the milliseconds of `Date.now()`; the ISO rendering the
 * source stores is left abstract (it is one-to-one on instants).
 */
module Types {

  datatype Option<+T> = None | Some(value: T) {
    function GetOr(default: T): T {
      match this
      case Some(v) => v
      case None => default
    }
  }

  /** The outcome of one call into the remote data store. */
  datatype Remote<+T> = Ok(value: T) | Err

  /** Milliseconds since the epoch; seed records lie before the current instant. */
  type Timestamp = int

  /**
   * JavaScript's `a || b` on an optional string: an absent value and the
   * empty string are both falsy.
   */
  function OrElse(a: Option<string>, b: string): (r: string)
    ensures a.Some? && a.value != "" ==> r == a.value
    ensures (a.None? || a.value == "") ==> r == b
  {
    if a.Some? && a.value != "" then a.value else b
  }

  datatype UserRole = ADMIN | RESIDENT

  datatype ComplaintStatus = OPEN | IN_PROGRESS | RESOLVED

  datatype ComplaintPriority = LOW | MEDIUM | HIGH | URGENT

  datatype PaymentStatus = PAID | PENDING | OVERDUE

  datatype NotificationType = COMPLAINT | NOTICE | PAYMENT | SYSTEM | SECURITY

  datatype NoticeCategory = General | Urgent | Event | Maintenance

  datatype VisitorStatus = IN | OUT

  datatype Notification = Notification(
    id: string,
    userId: string,
    title: string,
    message: string,
    kind: NotificationType,
    isRead: bool,
    createdAt: Timestamp,
    targetTab: Option<string>)

  datatype User = User(
    id: string,
    name: string,
    email: string,
    role: UserRole,
    unitNumber: Option<string>,
    phone: Option<string>,
    avatar: Option<string>)

  /**
   * The interface in types.ts has no `resolvedAt`, yet both the provider and
   * the backend write one, so the model carries it as an optional field.
   */
  datatype Complaint = Complaint(
    id: string,
    userId: string,
    userName: string,
    unitNumber: string,
    title: string,
    description: string,
    category: string,
    priority: ComplaintPriority,
    status: ComplaintStatus,
    createdAt: Timestamp,
    resolvedAt: Option<Timestamp>)

  datatype Notice = Notice(
    id: string,
    title: string,
    content: string,
    postedBy: string,
    createdAt: Timestamp,
    category: NoticeCategory)

  /** Amounts are JavaScript numbers; the model uses integers. */
  datatype Payment = Payment(
    id: string,
    userId: string,
    userName: string,
    unitNumber: string,
    amount: int,
    month: string,
    dueDate: string,
    status: PaymentStatus)

  /** `exitTime` is the only optional field of a visitor. */
  datatype Visitor = Visitor(
    id: string,
    name: string,
    phone: string,
    purpose: string,
    residentId: string,
    residentName: string,
    unitNumber: string,
    entryTime: Timestamp,
    exitTime: Option<Timestamp>,
    status: VisitorStatus)

  /** A nullable user plus six collections. */
  datatype AppState = AppState(
    user: Option<User>,
    complaints: seq<Complaint>,
    notices: seq<Notice>,
    payments: seq<Payment>,
    residents: seq<User>,
    notifications: seq<Notification>,
    visitors: seq<Visitor>)

  // Key functions, so that the generic collection helpers can match by id.
  function ComplaintKey(c: Complaint): string { c.id }
  function NoticeKey(n: Notice): string { n.id }
  function PaymentKey(p: Payment): string { p.id }
  function VisitorKey(v: Visitor): string { v.id }
  function NotificationKey(n: Notification): string { n.id }
}
