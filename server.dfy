/**
 * The in-memory REST backend (server.js): five module-level tables changed
 * in place by the route handlers. Each handler is a method of `Backend`;
 * the request body is a parameter whose optional fields are the keys the
 * client may leave out, the server's clock reading `now` is a parameter, and
 * a reply of `None` is a 404.
 */
module Server {
  import opened Types
  import opened Seqs
  import opened Strings
  import opened Constants
  import opened Base64
  import opened Records

  /** A row of the users table: a user with a password, and a role that a sign-up may leave undefined. */
  datatype ServerUser = ServerUser(
    id: string,
    name: string,
    email: string,
    password: string,
    role: Option<UserRole>,
    unitNumber: Option<string>,
    phone: Option<string>,
    avatar: Option<string>)

  const AliceAvatar: string :=
    "https://images.unsplash.com/photo-1438761681033-6461ffad8d80?auto=format&fit=crop&w=200&q=80"

  /** The users table at start-up: the two demo identities and a second resident. */
  const SeedUsers: seq<ServerUser> := [
    ServerUser("admin-1", "Sarah Connor", "admin@civichub.com", "admin", Some(ADMIN), None,
               Some("+1 234 567 8900"), Some(AdminAvatar)),
    ServerUser("res-1", "John Doe", "john@example.com", "password", Some(RESIDENT), Some("B-402"),
               Some("+1 987 654 3210"), Some(ResidentAvatar)),
    ServerUser("res-2", "Alice Smith", "alice@example.com", "password", Some(RESIDENT), Some("A-101"),
               Some("+1 555 123 4567"), Some(AliceAvatar))
  ]

  /** The payments table at start-up: the seed bills and an overdue one for the second resident. */
  const SeedPayments: seq<Payment> :=
    InitialPayments + [Payment("p3", "res-2", "Alice Smith", "A-101", 300, "November 2023", "2023-11-10", OVERDUE)]

  /** The five tables. */
  datatype Tables = Tables(
    users: seq<ServerUser>,
    complaints: seq<Complaint>,
    notices: seq<Notice>,
    visitors: seq<Visitor>,
    payments: seq<Payment>)

  // ---------------------------------------------------------------------
  // Sign-in

  /** The login body; `role` and the sign-up fields may be left out. */
  datatype LoginBody = LoginBody(
    email: string,
    password: Option<string>,
    role: Option<UserRole>,
    name: Option<string>,
    unitNumber: Option<string>)

  /** The claims serialised into the token's middle segment. */
  datatype Claims = Claims(
    id: string, role: Option<UserRole>, name: string, email: string, unitNumber: Option<string>)

  datatype LoginReply = Unauthorized | Authenticated(token: string, user: ServerUser)

  /** The lookup matches email and role together; the password plays no part. */
  function FindUser(users: seq<ServerUser>, email: string, role: Option<UserRole>): (r: Option<ServerUser>)
    ensures r.Some? ==> r.value in users && r.value.email == email && r.value.role == role
    ensures r.None? <==> forall u :: u in users ==> !(u.email == email && u.role == role)
  {
    Find(users, (u: ServerUser) => u.email == email && u.role == role)
  }

  /** The user created on the fly for an unknown address that comes with a name. */
  function SignUpUser(body: LoginBody, now: nat): (u: ServerUser)
    requires body.name.Some? && body.name.value != ""
    ensures u.id == "res-" + Digits(now)
    ensures u.name == body.name.value && u.email == body.email && u.role == body.role
    ensures u.password == OrElse(body.password, "123456")
    ensures u.unitNumber == Some(OrElse(body.unitNumber, "N/A"))
  {
    ServerUser("res-" + Digits(now), body.name.value, body.email, OrElse(body.password, "123456"),
               body.role, Some(OrElse(body.unitNumber, "N/A")), None,
               Some("https://ui-avatars.com/api/?name=" + body.name.value))
  }

  function ClaimsOf(u: ServerUser): Claims
  {
    Claims(u.id, u.role, u.name, u.email, u.unitNumber)
  }

  const TokenHeader: string := "fakeHeader"
  const TokenSignature: string := "fakeSignature"

  /** `fakeHeader.<base64 payload>.fakeSignature`: the fixed header and signature around the payload. */
  function MakeToken(payload: seq<Byte>): (t: string)
    ensures TokenHeader + ['.'] <= t
    ensures |t| == |TokenHeader| + |TokenSignature| + 2 + 4 * ((|payload| + 2) / 3)
    ensures t[|t| - |TokenSignature|..] == TokenSignature
  {
    TokenHeader + ['.'] + Encode(payload) + ['.'] + TokenSignature
  }

  /** Three separator-free parts joined by the separator split back into those parts. */
  lemma {:induction false} ThreeSegments(a: string, b: string, c: string, sep: char)
    requires sep !in a && sep !in b && sep !in c
    ensures Split(a + [sep] + b + [sep] + c, sep) == [a, b, c]
  {
    assert a + [sep] + b + [sep] + c == a + [sep] + (b + [sep] + c);
    SplitAt(a, sep, b + [sep] + c);
    SplitAt(b, sep, c);
    SplitNone(c, sep);
  }

  /**
   * The token splits on '.' into exactly three parts, the encoded payload in
   * the middle, because the base 64 alphabet has no '.'.
   */
  lemma TokenSegments(payload: seq<Byte>)
    ensures Split(MakeToken(payload), '.') == [TokenHeader, Encode(payload), TokenSignature]
  {
    assert '.' !in TokenHeader && '.' !in TokenSignature;
    ThreeSegments(TokenHeader, Encode(payload), TokenSignature, '.');
  }

  /** The middle segment decodes back to the serialised claims. */
  lemma TokenPayloadDecodes(payload: seq<Byte>)
    ensures var parts := Split(MakeToken(payload), '.'); |parts| == 3 && Decode(parts[1]) == payload
  {
    TokenSegments(payload);
    DecodeEncode(payload);
  }

  /**
   * The tables at start-up: users unique by id and by address, three bills
   * with unique ids, and the second resident's 300 overdue.
   */
  lemma SeedTables()
    ensures forall i, j :: 0 <= i < j < |SeedUsers| ==>
              SeedUsers[i].id != SeedUsers[j].id && SeedUsers[i].email != SeedUsers[j].email
    ensures |SeedPayments| == 3 && UniqueKeys(SeedPayments, PaymentKey)
    ensures SeedPayments[2].userId == SeedUsers[2].id && SeedPayments[2].amount == 300
    ensures SeedPayments[2].status == OVERDUE
  {
  }

  /** Every seeded user has a role, so a body without one never finds a seeded user. */
  lemma SeedLoginNeedsRole(email: string)
    ensures FindUser(SeedUsers, email, None).None?
  {
  }

  /** The seeded admin is found by its address and the ADMIN role, whatever the password. */
  lemma SeedAdminFound()
    ensures FindUser(SeedUsers, "admin@civichub.com", Some(ADMIN)) == Some(SeedUsers[0])
  {
    assert SeedUsers[0].email == "admin@civichub.com";
  }

  // ---------------------------------------------------------------------
  // Request bodies: a key the body carries wins over the server's default

  datatype ComplaintBody = ComplaintBody(
    id: Option<string>,
    createdAt: Option<Timestamp>,
    status: Option<ComplaintStatus>,
    userId: string,
    userName: string,
    unitNumber: string,
    title: string,
    description: string,
    category: string,
    priority: ComplaintPriority,
    resolvedAt: Option<Timestamp>)

  datatype NoticeBody = NoticeBody(
    id: Option<string>,
    createdAt: Option<Timestamp>,
    postedBy: Option<string>,
    title: string,
    content: string,
    category: NoticeCategory)

  datatype VisitorBody = VisitorBody(
    id: Option<string>,
    entryTime: Option<Timestamp>,
    status: Option<VisitorStatus>,
    name: string,
    phone: string,
    purpose: string,
    residentId: string,
    residentName: string,
    unitNumber: string,
    exitTime: Option<Timestamp>)

  /** `{ id: c-<now>, createdAt: now, status: 'OPEN', ...body }`. */
  function NewComplaint(b: ComplaintBody, now: nat): (c: Complaint)
    ensures b.id.None? ==> c.id == "c-" + Digits(now)
    ensures b.id.Some? ==> c.id == b.id.value
    ensures b.status.None? ==> c.status == OPEN
    ensures b.status.Some? ==> c.status == b.status.value
    ensures c.createdAt == (if b.createdAt.Some? then b.createdAt.value else now)
    ensures c.title == b.title && c.userId == b.userId && c.resolvedAt == b.resolvedAt
    ensures c.userName == b.userName && c.unitNumber == b.unitNumber && c.description == b.description
    ensures c.category == b.category && c.priority == b.priority
  {
    Complaint(b.id.GetOr("c-" + Digits(now)), b.userId, b.userName, b.unitNumber, b.title,
              b.description, b.category, b.priority, b.status.GetOr(OPEN), b.createdAt.GetOr(now),
              b.resolvedAt)
  }

  /** `{ id: n-<now>, createdAt: now, postedBy: 'Admin', ...body }`. */
  function NewNotice(b: NoticeBody, now: nat): (n: Notice)
    ensures b.id.None? ==> n.id == "n-" + Digits(now)
    ensures b.id.Some? ==> n.id == b.id.value
    ensures b.postedBy.None? ==> n.postedBy == "Admin"
    ensures b.postedBy.Some? ==> n.postedBy == b.postedBy.value
    ensures n.createdAt == (if b.createdAt.Some? then b.createdAt.value else now)
    ensures n.title == b.title && n.content == b.content && n.category == b.category
  {
    Notice(b.id.GetOr("n-" + Digits(now)), b.title, b.content, b.postedBy.GetOr("Admin"),
           b.createdAt.GetOr(now), b.category)
  }

  /** `{ id: v-<now>, entryTime: now, status: 'IN', ...body }`. */
  function NewVisitor(b: VisitorBody, now: nat): (v: Visitor)
    ensures b.id.None? ==> v.id == "v-" + Digits(now)
    ensures b.id.Some? ==> v.id == b.id.value
    ensures b.status.None? ==> v.status == IN
    ensures b.status.Some? ==> v.status == b.status.value
    ensures v.entryTime == (if b.entryTime.Some? then b.entryTime.value else now)
    ensures v.name == b.name && v.residentId == b.residentId && v.exitTime == b.exitTime
    ensures v.phone == b.phone && v.purpose == b.purpose && v.residentName == b.residentName
    ensures v.unitNumber == b.unitNumber
  {
    Visitor(b.id.GetOr("v-" + Digits(now)), b.name, b.phone, b.purpose, b.residentId,
            b.residentName, b.unitNumber, b.entryTime.GetOr(now), b.exitTime, b.status.GetOr(IN))
  }

  /** A resident is a user whose role is RESIDENT; a user without a role is none. */
  predicate IsResident(u: ServerUser)
  {
    u.role == Some(RESIDENT)
  }

  /** The residents of the seed are the two seeded resident rows, in table order. */
  lemma SeedResidents()
    ensures Filter(SeedUsers, IsResident) == [SeedUsers[1], SeedUsers[2]]
  {
    assert SeedUsers == [SeedUsers[0]] + [SeedUsers[1], SeedUsers[2]];
    FilterAppend([SeedUsers[0]], [SeedUsers[1], SeedUsers[2]], IsResident);
    FilterKeepsAll([SeedUsers[1], SeedUsers[2]], IsResident);
  }

  /**
   * `s.findIndex(x => key(x) === id)` as a scan from the front.
   */
  method FindIndex<T>(s: seq<T>, key: T -> string, id: string) returns (i: int)
    ensures i == FirstIndex(s, key, id)
  {
    var j := 0;
    while j < |s|
      invariant 0 <= j <= |s|
      invariant Fresh(s[..j], key, id)
    {
      if key(s[j]) == id {
        return j;
      }
      j := j + 1;
    }
    assert s[..j] == s;
    return -1;
  }

  // ---------------------------------------------------------------------
  // The backend

  class Backend {
    var users: seq<ServerUser>
    var complaints: seq<Complaint>
    var notices: seq<Notice>
    var visitors: seq<Visitor>
    var payments: seq<Payment>

    function State(): Tables
      reads this
    {
      Tables(users, complaints, notices, visitors, payments)
    }

    /** The tables at start-up; seed timestamps are offsets from the start instant. */
    constructor (start: Timestamp)
      ensures State() == Tables(SeedUsers, InitialComplaints(start), InitialNotices(start),
                                MockVisitors(start), SeedPayments)
    {
      users := SeedUsers;
      complaints := InitialComplaints(start);
      notices := InitialNotices(start);
      visitors := MockVisitors(start);
      payments := SeedPayments;
    }

    /**
     * POST /api/auth/login. A user with the body's email and role signs in
     * whatever the password; an unknown pair with a non-empty name is
     * appended as a new user and signed in; otherwise 401 and no change.
     * Only the users table can change.
     */
    method Login(body: LoginBody, now: nat, stringify: Claims -> seq<Byte>) returns (reply: LoginReply)
      modifies this
      ensures reply.Authenticated? <==>
        FindUser(old(users), body.email, body.role).Some? || (body.name.Some? && body.name.value != "")
      ensures FindUser(old(users), body.email, body.role).Some? ==>
        reply.Authenticated? && reply.user == FindUser(old(users), body.email, body.role).value &&
        State() == old(State())
      ensures FindUser(old(users), body.email, body.role).None? && body.name.Some? && body.name.value != "" ==>
        reply.Authenticated? && reply.user == SignUpUser(body, now) &&
        State() == old(State()).(users := old(users) + [SignUpUser(body, now)])
      ensures reply.Unauthorized? ==> State() == old(State())
      ensures reply.Authenticated? ==> reply.token == MakeToken(stringify(ClaimsOf(reply.user)))
    {
      var found := FindUser(users, body.email, body.role);
      var user: ServerUser;
      if found.Some? {
        user := found.value;
      } else if body.name.Some? && body.name.value != "" {
        user := SignUpUser(body, now);
        users := users + [user];
      } else {
        return Unauthorized;
      }
      reply := Authenticated(MakeToken(stringify(ClaimsOf(user))), user);
    }

    method GetComplaints() returns (r: seq<Complaint>)
      ensures r == complaints
    {
      r := complaints;
    }

    /** POST /api/complaints: the new complaint goes first. */
    method PostComplaint(body: ComplaintBody, now: nat) returns (created: Complaint)
      modifies this
      ensures created == NewComplaint(body, now)
      ensures State() == old(State()).(complaints := [created] + old(complaints))
    {
      created := NewComplaint(body, now);
      complaints := [created] + complaints;
    }

    /**
     * PUT /api/complaints/:id/status: the first complaint with the id gets
     * the status, and the resolution time when the body has one; 404 and no
     * change for an unknown id.
     */
    method PutComplaintStatus(id: string, status: ComplaintStatus, resolvedAt: Option<Timestamp>)
      returns (reply: Option<Complaint>)
      modifies this
      ensures reply.None? <==> Fresh(old(complaints), ComplaintKey, id)
      ensures reply.None? ==> State() == old(State())
      ensures reply.Some? ==>
        var i := FirstIndex(old(complaints), ComplaintKey, id);
        reply.value == WithStatus(old(complaints)[i], status, resolvedAt) &&
        State() == old(State()).(complaints := old(complaints)[i := reply.value])
    {
      var i := FindIndex(complaints, ComplaintKey, id);
      if i == -1 {
        return None;
      }
      var updated := WithStatus(complaints[i], status, resolvedAt);
      complaints := complaints[i := updated];
      reply := Some(updated);
    }

    method GetNotices() returns (r: seq<Notice>)
      ensures r == notices
    {
      r := notices;
    }

    /** POST /api/notices: the new notice goes first. */
    method PostNotice(body: NoticeBody, now: nat) returns (created: Notice)
      modifies this
      ensures created == NewNotice(body, now)
      ensures State() == old(State()).(notices := [created] + old(notices))
    {
      created := NewNotice(body, now);
      notices := [created] + notices;
    }

    /** DELETE /api/notices/:id: every notice with the id goes; the reply is 200 even for an unknown id. */
    method DeleteNotice(id: string)
      modifies this
      ensures State() == old(State()).(notices := NoticesWithout(old(notices), id))
    {
      notices := NoticesWithout(notices, id);
    }

    method GetVisitors() returns (r: seq<Visitor>)
      ensures r == visitors
    {
      r := visitors;
    }

    /** POST /api/visitors: the new visitor goes first. */
    method PostVisitor(body: VisitorBody, now: nat) returns (created: Visitor)
      modifies this
      ensures created == NewVisitor(body, now)
      ensures State() == old(State()).(visitors := [created] + old(visitors))
    {
      created := NewVisitor(body, now);
      visitors := [created] + visitors;
    }

    /** PUT /api/visitors/:id/exit: the first visitor with the id is OUT as of now; 404 for an unknown id. */
    method PutVisitorExit(id: string, now: Timestamp) returns (reply: Option<Visitor>)
      modifies this
      ensures reply.None? <==> Fresh(old(visitors), VisitorKey, id)
      ensures reply.None? ==> State() == old(State())
      ensures reply.Some? ==>
        var i := FirstIndex(old(visitors), VisitorKey, id);
        reply.value == old(visitors)[i].(status := OUT, exitTime := Some(now)) &&
        State() == old(State()).(visitors := old(visitors)[i := reply.value])
    {
      var i := FindIndex(visitors, VisitorKey, id);
      if i == -1 {
        return None;
      }
      var updated := visitors[i].(status := OUT, exitTime := Some(now));
      visitors := visitors[i := updated];
      reply := Some(updated);
    }

    method GetPayments() returns (r: seq<Payment>)
      ensures r == payments
    {
      r := payments;
    }

    /** PUT /api/payments/:id/pay: the first payment with the id is PAID; 404 for an unknown id. */
    method PutPaymentPay(id: string) returns (reply: Option<Payment>)
      modifies this
      ensures reply.None? <==> Fresh(old(payments), PaymentKey, id)
      ensures reply.None? ==> State() == old(State())
      ensures reply.Some? ==>
        var i := FirstIndex(old(payments), PaymentKey, id);
        reply.value == old(payments)[i].(status := PAID) &&
        State() == old(State()).(payments := old(payments)[i := reply.value])
    {
      var i := FindIndex(payments, PaymentKey, id);
      if i == -1 {
        return None;
      }
      var updated := payments[i].(status := PAID);
      payments := payments[i := updated];
      reply := Some(updated);
    }

    /** GET /api/residents: exactly the RESIDENT rows of the users table, in table order. */
    method GetResidents() returns (r: seq<ServerUser>)
      ensures r == Filter(users, IsResident)
      ensures forall u :: u in r <==> u in users && u.role == Some(RESIDENT)
    {
      r := Filter(users, IsResident);
    }
  }
}
