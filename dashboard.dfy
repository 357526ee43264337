/**
 * The derived views of the dashboard pages (pages/Dashboard.tsx): per-user
 * filters, dues and payment sums, complaint counts, the visitor search and
 * status filter, the visitor statistics, the visitor form's defaults and
 * the conditions under which action buttons are offered.
 */
module Dashboard {
  import opened Types
  import opened Seqs
  import opened Constants
  import AppContext

  /** `user?.role === UserRole.ADMIN`. */
  predicate IsAdmin(user: Option<User>)
  {
    user.Some? && user.value.role == ADMIN
  }

  /** `x.userId === user?.id`: with nobody signed in no record matches. */
  predicate OwnedBy(userId: string, user: Option<User>)
  {
    user.Some? && userId == user.value.id
  }

  // ---------------------------------------------------------------------
  // Complaints

  /** `complaints.filter(c => c.userId === user?.id)`. */
  function MyComplaints(cs: seq<Complaint>, user: Option<User>): (r: seq<Complaint>)
    ensures forall c :: c in r <==> c in cs && OwnedBy(c.userId, user)
  {
    Filter(cs, (c: Complaint) => OwnedBy(c.userId, user))
  }

  /** The user's own complaints that are not resolved. */
  predicate IsActiveFor(user: Option<User>, c: Complaint)
  {
    OwnedBy(c.userId, user) && c.status != RESOLVED
  }

  /** Keeping the user's complaints and then the unresolved ones keeps the user's active complaints. */
  lemma ActiveIsOneFilter(cs: seq<Complaint>, user: Option<User>)
    ensures Filter(MyComplaints(cs, user), (c: Complaint) => c.status != RESOLVED)
         == Filter(cs, (c: Complaint) => IsActiveFor(user, c))
  {
    var own := (c: Complaint) => OwnedBy(c.userId, user);
    var unresolved := (c: Complaint) => c.status != RESOLVED;
    FilterFilter(cs, own, unresolved, (c: Complaint) => IsActiveFor(user, c));
  }

  /**
   * The resident's "Active Complaints": the number of positions holding one
   * of their own complaints that is not resolved.
   */
  function ActiveComplaintCount(cs: seq<Complaint>, user: Option<User>): (n: nat)
    ensures n <= |MyComplaints(cs, user)| <= |cs|
    ensures n == |set i | 0 <= i < |cs| && IsActiveFor(user, cs[i])|
  {
    ActiveIsOneFilter(cs, user);
    FilterLengthIsMatchCount(cs, (c: Complaint) => IsActiveFor(user, c));
    assert MatchIndices(cs, (c: Complaint) => IsActiveFor(user, c)) == set i | 0 <= i < |cs| && IsActiveFor(user, cs[i]);
    |Filter(MyComplaints(cs, user), (c: Complaint) => c.status != RESOLVED)|
  }

  /** The admin's "Open Complaints": the number of positions holding an OPEN complaint. */
  function OpenComplaintCount(cs: seq<Complaint>): (n: nat)
    ensures n <= |cs|
    ensures n == |set i | 0 <= i < |cs| && cs[i].status == OPEN|
  {
    FilterLengthIsMatchCount(cs, (c: Complaint) => c.status == OPEN);
    assert MatchIndices(cs, (c: Complaint) => c.status == OPEN) == set i | 0 <= i < |cs| && cs[i].status == OPEN;
    |Filter(cs, (c: Complaint) => c.status == OPEN)|
  }

  /**
   * Resolving one complaint (ids unique) takes it off the active count of its
   * owner, if it was active, and off the open count, if it was open; both
   * counts are otherwise unchanged.
   */
  lemma ResolveLowersCounts(cs: seq<Complaint>, user: Option<User>, i: nat, t: Timestamp)
    requires UniqueKeys(cs, ComplaintKey) && i < |cs|
    ensures var after := AppContext.SetComplaintStatus(cs, cs[i].id, RESOLVED, Some(t));
            ActiveComplaintCount(after, user) == ActiveComplaintCount(cs, user) - (if IsActiveFor(user, cs[i]) then 1 else 0) &&
            OpenComplaintCount(after) == OpenComplaintCount(cs) - (if cs[i].status == OPEN then 1 else 0)
  {
    var after := AppContext.SetComplaintStatus(cs, cs[i].id, RESOLVED, Some(t));
    forall j | 0 <= j < |cs| && j != i ensures after[j] == cs[j] {
      assert ComplaintKey(cs[j]) != ComplaintKey(cs[i]);
    }
    ActiveIsOneFilter(cs, user);
    ActiveIsOneFilter(after, user);
    FilterLengthChangeAt(cs, after, (c: Complaint) => IsActiveFor(user, c), i);
    FilterLengthChangeAt(cs, after, (c: Complaint) => c.status == OPEN, i);
  }

  /** Open complaints are among the unresolved ones: the open count never exceeds the unresolved count. */
  lemma {:induction false} OpenAreActive(cs: seq<Complaint>)
    ensures |Filter(cs, (c: Complaint) => c.status == OPEN)| <= |Filter(cs, (c: Complaint) => c.status != RESOLVED)|
  {
    if cs != [] {
      OpenAreActive(cs[1..]);
    }
  }

  /** With nobody signed in, no complaint and no bill is anyone's own. */
  lemma SignedOutOwnsNothing(cs: seq<Complaint>, ps: seq<Payment>)
    ensures MyComplaints(cs, None) == []
    ensures MyPendingBills(ps, None) == []
  {
    FilterKeepsNone(cs, (c: Complaint) => OwnedBy(c.userId, None));
    FilterKeepsNone(ps, (p: Payment) => OwnedBy(p.userId, None) && p.status != PAID);
  }

  /** Admins see every complaint; anyone else sees only their own. */
  function DisplayComplaints(cs: seq<Complaint>, user: Option<User>): (r: seq<Complaint>)
    ensures IsAdmin(user) ==> r == cs
    ensures !IsAdmin(user) ==> forall c :: c in r <==> c in cs && OwnedBy(c.userId, user)
  {
    if IsAdmin(user) then cs else MyComplaints(cs, user)
  }

  /** Status-change buttons are offered to admins, and only on complaints that are not resolved. */
  predicate ShowStatusButtons(user: Option<User>, c: Complaint)
  {
    IsAdmin(user) && c.status != RESOLVED
  }

  /** Once solved, a complaint offers no status buttons any more. */
  lemma SolvedOffersNoButtons(cs: seq<Complaint>, id: string, t: Timestamp, user: Option<User>, i: nat)
    requires i < |cs| && cs[i].id == id
    ensures !ShowStatusButtons(user, AppContext.SetComplaintStatus(cs, id, RESOLVED, Some(t))[i])
  {
  }

  // ---------------------------------------------------------------------
  // Payments

  /** `ps.reduce((acc, p) => acc + p.amount, 0)`, folding from the left. */
  function SumAmounts(ps: seq<Payment>): int
  {
    if ps == [] then 0 else SumAmounts(ps[..|ps| - 1]) + ps[|ps| - 1].amount
  }

  /** The sum of a concatenation is the sum of the parts. */
  lemma {:induction false} SumAmountsAppend(a: seq<Payment>, b: seq<Payment>)
    ensures SumAmounts(a + b) == SumAmounts(a) + SumAmounts(b)
    decreases |b|
  {
    if b == [] {
      assert a + b == a;
    } else {
      assert (a + b)[..|a + b| - 1] == a + b[..|b| - 1];
      SumAmountsAppend(a, b[..|b| - 1]);
    }
  }

  /** The sum taken from the front agrees with the left fold. */
  lemma SumAmountsCons(p: Payment, ps: seq<Payment>)
    ensures SumAmounts([p] + ps) == p.amount + SumAmounts(ps)
  {
    SumAmountsAppend([p], ps);
    assert [p][..0] == [];
  }

  /** `payments.filter(p => p.userId === user?.id && p.status !== PAID)`. */
  function MyPendingBills(ps: seq<Payment>, user: Option<User>): (r: seq<Payment>)
    ensures forall p :: p in r <==> p in ps && OwnedBy(p.userId, user) && p.status != PAID
  {
    Filter(ps, (p: Payment) => OwnedBy(p.userId, user) && p.status != PAID)
  }

  /** The resident's "Pending Dues": the amounts of their bills that are not paid. */
  function PendingDues(ps: seq<Payment>, user: Option<User>): int
  {
    SumAmounts(MyPendingBills(ps, user))
  }

  /** The user's bill that is not paid. */
  predicate IsDueFor(user: Option<User>, p: Payment)
  {
    OwnedBy(p.userId, user) && p.status != PAID
  }

  /** Dues taken from the front: the first bill counts when it is the user's and not paid. */
  lemma DuesCons(h: Payment, t: seq<Payment>, user: Option<User>)
    ensures PendingDues([h] + t, user) == (if IsDueFor(user, h) then h.amount else 0) + PendingDues(t, user)
  {
    var due := (p: Payment) => OwnedBy(p.userId, user) && p.status != PAID;
    FilterAppend([h], t, due);
    FilterSingleton(h, due);
    SumAmountsAppend(Filter([h], due), Filter(t, due));
    assert SumAmounts([h]) == h.amount by {
      SumAmountsCons(h, []);
      assert [h] + [] == [h];
    }
  }

  /**
   * Paying a bill (ids unique) lowers the payer's dues by its amount when it
   * was theirs and not paid, and leaves every user's dues unchanged otherwise.
   */
  lemma PayLowersDues(ps: seq<Payment>, user: Option<User>, i: nat)
    requires UniqueKeys(ps, PaymentKey) && i < |ps|
    ensures PendingDues(AppContext.MarkPaid(ps, ps[i].id), user)
         == PendingDues(ps, user) - (if IsDueFor(user, ps[i]) then ps[i].amount else 0)
  {
    var after := AppContext.MarkPaid(ps, ps[i].id);
    forall j | 0 <= j < |ps| && j != i ensures after[j] == ps[j] {
      assert PaymentKey(ps[j]) != PaymentKey(ps[i]);
    }
    assert after[..i] == ps[..i];
    assert after[i + 1..] == ps[i + 1..];
    var due := (p: Payment) => OwnedBy(p.userId, user) && p.status != PAID;
    FilterSplitAt(ps, due, i);
    FilterSplitAt(after, due, i);
    var mid := if due(ps[i]) then [ps[i]] else [];
    SumAmountsAppend(Filter(ps[..i], due) + mid, Filter(ps[i + 1..], due));
    SumAmountsAppend(Filter(ps[..i], due), mid);
    SumAmountsAppend(Filter(ps[..i], due) + [], Filter(ps[i + 1..], due));
    SumAmountsAppend(Filter(ps[..i], due), []);
    SumAmountsCons(ps[i], []);
    assert [ps[i]] + [] == [ps[i]];
  }

  predicate IsPaid(p: Payment) { p.status == PAID }
  predicate IsUnpaid(p: Payment) { p.status != PAID }

  /** The payment manager's "collected" figure. */
  function Collected(ps: seq<Payment>): int
  {
    SumAmounts(Filter(ps, IsPaid))
  }

  /** The payment manager's "pending" figure. */
  function Pending(ps: seq<Payment>): int
  {
    SumAmounts(Filter(ps, IsUnpaid))
  }

  /** Collected and pending split the total: every bill is counted once, on one side. */
  lemma {:induction false} CollectedPlusPending(ps: seq<Payment>)
    ensures Collected(ps) + Pending(ps) == SumAmounts(ps)
  {
    if ps != [] {
      var p, rest := ps[0], ps[1..];
      assert ps == [p] + rest;
      CollectedPlusPending(rest);
      FilterAppend([p], rest, IsPaid);
      FilterAppend([p], rest, IsUnpaid);
      SumAmountsCons(p, rest);
      SumAmountsAppend(Filter([p], IsPaid), Filter(rest, IsPaid));
      SumAmountsAppend(Filter([p], IsUnpaid), Filter(rest, IsUnpaid));
      assert [p][1..] == [];
    }
  }

  /** Admins see every payment; anyone else sees only their own. */
  function DisplayPayments(ps: seq<Payment>, user: Option<User>): (r: seq<Payment>)
    ensures IsAdmin(user) ==> r == ps
    ensures !IsAdmin(user) ==> forall p :: p in r <==> p in ps && OwnedBy(p.userId, user)
  {
    if IsAdmin(user) then ps else Filter(ps, (p: Payment) => OwnedBy(p.userId, user))
  }

  /** "Pay Now" is offered to non-admins on bills that are not paid. */
  predicate ShowPayNow(user: Option<User>, p: Payment)
  {
    p.status != PAID && !IsAdmin(user)
  }

  /** Once paid, a bill offers no "Pay Now" any more. */
  lemma PaidOffersNoPayNow(ps: seq<Payment>, id: string, user: Option<User>, i: nat)
    requires i < |ps| && ps[i].id == id
    ensures !ShowPayNow(user, AppContext.MarkPaid(ps, id)[i])
  {
  }

  /** The demo resident owes the one pending seed bill: 250. */
  lemma DemoResidentDues()
    ensures PendingDues(InitialPayments, Some(MockResident)) == 250
  {
    var p1, p2 := InitialPayments[0], InitialPayments[1];
    var owned := (p: Payment) => OwnedBy(p.userId, Some(MockResident)) && p.status != PAID;
    assert InitialPayments == [p1] + [p2];
    FilterAppend([p1], [p2], owned);
    assert Filter([p1], owned) == [];
    assert Filter([p2], owned) == [p2];
    assert [p2][..0] == [];
  }

  // ---------------------------------------------------------------------
  // Visitors

  /** `String.prototype.toLowerCase` on the ASCII letters. */
  function LowerChar(c: char): char
  {
    if 'A' <= c <= 'Z' then (c as int - 'A' as int + 'a' as int) as char else c
  }

  /**
   * `s.toLowerCase()`: the same length, no upper-case letter left, and every
   * character that is not an upper-case letter kept as it was.
   */
  function ToLower(s: string): (r: string)
    ensures |r| == |s|
    ensures forall i :: 0 <= i < |s| ==> r[i] == LowerChar(s[i])
    ensures forall i :: 0 <= i < |r| ==> !('A' <= r[i] <= 'Z')
    ensures forall i :: 0 <= i < |s| && !('A' <= s[i] <= 'Z') ==> r[i] == s[i]
  {
    seq(|s|, i requires 0 <= i < |s| => LowerChar(s[i]))
  }

  /** Lower-casing twice is lower-casing once. */
  lemma ToLowerIdempotent(s: string)
    ensures ToLower(ToLower(s)) == ToLower(s)
  {
  }

  /** `s.includes(t)`: t occurs in s at some position. */
  predicate Contains(s: string, t: string)
  {
    exists i | 0 <= i <= |s| :: t <= s[i..]
  }

  /** The status filter of the visitor log: everyone, or one status. */
  datatype StatusFilter = All | Only(status: VisitorStatus)

  predicate MatchesSearch(v: Visitor, term: string, filter: StatusFilter)
  {
    Contains(ToLower(v.name), ToLower(term)) && (filter.All? || v.status == filter.status)
  }

  /**
   * The visitor log: the visitors whose name contains the search term, case
   * aside, and whose status passes the filter.
   */
  function FilteredVisitors(vs: seq<Visitor>, term: string, filter: StatusFilter): (r: seq<Visitor>)
    ensures |r| <= |vs|
    ensures forall v :: v in r <==> v in vs && MatchesSearch(v, term, filter)
  {
    Filter(vs, (v: Visitor) => MatchesSearch(v, term, filter))
  }

  /** The filter keeps the log's order: it works on each part of a log separately. */
  lemma FilteredVisitorsOrder(a: seq<Visitor>, b: seq<Visitor>, term: string, filter: StatusFilter)
    ensures FilteredVisitors(a + b, term, filter) == FilteredVisitors(a, term, filter) + FilteredVisitors(b, term, filter)
  {
    FilterAppend(a, b, (v: Visitor) => MatchesSearch(v, term, filter));
  }

  /** The case of the search term does not matter to a single visitor. */
  lemma SearchIgnoresTermCase(v: Visitor, term: string, filter: StatusFilter)
    ensures MatchesSearch(v, ToLower(term), filter) == MatchesSearch(v, term, filter)
  {
    ToLowerIdempotent(term);
  }

  /** The case of the search term does not matter to the log: typing it in capitals shows the same visitors. */
  lemma FilteredVisitorsIgnoreTermCase(vs: seq<Visitor>, term: string, filter: StatusFilter)
    ensures FilteredVisitors(vs, ToLower(term), filter) == FilteredVisitors(vs, term, filter)
  {
    forall v | v in vs
      ensures MatchesSearch(v, ToLower(term), filter) == MatchesSearch(v, term, filter)
    {
      SearchIgnoresTermCase(v, term, filter);
    }
    FilterSamePredicate(vs, (v: Visitor) => MatchesSearch(v, ToLower(term), filter),
                        (v: Visitor) => MatchesSearch(v, term, filter));
  }

  /** Searching for a visitor's own name, in any case, finds them when the status filter lets them through. */
  lemma SearchFindsOwnName(v: Visitor, filter: StatusFilter)
    requires filter.All? || v.status == filter.status
    ensures MatchesSearch(v, v.name, filter)
  {
    assert ToLower(v.name) <= ToLower(v.name)[0..];
  }

  /** With no search term and no status filter the whole log is shown. */
  lemma EmptySearchShowsAll(vs: seq<Visitor>)
    ensures FilteredVisitors(vs, "", All) == vs
  {
    forall v | v in vs ensures MatchesSearch(v, "", All) {
      assert ToLower("") == [] && ToLower("") <= ToLower(v.name)[0..];
    }
    FilterKeepsAll(vs, (v: Visitor) => MatchesSearch(v, "", All));
  }

  predicate IsIn(v: Visitor) { v.status == IN }
  predicate IsOut(v: Visitor) { v.status == OUT }

  /** The visitor statistics: total, currently in, exited. */
  datatype VisitorStats = VisitorStats(total: nat, currentlyIn: nat, exited: nat)

  function Stats(vs: seq<Visitor>): (s: VisitorStats)
    ensures s.total == |vs|
    ensures s.currentlyIn <= s.total && s.exited <= s.total
    ensures s.currentlyIn == |set i | 0 <= i < |vs| && vs[i].status == IN|
    ensures s.exited == |set i | 0 <= i < |vs| && vs[i].status == OUT|
  {
    FilterLengthIsMatchCount(vs, IsIn);
    FilterLengthIsMatchCount(vs, IsOut);
    assert MatchIndices(vs, IsIn) == set i | 0 <= i < |vs| && vs[i].status == IN;
    assert MatchIndices(vs, IsOut) == set i | 0 <= i < |vs| && vs[i].status == OUT;
    VisitorStats(|vs|, |Filter(vs, IsIn)|, |Filter(vs, IsOut)|)
  }

  /** Marking the exit of a visitor who is in (ids unique) moves one visitor from inside to exited. */
  lemma ExitMovesOneOut(vs: seq<Visitor>, i: nat, now: Timestamp)
    requires UniqueKeys(vs, VisitorKey) && i < |vs| && vs[i].status == IN
    ensures var after := Stats(AppContext.MarkExited(vs, vs[i].id, now));
            after.total == Stats(vs).total &&
            after.currentlyIn == Stats(vs).currentlyIn - 1 &&
            after.exited == Stats(vs).exited + 1
  {
    var after := AppContext.MarkExited(vs, vs[i].id, now);
    forall j | 0 <= j < |vs| && j != i ensures after[j] == vs[j] {
      assert VisitorKey(vs[j]) != VisitorKey(vs[i]);
    }
    FilterLengthChangeAt(vs, after, IsIn, i);
    FilterLengthChangeAt(vs, after, IsOut, i);
  }

  /** Every visitor is in or out, never both, so the two counts add up to the total. */
  lemma StatsAddUp(vs: seq<Visitor>)
    ensures Stats(vs).total == Stats(vs).currentlyIn + Stats(vs).exited
  {
    FilterPartitionLength(vs, IsIn, IsOut);
  }

  /** The visitor form's fields. */
  datatype VisitorForm = VisitorForm(name: string, phone: string, purpose: string, residentId: string)

  /** The form opens empty, with purpose "Guest" and the first resident selected. */
  function BlankVisitorForm(residents: seq<User>): (f: VisitorForm)
    ensures f.name == "" && f.phone == "" && f.purpose == "Guest"
    ensures residents == [] ==> f.residentId == ""
    ensures residents != [] ==> f.residentId == residents[0].id
  {
    VisitorForm("", "", "Guest", if residents == [] then "" else OrElse(Some(residents[0].id), ""))
  }

  /**
   * The visitor the form submits: the selected resident's name, or "Unknown"
   * when the id matches no resident or the name is empty; the unit always
   * "N/A"; no entry time, exit time or status, which the provider supplies.
   */
  function SubmittedVisitor(f: VisitorForm, residents: seq<User>): (d: AppContext.VisitorDraft)
    ensures d.name == f.name && d.phone == f.phone && d.purpose == f.purpose && d.residentId == f.residentId
    ensures d.unitNumber == "N/A"
    ensures (forall r :: r in residents ==> r.id != f.residentId) ==> d.residentName == "Unknown"
    ensures d.residentName == "Unknown" || exists r :: r in residents && r.id == f.residentId && r.name == d.residentName
    ensures forall i :: 0 <= i < |residents| && residents[i].id == f.residentId &&
                        (forall j :: 0 <= j < i ==> residents[j].id != f.residentId) ==>
              d.residentName == (if residents[i].name != "" then residents[i].name else "Unknown")
    ensures d.entryTime.None? && d.exitTime.None? && d.status.None?
  {
    var resident := Find(residents, (r: User) => r.id == f.residentId);
    assert forall i :: 0 <= i < |residents| && residents[i].id == f.residentId &&
                       (forall j :: 0 <= j < i ==> residents[j].id != f.residentId) ==>
             resident == Some(residents[i]) by {
      forall i | 0 <= i < |residents| && residents[i].id == f.residentId &&
                 (forall j :: 0 <= j < i ==> residents[j].id != f.residentId)
        ensures resident == Some(residents[i])
      {
        assert residents[i] in residents;
        var k :| 0 <= k < |residents| && residents[k] == resident.value &&
                 forall j :: 0 <= j < k ==> residents[j].id != f.residentId;
        assert k == i;
      }
    }
    var name := if resident.Some? then OrElse(Some(resident.value.name), "Unknown") else "Unknown";
    AppContext.VisitorDraft(f.name, f.phone, f.purpose, f.residentId, name, "N/A", None, None, None)
  }
}
