/**
 * The record transforms that the client provider and the server apply alike:
 * a complaint status change and the removal of a notice by id.
 */
module Records {
  import opened Types
  import opened Seqs

  /**
   * `{ ...c, status, ...(resolvedAt ? { resolvedAt } : {}) }`: the status is
   * replaced, a resolution time only when one is given, so an earlier one is
   * never erased; no other field changes.
   */
  function WithStatus(c: Complaint, status: ComplaintStatus, resolvedAt: Option<Timestamp>): (r: Complaint)
    ensures r.status == status
    ensures resolvedAt.Some? ==> r.resolvedAt == resolvedAt
    ensures resolvedAt.None? ==> r.resolvedAt == c.resolvedAt
    ensures r.(status := c.status, resolvedAt := c.resolvedAt) == c
  {
    c.(status := status, resolvedAt := if resolvedAt.Some? then resolvedAt else c.resolvedAt)
  }

  /** `prev.filter(n => n.id !== id)`. */
  function NoticesWithout(ns: seq<Notice>, id: string): (r: seq<Notice>)
    ensures forall n :: n in r ==> n in ns && n.id != id
    ensures forall n :: n in ns && n.id != id ==> n in r
  {
    Filter(ns, (n: Notice) => n.id != id)
  }

  /** Deleting distributes over concatenation: the survivors keep their order. */
  lemma NoticesWithoutAppend(a: seq<Notice>, b: seq<Notice>, id: string)
    ensures NoticesWithout(a + b, id) == NoticesWithout(a, id) + NoticesWithout(b, id)
  {
    FilterAppend(a, b, (n: Notice) => n.id != id);
  }

  /** Deleting an id that is not there leaves the notices as they were. */
  lemma NoticesWithoutAbsent(ns: seq<Notice>, id: string)
    requires forall n :: n in ns ==> n.id != id
    ensures NoticesWithout(ns, id) == ns
  {
    FilterKeepsAll(ns, (n: Notice) => n.id != id);
  }
}
