/**
 * The per-session visit tracker: the session attributes `count` and `date` that
 * the listing page shows and then overwrites on every visit.
 */
module VisitTracker {
  import opened KotlinInt

  /** A session attribute value: a boxed Int, a String, or any other object. */
  datatype Attribute = IntAttr(i: Int32) | StringAttr(s: string) | OtherAttr

  /** The attributes of one session, by name. */
  type Attributes = map<string, Attribute>

  const CountKey: string := "count"
  const DateKey: string := "date"

  /** `session.getAttribute("count") as? Int ?: 0`. */
  function ShownCount(attrs: Attributes): Int32 {
    if CountKey in attrs && attrs[CountKey].IntAttr? then attrs[CountKey].i else 0
  }

  /** `session.getAttribute("date") as? String ?: getCurrentDate()`, the clock read as `now`. */
  function ShownDate(attrs: Attributes, now: string): string {
    if DateKey in attrs && attrs[DateKey].StringAttr? then attrs[DateKey].s else now
  }

  /** The two `setAttribute` calls after rendering: the shown count plus one, and the current date. */
  function RecordVisit(attrs: Attributes, shown: Int32, now: string): (r: Attributes)
    ensures r.Keys == attrs.Keys + {CountKey, DateKey}
    ensures r[CountKey] == IntAttr(Inc(shown)) && r[DateKey] == StringAttr(now)
    ensures forall k :: k in attrs && k != CountKey && k != DateKey ==> r[k] == attrs[k]
  {
    attrs[CountKey := IntAttr(Inc(shown))][DateKey := StringAttr(now)]
  }

  /** One visit: what the page shows is read before the visit is recorded. */
  function Visit(attrs: Attributes, nowAtWrite: string): Attributes {
    RecordVisit(attrs, ShownCount(attrs), nowAtWrite)
  }

  /** The counts shown by consecutive visits, the i-th recorded at clock reading `nows[i]`. */
  function ShownCounts(attrs: Attributes, nows: seq<string>): (counts: seq<Int32>)
    ensures |counts| == |nows|
    decreases |nows|
  {
    if nows == [] then [] else [ShownCount(attrs)] + ShownCounts(Visit(attrs, nows[0]), nows[1..])
  }

  /** The session attributes after consecutive visits. */
  function AfterVisits(attrs: Attributes, nows: seq<string>): Attributes
    decreases |nows|
  {
    if nows == [] then attrs else AfterVisits(Visit(attrs, nows[0]), nows[1..])
  }

  /**
   * Starting from a session whose count reads `c`, visit k shows `c + k` and the
   * count reads `c + n` after n visits, as long as no addition passes Int.MAX_VALUE.
   */
  lemma {:induction false} ConsecutiveVisits(attrs: Attributes, nows: seq<string>)
    requires ShownCount(attrs) as int + |nows| <= MaxValue
    ensures forall k :: 0 <= k < |nows| ==> ShownCounts(attrs, nows)[k] as int == ShownCount(attrs) as int + k
    ensures ShownCount(AfterVisits(attrs, nows)) as int == ShownCount(attrs) as int + |nows|
    decreases |nows|
  {
    if nows != [] {
      var next := Visit(attrs, nows[0]);
      assert ShownCount(next) as int == ShownCount(attrs) as int + 1;
      ConsecutiveVisits(next, nows[1..]);
      forall k | 1 <= k < |nows|
        ensures ShownCounts(attrs, nows)[k] as int == ShownCount(attrs) as int + k
      {
        assert ShownCounts(attrs, nows)[k] == ShownCounts(next, nows[1..])[k - 1];
      }
    }
  }

  /** From a fresh session, n visits show 0, 1, ..., n - 1 and leave the count at n. */
  lemma FreshSessionVisits(nows: seq<string>)
    requires |nows| <= MaxValue
    ensures forall k :: 0 <= k < |nows| ==> ShownCounts(map[], nows)[k] as int == k
    ensures ShownCount(AfterVisits(map[], nows)) as int == |nows|
  {
    ConsecutiveVisits(map[], nows);
  }

  /** Whatever the clock reads at the next visit, that visit shows the date the previous visit stored. */
  lemma NextVisitShowsPreviousDate(attrs: Attributes, written: string, later: string)
    ensures ShownDate(Visit(attrs, written), later) == written
  {
  }
}
