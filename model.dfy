/**
 * The luggage item: its stored form, the in-memory object whose methods
 * update it in place, and what any sequence of those updates can and cannot
 * change.
 */
module Model {

  /** The contract's unsigned 64-bit timestamps. */
  newtype u64 = x: int | 0 <= x < 0x1_0000_0000_0000_0000

  /** The status strings the item goes through. */
  const CHECKED_IN := "checked-in"
  const EN_ROUTE := "en-route"
  const READY := "ready"
  const COLLECTED := "collected"

  /** A luggage item as the store holds it: every field, by value. */
  datatype LuggageRecord = LuggageRecord(
    id: string,               // reference id of the luggage tag
    flightno: string,
    origin: string,           // airport code
    destination: string,      // airport code
    ownerAccountId: string,   // account that checked the bag in
    checkInTime: u64,
    checkOutTime: u64,
    status: string,
    collectionPoint: string)  // gate or carousel

  /** The fields of a freshly constructed item, before `checkIn`: zero-initialised. */
  const Unset := LuggageRecord("", "", "", "", "", 0, 0, "", "")

  /** The fields fixed at check-in agree: tag, flight, route, owner and check-in time. */
  predicate SameIdentity(a: LuggageRecord, b: LuggageRecord) {
    && a.id == b.id
    && a.flightno == b.flightno
    && a.origin == b.origin
    && a.destination == b.destination
    && a.ownerAccountId == b.ownerAccountId
    && a.checkInTime == b.checkInTime
  }

  /** `checkIn` applied to `prior`, by `sender` at time `now`. */
  function CheckedIn(prior: LuggageRecord, id: string, flightNo: string, origin: string,
                     destination: string, sender: string, now: u64): (r: LuggageRecord)
    ensures r.id == id && r.flightno == flightNo
    ensures r.origin == origin && r.destination == destination
    ensures r.ownerAccountId == sender && r.checkInTime == now
    ensures r.status == CHECKED_IN
    ensures r.checkOutTime == prior.checkOutTime && r.collectionPoint == prior.collectionPoint
  {
    prior.(checkInTime := now, id := id, flightno := flightNo, origin := origin,
           destination := destination, ownerAccountId := sender, status := CHECKED_IN)
  }

  /** `enRoute` applied to `b`. */
  function EnRouted(b: LuggageRecord): (r: LuggageRecord)
    ensures r.status == EN_ROUTE
    ensures SameIdentity(b, r)
    ensures r.checkOutTime == b.checkOutTime && r.collectionPoint == b.collectionPoint
  {
    b.(status := EN_ROUTE)
  }

  /** `readyForCollection(collectionPoint)` applied to `b`. */
  function ReadiedAt(b: LuggageRecord, collectionPoint: string): (r: LuggageRecord)
    ensures r.status == READY && r.collectionPoint == collectionPoint
    ensures SameIdentity(b, r)
    ensures r.checkOutTime == b.checkOutTime
  {
    b.(collectionPoint := collectionPoint, status := READY)
  }

  /** `collectLuggage` applied to `b` at time `now`; it looks at no caller identity. */
  function Collected(b: LuggageRecord, now: u64): (r: LuggageRecord)
    ensures r.status == COLLECTED && r.checkOutTime == now
    ensures SameIdentity(b, r)
    ensures r.collectionPoint == b.collectionPoint
  {
    b.(checkOutTime := now, status := COLLECTED)
  }

  /**
   * The in-memory luggage item. Its methods assign its fields in place; the
   * caller's identity and the block time are passed in as `sender` and `now`.
   */
  class LuggageItem {
    var id: string
    var flightno: string
    var origin: string
    var destination: string
    var ownerAccountId: string
    var checkInTime: u64
    var checkOutTime: u64
    var status: string
    var collectionPoint: string

    /** All fields as one value: what the store serialises. */
    function Record(): LuggageRecord
      reads this
    {
      LuggageRecord(id, flightno, origin, destination, ownerAccountId,
                    checkInTime, checkOutTime, status, collectionPoint)
    }

    /** `new LuggageItem()`: every field zero-initialised. */
    constructor ()
      ensures Record() == Unset
    {
      id, flightno, origin, destination, ownerAccountId := "", "", "", "", "";
      checkInTime, checkOutTime := 0, 0;
      status, collectionPoint := "", "";
    }

    /** The object the store hands back for a stored record (deserialisation). */
    constructor FromRecord(r: LuggageRecord)
      ensures Record() == r
    {
      id, flightno, origin, destination := r.id, r.flightno, r.origin, r.destination;
      ownerAccountId, checkInTime, checkOutTime := r.ownerAccountId, r.checkInTime, r.checkOutTime;
      status, collectionPoint := r.status, r.collectionPoint;
    }

    method CheckIn(newId: string, flightNo: string, fromAirport: string, toAirport: string,
                   sender: string, now: u64)
      modifies this
      ensures Record() == CheckedIn(old(Record()), newId, flightNo, fromAirport, toAirport, sender, now)
    {
      checkInTime := now;
      id := newId;
      flightno := flightNo;
      origin := fromAirport;
      destination := toAirport;
      ownerAccountId := sender;
      status := CHECKED_IN;
    }

    /** Whether `sender` is the account that checked the item in. */
    method VerifyPassenger(sender: string) returns (isValid: bool)
      ensures isValid <==> Record().ownerAccountId == sender
    {
      isValid := false;
      if ownerAccountId == sender {
        isValid := true;
      }
    }

    method EnRoute()
      modifies this
      ensures Record() == EnRouted(old(Record()))
    {
      status := EN_ROUTE;
    }

    method ReadyForCollection(point: string)
      modifies this
      ensures Record() == ReadiedAt(old(Record()), point)
    {
      collectionPoint := point;
      status := READY;
    }

    /** Sets the check-out time and the status; checks nothing about the caller. */
    method CollectLuggage(now: u64)
      modifies this
      ensures Record() == Collected(old(Record()), now)
    {
      checkOutTime := now;
      status := COLLECTED;
    }
  }

  /** One of the three status updates the contract offers on a checked-in item. */
  datatype Update = EnRoute | Ready(point: string) | Collect(now: u64)

  function Apply(b: LuggageRecord, u: Update): LuggageRecord {
    match u
    case EnRoute => EnRouted(b)
    case Ready(point) => ReadiedAt(b, point)
    case Collect(now) => Collected(b, now)
  }

  /** The status an update writes, whatever the status before. */
  function StatusSetBy(u: Update): string {
    match u
    case EnRoute => EN_ROUTE
    case Ready(_) => READY
    case Collect(_) => COLLECTED
  }

  /** The updates `us` applied to `b`, first to last. */
  function ApplyAll(b: LuggageRecord, us: seq<Update>): LuggageRecord
    decreases |us|
  {
    if us == [] then b else ApplyAll(Apply(b, us[0]), us[1..])
  }

  /** `k` copies of `u`. */
  function Repeat(u: Update, k: nat): seq<Update>
  {
    if k == 0 then [] else [u] + Repeat(u, k - 1)
  }

  /**
   * No sequence of updates changes the tag, the flight, the route, the owner
   * or the check-in time; in particular the owner that collection would be
   * checked against stays the one recorded at check-in.
   */
  lemma {:induction false} UpdatesKeepIdentity(b: LuggageRecord, us: seq<Update>)
    ensures SameIdentity(b, ApplyAll(b, us))
    decreases |us|
  {
    if us != [] {
      UpdatesKeepIdentity(Apply(b, us[0]), us[1..]);
    }
  }

  /**
   * Updates are accepted in any order and from any status: the status after a
   * non-empty sequence is the one its last update writes.
   */
  lemma {:induction false} StatusIsLastWritten(b: LuggageRecord, us: seq<Update>)
    requires us != []
    ensures ApplyAll(b, us).status == StatusSetBy(us[|us| - 1])
    decreases |us|
  {
    if |us| > 1 {
      StatusIsLastWritten(Apply(b, us[0]), us[1..]);
    }
  }

  /** Repeating one update any positive number of times is the same as applying it once. */
  lemma {:induction false} RepeatedUpdateIsOnce(b: LuggageRecord, u: Update, k: nat)
    requires k >= 1
    ensures ApplyAll(b, Repeat(u, k)) == Apply(b, u)
    decreases k
  {
    if k > 1 {
      RepeatedUpdateIsOnce(Apply(b, u), u, k - 1);
      assert Apply(Apply(b, u), u) == Apply(b, u);
    }
  }
}
