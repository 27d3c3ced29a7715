/**
 * The contract's exported operations over `luggageRecords`. The store is
 * passed in explicitly; the caller's account (`context.sender`) and the block
 * time (`context.blockTimestamp`) are the parameters `sender` and `now`.
 */
module Index {
  import opened Wrappers
  import opened Store
  import opened Model

  /** The two answers of a check-in. */
  const OK := "ok"
  const ID_ALREADY_EXISTS := "id-already-exists"

  /** Insert-if-absent: a known tag id is reported and the store left as it was. */
  method CheckInLuggageItem(store: UnorderedMap<string, LuggageRecord>, id: string, flightno: string,
                            origin: string, destination: string, sender: string, now: u64)
    returns (message: string)
    requires store.Valid()
    modifies store
    ensures store.Valid()
    ensures message == if id in old(store.records) then ID_ALREADY_EXISTS else OK
    ensures id in old(store.records) ==>
              store.records == old(store.records) && store.keys == old(store.keys)
    ensures id !in old(store.records) ==>
              && store.records == old(store.records)[id := CheckedIn(Unset, id, flightno, origin, destination, sender, now)]
              && store.keys == old(store.keys) + [id]
    ensures |store.records| == |old(store.records)| + if id in old(store.records) then 0 else 1
  {
    var present := store.Contains(id);
    if present {
      message := ID_ALREADY_EXISTS;
    } else {
      var luggage := new LuggageItem();
      luggage.CheckIn(id, flightno, origin, destination, sender, now);
      store.Set(id, luggage.Record());
      message := OK;
    }
  }

  /** The stored record, or `None` when no record has this id. */
  method GetLuggageItem(store: UnorderedMap<string, LuggageRecord>, id: string)
    returns (result: Option<LuggageRecord>)
    ensures result.None? <==> id !in store.records
    ensures result.Some? ==> id in store.records && result.value == store.records[id]
  {
    result := store.Get(id);
  }

  /** Deletes the record unconditionally; an unknown id is a no-op. */
  method RemoveLuggageItem(store: UnorderedMap<string, LuggageRecord>, id: string)
    requires store.Valid()
    modifies store
    ensures store.Valid()
    ensures store.records == old(store.records) - {id}
    ensures |store.records| == |old(store.records)| - if id in old(store.records) then 1 else 0
  {
    store.Delete(id);
    store.KeysCount();
  }

  /**
   * Get, mutate, set back. The source casts the nullable `get` to non-null,
   * so the id must be stored; the current status is not looked at.
   */
  method LuggageEnRoute(store: UnorderedMap<string, LuggageRecord>, id: string)
    requires store.Valid() && id in store.records
    modifies store
    ensures store.Valid()
    ensures store.records == old(store.records)[id := EnRouted(old(store.records)[id])]
    ensures store.keys == old(store.keys)
  {
    var found := store.Get(id);
    var bag := new LuggageItem.FromRecord(found.value);
    bag.EnRoute();
    store.Set(id, bag.Record());
  }

  method ReadyForCollection(store: UnorderedMap<string, LuggageRecord>, id: string, collectionPoint: string)
    requires store.Valid() && id in store.records
    modifies store
    ensures store.Valid()
    ensures store.records == old(store.records)[id := ReadiedAt(old(store.records)[id], collectionPoint)]
    ensures store.keys == old(store.keys)
  {
    var found := store.Get(id);
    var bag := new LuggageItem.FromRecord(found.value);
    bag.ReadyForCollection(collectionPoint);
    store.Set(id, bag.Record());
  }

  /** Marks the bag collected at `now`; no caller identity is consulted. */
  method CollectLuggage(store: UnorderedMap<string, LuggageRecord>, id: string, now: u64)
    requires store.Valid() && id in store.records
    modifies store
    ensures store.Valid()
    ensures store.records == old(store.records)[id := Collected(old(store.records)[id], now)]
    ensures store.keys == old(store.keys)
  {
    var found := store.Get(id);
    var bag := new LuggageItem.FromRecord(found.value);
    bag.CollectLuggage(now);
    store.Set(id, bag.Record());
  }

  /** Whether `sender` is the account that checked the stored bag in. */
  method VerifyOwner(store: UnorderedMap<string, LuggageRecord>, id: string, sender: string)
    returns (result: bool)
    requires id in store.records
    ensures result <==> store.records[id].ownerAccountId == sender
  {
    result := false;
    var found := store.Get(id);
    var bag := new LuggageItem.FromRecord(found.value);
    var isValid := bag.VerifyPassenger(sender);
    if isValid {
      result := true;
    }
  }

  /** Every stored record, one per id. */
  method GetAllLuggage(store: UnorderedMap<string, LuggageRecord>) returns (items: seq<LuggageRecord>)
    requires store.Valid()
    ensures |items| == |store.keys| == |store.records|
    ensures forall i :: 0 <= i < |items| ==> items[i] == store.records[store.keys[i]]
    ensures forall id :: id in store.records ==> store.records[id] in items
    ensures forall b :: b in items ==> b in store.records.Values
  {
    items := store.Values();
    forall b | b in items
      ensures b in store.records.Values
    {
      var i :| 0 <= i < |items| && items[i] == b;
      assert store.keys[i] in store.records;
    }
  }

  method TotalBags(store: UnorderedMap<string, LuggageRecord>) returns (count: nat)
    requires store.Valid()
    ensures count == |store.records|
  {
    count := store.Length();
  }

  method Clear(store: UnorderedMap<string, LuggageRecord>)
    modifies store
    ensures store.Valid()
    ensures store.records == map[]
  {
    store.Clear();
  }

  // Scenarios of the contract's unit tests, on a fresh store.

  /** Checking in one bag leaves one stored record, under its id. */
  method CheckInScenario(sender: string, now: u64) returns (message: string, count: nat, hasId: bool)
    ensures message == OK && count == 1 && hasId
  {
    var store := new UnorderedMap<string, LuggageRecord>();
    message := CheckInLuggageItem(store, "my_bag", "QF1234", "SYD", "FCO", sender, now);
    count := TotalBags(store);
    hasId := store.Contains("my_bag");
  }

  /** A removed bag can no longer be looked up. */
  method DeleteScenario(sender: string, now: u64) returns (bag: Option<LuggageRecord>)
    ensures bag == None
  {
    var store := new UnorderedMap<string, LuggageRecord>();
    var _ := CheckInLuggageItem(store, "my_bag", "EM9999", "SYD", "FCO", sender, now);
    RemoveLuggageItem(store, "my_bag");
    bag := GetLuggageItem(store, "my_bag");
  }

  /** The same id checked in twice is refused the second time and stored once. */
  method DuplicateCheckInScenario(sender: string, now: u64)
    returns (first: string, second: string, count: nat)
    ensures first == OK && second == ID_ALREADY_EXISTS && count == 1
  {
    var store := new UnorderedMap<string, LuggageRecord>();
    first := CheckInLuggageItem(store, "j_bag", "XY1234", "SYD", "FCO", sender, now);
    second := CheckInLuggageItem(store, "j_bag", "XY1234", "SYD", "FCO", sender, now);
    count := TotalBags(store);
  }

  /** A checked-in bag set en route reads back as "en-route". */
  method EnRouteScenario(sender: string, now: u64) returns (status: string)
    ensures status == EN_ROUTE
  {
    var store := new UnorderedMap<string, LuggageRecord>();
    var _ := CheckInLuggageItem(store, "my_bag", "EM9999", "SYD", "FCO", sender, now);
    LuggageEnRoute(store, "my_bag");
    var bag := GetLuggageItem(store, "my_bag");
    status := bag.value.status;
  }

  /** A checked-in bag can be made ready for collection with no en-route step. */
  method ReadyWithoutTransitScenario(sender: string, now: u64)
    returns (status: string, collectionPoint: string)
    ensures status == READY && collectionPoint == "Carousel 8"
  {
    var store := new UnorderedMap<string, LuggageRecord>();
    var _ := CheckInLuggageItem(store, "my_bag", "EM9999", "SYD", "FCO", sender, now);
    ReadyForCollection(store, "my_bag", "Carousel 8");
    var bag := GetLuggageItem(store, "my_bag");
    status, collectionPoint := bag.value.status, bag.value.collectionPoint;
  }

  /**
   * The full lifecycle: checked in, en route, ready at a carousel, collected.
   * Identity fields recorded at check-in survive every step.
   */
  method LifecycleScenario(sender: string, now: u64, later: u64) returns (bag: Option<LuggageRecord>)
    ensures bag.Some?
    ensures bag.value.status == COLLECTED && bag.value.collectionPoint == "Carousel 8"
    ensures bag.value.checkOutTime == later
    ensures bag.value.id == "bag1" && bag.value.flightno == "QF1"
    ensures bag.value.ownerAccountId == sender && bag.value.checkInTime == now
  {
    var store := new UnorderedMap<string, LuggageRecord>();
    var _ := CheckInLuggageItem(store, "bag1", "QF1", "SYD", "LAX", sender, now);
    LuggageEnRoute(store, "bag1");
    ReadyForCollection(store, "bag1", "Carousel 8");
    CollectLuggage(store, "bag1", later);
    bag := GetLuggageItem(store, "bag1");
  }

  /**
   * A checked-in bag can be collected straight away, with no en-route or
   * ready step and without any caller identity; the owner stays the one who
   * checked it in, so a different account still fails `VerifyOwner`.
   */
  method CollectWithoutTransitScenario(owner: string, other: string, now: u64, later: u64)
    returns (status: string, otherIsOwner: bool)
    requires other != owner
    ensures status == COLLECTED && !otherIsOwner
  {
    var store := new UnorderedMap<string, LuggageRecord>();
    var _ := CheckInLuggageItem(store, "my_bag", "EM9999", "SYD", "FCO", owner, now);
    CollectLuggage(store, "my_bag", later);
    var bag := GetLuggageItem(store, "my_bag");
    status := bag.value.status;
    otherIsOwner := VerifyOwner(store, "my_bag", other);
  }

  /** After `clear` there is nothing to count and nothing to list. */
  method ClearScenario(sender: string, now: u64) returns (count: nat, all: seq<LuggageRecord>)
    ensures count == 0 && all == []
  {
    var store := new UnorderedMap<string, LuggageRecord>();
    var _ := CheckInLuggageItem(store, "bag1", "QF1", "SYD", "LAX", sender, now);
    var _ := CheckInLuggageItem(store, "bag2", "QF1", "SYD", "LAX", sender, now);
    Clear(store);
    count := TotalBags(store);
    all := GetAllLuggage(store);
  }
}
