/** The in-memory storage the repositories fall back to when they run
    without a database ("mock mode"): a vector of records plus a counter
    that is bumped on every insert. Records are identified through `idOf`,
    the entity's id getter. */
module MockStores {
  import opened Wrappers
  import opened Exceptions
  import opened Text
  import opened Seqs

  datatype Store<T> = Store(storage: seq<T>, nextMockId: int)

  /** The state at program start: no records, counter at 1. */
  function EmptyStore<T>(): (st: Store<T>)
    ensures st.storage == [] && st.nextMockId == 1
  {
    Store([], 1)
  }

  /** The predicate "has id `id`" used by every lookup by id. */
  function HasId<T>(idOf: T -> int, id: int): T -> bool {
    x => idOf(x) == id
  }

  /** createMock: appends the record unchanged and returns it; the counter
      is bumped but never written into the record. */
  function Create<T>(st: Store<T>, item: T): (r: (Store<T>, T))
    ensures r.1 == item
    ensures |r.0.storage| == |st.storage| + 1 && r.0.storage[..|st.storage|] == st.storage
    ensures r.0.storage[|st.storage|] == item
    ensures r.0.nextMockId == st.nextMockId + 1
  {
    (Store(st.storage + [item], st.nextMockId + 1), item)
  }

  /** getByIdMock: the first record with the id, or RecordNotFound with
      `notFound` followed by the id. */
  function GetById<T(==)>(st: Store<T>, id: int, idOf: T -> int, notFound: string): (r: Result<T, Exception>)
    ensures r.Ok? <==> exists i :: 0 <= i < |st.storage| && idOf(st.storage[i]) == id
    ensures r.Ok? ==> idOf(r.value) == id
    ensures r.Ok? ==> var k := FirstIndex(st.storage, HasId(idOf, id)).value;
                      r.value == st.storage[k] && forall i :: 0 <= i < k ==> idOf(st.storage[i]) != id
    ensures r.Err? ==> r.error == Database(DatabaseException(notFound + IntToDecimal(id), RecordNotFound))
  {
    match FirstIndex(st.storage, HasId(idOf, id))
    case Some(k) => Ok(st.storage[k])
    case None => Err(Database(DatabaseException(notFound + IntToDecimal(id), RecordNotFound)))
  }

  /** Every filtering query: the matching records in storage order. */
  function Query<T(==)>(st: Store<T>, p: T -> bool): (r: seq<T>)
    ensures |r| <= |st.storage|
    ensures forall i :: 0 <= i < |r| ==> p(r[i])
    ensures forall i :: 0 <= i < |st.storage| && p(st.storage[i]) ==> st.storage[i] in r
    ensures forall x :: x in r ==> x in st.storage
  {
    Filter(st.storage, p)
  }

  /** Queries are incremental: a new record joins exactly the query
      results it matches, at the end, and no other result changes. */
  lemma QueryAfterCreate<T>(st: Store<T>, item: T, p: T -> bool)
    ensures Query(Create(st, item).0, p) == Query(st, p) + (if p(item) then [item] else [])
  {
    FilterSnoc(st.storage, item, p);
  }

  /** updateMock: overwrites the first record with the same id as `item`;
      the store keeps its length and every other record. */
  function Update<T(==)>(st: Store<T>, item: T, idOf: T -> int, notFound: string): (r: Result<(Store<T>, T), Exception>)
    ensures r.Ok? <==> exists i :: 0 <= i < |st.storage| && idOf(st.storage[i]) == idOf(item)
    ensures r.Ok? ==> var k := FirstIndex(st.storage, HasId(idOf, idOf(item))).value;
                      r.value.0 == st.(storage := st.storage[k := item]) && r.value.1 == item
    ensures r.Ok? ==> |r.value.0.storage| == |st.storage| && item in r.value.0.storage
    ensures r.Err? ==> r.error == Database(DatabaseException(notFound + IntToDecimal(idOf(item)), RecordNotFound))
  {
    match ReplaceFirst(st.storage, HasId(idOf, idOf(item)), item)
    case Some(s) =>
      assert s[FirstIndex(st.storage, HasId(idOf, idOf(item))).value] == item;
      Ok((st.(storage := s), item))
    case None => Err(Database(DatabaseException(notFound + IntToDecimal(idOf(item)), RecordNotFound)))
  }

  /** deleteById: erases the first record with the id; true iff there was one. */
  function DeleteById<T(==)>(st: Store<T>, id: int, idOf: T -> int): (r: (Store<T>, bool))
    ensures r.1 <==> exists i :: 0 <= i < |st.storage| && idOf(st.storage[i]) == id
    ensures !r.1 ==> r.0 == st
    ensures r.1 ==> var k := FirstIndex(st.storage, HasId(idOf, id)).value;
                    r.0 == st.(storage := st.storage[..k] + st.storage[k + 1..])
  {
    var (s, found) := RemoveFirst(st.storage, HasId(idOf, id));
    (st.(storage := s), found)
  }

  /** getRecentAssessments in mock mode: the first min(size, limit) records
      in insertion order, none for a non-positive limit. */
  method Recent<T>(st: Store<T>, limit: int) returns (recent: seq<T>)
    ensures |recent| == if limit <= 0 then 0 else if limit < |st.storage| then limit else |st.storage|
    ensures recent == st.storage[..|recent|]
  {
    recent := [];
    var count := if |st.storage| < limit then |st.storage| else limit;
    var i := 0;
    while i < count
      invariant 0 <= i <= if count < 0 then 0 else count
      invariant recent == st.storage[..i]
    {
      recent := recent + [st.storage[i]];
      i := i + 1;
    }
  }

  /** Lookups see what was stored: after appending a record whose id no
      earlier record carries, looking that id up yields the record, and
      deleting it restores the previous contents. */
  lemma CreateThenLookup<T>(st: Store<T>, item: T, idOf: T -> int, notFound: string)
    requires forall i :: 0 <= i < |st.storage| ==> idOf(st.storage[i]) != idOf(item)
    ensures GetById(Create(st, item).0, idOf(item), idOf, notFound) == Ok(item)
    ensures DeleteById(Create(st, item).0, idOf(item), idOf) == (st.(nextMockId := st.nextMockId + 1), true)
  {
    var s := Create(st, item).0.storage;
    var k := FirstIndex(s, HasId(idOf, idOf(item))).value;
    assert HasId(idOf, idOf(item))(s[|st.storage|]);
    assert k == |st.storage|;
    assert s[..k] + s[k + 1..] == st.storage;
  }

  /** Because createMock never assigns the counter to the record, records
      built with id 0 stay unreachable by any other id. */
  lemma IdsNeverAssigned<T>(st: Store<T>, items: seq<T>, idOf: T -> int, id: int, notFound: string)
    requires forall i :: 0 <= i < |st.storage| ==> idOf(st.storage[i]) == 0
    requires forall i :: 0 <= i < |items| ==> idOf(items[i]) == 0
    requires id != 0
    ensures GetById(CreateAll(st, items), id, idOf, notFound) ==
            Err(Database(DatabaseException(notFound + IntToDecimal(id), RecordNotFound)))
  {
    var r := CreateAll(st, items).storage;
    assert forall i :: 0 <= i < |r| ==> idOf(r[i]) == 0 by {
      forall i | 0 <= i < |r|
        ensures idOf(r[i]) == 0
      {
        if i < |st.storage| {
          assert r[i] == st.storage[i];
        } else {
          assert r[i] == items[i - |st.storage|];
        }
      }
    }
  }

  /** Inserts a sequence of records one after the other. */
  function CreateAll<T(==)>(st: Store<T>, items: seq<T>): (r: Store<T>)
    ensures r.storage == st.storage + items
    decreases |items|
  {
    if |items| == 0 then st else CreateAll(Create(st, items[0]).0, items[1..])
  }
}
