/** The in-memory key/value store (MemoryStorage.cs): a dictionary of serialised
    records and an integer eTag counter giving optimistic concurrency. The lock that
    guards every call is modelled by treating each call as atomic. */
module Storage {
  import opened Wrappers
  import opened Runtime
  import opened Decimal

  /** What `_memory` holds for a key. None is a null entry, which only the
      dictionary handed to the constructor can contain. */
  type Record = Option<Value>

  /** `_memory` and `_eTag` together. */
  datatype StoreState = StoreState(memory: map<string, Record>, counter: nat)

  /** One entry of the `changes` dictionary, in its enumeration order; a None value
      is a null object. */
  datatype Change = Change(key: string, value: Option<Value>)

  datatype WriteResult = WriteResult(state: StoreState, outcome: Outcome)

  /** The key has a non-null record. */
  predicate Present(mem: map<string, Record>, key: string) {
    key in mem && mem[key].Some?
  }

  /** The key maps to a null record. */
  predicate NullAt(mem: map<string, Record>, key: string) {
    key in mem && mem[key].None?
  }

  /** `oldStateETag`: the eTag property of the stored record, None when the key is
      new or the record has no eTag. */
  function StoredETag(mem: map<string, Record>, key: string): Option<string>
    requires !NullAt(mem, key)
  {
    if key in mem then mem[key].value.eTag else None
  }

  /** The conflict rule for a store-item write: the key already has an eTag, the
      incoming eTag is not "*", and the two differ. */
  predicate Conflicts(stored: Option<string>, incoming: Option<string>) {
    stored.Some? && incoming != Some("*") && incoming != stored
  }

  /** What the loop body of `Write` does with one change. */
  function ApplyChange(st: StoreState, c: Change): Result<StoreState, Exception> {
    if NullAt(st.memory, c.key) then Failure(NullReference)
    else if c.value.None? then Failure(ArgumentNull("o"))
    else
      var v := c.value.value;
      if v.kind == Primitive then Failure(NotJsonObject)
      else if v.kind == StoreItemObject then
        var stored := StoredETag(st.memory, c.key);
        if Conflicts(stored, v.eTag) then Failure(ETagConflict(v.eTag, stored.value))
        else Success(StoreState(st.memory[c.key := Some(v.(eTag := Some(NatToString(st.counter))))], st.counter + 1))
      else Success(StoreState(st.memory[c.key := Some(v)], st.counter))
  }

  /** `Write(changes)`: the changes are applied one by one; the first failing change
      stops the loop and leaves every earlier change applied. */
  function WriteAll(st: StoreState, changes: seq<Change>): WriteResult
    decreases |changes|
  {
    if changes == [] then WriteResult(st, Ok)
    else match ApplyChange(st, changes[0])
      case Failure(e) => WriteResult(st, Exn(e))
      case Success(st') => WriteAll(st', changes[1..])
  }

  /** The loop of `Read(keys)` from a partly filled result: present keys are added
      with `Dictionary.Add`, which throws on a key added before. */
  function ReadFrom(mem: map<string, Record>, keys: seq<string>, acc: map<string, Value>): Result<map<string, Value>, Exception>
    decreases |keys|
  {
    if keys == [] then Success(acc)
    else if Present(mem, keys[0]) then
      if keys[0] in acc then Failure(DuplicateKey(keys[0]))
      else ReadFrom(mem, keys[1..], acc[keys[0] := mem[keys[0]].value])
    else ReadFrom(mem, keys[1..], acc)
  }

  /** `Read(keys)`. */
  function ReadAll(mem: map<string, Record>, keys: seq<string>): Result<map<string, Value>, Exception> {
    ReadFrom(mem, keys, map[])
  }

  /** The records of the requested keys that are present with a non-null value. */
  function PresentRecords(mem: map<string, Record>, keys: seq<string>): map<string, Value> {
    map k | k in keys && Present(mem, k) :: mem[k].value
  }

  /** No key that has a record is requested twice. */
  ghost predicate NoRepeatedPresentKey(mem: map<string, Record>, keys: seq<string>) {
    forall i, j :: 0 <= i < j < |keys| && keys[i] == keys[j] ==> !Present(mem, keys[i])
  }

  /** The store holds only JSON objects (what `JObject` can hold). */
  ghost predicate ObjectsOnly(st: StoreState) {
    forall k :: Present(st.memory, k) ==> st.memory[k].value.kind != Primitive
  }

  predicate IsStoreRecord(r: Record) {
    r.Some? && r.value.kind == StoreItemObject
  }

  /** t is the decimal numeral of a counter value below counter. */
  predicate IssuedTag(t: Option<string>, counter: nat) {
    t.Some? && DecimalValue(t.value) < counter && t.value == NatToString(DecimalValue(t.value))
  }

  /** Every store-item record carries an eTag the counter has already issued, and
      no two store-item records carry the same eTag. */
  ghost predicate WellStamped(st: StoreState) {
    && (forall k :: k in st.memory && IsStoreRecord(st.memory[k]) ==> IssuedTag(st.memory[k].value.eTag, st.counter))
    && (forall k1, k2 :: k1 in st.memory && k2 in st.memory && k1 != k2
          && IsStoreRecord(st.memory[k1]) && IsStoreRecord(st.memory[k2])
          ==> st.memory[k1].value.eTag != st.memory[k2].value.eTag)
  }

  /** How many changes of a batch are store items (the ones that advance the counter). */
  function StoreItemCount(changes: seq<Change>): nat {
    if changes == [] then 0
    else
      var here := if changes[0].value.Some? && changes[0].value.value.kind == StoreItemObject then 1 else 0;
      here + StoreItemCount(changes[1..])
  }

  /** What a successful write of one value leaves under its key. */
  function StoredCopy(v: Value, counter: nat): Value {
    if v.kind == StoreItemObject then v.(eTag := Some(NatToString(counter))) else v
  }

  // ---------------------------------------------------------------------------
  // Read

  /** Splitting the first key off a request. */
  lemma NoRepeatedCons(mem: map<string, Record>, keys: seq<string>)
    requires keys != []
    ensures NoRepeatedPresentKey(mem, keys)
        <==> NoRepeatedPresentKey(mem, keys[1..]) && (Present(mem, keys[0]) ==> keys[0] !in keys[1..])
  {
    var rest := keys[1..];
    if NoRepeatedPresentKey(mem, keys) {
      forall i, j | 0 <= i < j < |rest| && rest[i] == rest[j]
        ensures !Present(mem, rest[i])
      {
        assert keys[i + 1] == keys[j + 1];
      }
      forall j | 0 <= j < |rest| && Present(mem, keys[0])
        ensures rest[j] != keys[0]
      {
        assert keys[j + 1] == rest[j];
      }
    }
    if NoRepeatedPresentKey(mem, rest) && (Present(mem, keys[0]) ==> keys[0] !in rest) {
      forall i, j | 0 <= i < j < |keys| && keys[i] == keys[j]
        ensures !Present(mem, keys[i])
      {
        if i == 0 {
          assert keys[j] == rest[j - 1];
        } else {
          assert rest[i - 1] == rest[j - 1];
        }
      }
    }
  }

  lemma {:induction false} ReadFromSucceeds(mem: map<string, Record>, keys: seq<string>, acc: map<string, Value>)
    ensures ReadFrom(mem, keys, acc).Success?
        <==> NoRepeatedPresentKey(mem, keys) && (forall k :: k in keys && Present(mem, k) ==> k !in acc)
    decreases |keys|
  {
    if keys != [] {
      var k, rest := keys[0], keys[1..];
      assert forall x :: x in keys <==> x == k || x in rest;
      NoRepeatedCons(mem, keys);
      if Present(mem, k) {
        if k !in acc {
          ReadFromSucceeds(mem, rest, acc[k := mem[k].value]);
        }
      } else {
        ReadFromSucceeds(mem, rest, acc);
      }
    }
  }

  lemma {:induction false} ReadFromValue(mem: map<string, Record>, keys: seq<string>, acc: map<string, Value>)
    requires ReadFrom(mem, keys, acc).Success?
    ensures ReadFrom(mem, keys, acc).value == acc + PresentRecords(mem, keys)
    decreases |keys|
  {
    if keys == [] {
      assert PresentRecords(mem, keys) == map[];
    } else {
      var k, rest := keys[0], keys[1..];
      assert forall x :: x in keys <==> x == k || x in rest;
      if Present(mem, k) {
        ReadFromValue(mem, rest, acc[k := mem[k].value]);
        assert PresentRecords(mem, keys) == PresentRecords(mem, rest)[k := mem[k].value];
        assert acc[k := mem[k].value] + PresentRecords(mem, rest) == acc + PresentRecords(mem, keys);
      } else {
        ReadFromValue(mem, rest, acc);
        assert PresentRecords(mem, keys) == PresentRecords(mem, rest);
      }
    }
  }

  /** `Read` returns exactly the requested keys that hold a non-null record, with
      those records; missing keys are simply absent. It fails only when a key that
      holds a record is requested twice, because the result is filled with
      `Dictionary.Add`. */
  lemma ReadReturnsPresentRecords(mem: map<string, Record>, keys: seq<string>)
    ensures ReadAll(mem, keys).Success? <==> NoRepeatedPresentKey(mem, keys)
    ensures ReadAll(mem, keys).Success? ==> ReadAll(mem, keys).value == PresentRecords(mem, keys)
  {
    ReadFromSucceeds(mem, keys, map[]);
    if ReadAll(mem, keys).Success? {
      ReadFromValue(mem, keys, map[]);
    }
    assert map[] + PresentRecords(mem, keys) == PresentRecords(mem, keys);
  }

  /** A single-key read never fails: it yields the record, or nothing. */
  lemma ReadSingleKey(mem: map<string, Record>, key: string)
    ensures ReadAll(mem, [key]) == Success(if Present(mem, key) then map[key := mem[key].value] else map[])
  {
    ReadReturnsPresentRecords(mem, [key]);
    assert PresentRecords(mem, [key]) == if Present(mem, key) then map[key := mem[key].value] else map[];
  }

  // ---------------------------------------------------------------------------
  // Write: the conflict rule

  /** A store-item write conflicts exactly when the key has an eTag, the incoming
      eTag is not "*", and the two differ; the error names both, and a conflicting
      write changes nothing. Otherwise the stored copy gets the current counter as
      its eTag and the counter advances by one. */
  lemma StoreItemWrite(st: StoreState, key: string, v: Value)
    requires !NullAt(st.memory, key) && v.kind == StoreItemObject
    ensures var r := WriteAll(st, [Change(key, Some(v))]);
      && (r.outcome.Exn? <==> Conflicts(StoredETag(st.memory, key), v.eTag))
      && (r.outcome.Exn? ==> r.state == st && r.outcome.error == ETagConflict(v.eTag, StoredETag(st.memory, key).value))
      && (r.outcome.Ok? ==> r.state == StoreState(st.memory[key := Some(v.(eTag := Some(NatToString(st.counter))))], st.counter + 1))
  {
    assert [Change(key, Some(v))][1..] == [];
  }

  /** A key with no record, or whose record has no eTag, never conflicts, whatever
      eTag is supplied; neither does the eTag "*". */
  lemma NoConflictCases(st: StoreState, key: string, v: Value)
    requires !NullAt(st.memory, key) && v.kind == StoreItemObject
    requires key !in st.memory || st.memory[key].value.eTag.None? || v.eTag == Some("*")
    ensures WriteAll(st, [Change(key, Some(v))]).outcome == Ok
  {
    StoreItemWrite(st, key, v);
  }

  /** A value that is not a store item is stored as it is: no eTag stamp, no
      conflict check, and the counter does not move. */
  lemma PlainObjectWrite(st: StoreState, key: string, v: Value)
    requires !NullAt(st.memory, key) && v.kind == PlainObject
    ensures WriteAll(st, [Change(key, Some(v))]) == WriteResult(StoreState(st.memory[key := Some(v)], st.counter), Ok)
  {
    assert [Change(key, Some(v))][1..] == [];
  }

  // ---------------------------------------------------------------------------
  // Write: batches

  /** A batch is applied change by change: the result of a batch is that of its
      first part followed, only if the first part succeeded, by its second part. */
  lemma {:induction false} WriteAllSplit(st: StoreState, first: seq<Change>, second: seq<Change>)
    ensures WriteAll(st, first + second)
         == (var r := WriteAll(st, first); if r.outcome.Ok? then WriteAll(r.state, second) else r)
    decreases |first|
  {
    if first == [] {
      assert first + second == second;
    } else {
      assert (first + second)[0] == first[0];
      assert (first + second)[1..] == first[1..] + second;
      match ApplyChange(st, first[0])
      case Failure(e) =>
      case Success(st') => WriteAllSplit(st', first[1..], second);
    }
  }

  /** Partial batches: when a change conflicts after earlier ones succeeded, the
      earlier keys stay written, the conflicting key keeps its record, the later
      changes are not applied, and the conflict is what `Write` throws. */
  lemma ConflictMidBatch(st: StoreState, first: seq<Change>, key: string, v: Value, rest: seq<Change>)
    requires WriteAll(st, first).outcome.Ok?
    requires var mid := WriteAll(st, first).state;
      !NullAt(mid.memory, key) && v.kind == StoreItemObject && Conflicts(StoredETag(mid.memory, key), v.eTag)
    ensures var mid := WriteAll(st, first).state;
      WriteAll(st, first + [Change(key, Some(v))] + rest)
        == WriteResult(mid, Exn(ETagConflict(v.eTag, StoredETag(mid.memory, key).value)))
  {
    var mid := WriteAll(st, first).state;
    assert first + [Change(key, Some(v))] + rest == first + ([Change(key, Some(v))] + rest);
    WriteAllSplit(st, first, [Change(key, Some(v))] + rest);
    assert ([Change(key, Some(v))] + rest)[0] == Change(key, Some(v));
  }

  /** A successful batch advances the counter once per store item it wrote. */
  lemma {:induction false} CounterCountsStoreItems(st: StoreState, changes: seq<Change>)
    ensures WriteAll(st, changes).outcome.Ok? ==> WriteAll(st, changes).state.counter == st.counter + StoreItemCount(changes)
    decreases |changes|
  {
    if changes != [] {
      match ApplyChange(st, changes[0])
      case Failure(e) =>
      case Success(st') => CounterCountsStoreItems(st', changes[1..]);
    }
  }

  /** After a successful write, reading the key back yields the written payload,
      carrying the store-assigned eTag when it is a store item. The caller's value
      itself is not changed: only the stored copy is stamped. */
  lemma WriteThenRead(st: StoreState, key: string, v: Value)
    requires WriteAll(st, [Change(key, Some(v))]).outcome.Ok?
    ensures var after := WriteAll(st, [Change(key, Some(v))]).state;
      ReadAll(after.memory, [key]) == Success(map[key := StoredCopy(v, st.counter)])
  {
    assert [Change(key, Some(v))][1..] == [];
    var after := WriteAll(st, [Change(key, Some(v))]).state;
    ReadSingleKey(after.memory, key);
  }

  // ---------------------------------------------------------------------------
  // Invariants the operations preserve

  lemma ApplyChangeKeepsObjects(st: StoreState, c: Change)
    requires ObjectsOnly(st) && ApplyChange(st, c).Success?
    ensures ObjectsOnly(ApplyChange(st, c).value)
  {
  }

  /** Whatever a write stores is a JSON object. */
  lemma {:induction false} WriteKeepsObjects(st: StoreState, changes: seq<Change>)
    requires ObjectsOnly(st)
    ensures ObjectsOnly(WriteAll(st, changes).state)
    decreases |changes|
  {
    if changes != [] {
      match ApplyChange(st, changes[0])
      case Failure(e) =>
      case Success(st') =>
        ApplyChangeKeepsObjects(st, changes[0]);
        WriteKeepsObjects(st', changes[1..]);
    }
  }

  lemma ApplyChangeKeepsStamps(st: StoreState, c: Change)
    requires WellStamped(st) && ApplyChange(st, c).Success?
    ensures WellStamped(ApplyChange(st, c).value)
  {
    var st' := ApplyChange(st, c).value;
    var v := c.value.value;
    if v.kind == StoreItemObject {
      var t := NatToString(st.counter);
      DecimalRoundTrip(st.counter);
      assert st'.memory[c.key].value.eTag == Some(t);
      forall k | k in st'.memory && IsStoreRecord(st'.memory[k])
        ensures IssuedTag(st'.memory[k].value.eTag, st'.counter)
      {
      }
      forall k1, k2 | k1 in st'.memory && k2 in st'.memory && k1 != k2
          && IsStoreRecord(st'.memory[k1]) && IsStoreRecord(st'.memory[k2])
        ensures st'.memory[k1].value.eTag != st'.memory[k2].value.eTag
      {
        if k1 == c.key {
          assert DecimalValue(st.memory[k2].value.eTag.value) < st.counter;
        } else if k2 == c.key {
          assert DecimalValue(st.memory[k1].value.eTag.value) < st.counter;
        }
      }
    }
  }

  /** Writes keep the store well stamped: every store-item eTag is a numeral the
      counter has issued, and no two records share one. */
  lemma {:induction false} WriteKeepsStamps(st: StoreState, changes: seq<Change>)
    requires WellStamped(st)
    ensures WellStamped(WriteAll(st, changes).state)
    decreases |changes|
  {
    if changes != [] {
      match ApplyChange(st, changes[0])
      case Failure(e) =>
      case Success(st') =>
        ApplyChangeKeepsStamps(st, changes[0]);
        WriteKeepsStamps(st', changes[1..]);
    }
  }

  /** Deleting keys keeps the store well stamped. */
  lemma DeleteKeepsStamps(st: StoreState, keys: set<string>)
    requires WellStamped(st)
    ensures WellStamped(StoreState(st.memory - keys, st.counter))
  {
  }

  /** Stamps strictly increase: in a well-stamped store, the eTag a store-item write
      assigns is numerically greater than that of every other store-item record. */
  lemma FreshStampIsLatest(st: StoreState, key: string, v: Value, other: string)
    requires WellStamped(st) && v.kind == StoreItemObject
    requires WriteAll(st, [Change(key, Some(v))]).outcome.Ok?
    requires other != key && other in st.memory && IsStoreRecord(st.memory[other])
    ensures var after := WriteAll(st, [Change(key, Some(v))]).state;
      && key in after.memory && other in after.memory
      && IsStoreRecord(after.memory[key]) && IsStoreRecord(after.memory[other])
      && after.memory[key].value.eTag == Some(NatToString(st.counter))
      && after.memory[other].value.eTag.Some?
      && DecimalValue(after.memory[other].value.eTag.value) < DecimalValue(after.memory[key].value.eTag.value)
  {
    assert [Change(key, Some(v))][1..] == [];
    DecimalRoundTrip(st.counter);
  }

  // ---------------------------------------------------------------------------
  // The store object

  class MemoryStorage {
    var memory: map<string, Record>
    var counter: nat

    function State(): StoreState
      reads this
    {
      StoreState(memory, counter)
    }

    /** `new MemoryStorage(dictionary)`: the caller's dictionary, or an empty one;
        the counter starts at 0. An empty store starts well stamped. */
    constructor (dictionary: Option<map<string, Record>>)
      ensures memory == (if dictionary.Some? then dictionary.value else map[])
      ensures counter == 0
      ensures dictionary.None? ==> WellStamped(State()) && ObjectsOnly(State())
    {
      memory := if dictionary.Some? then dictionary.value else map[];
      counter := 0;
    }

    /** `Delete(keys)`: every listed key is removed; absent keys are ignored and
        every other key keeps its record. */
    method Delete(keys: seq<string>)
      modifies this
      ensures memory == old(memory) - (set k | k in keys)
      ensures counter == old(counter)
    {
      var i := 0;
      while i < |keys|
        invariant 0 <= i <= |keys|
        invariant memory == old(memory) - (set j | 0 <= j < i :: keys[j])
        invariant counter == old(counter)
      {
        assert (set j | 0 <= j < i + 1 :: keys[j]) == (set j | 0 <= j < i :: keys[j]) + {keys[i]};
        memory := memory - {keys[i]};
        i := i + 1;
      }
      assert (set j | 0 <= j < |keys| :: keys[j]) == (set k | k in keys);
    }

    /** `Read(keys)`: fills a fresh result with the requested keys that hold a
        non-null record. */
    method Read(keys: seq<string>) returns (r: Result<map<string, Value>, Exception>)
      ensures r == ReadAll(memory, keys)
    {
      var items: map<string, Value> := map[];
      var i := 0;
      while i < |keys|
        invariant 0 <= i <= |keys|
        invariant ReadFrom(memory, keys[i..], items) == ReadAll(memory, keys)
      {
        var key := keys[i];
        assert keys[i..][0] == key && keys[i..][1..] == keys[i + 1..];
        if key in memory {
          var state := memory[key];
          if state.Some? {
            if key in items {
              return Failure(DuplicateKey(key));
            }
            items := items[key := state.value];
          }
        }
        i := i + 1;
      }
      return Success(items);
    }

    /** `Write(changes)`: applies the changes in order, checking each store item's
        eTag against the stored one and stamping its stored copy with the counter;
        the first failure is thrown with the earlier changes already applied. */
    method Write(changes: seq<Change>) returns (r: Outcome)
      modifies this
      ensures WriteResult(State(), r) == WriteAll(old(State()), changes)
    {
      var i := 0;
      while i < |changes|
        invariant 0 <= i <= |changes|
        invariant WriteAll(State(), changes[i..]) == WriteAll(old(State()), changes)
      {
        var change := changes[i];
        assert changes[i..][0] == change && changes[i..][1..] == changes[i + 1..];
        var oldStateETag: Option<string> := None;
        if change.key in memory {
          var oldState := memory[change.key];
          if oldState.None? {
            return Exn(NullReference);
          }
          oldStateETag := oldState.value.eTag;
        }
        if change.value.None? {
          return Exn(ArgumentNull("o"));
        }
        var newValue := change.value.value;
        if newValue.kind == Primitive {
          return Exn(NotJsonObject);
        }
        var newState := newValue;
        if newValue.kind == StoreItemObject {
          if oldStateETag.Some? && newValue.eTag != Some("*") && newValue.eTag != oldStateETag {
            return Exn(ETagConflict(newValue.eTag, oldStateETag.value));
          }
          newState := newValue.(eTag := Some(NatToString(counter)));
          counter := counter + 1;
        }
        memory := memory[change.key := Some(newState)];
        i := i + 1;
      }
      r := Ok;
    }
  }
}
