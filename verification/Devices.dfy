/**
 The device records: which keys may sign in. They live in memory and in one file,
 and no failed save may let the two drift apart.
 */
module Devices {
  import opened Wrappers

  type Bytes = seq<bv8>

  const KEY_SIZE: nat := 32
  const MAX_DEVICES: nat := 128
  const MAX_NAME: nat := 80
  const ZERO_TIME: int := 0  // the zero value of a timestamp, which no clock ever shows

  datatype Device = Device(id: string, name: string, key: Bytes, createdAt: int, revoked: bool)

  type Table = map<string, Device>

  datatype AddError = InvalidDevice | AlreadyRegistered | LimitReached | SaveFailed

  // ---- device names ----

  predicate IsSpace(c: char) {
    var n := c as int;
    9 <= n <= 13 || n in {0x20, 0x85, 0xA0, 0x1680, 0x2028, 0x2029, 0x202F, 0x205F, 0x3000} || 0x2000 <= n <= 0x200A
  }

  predicate IsControl(c: char) { c as int < 0x20 || 0x7F <= c as int < 0xA0 }

  /** The number of bytes a character takes in UTF-8. */
  function Width(c: char): nat {
    var n := c as int;
    if n < 0x80 then 1 else if n < 0x800 then 2 else if n < 0x1_0000 then 3 else 4
  }

  function ByteLength(s: string): nat {
    if s == [] then 0 else Width(s[0]) + ByteLength(s[1..])
  }

  function TrimLeft(s: string): (r: string)
    ensures |r| <= |s| && r == s[|s| - |r|..] && (r != [] ==> !IsSpace(r[0]))
    ensures forall i :: 0 <= i < |s| - |r| ==> IsSpace(s[i])
  {
    if s != [] && IsSpace(s[0]) then TrimLeft(s[1..]) else s
  }

  function TrimRight(s: string): (r: string)
    ensures |r| <= |s| && r == s[..|r|] && (r != [] ==> !IsSpace(r[|r| - 1]))
    ensures forall i :: |r| <= i < |s| ==> IsSpace(s[i])
  {
    if s != [] && IsSpace(s[|s| - 1]) then TrimRight(s[..|s| - 1]) else s
  }

  function Trim(s: string): string { TrimRight(TrimLeft(s)) }

  predicate ValidName(name: string) {
    Trim(name) != [] && ByteLength(name) <= MAX_NAME && forall i :: 0 <= i < |name| ==> !IsControl(name[i])
  }

  lemma {:induction false} ByteLengthSplits(s: string, k: nat)
    requires k <= |s|
    ensures ByteLength(s) == ByteLength(s[..k]) + ByteLength(s[k..])
  {
    if k == 0 {
      assert s[..0] == [] && s[0..] == s;
    } else {
      ByteLengthSplits(s[1..], k - 1);
      assert s[..k][1..] == s[1..][..k - 1] && s[1..][k - 1..] == s[k..];
    }
  }

  lemma TrimIsSlice(name: string) returns (a: nat, b: nat)
    ensures a <= b <= |name| && Trim(name) == name[a..b]
    ensures a < b ==> !IsSpace(name[a]) && !IsSpace(name[b - 1])
    ensures forall i :: 0 <= i < a || b <= i < |name| ==> IsSpace(name[i])
  {
    hide IsSpace;
    var left := TrimLeft(name);
    a := |name| - |left|;
    b := a + |TrimRight(left)|;
  }

  lemma TrimTwice(name: string)
    ensures Trim(Trim(name)) == Trim(name)
  {
    hide IsSpace;
    var a, b := TrimIsSlice(name);
    var r := Trim(name);
    assert TrimLeft(r) == r && TrimRight(r) == r;
  }

  lemma SliceIsShorter(s: string, a: nat, b: nat)
    requires a <= b <= |s|
    ensures ByteLength(s[a..b]) <= ByteLength(s)
  {
    ByteLengthSplits(s, b);
    ByteLengthSplits(s[..b], a);
  }

  /** A name that was accepted is still accepted once trimmed, and trimming again changes nothing. */
  lemma TrimmedNameIsValid(name: string)
    requires ValidName(name)
    ensures ValidName(Trim(name)) && Trim(Trim(name)) == Trim(name)
  {
    hide Trim, IsControl, ByteLength;
    TrimTwice(name);
    var a, b := TrimIsSlice(name);
    SliceIsShorter(name, a, b);
  }

  // ---- what a start accepts ----

  predicate RecordOk(identify: Bytes -> string, d: Device) {
    |d.key| == KEY_SIZE && d.id == identify(d.key) && ValidName(d.name) && d.createdAt != ZERO_TIME
  }

  predicate Accepted(identify: Bytes -> string, record: seq<Device>) {
    && |record| <= MAX_DEVICES
    && (forall i :: 0 <= i < |record| ==> RecordOk(identify, record[i]))
    && Distinct(record)
  }

  predicate Holds(identify: Bytes -> string, t: Table) {
    |t| <= MAX_DEVICES && forall id :: id in t ==> t[id].id == id && RecordOk(identify, t[id])
  }

  predicate Distinct(record: seq<Device>) {
    forall i, j :: 0 <= i < j < |record| ==> record[i].id != record[j].id
  }

  ghost predicate Entries(record: seq<Device>, t: Table) {
    forall i :: 0 <= i < |record| ==> record[i].id in t && t[record[i].id] == record[i]
  }

  /** `record` lists every device of `t`, each once, in any order. */
  ghost predicate Lists(record: seq<Device>, t: Table) {
    && |record| == |t| && Entries(record, t) && Distinct(record)
    && (forall id :: id in t ==> exists i :: 0 <= i < |record| && record[i].id == id)
  }

  ghost predicate Ordered(record: seq<Device>) {
    forall i, j :: 0 <= i < j < |record| ==> record[i].createdAt <= record[j].createdAt
  }

  lemma ListedIsAccepted(identify: Bytes -> string, record: seq<Device>, t: Table)
    requires Lists(record, t) && Holds(identify, t)
    ensures Accepted(identify, record)
  {
    hide RecordOk;
  }

  /** A record lists one table only, so reading back what was written restores it exactly. */
  lemma ListedIsUnique(record: seq<Device>, t: Table, u: Table)
    requires Lists(record, t) && Lists(record, u)
    ensures t == u
  {
    forall id | id in t ensures id in u && u[id] == t[id] {
      var i :| 0 <= i < |record| && record[i].id == id;
    }
    forall id | id in u ensures id in t {
      var i :| 0 <= i < |record| && record[i].id == id;
    }
  }

  function Inserted(record: seq<Device>, d: Device, k: nat): (r: seq<Device>)
    requires k <= |record|
    ensures |r| == |record| + 1 && r[k] == d
    ensures forall i :: 0 <= i < k ==> r[i] == record[i]
    ensures forall i :: k < i < |r| ==> r[i] == record[i - 1]
  {
    record[..k] + [d] + record[k..]
  }

  lemma InsertedIsDistinct(record: seq<Device>, d: Device, k: nat)
    requires Distinct(record) && k <= |record| && forall i :: 0 <= i < |record| ==> record[i].id != d.id
    ensures Distinct(Inserted(record, d, k))
  {
    hide Inserted;
  }

  lemma InsertedIsListed(record: seq<Device>, t: Table, d: Device, k: nat)
    requires Entries(record, t) && k <= |record| && d.id !in t
    ensures Entries(Inserted(record, d, k), t[d.id := d])
  {
    hide Inserted;
    var after := Inserted(record, d, k);
    assert forall i :: 0 <= i < |after| && i != k ==> after[i] == record[if i < k then i else i - 1];
  }

  lemma ListsOneMore(record: seq<Device>, t: Table, d: Device, k: nat)
    requires Lists(record, t) && d.id !in t && k <= |record|
    ensures Lists(Inserted(record, d, k), t[d.id := d])
  {
    hide Inserted, Distinct;
    var after, u := Inserted(record, d, k), t[d.id := d];
    InsertedIsDistinct(record, d, k);
    InsertedIsListed(record, t, d, k);
    forall id | id in u ensures exists i :: 0 <= i < |after| && after[i].id == id {
      if id == d.id {
        assert after[k].id == id;
      } else {
        var i :| 0 <= i < |record| && record[i].id == id;
        assert after[if i < k then i else i + 1].id == id;
      }
    }
  }

  lemma NothingToList()
    ensures Lists([], map[]) && Ordered([])
  {
  }

  lemma RepeatedIdIsRefused(identify: Bytes -> string, record: seq<Device>, t: Table, i: nat)
    requires i < |record| && Lists(record[..i], t) && record[i].id in t
    ensures !Accepted(identify, record)
  {
    var k :| 0 <= k < i && record[..i][k].id == record[i].id;
    assert record[k].id == record[i].id;
  }

  /** Inserting after the last older record keeps the records in order. */
  lemma OrderedOneMore(record: seq<Device>, d: Device, k: nat)
    requires Ordered(record) && k <= |record|
    requires forall i :: 0 <= i < k ==> record[i].createdAt <= d.createdAt
    requires k < |record| ==> d.createdAt <= record[k].createdAt
    ensures Ordered(Inserted(record, d, k))
  {
    hide Inserted;
  }

  /** What a start makes of the file: the table it lists, or a refusal. */
  method LoadRecord(identify: Bytes -> string, record: seq<Device>) returns (r: Option<Table>)
    ensures r.Some? <==> Accepted(identify, record)
    ensures r.Some? ==> Holds(identify, r.value) && Lists(record, r.value)
  {
    hide RecordOk, Lists, Inserted;
    NothingToList();
    if |record| > MAX_DEVICES { return None; }
    var t: Table := map[];
    for i := 0 to |record|
      invariant Lists(record[..i], t) && |t| == i && Holds(identify, t)
    {
      var d := record[i];
      if !RecordOk(identify, d) { return None; }
      if d.id in t {
        RepeatedIdIsRefused(identify, record, t, i);
        return None;
      }
      ListsOneMore(record[..i], t, d, i);
      assert record[..i + 1] == Inserted(record[..i], d, i);
      t := t[d.id := d];
    }
    assert record[..|record|] == record;
    ListedIsAccepted(identify, record, t);
    return Some(t);
  }

  /** Records only ever arrive or become revoked: nothing is forgotten, changed or restored. */
  ghost predicate OnlyAdvances(before: Table, after: Table) {
    forall id :: id in before ==> id in after && (after[id] == before[id] || after[id] == before[id].(revoked := true))
  }

  lemma AddedHolds(identify: Bytes -> string, t: Table, name: string, key: Bytes, now: int)
    requires Holds(identify, t) && |t| < MAX_DEVICES
    requires ValidName(name) && |key| == KEY_SIZE && now != ZERO_TIME && identify(key) !in t
    ensures Holds(identify, t[identify(key) := Device(identify(key), Trim(name), key, now, false)])
  {
    hide ValidName, Trim;
    TrimmedNameIsValid(name);
  }

  lemma RevokedHolds(identify: Bytes -> string, t: Table, id: string)
    requires Holds(identify, t) && id in t
    ensures Holds(identify, t[id := t[id].(revoked := true)])
  {
    hide ValidName;
    var u := t[id := t[id].(revoked := true)];
    assert u.Keys == t.Keys;
    assert |u| == |u.Keys|;
  }

  method InsertOrdered(record: seq<Device>, d: Device, ghost t: Table) returns (r: seq<Device>)
    requires Lists(record, t) && Ordered(record) && d.id !in t
    ensures Lists(r, t[d.id := d]) && Ordered(r)
  {
    hide Lists, Inserted;
    var k := 0;
    while k < |record| && record[k].createdAt <= d.createdAt
      invariant k <= |record|
      invariant forall i :: 0 <= i < k ==> record[i].createdAt <= d.createdAt
    {
      k := k + 1;
    }
    ListsOneMore(record, t, d, k);
    OrderedOneMore(record, d, k);
    r := Inserted(record, d, k);
  }

  class DeviceStore {
    const identify: Bytes -> string  // a fingerprint of the key
    const onDisk: bool               // false for a store that is kept in memory only
    var devices: Table
    var file: Option<seq<Device>>    // the content of the record file, None while it does not exist
    ghost var held: set<seq<Device>> // everything the file ever held
    ghost var failures: nat          // saves that failed

    /** Memory is what the file lists, and whatever a crash leaves in the file can be read again. */
    ghost predicate Valid()
      reads this
    {
      && Holds(identify, devices)
      && (onDisk && file.None? ==> devices == map[])
      && (onDisk && file.Some? ==> file.value in held && Lists(file.value, devices))
      && (forall record :: record in held ==> Accepted(identify, record))
    }

    constructor (identify: Bytes -> string, onDisk: bool, file: Option<seq<Device>>, devices: Table)
      requires Holds(identify, devices)
      requires onDisk && file.None? ==> devices == map[]
      requires file.Some? ==> Accepted(identify, file.value) && Lists(file.value, devices)
      ensures Valid()
      ensures this.identify == identify && this.onDisk == onDisk && this.file == file && this.devices == devices
    {
      this.identify, this.onDisk, this.file, this.devices := identify, onDisk, file, devices;
      held, failures := if file.Some? then {file.value} else {}, 0;
    }

    /** A start opens exactly the record files that `Accepted` admits. */
    static method Open(identify: Bytes -> string, onDisk: bool, file: Option<seq<Device>>) returns (store: DeviceStore?)
      ensures store == null <==> onDisk && file.Some? && !Accepted(identify, file.value)
      ensures store != null ==> fresh(store) && store.Valid() && store.identify == identify && store.onDisk == onDisk
      ensures store != null && onDisk ==> store.file == file
      ensures store != null && onDisk && file.Some? ==> Lists(file.value, store.devices)
      ensures store != null && !(onDisk && file.Some?) ==> store.devices == map[]
    {
      if !onDisk || file.None? {
        store := new DeviceStore(identify, onDisk, None, map[]);
        return;
      }
      var r := LoadRecord(identify, file.value);
      if r.None? { return null; }
      store := new DeviceStore(identify, onDisk, file, r.value);
    }

    /** A restart over the file of a running store finds the running table. */
    static method Restart(store: DeviceStore) returns (next: DeviceStore?)
      requires store.Valid() && store.onDisk
      ensures next != null && fresh(next) && next.Valid() && next.devices == store.devices
    {
      next := Open(store.identify, true, store.file);
      if store.file.Some? {
        ListedIsUnique(store.file.value, store.devices, next.devices);
      }
    }

    /** All records, oldest first. */
    method List() returns (record: seq<Device>)
      requires forall id :: id in devices ==> devices[id].id == id
      ensures Lists(record, devices) && Ordered(record)
    {
      hide Lists, Ordered, RecordOk;
      record := [];
      NothingToList();
      var todo := devices.Keys;
      ghost var done: Table := map[];
      while todo != {}
        invariant todo <= devices.Keys && done == map id | id in devices && id !in todo :: devices[id]
        invariant Lists(record, done) && Ordered(record)
      {
        var id :| id in todo;
        record := InsertOrdered(record, devices[id], done);
        done := done[id := devices[id]];
        todo := todo - {id};
      }
      assert done == devices;
    }

    /**
     Write a temporary file and rename it over the record. Every step up to the rename may fail,
     and then the record is untouched; a failure after it is not reported.
     */
    method SaveLocked() returns (ok: bool)
      requires Holds(identify, devices)
      requires forall record :: record in held ==> Accepted(identify, record)
      modifies this`file, this`held, this`failures
      ensures ok && onDisk ==> file.Some? && file.value in held && Lists(file.value, devices)
      ensures ok && !onDisk ==> file == old(file) && held == old(held)
      ensures !ok ==> onDisk && file == old(file) && held == old(held)
      ensures failures == old(failures) + if ok then 0 else 1
      ensures old(held) <= held
      ensures forall record :: record in held ==> Accepted(identify, record)
    {
      hide RecordOk;
      if !onDisk { return true; }
      var record := List();
      var prepared: bool := *;  // marshal, create, write, sync, close
      if !prepared {
        failures := failures + 1;
        return false;
      }
      var renamed: bool := *;
      if !renamed {
        failures := failures + 1;
        return false;
      }
      ListedIsAccepted(identify, record, devices);
      file := Some(record);
      held := held + {record};
      return true;
    }

    /** Register a key. A failed save leaves memory and file as they were. */
    method Add(name: string, key: Bytes, now: int) returns (r: Result<Device, AddError>)
      requires Valid() && now != ZERO_TIME
      modifies this
      ensures Valid() && old(held) <= held
      ensures r.Err? ==> devices == old(devices) && file == old(file)
      ensures r == Err(InvalidDevice) <==> !(ValidName(name) && |key| == KEY_SIZE)
      ensures r == Err(AlreadyRegistered) <==> ValidName(name) && |key| == KEY_SIZE && identify(key) in old(devices)
      ensures r == Err(LimitReached) ==> |old(devices)| >= MAX_DEVICES
      ensures r == Err(SaveFailed) ==> onDisk
      ensures failures == old(failures) + if r == Err(SaveFailed) then 1 else 0
      ensures r.Err? && ValidName(name) && |key| == KEY_SIZE ==>
                identify(key) in old(devices) || |old(devices)| >= MAX_DEVICES || failures > old(failures)
      ensures r.Ok? || r == Err(SaveFailed) ==> identify(key) !in old(devices) && |old(devices)| < MAX_DEVICES
      ensures r.Ok? ==> r.value == Device(identify(key), Trim(name), key, now, false)
      ensures r.Ok? ==> devices == old(devices)[identify(key) := r.value]
    {
      hide ValidName, Trim, Lists, Holds, Accepted;
      if !ValidName(name) || |key| != KEY_SIZE { return Err(InvalidDevice); }
      var d := Device(identify(key), Trim(name), key, now, false);
      if d.id in devices { return Err(AlreadyRegistered); }
      if |devices| >= MAX_DEVICES { return Err(LimitReached); }
      ghost var was := devices;
      AddedHolds(identify, devices, name, key, now);
      devices := devices[d.id := d];
      var ok := SaveLocked();
      if !ok {
        devices := devices - {d.id};
        assert devices == was;
        return Err(SaveFailed);
      }
      return Ok(d);
    }

    function Active(id: string): (r: Option<Device>)
      reads this
    {
      if id in devices && !devices[id].revoked then Some(devices[id]) else None
    }

    /** Withdraw a key. A failed save leaves memory and file as they were. */
    method Revoke(id: string) returns (ok: bool)
      requires Valid()
      modifies this
      ensures Valid() && old(held) <= held
      ensures !ok ==> devices == old(devices) && file == old(file)
      ensures !ok && id in devices ==> onDisk && !devices[id].revoked
      ensures failures == old(failures) + if !ok && id in old(devices) then 1 else 0
      ensures ok ==> id in old(devices) && devices == old(devices)[id := old(devices)[id].(revoked := true)]
    {
      hide Lists, Holds, Accepted;
      if id !in devices { return false; }
      var before := devices[id];
      if before.revoked {
        assert devices == devices[id := before];
        return true;
      }
      ghost var was := devices;
      RevokedHolds(identify, devices, id);
      devices := devices[id := before.(revoked := true)];
      ok := SaveLocked();
      if !ok {
        devices := devices[id := before];
        assert devices == was;
      }
    }
  }
}
