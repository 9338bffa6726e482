/** The profile store: a dictionary of profile records kept in memory and
    written as a whole to a JSON file after every change. */
module Profiles {
  import opened Wrappers
  import opened Values

  /** One stored record: a JSON object, in key order. */
  type Record = Entries

  const CREATED_AT: string := "created_at"
  const UPDATED_AT: string := "updated_at"
  const PROFILE_ID: string := "profile_id"

  /** What `set_item` does to the caller's `value` before storing it:
      `created_at` is added only when `value` has none, `updated_at` is
      always written. `createdNow` and `updatedNow` are the two readings of
      the clock, already formatted by `isoformat`. */
  function Stamped(value: Record, createdNow: string, updatedNow: string): (r: Record)
  {
    var withCreated := if HasKey(value, CREATED_AT) then value else Assign(value, CREATED_AT, Str(createdNow));
    Assign(withCreated, UPDATED_AT, Str(updatedNow))
  }

  /** `{"profile_id": key, **value}` for the stamped value. */
  function StoredRecord(key: string, value: Record, createdNow: string, updatedNow: string): Record
  {
    Update([(PROFILE_ID, Str(key))], Stamped(value, createdNow, updatedNow))
  }

  lemma StampedDistinct(value: Record, createdNow: string, updatedNow: string)
    requires DistinctKeys(value)
    ensures DistinctKeys(Stamped(value, createdNow, updatedNow))
  {
    if !HasKey(value, CREATED_AT) {
      AssignDistinct(value, CREATED_AT, Str(createdNow));
      AssignDistinct(Assign(value, CREATED_AT, Str(createdNow)), UPDATED_AT, Str(updatedNow));
    } else {
      AssignDistinct(value, UPDATED_AT, Str(updatedNow));
    }
  }

  /** Each key of the stamped value reads as `set_item` promises. */
  lemma StampedLookup(value: Record, createdNow: string, updatedNow: string, k: string)
    ensures Lookup(Stamped(value, createdNow, updatedNow), k) ==
      if k == UPDATED_AT then Some(Str(updatedNow))
      else if k == CREATED_AT && !HasKey(value, CREATED_AT) then Some(Str(createdNow))
      else Lookup(value, k)
  {
    if !HasKey(value, CREATED_AT) {
      AssignLookup(value, CREATED_AT, Str(createdNow), k);
      AssignLookup(Assign(value, CREATED_AT, Str(createdNow)), UPDATED_AT, Str(updatedNow), k);
    } else {
      AssignLookup(value, UPDATED_AT, Str(updatedNow), k);
    }
  }

  /** The stored record: `profile_id` is the key unless the value carries its
      own, `updated_at` is always fresh, `created_at` is fresh only when the
      incoming value has none, and every other key reads as in the value. */
  lemma StoredRecordLookup(key: string, value: Record, createdNow: string, updatedNow: string, k: string)
    requires DistinctKeys(value)
    ensures Lookup(StoredRecord(key, value, createdNow, updatedNow), k) ==
      if k == UPDATED_AT then Some(Str(updatedNow))
      else if k == CREATED_AT && !HasKey(value, CREATED_AT) then Some(Str(createdNow))
      else if k == PROFILE_ID && !HasKey(value, PROFILE_ID) then Some(Str(key))
      else Lookup(value, k)
  {
    var s := Stamped(value, createdNow, updatedNow);
    StampedDistinct(value, createdNow, updatedNow);
    UpdateLookup([(PROFILE_ID, Str(key))], s, k);
    StampedLookup(value, createdNow, updatedNow, k);
    if k == PROFILE_ID && HasKey(value, PROFILE_ID) {
      assert Lookup(s, k).Some?;
    }
  }

  /** `created_at` is tested in the incoming value, not in the stored
      record: storing a value without it again replaces the first stamp. */
  lemma CreatedAtNotPreserved(key: string, first: Record, second: Record, t0: string, t1: string, t2: string, t3: string)
    requires DistinctKeys(first) && DistinctKeys(second)
    requires !HasKey(first, CREATED_AT) && !HasKey(second, CREATED_AT) && t0 != t2
    ensures Lookup(StoredRecord(key, first, t0, t1), CREATED_AT) == Some(Str(t0))
    ensures Lookup(StoredRecord(key, second, t2, t3), CREATED_AT) == Some(Str(t2))
    ensures Lookup(StoredRecord(key, second, t2, t3), CREATED_AT) != Lookup(StoredRecord(key, first, t0, t1), CREATED_AT)
  {
    StoredRecordLookup(key, first, t0, t1, CREATED_AT);
    StoredRecordLookup(key, second, t2, t3, CREATED_AT);
  }

  /** `set_profile` stamps `updated_at` and then `set_item` stamps it again:
      every key of the stored record reads as if `set_item` had been called
      directly, so the first stamp is never seen. */
  lemma SetProfileStampOverwritten(name: string, data: Record, t0: string, t1: string, t2: string, k: string)
    requires DistinctKeys(data)
    ensures Lookup(StoredRecord(name, Assign(data, UPDATED_AT, Str(t0)), t1, t2), k)
         == Lookup(StoredRecord(name, data, t1, t2), k)
  {
    var d := Assign(data, UPDATED_AT, Str(t0));
    AssignDistinct(data, UPDATED_AT, Str(t0));
    AssignLookup(data, UPDATED_AT, Str(t0), k);
    AssignLookup(data, UPDATED_AT, Str(t0), CREATED_AT);
    AssignLookup(data, UPDATED_AT, Str(t0), PROFILE_ID);
    StoredRecordLookup(name, d, t1, t2, k);
    StoredRecordLookup(name, data, t1, t2, k);
  }

  /** `JSONStorageBackend` and its subclass `ProfileStorageBackend`: the
      records in memory, and the file they are written to. */
  class JsonStore {
    var jsonData: map<string, Record>
    /** The content of `profiles.json`. */
    ghost var disk: map<string, Record>
    /** How many times the file has been written. */
    ghost var writes: nat

    /** After every public operation the file holds what memory holds. */
    ghost predicate Valid()
      reads this
    {
      disk == jsonData
    }

    /** `__init__` and `refresh`: a missing file (`existing == None`) is
        first written with the empty dict; then the file is loaded. */
    constructor (existing: Option<map<string, Record>>)
      ensures Valid()
      ensures jsonData == if existing.Some? then existing.value else map[]
      ensures writes == if existing.Some? then 0 else 1
    {
      var loaded := if existing.Some? then existing.value else map[];
      disk := loaded;
      writes := if existing.Some? then 0 else 1;
      jsonData := loaded;
    }

    /** `commit_to_disk`. */
    method CommitToDisk()
      modifies this
      ensures jsonData == old(jsonData) && disk == jsonData && writes == old(writes) + 1
    {
      disk := jsonData;
      writes := writes + 1;
    }

    /** `get_item`: the stored record, or `default`. */
    function GetItem(key: string, default: Option<Record>): (r: Option<Record>)
      reads this
      ensures key in jsonData ==> r == Some(jsonData[key])
      ensures key !in jsonData ==> r == default
    {
      if key in jsonData then Some(jsonData[key]) else default
    }

    /** `set_item`: stamp the caller's value (returned as `stamped`, since
        the caller's dict is changed in place), store it under `key` with
        its `profile_id`, and write the file. */
    method SetItem(key: string, value: Record, createdNow: string, updatedNow: string) returns (stamped: Record)
      requires Valid()
      modifies this
      ensures Valid() && writes == old(writes) + 1
      ensures stamped == Stamped(value, createdNow, updatedNow)
      ensures jsonData == old(jsonData)[key := StoredRecord(key, value, createdNow, updatedNow)]
    {
      stamped := value;
      if !HasKey(stamped, CREATED_AT) {
        stamped := Assign(stamped, CREATED_AT, Str(createdNow));
      }
      stamped := Assign(stamped, UPDATED_AT, Str(updatedNow));
      jsonData := jsonData[key := Update([(PROFILE_ID, Str(key))], stamped)];
      CommitToDisk();
    }

    /** `remove_item`: an absent key changes nothing and writes nothing. */
    method RemoveItem(key: string)
      requires Valid()
      modifies this
      ensures Valid()
      ensures jsonData == old(jsonData) - {key}
      ensures writes == if key in old(jsonData) then old(writes) + 1 else old(writes)
    {
      if key in jsonData {
        jsonData := jsonData - {key};
        CommitToDisk();
      }
    }

    /** `clear`: delete the file, empty the dict, write the empty dict. */
    method Clear()
      requires Valid()
      modifies this
      ensures Valid() && jsonData == map[]
      ensures forall key, default :: GetItem(key, default) == default
      ensures writes == old(writes) + 1
    {
      disk := map[];
      jsonData := map[];
      CommitToDisk();
    }

    /** `get_profile`. */
    function GetProfile(profileName: string, default: Option<Record>): (r: Option<Record>)
      reads this
      ensures r == GetItem(profileName, default)
    {
      GetItem(profileName, default)
    }

    /** `set_profile`: stamp `updated_at` (clock reading `now`), then `set_item`. */
    method SetProfile(profileName: string, profileData: Record, now: string, createdNow: string, updatedNow: string)
      returns (stamped: Record)
      requires Valid()
      modifies this
      ensures Valid() && writes == old(writes) + 1
      ensures stamped == Stamped(Assign(profileData, UPDATED_AT, Str(now)), createdNow, updatedNow)
      ensures jsonData == old(jsonData)[profileName :=
        StoredRecord(profileName, Assign(profileData, UPDATED_AT, Str(now)), createdNow, updatedNow)]
    {
      var data := Assign(profileData, UPDATED_AT, Str(now));
      stamped := SetItem(profileName, data, createdNow, updatedNow);
    }

    /** `remove_profile`. */
    method RemoveProfile(profileName: string)
      requires Valid()
      modifies this
      ensures Valid()
      ensures jsonData == old(jsonData) - {profileName}
      ensures writes == if profileName in old(jsonData) then old(writes) + 1 else old(writes)
    {
      RemoveItem(profileName);
    }
  }
}
