/**
 * The per-user JSON files of storage.py. The data directory is a map from
 * phone number to the file `<phone>.json`; a file either holds a JSON object
 * (the user's record) or something `json.load` rejects, which every read
 * reports as None. A record starts with the phone, the API id and hash, and
 * three empty objects: `sources`, `destinations` and `forwarding_progress`.
 */
module UserStore {
  import opened Common

  /** The JSON values a user file holds. */
  datatype Json =
    | JNull
    | JBool(b: bool)
    | JInt(i: int)
    | JStr(s: string)
    | JList(items: seq<Json>)
    | JObj(fields: map<string, Json>)

  /** A user's record: the top-level JSON object of the file. */
  type UserRecord = map<string, Json>

  datatype UserFile = Parsed(rec: UserRecord) | Unreadable

  /** The outcome of `add_source` / `add_destination`: True, False for an unknown user, or a raised TypeError. */
  datatype AddResult = Added | NoUser | AddRaised

  /** The record `create_user` writes. */
  function NewUser(phone: string, apiId: Json, apiHash: Json): (r: UserRecord)
    ensures r.Keys == {"phone", "api_id", "api_hash", "sources", "destinations", "forwarding_progress"}
    ensures r["phone"] == JStr(phone) && r["api_id"] == apiId && r["api_hash"] == apiHash
    ensures r["sources"] == r["destinations"] == r["forwarding_progress"] == JObj(map[])
  {
    map["phone" := JStr(phone), "api_id" := apiId, "api_hash" := apiHash,
        "sources" := JObj(map[]), "destinations" := JObj(map[]), "forwarding_progress" := JObj(map[])]
  }

  // ---------------------------------------------------------------------
  // update_user: the updates written key by key
  // ---------------------------------------------------------------------

  /** The record after writing `updates` in order, later pairs winning. */
  function Overwrite(rec: UserRecord, updates: seq<(string, Json)>): UserRecord
  {
    if |updates| == 0 then rec
    else
      var last := updates[|updates| - 1];
      Overwrite(rec, updates[..|updates| - 1])[last.0 := last.1]
  }

  /** The value the last pair for `key` carries, if any pair does. */
  function LastFor(updates: seq<(string, Json)>, key: string): Option<Json>
  {
    if |updates| == 0 then None
    else if updates[|updates| - 1].0 == key then Some(updates[|updates| - 1].1)
    else LastFor(updates[..|updates| - 1], key)
  }

  /**
   * `update_user` overwrites exactly the given keys: each takes the value of
   * its last pair, every other key keeps its value, and no key is lost.
   */
  lemma {:induction false} OverwriteFacts(rec: UserRecord, updates: seq<(string, Json)>, key: string)
    ensures key in Overwrite(rec, updates) <==> key in rec || LastFor(updates, key).Some?
    ensures LastFor(updates, key).Some? ==> Overwrite(rec, updates)[key] == LastFor(updates, key).value
    ensures LastFor(updates, key).None? && key in rec ==> Overwrite(rec, updates)[key] == rec[key]
    decreases |updates|
  {
    if |updates| > 0 {
      OverwriteFacts(rec, updates[..|updates| - 1], key);
    }
  }

  // ---------------------------------------------------------------------
  // add_source / add_destination: setdefault(field, {})[id] = entry
  // ---------------------------------------------------------------------

  /**
   * The record with `entry` under `id` in the object at `field`, which is
   * created empty when missing. None when the field holds something other
   * than an object, where the item assignment raises.
   */
  function WithEntry(rec: UserRecord, field: string, id: string, entry: Json): Option<UserRecord>
  {
    if field !in rec then Some(rec[field := JObj(map[id := entry])])
    else match rec[field]
      case JObj(m) => Some(rec[field := JObj(m[id := entry])])
      case _ => None
  }

  /** Adding an entry sets that entry and leaves every other entry of the field, and every other key, as it was. */
  lemma WithEntryFacts(rec: UserRecord, field: string, id: string, entry: Json)
    ensures WithEntry(rec, field, id, entry).None? <==> field in rec && !rec[field].JObj?
    ensures WithEntry(rec, field, id, entry).Some? ==>
      var r := WithEntry(rec, field, id, entry).value;
      r.Keys == rec.Keys + {field} && r[field].JObj? && r[field].fields[id] == entry
      && (forall k :: k in rec && k != field ==> r[k] == rec[k])
      && (field in rec ==> forall e :: e in rec[field].fields && e != id ==> e in r[field].fields && r[field].fields[e] == rec[field].fields[e])
      && (field in rec ==> r[field].fields.Keys == rec[field].fields.Keys + {id})
      && (field !in rec ==> r[field].fields.Keys == {id})
  {
  }

  // ---------------------------------------------------------------------
  // The store
  // ---------------------------------------------------------------------

  /** What `get_user_data` reads from a directory: the record, or None when the file is missing or unreadable. */
  function Lookup(files: map<string, UserFile>, phone: string): (r: Option<UserRecord>)
    ensures r.Some? <==> phone in files && files[phone].Parsed?
  {
    if phone in files && files[phone].Parsed? then Some(files[phone].rec) else None
  }

  class Storage {
    /** The data directory: phone number to the content of `<phone>.json`. */
    var files: map<string, UserFile>

    constructor(files0: map<string, UserFile>)
      ensures files == files0
    {
      files := files0;
    }

    /** `user_exists`: the file is there, readable or not. */
    predicate UserExists(phone: string)
      reads this
    {
      phone in files
    }

    /** `get_user_data`: the record, or None when the file is missing or unreadable. */
    function GetUserData(phone: string): (r: Option<UserRecord>)
      reads this
      ensures r.Some? ==> UserExists(phone)
      ensures !UserExists(phone) ==> r.None?
    {
      Lookup(files, phone)
    }

    /** `save_user_data`: the file replaced by the record. */
    method SaveUserData(phone: string, data: UserRecord) returns (ok: bool)
      modifies this
      ensures ok && files == old(files)[phone := Parsed(data)]
      ensures GetUserData(phone) == Some(data)
    {
      files := files[phone := Parsed(data)];
      ok := true;
    }

    /** `create_user`: a fresh record, replacing any file for the phone. */
    method CreateUser(phone: string, apiId: Json, apiHash: Json) returns (r: UserRecord)
      modifies this
      ensures r == NewUser(phone, apiId, apiHash)
      ensures files == old(files)[phone := Parsed(r)]
      ensures UserExists(phone) && GetUserData(phone) == Some(r)
    {
      r := NewUser(phone, apiId, apiHash);
      var _ := SaveUserData(phone, r);
    }

    /**
     * `update_user`: False, with nothing written, when there is no record or
     * it is empty (an empty dict is falsy); otherwise the updates are written
     * one key at a time and the record saved.
     */
    method UpdateUser(phone: string, updates: seq<(string, Json)>) returns (ok: bool)
      modifies this
      ensures var d := old(GetUserData(phone));
        (d.None? || d.value == map[]) ==> !ok && files == old(files)
      ensures var d := old(GetUserData(phone));
        d.Some? && d.value != map[] ==> ok && files == old(files)[phone := Parsed(Overwrite(d.value, updates))]
    {
      var data := GetUserData(phone);
      if data.None? || data.value == map[] {
        return false;
      }
      var rec := data.value;
      var i := 0;
      while i < |updates|
        invariant 0 <= i <= |updates|
        invariant rec == Overwrite(data.value, updates[..i])
      {
        assert updates[..i + 1][..i] == updates[..i];
        rec := rec[updates[i].0 := updates[i].1];
        i := i + 1;
      }
      assert updates[..i] == updates;
      ok := SaveUserData(phone, rec);
    }

    /** The body `add_source` and `add_destination` share. */
    method AddEntry(phone: string, field: string, id: string, entry: Json) returns (r: AddResult)
      modifies this
      ensures var d := old(GetUserData(phone));
        (d.None? || d.value == map[]) ==> r == NoUser && files == old(files)
      ensures var d := old(GetUserData(phone));
        d.Some? && d.value != map[] && WithEntry(d.value, field, id, entry).None? ==> r == AddRaised && files == old(files)
      ensures var d := old(GetUserData(phone));
        d.Some? && d.value != map[] && WithEntry(d.value, field, id, entry).Some? ==>
          r == Added && files == old(files)[phone := Parsed(WithEntry(d.value, field, id, entry).value)]
    {
      var data := GetUserData(phone);
      if data.None? || data.value == map[] {
        return NoUser;
      }
      var next := WithEntry(data.value, field, id, entry);
      if next.None? {
        return AddRaised;
      }
      var _ := SaveUserData(phone, next.value);
      r := Added;
    }

    /** `add_source`: the source stored under its id in `sources`. */
    method AddSource(phone: string, id: string, source: Json) returns (r: AddResult)
      modifies this
      ensures var d := old(GetUserData(phone));
        (d.None? || d.value == map[]) ==> r == NoUser && files == old(files)
      ensures var d := old(GetUserData(phone));
        d.Some? && d.value != map[] && WithEntry(d.value, "sources", id, source).None? ==> r == AddRaised && files == old(files)
      ensures var d := old(GetUserData(phone));
        d.Some? && d.value != map[] && WithEntry(d.value, "sources", id, source).Some? ==>
          r == Added && files == old(files)[phone := Parsed(WithEntry(d.value, "sources", id, source).value)]
    {
      r := AddEntry(phone, "sources", id, source);
    }

    /** `add_destination`: the destination stored under its id in `destinations`. */
    method AddDestination(phone: string, id: string, destination: Json) returns (r: AddResult)
      modifies this
      ensures var d := old(GetUserData(phone));
        (d.None? || d.value == map[]) ==> r == NoUser && files == old(files)
      ensures var d := old(GetUserData(phone));
        d.Some? && d.value != map[] && WithEntry(d.value, "destinations", id, destination).None? ==> r == AddRaised && files == old(files)
      ensures var d := old(GetUserData(phone));
        d.Some? && d.value != map[] && WithEntry(d.value, "destinations", id, destination).Some? ==>
          r == Added && files == old(files)[phone := Parsed(WithEntry(d.value, "destinations", id, destination).value)]
    {
      r := AddEntry(phone, "destinations", id, destination);
    }

    /** `delete_user`: the file is gone afterwards, and the answer is True whether or not it was there. */
    method DeleteUser(phone: string) returns (ok: bool)
      modifies this
      ensures ok && files == old(files) - {phone}
      ensures !UserExists(phone) && GetUserData(phone).None?
    {
      if phone !in files {
        return true;
      }
      files := files - {phone};
      ok := true;
    }
  }
}
