/**
 * The user-preference operations of the database layer.  The
 * `user_preferences` table is a map from `user_id` (its primary key) to the
 * row; a row holds a JSON object of preferences and a last-updated time.
 * The clock (`datetime.utcnow()`) is a parameter `now`.
 */
module Crud {
  import opened Wrappers
  import opened Text

  /** A JSONB value. */
  datatype Json =
    | JNull
    | JBool(b: bool)
    | JNumber(n: real)
    | JString(s: string)
    | JList(items: seq<Json>)
    | JObject(fields: map<string, Json>)

  datatype PreferenceRecord = PreferenceRecord(
    userId: string,
    preferences: map<string, Json>,
    lastUpdated: int)

  type Table = map<string, PreferenceRecord>

  const VisitedKey: string := "visited_places"

  /** Every row is stored under its own primary key. */
  ghost predicate Keyed(t: Table) {
    forall k :: k in t ==> t[k].userId == k
  }

  /** `preferences["visited_places"]`, when present, is a list (the only shape the source can append to). */
  predicate VisitedIsList(prefs: map<string, Json>) {
    VisitedKey !in prefs || prefs[VisitedKey].JList?
  }

  /** `preferences.get("visited_places", [])`. */
  function Visited(prefs: map<string, Json>): seq<Json>
    requires VisitedIsList(prefs)
  {
    if VisitedKey in prefs then prefs[VisitedKey].items else []
  }

  /** `get_user_preferences`: the row for the user, if any. */
  function Lookup(t: Table, userId: string): (r: Option<PreferenceRecord>)
    ensures r.Some? <==> userId in t
    ensures r.Some? ==> r.value == t[userId]
  {
    if userId in t then Some(t[userId]) else None
  }

  /** `preferences.get("visited_places", [])` as the stored JSON value. */
  function StoredVisited(prefs: map<string, Json>): (v: Json)
    ensures VisitedIsList(prefs) ==> v == JList(Visited(prefs))
  {
    if VisitedKey in prefs then prefs[VisitedKey] else JList([])
  }

  /** The JSON shapes on which Python's `in` is defined: lists, strings and objects. */
  predicate SupportsIn(v: Json) {
    v.JList? || v.JString? || v.JObject?
  }

  /** Python `name in v`: list membership, substring test, or key test. */
  predicate JsonIn(name: string, v: Json)
    requires SupportsIn(v)
  {
    match v
    case JList(items) => JString(name) in items
    case JString(str) => Contains(str, name)
    case JObject(fields) => name in fields
  }

  /**
   * `add_visited_place` returns normally: there is no row, or the stored value
   * supports `in`, and when the name is not found there it is a list that can
   * be appended to.
   */
  predicate CanAddVisited(t: Table, userId: string, placeName: string) {
    userId in t ==>
      var v := StoredVisited(t[userId].preferences);
      SupportsIn(v) && (v.JList? || JsonIn(placeName, v))
  }

  /** The table after `add_visited_place(user_id, place_name)`. */
  function AddVisited(t: Table, userId: string, placeName: string, now: int): (t': Table)
    requires CanAddVisited(t, userId, placeName)
    ensures t'.Keys == t.Keys
    ensures forall k :: k in t && k != userId ==> t'[k] == t[k]
    ensures userId !in t ==> t' == t
    ensures userId in t && JsonIn(placeName, StoredVisited(t[userId].preferences)) ==> t' == t
    ensures userId in t && !VisitedIsList(t[userId].preferences) ==> t' == t
    ensures userId in t && VisitedIsList(t[userId].preferences)
            && JString(placeName) !in Visited(t[userId].preferences) ==>
      && t'[userId].userId == t[userId].userId
      && t'[userId].lastUpdated == now
      && VisitedIsList(t'[userId].preferences)
      && Visited(t'[userId].preferences) == Visited(t[userId].preferences) + [JString(placeName)]
      && t'[userId].preferences.Keys == t[userId].preferences.Keys + {VisitedKey}
      && (forall k :: k in t[userId].preferences && k != VisitedKey ==>
            t'[userId].preferences[k] == t[userId].preferences[k])
  {
    if userId in t then
      var record := t[userId];
      var visited := StoredVisited(record.preferences);
      if !JsonIn(placeName, visited) then
        var prefs := record.preferences[VisitedKey := JList(visited.items + [JString(placeName)])];
        t[userId := record.(preferences := prefs, lastUpdated := now)]
      else t
    else t
  }

  /** The table after `create_or_update_user_preference(user_id, preferences)`: the whole object is replaced. */
  function Upsert(t: Table, userId: string, prefs: map<string, Json>, now: int): (t': Table)
    ensures t'.Keys == t.Keys + {userId}
    ensures forall k :: k in t && k != userId ==> t'[k] == t[k]
    ensures t'[userId].preferences == prefs && t'[userId].lastUpdated == now
    ensures userId in t ==> t'[userId].userId == t[userId].userId
    ensures userId !in t ==> t'[userId].userId == userId
  {
    if userId !in t then t[userId := PreferenceRecord(userId, prefs, now)]
    else t[userId := t[userId].(preferences := prefs, lastUpdated := now)]
  }

  /** The table after `delete_user_preferences(user_id)`. */
  function Remove(t: Table, userId: string): (t': Table)
    ensures t'.Keys == t.Keys - {userId}
    ensures forall k :: k in t' ==> t'[k] == t[k]
  {
    t - {userId}
  }

  // ---------------------------------------------------------------
  // Properties of the table operations
  // ---------------------------------------------------------------

  /** Every operation keeps each row under its own key. */
  lemma OperationsKeepKeyed(t: Table, userId: string, placeName: string, prefs: map<string, Json>, now: int)
    requires Keyed(t)
    ensures CanAddVisited(t, userId, placeName) ==> Keyed(AddVisited(t, userId, placeName, now))
    ensures Keyed(Upsert(t, userId, prefs, now))
    ensures Keyed(Remove(t, userId))
  {
  }

  /** Adding the same place twice is the same as adding it once: the second call changes nothing, not even the time. */
  lemma AddVisitedIdempotent(t: Table, userId: string, placeName: string, now1: int, now2: int)
    requires CanAddVisited(t, userId, placeName)
    ensures CanAddVisited(AddVisited(t, userId, placeName, now1), userId, placeName)
    ensures AddVisited(AddVisited(t, userId, placeName, now1), userId, placeName, now2)
         == AddVisited(t, userId, placeName, now1)
  {
    var t1 := AddVisited(t, userId, placeName, now1);
    if userId in t && VisitedIsList(t[userId].preferences) && JString(placeName) !in Visited(t[userId].preferences) {
      assert JString(placeName) in Visited(t1[userId].preferences) by {
        var v := Visited(t1[userId].preferences);
        assert v[|v| - 1] == JString(placeName);
      }
    }
  }

  ghost predicate NoDuplicates(xs: seq<Json>) {
    forall i, j :: 0 <= i < j < |xs| ==> xs[i] != xs[j]
  }

  /** A visited list with no repeats stays without repeats. */
  lemma AddVisitedKeepsDistinct(t: Table, userId: string, placeName: string, now: int)
    requires userId in t && VisitedIsList(t[userId].preferences)
    requires NoDuplicates(Visited(t[userId].preferences))
    ensures var t' := AddVisited(t, userId, placeName, now);
      VisitedIsList(t'[userId].preferences) && NoDuplicates(Visited(t'[userId].preferences))
  {
  }

  /**
   * A stored string that contains the name, or a stored object that has it as
   * a key, makes `place_name not in visited` false: the call returns and
   * nothing changes.
   */
  lemma NonListVisitedUnchanged(t: Table, userId: string, placeName: string, stored: Json, now: int)
    requires userId in t && VisitedKey in t[userId].preferences && t[userId].preferences[VisitedKey] == stored
    requires (stored.JString? && Contains(stored.s, placeName)) || (stored.JObject? && placeName in stored.fields)
    ensures CanAddVisited(t, userId, placeName)
    ensures AddVisited(t, userId, placeName, now) == t
  {
  }

  /** Only existing rows are touched; a user with no row gets none. */
  lemma AddVisitedNeedsRow(t: Table, userId: string, placeName: string, now: int)
    requires userId !in t
    ensures Lookup(AddVisited(t, userId, placeName, now), userId) == None
  {
  }

  /** After an upsert the row holds exactly the given preferences and time. */
  lemma UpsertThenGet(t: Table, userId: string, prefs: map<string, Json>, now: int)
    requires Keyed(t)
    ensures Lookup(Upsert(t, userId, prefs, now), userId) == Some(PreferenceRecord(userId, prefs, now))
  {
  }

  /** An update overwrites rather than merges: the last upsert wins. */
  lemma UpsertOverwrites(t: Table, userId: string, p1: map<string, Json>, p2: map<string, Json>, n1: int, n2: int)
    ensures Upsert(Upsert(t, userId, p1, n1), userId, p2, n2) == Upsert(t, userId, p2, n2)
  {
  }

  /** Upserting a preference object without the key loses the visited list. */
  lemma UpsertDropsVisited(t: Table, userId: string, prefs: map<string, Json>, now: int)
    requires VisitedKey !in prefs
    ensures var t' := Upsert(t, userId, prefs, now);
      VisitedIsList(t'[userId].preferences) && Visited(t'[userId].preferences) == []
  {
  }

  /** Deleting leaves no row; deleting twice is deleting once. */
  lemma RemoveThenGet(t: Table, userId: string)
    ensures Lookup(Remove(t, userId), userId) == None
    ensures Remove(Remove(t, userId), userId) == Remove(t, userId)
  {
  }

  /** Creating a row for a new user and deleting it restores the table. */
  lemma CreateThenRemove(t: Table, userId: string, prefs: map<string, Json>, now: int)
    requires userId !in t
    ensures Remove(Upsert(t, userId, prefs, now), userId) == t
  {
  }

  // ---------------------------------------------------------------
  // The store
  // ---------------------------------------------------------------

  class PreferenceStore {
    var table: Table

    ghost predicate Valid()
      reads this
    {
      Keyed(table)
    }

    constructor ()
      ensures Valid() && table == map[]
    {
      table := map[];
    }

    /** `get_user_preferences(db, user_id)`. */
    method GetUserPreferences(userId: string) returns (record: Option<PreferenceRecord>)
      requires Valid()
      ensures record == Lookup(table, userId)
      ensures record.Some? ==> record.value.userId == userId
    {
      if userId in table {
        record := Some(table[userId]);
      } else {
        record := None;
      }
    }

    /** `add_visited_place(db, user_id, place_name)`. */
    method AddVisitedPlace(userId: string, placeName: string, now: int)
      requires Valid() && CanAddVisited(table, userId, placeName)
      modifies this
      ensures Valid()
      ensures table == AddVisited(old(table), userId, placeName, now)
    {
      var record := GetUserPreferences(userId);
      if record.Some? {
        var r := record.value;
        var visited := StoredVisited(r.preferences);
        if !JsonIn(placeName, visited) {
          var prefs := r.preferences[VisitedKey := JList(visited.items + [JString(placeName)])];
          table := table[userId := r.(preferences := prefs, lastUpdated := now)];
        }
      }
    }

    /** `create_or_update_user_preference(db, user_id, preferences)`: returns the stored row. */
    method CreateOrUpdateUserPreference(userId: string, prefs: map<string, Json>, now: int)
      returns (record: PreferenceRecord)
      requires Valid()
      modifies this
      ensures Valid()
      ensures table == Upsert(old(table), userId, prefs, now)
      ensures record == table[userId] && record == PreferenceRecord(userId, prefs, now)
    {
      var existing := GetUserPreferences(userId);
      if existing.None? {
        record := PreferenceRecord(userId, prefs, now);
      } else {
        record := existing.value.(preferences := prefs, lastUpdated := now);
      }
      table := table[userId := record];
    }

    /** `delete_user_preferences(db, user_id)`: returns the deleted row, if there was one. */
    method DeleteUserPreferences(userId: string) returns (record: Option<PreferenceRecord>)
      requires Valid()
      modifies this
      ensures Valid()
      ensures record == Lookup(old(table), userId)
      ensures table == Remove(old(table), userId)
    {
      record := GetUserPreferences(userId);
      if record.Some? {
        table := table - {userId};
      }
    }
  }
}
