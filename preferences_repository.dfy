/**
 * The `preferences` table, keyed by user id (a foreign key into `telegram`),
 * and the repository whose statements change it in place.
 */
module PreferencesRepo {
  import opened Wrappers
  import opened TelegramSchema

  /** One row of `preferences` (its key, `id`, is the map key). */
  datatype PreferenceRow = PreferenceRow(silenceStartTime: string, silenceEndTime: string)

  type PreferenceTable = map<UserId, PreferenceRow>

  /** `__dao_to_dto`: a plain copy of the row's columns. */
  function RowToPreference(id: UserId, row: PreferenceRow): Preference
  {
    Preference(id, row.silenceStartTime, row.silenceEndTime)
  }

  /** `SELECT ... WHERE id = :user_id`, as a value. */
  function Lookup(t: PreferenceTable, id: UserId): (r: Option<Preference>)
    ensures r.None? <==> id !in t
    ensures r.Some? ==> r.value == Preference(id, t[id].silenceStartTime, t[id].silenceEndTime)
  {
    if id in t then Some(RowToPreference(id, t[id])) else None
  }

  /**
   * `INSERT INTO preferences (id, silence_start_time, silence_end_time)`:
   * none when a row with that id exists already (the primary key refuses it).
   */
  function Inserted(t: PreferenceTable, id: UserId, start: string, end: string): (r: Option<PreferenceTable>)
    ensures r.None? <==> id in t
    ensures r.Some? ==> r.value.Keys == t.Keys + {id}
                        && r.value[id] == PreferenceRow(start, end)
                        && forall k :: k in t ==> r.value[k] == t[k]
  {
    if id in t then None else Some(t[id := PreferenceRow(start, end)])
  }

  /** `UPDATE preferences SET silence_start_time, silence_end_time WHERE id = :id`. */
  function Updated(t: PreferenceTable, id: UserId, start: string, end: string): (r: PreferenceTable)
    ensures r.Keys == t.Keys
    ensures forall k :: k in t && k != id ==> r[k] == t[k]
    ensures id in t ==> r[id] == PreferenceRow(start, end)
    ensures id !in t ==> r == t
  {
    if id in t then t[id := PreferenceRow(start, end)] else t
  }

  /** Reading back after an update returns the values written, or none when there was no row. */
  lemma LookupAfterUpdate(t: PreferenceTable, id: UserId, start: string, end: string)
    ensures Lookup(Updated(t, id, start, end), id) ==
      if id in t then Some(Preference(id, start, end)) else None
  {
  }

  /** Reading back after a successful insert returns the values inserted. */
  lemma LookupAfterInsert(t: PreferenceTable, id: UserId, start: string, end: string)
    requires id !in t
    ensures Inserted(t, id, start, end).Some?
    ensures Lookup(Inserted(t, id, start, end).value, id) == Some(Preference(id, start, end))
  {
  }

  /** The preference repository; `table` is the `preferences` table. */
  class PreferencesRepository {
    var table: PreferenceTable

    constructor (table: PreferenceTable)
      ensures this.table == table
    {
      this.table := table;
    }

    /** `get_user_preference`: none when no preference has that id. */
    method GetUserPreference(id: UserId) returns (p: Option<Preference>)
      ensures p.None? <==> id !in table
      ensures p.Some? ==> p.value == RowToPreference(id, table[id])
    {
      if id in table {
        p := Some(RowToPreference(id, table[id]));
      } else {
        p := None;
      }
    }

    /** `create_preferences`: `ok` is false when the id is taken, and then nothing changes. */
    method CreatePreferences(id: UserId, start: string, end: string) returns (ok: bool)
      modifies this
      ensures ok <==> id !in old(table)
      ensures table == if ok then Inserted(old(table), id, start, end).value else old(table)
    {
      ok := id !in table;
      if ok {
        table := table[id := PreferenceRow(start, end)];
      }
    }

    /** `update_preferences`: both columns of the row with that id; no row, no change. */
    method UpdatePreferences(id: UserId, start: string, end: string)
      modifies this
      ensures table == Updated(old(table), id, start, end)
    {
      if id in table {
        table := table[id := PreferenceRow(start, end)];
      }
    }
  }

}
