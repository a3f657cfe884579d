/** The per-group engine preference kept under `data["translate_engine_pref"]`
  * (services/engine.py): a closed choice between "google" and "deepl", "google" by default. */
module EngineStore {
  import opened Data

  const Google := "google"
  const DeepL := "deepl"

  /** The value `set_engine_pref` stores for a requested engine. */
  function Coerce(engine: string): (r: string)
    ensures r == Google || r == DeepL
    ensures engine == Google || engine == DeepL ==> r == engine
    ensures engine != Google && engine != DeepL ==> r == Google
  {
    if engine == Google || engine == DeepL then engine else Google
  }

  /** `get_engine_pref(group_id)`: the stored value when it is one of the two engines, "google"
    * otherwise (no entry, or any other stored value). */
  function EnginePref(prefs: map<GroupId, string>, g: GroupId): (r: string)
    ensures r == Google || r == DeepL
    ensures g in prefs && (prefs[g] == Google || prefs[g] == DeepL) ==> r == prefs[g]
    ensures g !in prefs || (prefs[g] != Google && prefs[g] != DeepL) ==> r == Google
  {
    if g in prefs && (prefs[g] == Google || prefs[g] == DeepL) then prefs[g] else Google
  }

  /** `set_engine_pref(group_id, engine)`: stores the coerced engine under the group, and
    * changes nothing else. */
  method SetEnginePref(store: DataStore, g: GroupId, engine: string)
    modifies store
    ensures old(store.Valid()) ==> store.Valid()
    ensures store.data == old(store.data).(translateEnginePref := old(store.data.translateEnginePref)[g := Coerce(engine)])
  {
    var e := engine;
    if e != Google && e != DeepL {
      e := Google;
    }
    store.data := store.data.(translateEnginePref := store.data.translateEnginePref[g := e]);
  }

  /** Reading back after setting: the engine if it was valid, "google" otherwise; other groups
    * read as before. */
  lemma SetThenGet(prefs: map<GroupId, string>, g: GroupId, engine: string, h: GroupId)
    ensures EnginePref(prefs[g := Coerce(engine)], g) == if engine == DeepL then DeepL else Google
    ensures h != g ==> EnginePref(prefs[g := Coerce(engine)], h) == EnginePref(prefs, h)
  {
  }

  /** Setting the same engine twice is setting it once: the second `set_engine_pref` stores
    * what the group reads after the first, which changes no group's reading. */
  lemma SetIdempotent(prefs: map<GroupId, string>, g: GroupId, engine: string, h: GroupId)
    ensures Coerce(Coerce(engine)) == Coerce(engine)
    ensures var once := prefs[g := Coerce(engine)];
      && Coerce(EnginePref(once, g)) == Coerce(engine)
      && EnginePref(once[g := Coerce(EnginePref(once, g))], h) == EnginePref(once, h)
  {
  }
}
