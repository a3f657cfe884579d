/**
 * Per-group target languages kept under `data["user_prefs"]` (services/group.py). An entry
 * that is missing or empty reads as the default `{"zh-TW"}`, so a group always has at least
 * one target language.
 */
module GroupStore {
  import opened Wrappers
  import opened Data
  import Config

  /** The set `get_group_langs` falls back to. */
  const DefaultGroupLangs: set<Code> := {"zh-TW"}

  /** `_load_group_langs_from_db(group_id)`: the stored codes as a set, or None when the group
    * has no entry or its entry is empty (an empty list or set is falsy). */
  function LoadGroupLangs(prefs: map<GroupId, PrefValue>, g: GroupId): (r: Option<set<Code>>)
    ensures r.None? <==> g !in prefs || Elements(prefs[g]) == {}
    ensures r.Some? ==> r.value == Elements(prefs[g]) && r.value != {}
  {
    if g in prefs && Elements(prefs[g]) != {} then Some(Elements(prefs[g])) else None
  }

  /** `get_group_langs(group_id)`: the stored codes when there are any, the default otherwise;
    * never empty. */
  function GroupLangs(prefs: map<GroupId, PrefValue>, g: GroupId): (r: set<Code>)
    ensures r != {}
    ensures g in prefs && Elements(prefs[g]) != {} ==> r == Elements(prefs[g])
    ensures g !in prefs || Elements(prefs[g]) == {} ==> r == DefaultGroupLangs
  {
    LoadGroupLangs(prefs, g).GetOr(DefaultGroupLangs)
  }

  /** The fallback is the configured reset default. */
  lemma DefaultsAgree()
    ensures DefaultGroupLangs == Config.DefaultTranslateLangs
    ensures DefaultGroupLangs <= Config.MenuCodes()
  {
    Config.DefaultLangsOnMenu();
  }

  /** `_save_group_langs_to_db(group_id, langs)`: the group's entry becomes a list (a set is
    * listed, a list kept); every other entry and every other key is left as it was. */
  method SaveGroupLangs(store: DataStore, g: GroupId, langs: PrefValue)
    modifies store
    ensures old(store.Valid()) ==> store.Valid()
    ensures store.data == old(store.data).(userPrefs := store.data.userPrefs)
    ensures g in store.data.userPrefs && store.data.userPrefs[g].PList?
    ensures SavedAs(langs, store.data.userPrefs[g].items)
    ensures store.data.userPrefs == old(store.data.userPrefs)[g := store.data.userPrefs[g]]
  {
    var xs;
    match langs {
      case PList(items) => xs := items;
      case PSet(codes) => xs := ListOf(codes);
    }
    store.data := store.data.(userPrefs := store.data.userPrefs[g := PList(xs)]);
  }

  /** `_delete_group_langs_from_db(group_id)`: removes the group's entry, if any, and nothing
    * else; the group then reads as the default. */
  method DeleteGroupLangs(store: DataStore, g: GroupId)
    modifies store
    ensures old(store.Valid()) ==> store.Valid()
    ensures store.data == old(store.data).(userPrefs := old(store.data.userPrefs) - {g})
    ensures GroupLangs(store.data.userPrefs, g) == DefaultGroupLangs
  {
    store.data := store.data.(userPrefs := store.data.userPrefs - {g});
  }

  /** `set_group_langs(group_id, langs)`: stores the set; reading the group back gives the set
    * when it is non-empty and the default when it is empty. */
  method SetGroupLangs(store: DataStore, g: GroupId, langs: set<Code>)
    modifies store
    ensures old(store.Valid()) ==> store.Valid()
    ensures store.data == old(store.data).(userPrefs := store.data.userPrefs)
    ensures g in store.data.userPrefs
    ensures store.data.userPrefs == old(store.data.userPrefs)[g := store.data.userPrefs[g]]
    ensures Elements(store.data.userPrefs[g]) == langs
    ensures GroupLangs(store.data.userPrefs, g) == if langs == {} then DefaultGroupLangs else langs
  {
    SaveGroupLangs(store, g, PSet(langs));
  }

  /** What `get_group_langs` reads after the group's entry is replaced by one holding `langs`. */
  lemma StoredLangsReadBack(prefs: map<GroupId, PrefValue>, g: GroupId, v: PrefValue, h: GroupId)
    ensures GroupLangs(prefs[g := v], h) ==
      if h != g then GroupLangs(prefs, h)
      else if Elements(v) == {} then DefaultGroupLangs else Elements(v)
  {
  }

  /** `get_group_stats_for_status()`: the stored entries, one per group, empty ones included. */
  method GroupStatsForStatus(prefs: map<GroupId, PrefValue>)
    returns (entries: seq<PrefValue>, ghost groups: seq<GroupId>)
    ensures |entries| == |prefs|
    ensures forall i :: 0 <= i < |entries| ==> entries[i] in prefs.Values
    ensures |entries| == |groups| == |prefs|
    ensures forall i :: 0 <= i < |groups| ==> groups[i] in prefs && entries[i] == prefs[groups[i]]
    ensures forall i, j :: 0 <= i < j < |groups| ==> groups[i] != groups[j]
  {
    entries, groups := [], [];
    var todo := prefs.Keys;
    while todo != {}
      invariant todo <= prefs.Keys
      invariant |entries| == |groups| && |groups| + |todo| == |prefs.Keys|
      invariant forall h :: h in groups <==> h in prefs && h !in todo
      invariant forall i :: 0 <= i < |groups| ==> groups[i] in prefs && entries[i] == prefs[groups[i]]
      invariant forall i, j :: 0 <= i < j < |groups| ==> groups[i] != groups[j]
      decreases todo
    {
      var g :| g in todo;
      entries, groups := entries + [prefs[g]], groups + [g];
      todo := todo - {g};
    }
  }
}
