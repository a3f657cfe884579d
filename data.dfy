/**
 * The bot's in-memory data document (the global `_data` of utils/data.py), its on-disk form,
 * and the two conversions between them: loading keeps the six known top-level keys, defaults
 * each missing one, and turns every `user_prefs` list into a set; saving turns the sets back
 * into lists and writes exactly the six keys.
 */
module Data {
  import opened Wrappers

  type UserId = string
  type GroupId = string
  /** A language code such as "zh-TW" or "en". */
  type Code = string

  /** One `user_prefs` entry: a list as read from or written to disk, or a set in memory. */
  datatype PrefValue = PList(items: seq<Code>) | PSet(codes: set<Code>)

  /** The language codes an entry holds, whatever its shape. */
  function Elements(v: PrefValue): (s: set<Code>)
    ensures v.PSet? ==> s == v.codes
    ensures v.PList? ==> forall c :: c in s <==> c in v.items
  {
    match v
    case PList(items) => set c | c in items
    case PSet(codes) => codes
  }

  /** The value under `data["tenants"][user_id]`. A record read from disk without `groups` or
    * `stats` stands for one with an empty list and zero counters, which is how every reader
    * of those keys treats it. `expiresAt` is None when the ISO date is missing, empty or
    * does not parse. */
  datatype TenantRecord = TenantRecord(
    token: string,
    expiresAt: Option<int>,
    groups: seq<GroupId>,
    translateCount: int,
    charCount: int,
    createdAt: int)

  datatype TenantEntry = TenantEntry(userId: UserId, record: TenantRecord)

  /** `data["tenants"]`: a Python dict, so its entries keep their insertion order. */
  type TenantTable = seq<TenantEntry>

  function Keys(t: TenantTable): (ks: seq<UserId>)
    ensures |ks| == |t| && forall i :: 0 <= i < |t| ==> ks[i] == t[i].userId
  {
    seq(|t|, i requires 0 <= i < |t| => t[i].userId)
  }

  /** No user id appears twice, as in any dict. */
  ghost predicate UniqueKeys(t: TenantTable) {
    forall i, j :: 0 <= i < j < |t| ==> t[i].userId != t[j].userId
  }

  /** The position of the first entry for `u`. */
  function KeyIndex(t: TenantTable, u: UserId): (i: nat)
    requires u in Keys(t)
    ensures i < |t| && t[i].userId == u
    ensures forall j :: 0 <= j < i ==> t[j].userId != u
  {
    if t[0].userId == u then 0
    else
      assert Keys(t) == [t[0].userId] + Keys(t[1..]);
      1 + KeyIndex(t[1..], u)
  }

  /** Where a key first occurs depends only on the keys up to there. */
  lemma SameKeysSameIndex(t: TenantTable, t': TenantTable, u: UserId)
    requires |t| <= |t'| && Keys(t) == Keys(t')[..|t|] && u in Keys(t)
    ensures KeyIndex(t, u) == KeyIndex(t', u)
  {
    var i, i' := KeyIndex(t, u), KeyIndex(t', u);
    assert Keys(t)[i] == u && Keys(t')[i'] == u;
  }

  /** `tenants.get(user_id)`. */
  function Lookup(t: TenantTable, u: UserId): (r: Option<TenantRecord>)
    ensures r.None? <==> u !in Keys(t)
    ensures r.Some? ==> exists i :: 0 <= i < |t| && t[i] == TenantEntry(u, r.value)
  {
    if u in Keys(t) then Some(t[KeyIndex(t, u)].record) else None
  }

  /** `tenants[user_id] = record`: an existing key keeps its place and gets the new record, a
    * new key goes to the end. */
  function Put(t: TenantTable, u: UserId, rec: TenantRecord): (r: TenantTable)
    ensures u in Keys(t) ==> Keys(r) == Keys(t)
    ensures u !in Keys(t) ==> Keys(r) == Keys(t) + [u]
    ensures Lookup(r, u) == Some(rec)
    ensures forall v :: v != u ==> Lookup(r, v) == Lookup(t, v)
    ensures UniqueKeys(t) ==> UniqueKeys(r)
  {
    var e := TenantEntry(u, rec);
    if u in Keys(t) then
      var r := t[KeyIndex(t, u) := e];
      assert Keys(r) == Keys(t);
      forall v | v != u ensures Lookup(r, v) == Lookup(t, v) {
        if v in Keys(t) { SameKeysSameIndex(r, t, v); }
      }
      r
    else
      var r := t + [e];
      assert Keys(r) == Keys(t) + [u];
      assert KeyIndex(r, u) == |t|;
      forall v | v != u ensures Lookup(r, v) == Lookup(t, v) {
        if v in Keys(t) { SameKeysSameIndex(t, r, v); }
      }
      r
  }

  /** The in-memory document. `autoTranslate` stands for any further key a caller may have put
    * into the dict (the webhook reads `auto_translate`); it is never written to disk. */
  datatype Document = Document(
    userWhitelist: seq<UserId>,
    userPrefs: map<GroupId, PrefValue>,
    voiceTranslation: map<GroupId, bool>,
    groupAdmin: map<GroupId, UserId>,
    translateEnginePref: map<GroupId, string>,
    tenants: TenantTable,
    autoTranslate: map<GroupId, bool>)

  /** The document the module starts with: the six keys, all empty. */
  const InitialDocument := Document([], map[], map[], map[], map[], [], map[])

  /** What `json.load` gives for a well-formed data file: each known key may be absent, and
    * `auto_translate` stands for the keys the loader does not keep. */
  datatype RawDocument = RawDocument(
    userWhitelist: Option<seq<UserId>>,
    userPrefs: Option<map<GroupId, seq<Code>>>,
    voiceTranslation: Option<map<GroupId, bool>>,
    groupAdmin: Option<map<GroupId, UserId>>,
    translateEnginePref: Option<map<GroupId, string>>,
    tenants: Option<TenantTable>,
    autoTranslate: Option<map<GroupId, bool>>)

  /** The data file as the loader finds it. */
  datatype DataFile = Missing | Malformed | Json(raw: RawDocument)

  /** The document written to disk: the six keys, every `user_prefs` entry a list. */
  datatype SavedDocument = SavedDocument(
    userWhitelist: seq<UserId>,
    userPrefs: map<GroupId, seq<Code>>,
    voiceTranslation: map<GroupId, bool>,
    groupAdmin: map<GroupId, UserId>,
    translateEnginePref: map<GroupId, string>,
    tenants: TenantTable)

  /** The loader's view of `user_prefs`: every list becomes the set of its elements. */
  function LoadedPrefs(prefs: map<GroupId, seq<Code>>): (m: map<GroupId, PrefValue>)
    ensures m.Keys == prefs.Keys
    ensures forall g :: g in m ==> m[g].PSet? && Elements(m[g]) == Elements(PList(prefs[g]))
  {
    map g | g in prefs :: PSet(set c | c in prefs[g])
  }

  /** The document `load_data` builds from a well-formed file: the six keys, each missing one
    * defaulted to an empty list or dict, and nothing else. */
  function Normalise(raw: RawDocument): (d: Document)
    ensures d.autoTranslate == map[]
    ensures raw.userPrefs.None? ==> d.userPrefs == map[]
    ensures raw.userPrefs.Some? ==> d.userPrefs == LoadedPrefs(raw.userPrefs.value)
    ensures d.userWhitelist == raw.userWhitelist.GetOr([])
    ensures d.voiceTranslation == raw.voiceTranslation.GetOr(map[])
    ensures d.groupAdmin == raw.groupAdmin.GetOr(map[])
    ensures d.translateEnginePref == raw.translateEnginePref.GetOr(map[])
    ensures d.tenants == raw.tenants.GetOr([])
  {
    Document(
      raw.userWhitelist.GetOr([]),
      LoadedPrefs(raw.userPrefs.GetOr(map[])),
      raw.voiceTranslation.GetOr(map[]),
      raw.groupAdmin.GetOr(map[]),
      raw.translateEnginePref.GetOr(map[]),
      raw.tenants.GetOr([]),
      map[])
  }

  /** A list that holds each element of `s` exactly once (what `list(s)` gives, in an order
    * Python does not specify). */
  ghost predicate Lists(xs: seq<Code>, s: set<Code>) {
    && (forall c :: c in xs <==> c in s)
    && (forall i, j :: 0 <= i < j < |xs| ==> xs[i] != xs[j])
  }

  /** The list a saved entry gets: a list is kept, a set is listed. */
  ghost predicate SavedAs(v: PrefValue, xs: seq<Code>) {
    match v
    case PList(items) => xs == items
    case PSet(codes) => Lists(xs, codes)
  }

  /** `saved` is the projection `save_data` writes for the in-memory document `d`. */
  ghost predicate SavedFrom(d: Document, saved: SavedDocument) {
    && saved.userWhitelist == d.userWhitelist
    && saved.userPrefs.Keys == d.userPrefs.Keys
    && (forall g :: g in d.userPrefs ==> SavedAs(d.userPrefs[g], saved.userPrefs[g]))
    && saved.voiceTranslation == d.voiceTranslation
    && saved.groupAdmin == d.groupAdmin
    && saved.translateEnginePref == d.translateEnginePref
    && saved.tenants == d.tenants
  }

  /** `list(s)`: the elements of a set, each once, in whatever order they are drawn. */
  method ListOf(s: set<Code>) returns (xs: seq<Code>)
    ensures Lists(xs, s)
  {
    xs := [];
    var rest := s;
    while rest != {}
      invariant rest <= s
      invariant forall c :: c in xs <==> c in s && c !in rest
      invariant forall i, j :: 0 <= i < j < |xs| ==> xs[i] != xs[j]
      decreases rest
    {
      var c :| c in rest;
      xs := xs + [c];
      rest := rest - {c};
    }
  }

  /** The `user_prefs` part of the saved document: every set becomes a list, lists stay. */
  method SavedPrefs(prefs: map<GroupId, PrefValue>) returns (saved: map<GroupId, seq<Code>>)
    ensures saved.Keys == prefs.Keys
    ensures forall g :: g in prefs ==> SavedAs(prefs[g], saved[g])
  {
    saved := map[];
    var todo := prefs.Keys;
    while todo != {}
      invariant todo <= prefs.Keys
      invariant saved.Keys == prefs.Keys - todo
      invariant forall g :: g in saved ==> SavedAs(prefs[g], saved[g])
      decreases todo
    {
      var g :| g in todo;
      var xs;
      match prefs[g] {
        case PList(items) => xs := items;
        case PSet(codes) => xs := ListOf(codes);
      }
      saved := saved[g := xs];
      todo := todo - {g};
    }
  }

  /** Reading back what was saved gives each group the same set of codes, and every other key
    * as it was; keys the loader does not keep (`auto_translate`) come back empty. */
  lemma SaveLoadRoundTrip(d: Document, saved: SavedDocument)
    requires SavedFrom(d, saved)
    ensures var back := Normalise(AsFile(saved));
      && back.userPrefs.Keys == d.userPrefs.Keys
      && (forall g :: g in d.userPrefs ==> Elements(back.userPrefs[g]) == Elements(d.userPrefs[g]))
      && back == d.(userPrefs := back.userPrefs, autoTranslate := map[])
  {
    var back := Normalise(AsFile(saved));
    forall g | g in d.userPrefs
      ensures Elements(back.userPrefs[g]) == Elements(d.userPrefs[g])
    {
      assert SavedAs(d.userPrefs[g], saved.userPrefs[g]);
    }
  }

  /** The data file holding a saved document. */
  function AsFile(saved: SavedDocument): (raw: RawDocument)
    ensures raw.autoTranslate.None?
  {
    RawDocument(Some(saved.userWhitelist), Some(saved.userPrefs), Some(saved.voiceTranslation),
                Some(saved.groupAdmin), Some(saved.translateEnginePref), Some(saved.tenants), None)
  }

  /** The module-level global `_data` of utils/data.py and the functions that replace or read it.
    * Reading and writing the data file are left out: the file's content is a parameter of
    * `LoadData`, and the document `SaveData` would write is its result. */
  class DataStore {
    var data: Document

    /** `data["tenants"]` is a dict: no user id appears twice. */
    ghost predicate Valid()
      reads this
    {
      UniqueKeys(data.tenants)
    }

    constructor ()
      ensures data == InitialDocument
      ensures Valid()
    {
      data := InitialDocument;
    }

    /** `get_data()`: the current document. */
    function GetData(): (d: Document)
      reads this
      ensures d == data
    {
      data
    }

    /** `save_data(d)`: a given document replaces the global (None keeps it); the result is
      * the projection written to disk. */
    method SaveData(d: Option<Document>) returns (written: SavedDocument)
      modifies this
      ensures data == if d.Some? then d.value else old(data)
      ensures (if d.Some? then UniqueKeys(d.value.tenants) else old(Valid())) ==> Valid()
      ensures SavedFrom(data, written)
    {
      if d.Some? {
        data := d.value;
      }
      var prefs := SavedPrefs(data.userPrefs);
      written := SavedDocument(data.userWhitelist, prefs, data.voiceTranslation,
                               data.groupAdmin, data.translateEnginePref, data.tenants);
    }

    /** `load_data()`: a well-formed file replaces the document by its normal form; a malformed
      * one leaves the document as it was; a missing one is created from the current document. */
    method LoadData(file: DataFile) returns (written: Option<SavedDocument>)
      modifies this
      ensures file.Json? ==> data == Normalise(file.raw) && written == None
      ensures file.Malformed? ==> data == old(data) && written == None
      ensures file.Missing? ==> data == old(data) && written.Some? && SavedFrom(data, written.value)
      ensures (if file.Json? then UniqueKeys(file.raw.tenants.GetOr([])) else old(Valid())) ==> Valid()
    {
      match file {
        case Json(raw) =>
          data := Normalise(raw);
          written := None;
        case Malformed =>
          written := None;
        case Missing =>
          var saved := SaveData(None);
          written := Some(saved);
      }
    }
  }
}
