/**
 * The decisions of the LINE webhook (main.py): which events are handled, who may change a
 * group's languages, the language menu and the toggle/reset postbacks, the text commands, and
 * the hand-off of ordinary text to a background translation job guarded by a counting gate.
 *
 * The webhook works on the live document (`get_data()` returns the global itself), so the
 * handler reads the `DataStore` and writes through the group store. Its decisions depend on the
 * document only through `Settings`: each group's language set, the whitelist, the group admins
 * and the auto-translate switches. The handler is proved against the pure `Step` and `Run`.
 */
module Webhook {
  import opened Wrappers
  import opened Text
  import opened Data
  import Config
  import opened GroupStore
  import opened TenantStore
  import opened Translation

  const Welcome := "👋 歡迎邀請翻譯小精靈！\n\n請按下「翻譯設定」選擇要翻譯的語言。"
  const NoPermission := "❌ 你沒有權限設定喲～"
  const ResetDone := "✅ 已重設翻譯設定！"
  const Updated := "✅ 已更新！\n\n"
  const NoneSelected := "(無)"
  const Busy := "Translation service is busy, please try again later"

  const StatusCommand := "/狀態"
  const MenuCommand := "/選單"
  const MenuCommandEnglish := "/menu"
  const AdminCommand := "/指令"

  /** A JSON string field as Python's truth test sees it: present and non-empty. */
  predicate Given(s: Option<string>) {
    s.Some? && s.value != ""
  }

  datatype Source = Source(groupId: Option<string>, userId: Option<string>)

  datatype MessageBody = TextBody(text: string) | NonTextBody

  datatype EventKind = Joined | Postback(data: string) | MessageEvent(message: MessageBody) | OtherEvent

  datatype Event = Event(source: Source, kind: EventKind, replyToken: string)

  /** A postback button of a flex message. */
  datatype Button = Button(style: string, color: Option<string>, title: string, data: string)

  /** A reply message: plain text, the language menu, or the management menu. */
  datatype Message = Said(text: string) | LanguageMenu(buttons: seq<Button>) | CommandMenu

  /** A background translation: the reply token, the stripped text, the target languages and the
    * group to bill. */
  datatype Job = Job(replyToken: string, text: string, langs: set<Code>, groupId: GroupId)

  /** What the handler does for one event. */
  datatype Action = Nothing | Reply(token: string, messages: seq<Message>) | Spawn(job: Job)

  /** `source.get("groupId") or source.get("userId")`: the key the group's settings live under. */
  function GroupKey(s: Source): (k: Option<string>)
    ensures Given(k) <==> Given(s.groupId) || Given(s.userId)
    ensures Given(s.groupId) ==> k == s.groupId
  {
    if Given(s.groupId) then s.groupId else s.userId
  }

  /** Events without a usable group key or user id are passed over. */
  function Skipped(e: Event): (r: bool)
    ensures !r ==> Given(e.source.userId) && Given(GroupKey(e.source))
    ensures Given(e.source.userId) ==> !r
  {
    !Given(GroupKey(e.source)) || !Given(e.source.userId)
  }

  /** An event is handled exactly when it names a user; the key is then the group, or the user
    * in a one-to-one chat. */
  lemma SkippedIffNoUser(e: Event)
    ensures Skipped(e) <==> !Given(e.source.userId)
    ensures !Skipped(e) ==>
      GroupKey(e.source).value == if Given(e.source.groupId) then e.source.groupId.value
                                 else e.source.userId.value
  {
  }

  /** `is_group_admin(user_id, group_id)`: the group's recorded admin is this user. */
  function IsGroupAdmin(d: Document, u: UserId, g: GroupId): (r: bool)
    ensures r <==> g in d.groupAdmin && d.groupAdmin[g] == u
  {
    g in d.groupAdmin && d.groupAdmin[g] == u
  }

  // ---------------------------------------------------------------------------------------
  // The language menu and the confirmation text
  // ---------------------------------------------------------------------------------------

  const ResetButton := Button("secondary", None, "🔄 重設", "reset")

  /** One button of the language menu for a `LANGUAGE_MAP` entry. */
  function LanguageButton(entry: (string, Code), selected: bool): Button {
    Button("primary", Some(if selected then "#DC143C" else "#FF6347"),
           if selected then "✅ " + entry.0 else entry.0, "lang:" + entry.1)
  }

  /** The buttons of `language_selection_message`: one per language in table order, marked
    * exactly when the code is selected, then the reset button. */
  function MenuButtons(current: set<Code>): (buttons: seq<Button>)
    ensures |buttons| == |Config.LanguageMap| + 1
    ensures forall i :: 0 <= i < |Config.LanguageMap| ==>
      && buttons[i].data == "lang:" + Config.LanguageMap[i].1
      && (buttons[i].title == "✅ " + Config.LanguageMap[i].0 <==> Config.LanguageMap[i].1 in current)
      && (Config.LanguageMap[i].1 !in current ==> buttons[i].title == Config.LanguageMap[i].0)
    ensures buttons[|Config.LanguageMap|] == ResetButton
  {
    seq(|Config.LanguageMap|, i requires 0 <= i < |Config.LanguageMap| =>
          LanguageButton(Config.LanguageMap[i], Config.LanguageMap[i].1 in current))
      + [ResetButton]
  }

  /** `language_selection_message(group_id)`: builds the menu for the group's current set. */
  method LanguageSelectionMessage(store: DataStore, g: GroupId) returns (m: Message)
    ensures m == LanguageMenu(MenuButtons(GroupLangs(store.data.userPrefs, g)))
  {
    var current := GroupLangs(store.data.userPrefs, g);
    var contents: seq<Button> := [];
    for i := 0 to |Config.LanguageMap|
      invariant contents == MenuButtons(current)[..i]
    {
      var (name, code) := Config.LanguageMap[i];
      var selected := code in current;
      contents := contents + [Button("primary", Some(if selected then "#DC143C" else "#FF6347"),
                                     if selected then "✅ " + name else name, "lang:" + code)];
    }
    contents := contents + [ResetButton];
    return LanguageMenu(contents);
  }

  /** `data_post.split(':')[1]` for a `lang:` postback: the text between the first and the
    * second colon. */
  function PostbackCode(data: string): (code: Code)
    requires StartsWith(data, "lang:")
    ensures ':' !in code
  {
    assert data[4] == ':' by { assert data[..5] == "lang:"; }
    Split(data, ':')[1]
  }

  /** Pressing a menu button toggles that button's language: the code the postback handler
    * reads back from the button's data is the one the menu wrote into it. */
  lemma MenuButtonCode(current: set<Code>, i: nat)
    requires i < |Config.LanguageMap|
    ensures StartsWith(MenuButtons(current)[i].data, "lang:")
    ensures PostbackCode(MenuButtons(current)[i].data) == Config.LanguageMap[i].1
  {
    var code := Config.LanguageMap[i].1;
    var data := MenuButtons(current)[i].data;
    assert ':' !in code by { Config.CodesHaveNoColon(); }
    assert data == Join(["lang", code], ':');
    SplitJoin(["lang", code], ':');
  }

  /** The set after pressing `lang:<c>`: `c` removed when present, added otherwise. */
  function Toggle(current: set<Code>, c: Code): (r: set<Code>)
    ensures c in r <==> c !in current
    ensures forall x :: x != c ==> (x in r <==> x in current)
  {
    if c in current then current - {c} else current + {c}
  }

  /** Toggling the same code twice gives the set back. */
  lemma ToggleInvolution(current: set<Code>, c: Code)
    ensures Toggle(Toggle(current, c), c) == current
  {
  }

  /** The `"label (code)"` lines of the selected codes, in table order. */
  function SelectedLines(entries: seq<(string, Code)>, current: set<Code>): (lines: seq<string>)
    ensures |lines| <= |entries|
    ensures |lines| == 0 <==> forall i :: 0 <= i < |entries| ==> entries[i].1 !in current
    ensures forall j :: 0 <= j < |lines| ==> ' ' in lines[j]
  {
    if entries == [] then []
    else
      var line := entries[0].0 + " (" + entries[0].1 + ")";
      assert line[|entries[0].0|] == ' ';
      (if entries[0].1 in current then [line] else []) + SelectedLines(entries[1..], current)
  }

  /** The list in the confirmation: the selected languages one per line, or `(無)`. */
  function Summary(current: set<Code>): (r: string)
    ensures r != ""
    ensures (forall i :: 0 <= i < |Config.LanguageMap| ==> Config.LanguageMap[i].1 !in current) ==> r == NoneSelected
  {
    var joined := Join(SelectedLines(Config.LanguageMap, current), '\n');
    if joined == "" then NoneSelected else joined
  }

  /** A joined text starts with its first line. */
  lemma JoinStartsWithFirst(lines: seq<string>, sep: char)
    requires |lines| >= 1
    ensures lines[0] <= Join(lines, sep)
  {
  }

  /** The confirmation says `(無)` exactly when no language of the menu is selected. */
  lemma SummaryNoneIff(current: set<Code>)
    ensures Summary(current) == NoneSelected <==>
      forall i :: 0 <= i < |Config.LanguageMap| ==> Config.LanguageMap[i].1 !in current
  {
    var lines := SelectedLines(Config.LanguageMap, current);
    if |lines| > 0 {
      JoinStartsWithFirst(lines, '\n');
      assert ' ' in Summary(current);
    }
  }

  // ---------------------------------------------------------------------------------------
  // The settings the webhook reads and writes, and its decision for one event
  // ---------------------------------------------------------------------------------------

  datatype Settings = Settings(
    langs: map<GroupId, set<Code>>,
    whitelist: seq<UserId>,
    admins: map<GroupId, UserId>,
    autoTranslate: map<GroupId, bool>)

  /** The part of the document the webhook depends on, each stored entry read as its set. */
  function SettingsOf(d: Document): (s: Settings)
    ensures s.langs.Keys == d.userPrefs.Keys
    ensures forall g :: g in d.userPrefs ==> s.langs[g] == Elements(d.userPrefs[g])
  {
    Settings(map g | g in d.userPrefs :: Elements(d.userPrefs[g]),
             d.userWhitelist, d.groupAdmin, d.autoTranslate)
  }

  /** `get_group_langs` on the settings: the stored set, or the default when it is missing or
    * empty. */
  function LangsOf(s: Settings, g: GroupId): (r: set<Code>)
    ensures r != {}
  {
    if g in s.langs && s.langs[g] != {} then s.langs[g] else DefaultGroupLangs
  }

  lemma LangsOfAgrees(d: Document, g: GroupId)
    ensures LangsOf(SettingsOf(d), g) == GroupLangs(d.userPrefs, g)
  {
  }

  /** Replacing one stored entry replaces that group's set and nothing else. */
  lemma StoredEntrySettings(d: Document, g: GroupId, v: PrefValue)
    ensures SettingsOf(d.(userPrefs := d.userPrefs[g := v])) ==
            SettingsOf(d).(langs := SettingsOf(d).langs[g := Elements(v)])
  {
    var s := SettingsOf(d);
    assert SettingsOf(d.(userPrefs := d.userPrefs[g := v])).langs == s.langs[g := Elements(v)];
  }

  /** Who may change a group's languages: a master, a whitelisted user, or the group's admin. */
  function Privileged(s: Settings, masters: set<UserId>, u: UserId, g: GroupId): (r: bool)
    ensures u in masters || u in s.whitelist ==> r
    ensures g in s.admins && s.admins[g] == u ==> r
    ensures r && u !in masters && u !in s.whitelist ==> g in s.admins && s.admins[g] == u
  {
    u in masters || u in s.whitelist || (g in s.admins && s.admins[g] == u)
  }

  /** `auto_translate.get(group_id, True)`. */
  function AutoTranslateOn(s: Settings, g: GroupId): (r: bool)
    ensures g !in s.autoTranslate ==> r
    ensures g in s.autoTranslate ==> (r <==> s.autoTranslate[g])
  {
    if g in s.autoTranslate then s.autoTranslate[g] else true
  }

  /** The status reply: whole hours and minutes of uptime, and the number of stored groups. */
  function StatusText(uptime: nat, groups: nat): (r: string)
    ensures var hours, minutes := uptime / 3600, uptime % 3600 / 60;
      && minutes < 60
      && hours * 3600 + minutes * 60 <= uptime < hours * 3600 + minutes * 60 + 60
      && r == "⏰ 運行時間：" + NatToString(hours) + "h " + NatToString(minutes) + "m\n👥 群組數量："
              + NatToString(groups)
  {
    "⏰ 運行時間：" + NatToString(uptime / 3600) + "h " + NatToString(uptime % 3600 / 60) + "m\n👥 群組數量："
      + NatToString(groups)
  }

  /** The settings after the event and what is done for it. */
  function Step(s: Settings, masters: set<UserId>, e: Event, uptime: nat): (r: (Settings, Action))
    ensures r.0.whitelist == s.whitelist && r.0.admins == s.admins && r.0.autoTranslate == s.autoTranslate
    ensures Skipped(e) ==> r == (s, Nothing)
    ensures r.0 != s ==>
      && !Skipped(e) && e.kind.Postback?
      && r.0.langs.Keys == s.langs.Keys + {GroupKey(e.source).value}
      && (forall h :: h in s.langs && h != GroupKey(e.source).value ==> r.0.langs[h] == s.langs[h])
  {
    if Skipped(e) then (s, Nothing)
    else
      var g, u, token := GroupKey(e.source).value, e.source.userId.value, e.replyToken;
      match e.kind
      case Joined => (s, Reply(token, [Said(Welcome), LanguageMenu(MenuButtons(LangsOf(s, g)))]))
      case Postback(data) =>
        if !Privileged(s, masters, u, g) then (s, Reply(token, [Said(NoPermission)]))
        else if data == "reset" then
          (s.(langs := s.langs[g := Config.DefaultTranslateLangs]), Reply(token, [Said(ResetDone)]))
        else if StartsWith(data, "lang:") then
          var next := Toggle(LangsOf(s, g), PostbackCode(data));
          (s.(langs := s.langs[g := next]), Reply(token, [Said(Updated + Summary(next))]))
        else (s, Nothing)
      case MessageEvent(body) =>
        if !body.TextBody? then (s, Nothing)
        else
          var text := Strip(body.text);
          var lower := Lower(text);
          if lower == StatusCommand then (s, Reply(token, [Said(StatusText(uptime, |s.langs|))]))
          else if lower == MenuCommand || lower == MenuCommandEnglish then
            (s, Reply(token, [LanguageMenu(MenuButtons(LangsOf(s, g)))]))
          else if lower == AdminCommand && u in masters then (s, Reply(token, [CommandMenu]))
          else if AutoTranslateOn(s, g) && LangsOf(s, g) != {} then
            (s, Spawn(Job(token, text, LangsOf(s, g), g)))
          else (s, Nothing)
      case OtherEvent => (s, Nothing)
  }

  /** A postback from someone who is neither a master, whitelisted, nor the group's admin is
    * refused and changes no setting. */
  lemma UnprivilegedPostbackRefused(s: Settings, masters: set<UserId>, e: Event, uptime: nat)
    requires !Skipped(e) && e.kind.Postback?
    requires !Privileged(s, masters, e.source.userId.value, GroupKey(e.source).value)
    ensures Step(s, masters, e, uptime) == (s, Reply(e.replyToken, [Said(NoPermission)]))
  {
  }

  /** `reset` stores the default set, so the group then reads as `{"zh-TW"}`. */
  lemma ResetStoresDefault(s: Settings, masters: set<UserId>, e: Event, uptime: nat)
    requires !Skipped(e) && e.kind == Postback("reset")
    requires Privileged(s, masters, e.source.userId.value, GroupKey(e.source).value)
    ensures var r := Step(s, masters, e, uptime);
      && r.0 == s.(langs := s.langs[GroupKey(e.source).value := Config.DefaultTranslateLangs])
      && LangsOf(r.0, GroupKey(e.source).value) == {"zh-TW"}
      && r.1 == Reply(e.replyToken, [Said(ResetDone)])
  {
  }

  /** A `lang:` postback stores the group's set with that one code flipped and confirms with
    * the new selection. */
  lemma ToggleStoresFlipped(s: Settings, masters: set<UserId>, e: Event, uptime: nat)
    requires !Skipped(e) && e.kind.Postback? && StartsWith(e.kind.data, "lang:")
    requires Privileged(s, masters, e.source.userId.value, GroupKey(e.source).value)
    ensures var g, c := GroupKey(e.source).value, PostbackCode(e.kind.data);
      var next := Toggle(LangsOf(s, g), c);
      && Step(s, masters, e, uptime) ==
           (s.(langs := s.langs[g := next]), Reply(e.replyToken, [Said(Updated + Summary(next))]))
      && (c in next <==> c !in LangsOf(s, g))
      && (forall x :: x != c ==> (x in next <==> x in LangsOf(s, g)))
  {
    assert e.kind.data[0] == 'l' by { assert e.kind.data[..5] == "lang:"; }
    assert e.kind.data != "reset";
  }

  /** Pressing the same language twice restores the group's languages when the first press
    * left some language selected. */
  lemma ToggleTwiceRestores(s: Settings, masters: set<UserId>, e: Event, uptime: nat)
    requires !Skipped(e) && e.kind.Postback? && StartsWith(e.kind.data, "lang:")
    requires Privileged(s, masters, e.source.userId.value, GroupKey(e.source).value)
    requires Toggle(LangsOf(s, GroupKey(e.source).value), PostbackCode(e.kind.data)) != {}
    ensures var once := Step(s, masters, e, uptime).0;
      LangsOf(Step(once, masters, e, uptime).0, GroupKey(e.source).value) == LangsOf(s, GroupKey(e.source).value)
  {
    var g, c := GroupKey(e.source).value, PostbackCode(e.kind.data);
    var first := Toggle(LangsOf(s, g), c);
    ToggleStoresFlipped(s, masters, e, uptime);
    var once := Step(s, masters, e, uptime).0;
    assert once == s.(langs := s.langs[g := first]);
    assert LangsOf(once, g) == first;
    ToggleStoresFlipped(once, masters, e, uptime);
    var twice := Step(once, masters, e, uptime).0;
    assert twice.langs[g] == Toggle(first, c);
    ToggleInvolution(LangsOf(s, g), c);
    assert twice.langs[g] == LangsOf(s, g);
  }

  /** Pressing the only selected language (other than `zh-TW`) twice does not restore it: the
    * emptied set reads back as the default, and the second press adds the code to it. */
  lemma ToggleTwiceFromSingle(s: Settings, masters: set<UserId>, e: Event, uptime: nat)
    requires !Skipped(e) && e.kind.Postback? && StartsWith(e.kind.data, "lang:")
    requires Privileged(s, masters, e.source.userId.value, GroupKey(e.source).value)
    requires LangsOf(s, GroupKey(e.source).value) == {PostbackCode(e.kind.data)}
    requires PostbackCode(e.kind.data) != "zh-TW"
    ensures var once := Step(s, masters, e, uptime).0;
      LangsOf(Step(once, masters, e, uptime).0, GroupKey(e.source).value) ==
        {"zh-TW", PostbackCode(e.kind.data)}
  {
    var g, c := GroupKey(e.source).value, PostbackCode(e.kind.data);
    ToggleStoresFlipped(s, masters, e, uptime);
    var once := Step(s, masters, e, uptime).0;
    assert once.langs[g] == {};
    assert LangsOf(once, g) == {"zh-TW"};
    ToggleStoresFlipped(once, masters, e, uptime);
  }

  /** Un-selecting the last language confirms `(無)`, yet the group keeps translating into
    * `zh-TW`, because an empty entry reads as the default. */
  lemma EmptiedSelectionReadsDefault(s: Settings, masters: set<UserId>, e: Event, uptime: nat)
    requires !Skipped(e) && e.kind.Postback? && StartsWith(e.kind.data, "lang:")
    requires Privileged(s, masters, e.source.userId.value, GroupKey(e.source).value)
    requires LangsOf(s, GroupKey(e.source).value) == {PostbackCode(e.kind.data)}
    ensures var r := Step(s, masters, e, uptime);
      && r.1 == Reply(e.replyToken, [Said(Updated + NoneSelected)])
      && LangsOf(r.0, GroupKey(e.source).value) == {"zh-TW"}
  {
    var g, c := GroupKey(e.source).value, PostbackCode(e.kind.data);
    ToggleStoresFlipped(s, masters, e, uptime);
    assert Toggle(LangsOf(s, g), c) == {};
    SummaryNoneIff({});
  }

  /** `/狀態`, `/選單` and `/menu`, in any letter case and surrounded by any blanks, are answered
    * and never translated, and they change no setting. */
  lemma CommandsAnswered(s: Settings, masters: set<UserId>, e: Event, uptime: nat)
    requires !Skipped(e) && e.kind.MessageEvent? && e.kind.message.TextBody?
    requires Lower(Strip(e.kind.message.text)) in {StatusCommand, MenuCommand, MenuCommandEnglish}
    ensures Step(s, masters, e, uptime).0 == s
    ensures Step(s, masters, e, uptime).1.Reply?
  {
  }

  /** `/指令` from a master opens the management menu. */
  lemma AdminCommandForMasters(s: Settings, masters: set<UserId>, e: Event, uptime: nat)
    requires !Skipped(e) && e.kind.MessageEvent? && e.kind.message.TextBody?
    requires Lower(Strip(e.kind.message.text)) == AdminCommand
    requires e.source.userId.value in masters
    ensures Step(s, masters, e, uptime) == (s, Reply(e.replyToken, [CommandMenu]))
  {
  }

  /** Any other text, `/指令` from a non-master included, is sent for translation into the
    * group's languages whenever auto-translate is on, which it is unless switched off; the
    * language set is never empty, so the job always starts. */
  lemma OtherTextTranslated(s: Settings, masters: set<UserId>, e: Event, uptime: nat)
    requires !Skipped(e) && e.kind.MessageEvent? && e.kind.message.TextBody?
    requires Lower(Strip(e.kind.message.text)) !in {StatusCommand, MenuCommand, MenuCommandEnglish}
    requires Lower(Strip(e.kind.message.text)) == AdminCommand ==> e.source.userId.value !in masters
    ensures var g := GroupKey(e.source).value;
      Step(s, masters, e, uptime) ==
        (s, if AutoTranslateOn(s, g) then Spawn(Job(e.replyToken, Strip(e.kind.message.text), LangsOf(s, g), g))
            else Nothing)
    ensures GroupKey(e.source).value !in s.autoTranslate ==> Step(s, masters, e, uptime).1.Spawn?
  {
  }

  /** The requests of one webhook call, handled in order: the settings after them and one
    * action per event. */
  function Run(s: Settings, masters: set<UserId>, events: seq<Event>, uptime: nat)
    : (r: (Settings, seq<Action>))
    ensures |r.1| == |events|
    decreases |events|
  {
    if events == [] then (s, [])
    else
      var prior := Run(s, masters, events[..|events| - 1], uptime);
      var last := Step(prior.0, masters, events[|events| - 1], uptime);
      (last.0, prior.1 + [last.1])
  }

  /** Each event's action is decided on the settings left by the events before it. */
  lemma {:induction false} RunActions(s: Settings, masters: set<UserId>, events: seq<Event>, uptime: nat, i: nat)
    requires i < |events|
    ensures Run(s, masters, events, uptime).1[i] ==
            Step(Run(s, masters, events[..i], uptime).0, masters, events[i], uptime).1
    decreases |events|
  {
    var front := events[..|events| - 1];
    if i < |events| - 1 {
      RunActions(s, masters, front, uptime, i);
      assert front[..i] == events[..i];
      assert front[i] == events[i];
    } else {
      assert events[..i] == front;
    }
  }

  /** A webhook call never changes who is privileged or which groups translate: the whitelist,
    * the admins and the auto-translate switches are read, never written. */
  lemma {:induction false} RunKeepsAccess(s: Settings, masters: set<UserId>, events: seq<Event>, uptime: nat)
    ensures var t := Run(s, masters, events, uptime).0;
      t.whitelist == s.whitelist && t.admins == s.admins && t.autoTranslate == s.autoTranslate
    decreases |events|
  {
    if events != [] {
      RunKeepsAccess(s, masters, events[..|events| - 1], uptime);
    }
  }

  /** Events from users without any privilege never change the stored languages. */
  lemma {:induction false} UnprivilegedRunKeepsLangs(s: Settings, masters: set<UserId>, events: seq<Event>, uptime: nat)
    requires forall i :: 0 <= i < |events| && !Skipped(events[i]) ==>
      !Privileged(s, masters, events[i].source.userId.value, GroupKey(events[i].source).value)
    ensures Run(s, masters, events, uptime).0 == s
    decreases |events|
  {
    if events != [] {
      var front := events[..|events| - 1];
      UnprivilegedRunKeepsLangs(s, masters, front, uptime);
      var e := events[|events| - 1];
      if !Skipped(e) && e.kind.Postback? {
        UnprivilegedPostbackRefused(s, masters, e, uptime);
      }
    }
  }

  // ---------------------------------------------------------------------------------------
  // The handler
  // ---------------------------------------------------------------------------------------

  /** One iteration of the event loop of `webhook()`. */
  method HandleEvent(store: DataStore, masters: set<UserId>, e: Event, uptime: nat) returns (action: Action)
    modifies store
    ensures old(store.Valid()) ==> store.Valid()
    ensures store.data == old(store.data).(userPrefs := store.data.userPrefs)
    ensures (SettingsOf(store.data), action) == Step(SettingsOf(old(store.data)), masters, e, uptime)
  {
    ghost var before := store.data;
    var groupId := GroupKey(e.source);
    var userId := e.source.userId;
    if !Given(groupId) || !Given(userId) {
      return Nothing;
    }
    var g, u := groupId.value, userId.value;
    LangsOfAgrees(before, g);
    match e.kind {
      case Joined =>
        var menu := LanguageSelectionMessage(store, g);
        return Reply(e.replyToken, [Said(Welcome), menu]);
      case Postback(dataPost) =>
        var privileged := u in masters || u in store.data.userWhitelist || IsGroupAdmin(store.data, u, g);
        if !privileged {
          return Reply(e.replyToken, [Said(NoPermission)]);
        }
        if dataPost == "reset" {
          SetGroupLangs(store, g, Config.DefaultTranslateLangs);
          StoredEntrySettings(before, g, store.data.userPrefs[g]);
          return Reply(e.replyToken, [Said(ResetDone)]);
        } else if StartsWith(dataPost, "lang:") {
          var code := PostbackCode(dataPost);
          var current := GroupLangs(store.data.userPrefs, g);
          if code in current {
            current := current - {code};
          } else {
            current := current + {code};
          }
          SetGroupLangs(store, g, current);
          StoredEntrySettings(before, g, store.data.userPrefs[g]);
          return Reply(e.replyToken, [Said(Updated + Summary(current))]);
        }
        return Nothing;
      case MessageEvent(body) =>
        if !body.TextBody? {
          return Nothing;
        }
        var text := Strip(body.text);
        var lower := Lower(text);
        if lower == StatusCommand {
          ghost var groups;
          var entries;
          entries, groups := GroupStatsForStatus(store.data.userPrefs);
          return Reply(e.replyToken, [Said(StatusText(uptime, |entries|))]);
        }
        if lower == MenuCommand || lower == MenuCommandEnglish {
          var menu := LanguageSelectionMessage(store, g);
          return Reply(e.replyToken, [menu]);
        }
        if lower == AdminCommand && u in masters {
          return Reply(e.replyToken, [CommandMenu]);
        }
        var autoTranslate := if g in store.data.autoTranslate then store.data.autoTranslate[g] else true;
        if autoTranslate {
          var langs := GroupLangs(store.data.userPrefs, g);
          if langs != {} {
            return Spawn(Job(e.replyToken, text, langs, g));
          }
        }
        return Nothing;
      case OtherEvent =>
        return Nothing;
    }
  }

  /** The `for event in events` loop: the events in order, each on the document the previous
    * ones left. */
  method HandleEvents(store: DataStore, masters: set<UserId>, events: seq<Event>, uptime: nat)
    returns (actions: seq<Action>)
    modifies store
    ensures old(store.Valid()) ==> store.Valid()
    ensures store.data == old(store.data).(userPrefs := store.data.userPrefs)
    ensures (SettingsOf(store.data), actions) == Run(SettingsOf(old(store.data)), masters, events, uptime)
  {
    actions := [];
    for i := 0 to |events|
      invariant store.data == old(store.data).(userPrefs := store.data.userPrefs)
      invariant (SettingsOf(store.data), actions) == Run(SettingsOf(old(store.data)), masters, events[..i], uptime)
    {
      var action := HandleEvent(store, masters, events[i], uptime);
      assert events[..i + 1][..i] == events[..i];
      actions := actions + [action];
    }
    assert events[..|events|] == events;
  }

  /** The HTTP answer of the webhook route. */
  datatype HttpReply = HttpReply(body: string, status: int)

  /** `webhook()`: with a channel secret configured, a signature other than the expected one is
    * refused; a body that is not JSON is refused; otherwise the events are handled. The
    * expected signature (base64 of the HMAC-SHA256 of the body) and the parsed event list are
    * given. */
  method HandleWebhook(store: DataStore, masters: set<UserId>, secret: string, signature: string,
                       expectedSignature: string, events: Option<seq<Event>>, uptime: nat)
    returns (http: HttpReply, actions: seq<Action>)
    modifies store
    ensures old(store.Valid()) ==> store.Valid()
    ensures secret != "" && signature != expectedSignature ==>
      http == HttpReply("Invalid signature", 400) && actions == [] && store.data == old(store.data)
    ensures !(secret != "" && signature != expectedSignature) && events.None? ==>
      http == HttpReply("Invalid JSON", 400) && actions == [] && store.data == old(store.data)
    ensures !(secret != "" && signature != expectedSignature) && events.Some? ==>
      && http == HttpReply("OK", 200)
      && store.data == old(store.data).(userPrefs := store.data.userPrefs)
      && (SettingsOf(store.data), actions) == Run(SettingsOf(old(store.data)), masters, events.value, uptime)
  {
    if secret != "" && signature != expectedSignature {
      return HttpReply("Invalid signature", 400), [];
    }
    if events.None? {
      return HttpReply("Invalid JSON", 400), [];
    }
    actions := HandleEvents(store, masters, events.value, uptime);
    http := HttpReply("OK", 200);
  }

  // ---------------------------------------------------------------------------------------
  // The translation gate and the background job
  // ---------------------------------------------------------------------------------------

  /** The gate that bounds concurrent translations: a counter of free slots with a
    * non-blocking acquire and a release, as a counting semaphore has. The background job uses
    * one whose capacity is `Config.MaxConcurrentTranslations`. */
  class TranslationGate {
    const capacity: nat
    var available: int

    constructor (capacity: nat)
      ensures this.capacity == capacity && available == capacity
    {
      this.capacity := capacity;
      available := capacity;
    }

    /** `acquire(blocking=False)`: takes a slot when one is free, and says whether it did. */
    method TryAcquire() returns (acquired: bool)
      modifies this`available
      ensures acquired <==> old(available) > 0
      ensures available == if acquired then old(available) - 1 else old(available)
    {
      if available > 0 {
        available := available - 1;
        return true;
      }
      return false;
    }

    /** `release()`: gives a slot back. */
    method Release()
      modifies this`available
      ensures available == old(available) + 1
    {
      available := available + 1;
    }
  }

  /** The reply a job hands to the messaging API. */
  datatype Outgoing = Outgoing(token: string, text: string)

  /** `_async_translate_and_reply`: without a free slot the job answers "busy" and releases
    * nothing; with one it translates into each language of `order` (the list made of the job's
    * set), answers the joined lines, and gives the slot back exactly once whether or not the
    * reply goes through. */
  method AsyncTranslateAndReply(gate: TranslationGate, client: DeepLClient, store: DataStore, job: Job,
                                order: seq<Code>, google: seq<seq<Response<GoogleBody>>>,
                                deepl: seq<seq<Response<DeepLBody>>>)
    returns (sent: Outgoing, ghost releases: nat)
    requires gate.capacity == Config.MaxConcurrentTranslations
    requires Lists(order, job.langs)
    requires Oracles(order, google, deepl)
    modifies gate, store
    ensures old(store.Valid()) ==> store.Valid()
    ensures gate.available == old(gate.available)
    ensures releases == if old(gate.available) > 0 then 1 else 0
    ensures old(gate.available) <= 0 ==> sent == Outgoing(job.replyToken, Busy) && store.data == old(store.data)
    ensures old(gate.available) > 0 ==>
      && sent == Outgoing(job.replyToken,
                          Join(ResultLines(client.apiKey, client.supportedTargets, job.text, order, google, deepl), '\n'))
      && store.data == old(store.data).(tenants :=
           Billed(old(store.data.tenants), Payer(old(store.data.tenants), Some(job.groupId)),
                  TranslatedCount(client.apiKey, client.supportedTargets, job.text, order, google, deepl, |order|),
                  TranslatedChars(client.apiKey, client.supportedTargets, job.text, order, google, deepl, |order|)))
  {
    releases := 0;
    var acquired := gate.TryAcquire();
    if !acquired {
      return Outgoing(job.replyToken, Busy), releases;
    }
    var resultText := client.FormatTranslationResults(store, job.text, order, false, Some(job.groupId), google, deepl);
    sent := Outgoing(job.replyToken, resultText);
    gate.Release();
    releases := releases + 1;
  }
}
