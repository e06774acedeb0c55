/** The per-plugin auto-update settings of the settings window's "auto updates" tab: a
    global behaviour, three flags, and an ordered list of per-plugin preferences that the
    tab edits in place and shares with the configuration object it was loaded from.

    Drawing is left to the presentation layer; what a frame of user input does to the
    state is taken as parameters (the radio button chosen, and per drawn row the kind
    picked in its combo box and whether its remove button was clicked). */
module AutoUpdateSettings {
  import Wrappers
  import opened Guids

  /** The global auto-update behaviour, in the order of the tab's radio buttons. */
  datatype AutoUpdateBehavior = None | OnlyNotify | UpdateMainRepo | UpdateAll

  /** The integer value the radio buttons bind to. */
  function BehaviorToInt(b: AutoUpdateBehavior): (i: int)
    ensures 0 <= i < 4
  {
    match b
    case None => 0
    case OnlyNotify => 1
    case UpdateMainRepo => 2
    case UpdateAll => 3
  }

  /** The cast back from the radio buttons' integer; an integer that names no member
      gives Wrappers.None. */
  function IntToBehavior(i: int): (r: Wrappers.Option<AutoUpdateBehavior>)
    ensures r.Some? <==> 0 <= i < 4
    ensures r.Some? ==> BehaviorToInt(r.value) == i
  {
    if i == 0 then Wrappers.Some(None)
    else if i == 1 then Wrappers.Some(OnlyNotify)
    else if i == 2 then Wrappers.Some(UpdateMainRepo)
    else if i == 3 then Wrappers.Some(UpdateAll)
    else Wrappers.None
  }

  /** Casting a behaviour to its integer and back gives the behaviour. */
  lemma BehaviorIntRoundTrip(b: AutoUpdateBehavior)
    ensures IntToBehavior(BehaviorToInt(b)) == Wrappers.Some(b)
  {
  }

  /** What a per-plugin preference forces. */
  datatype OptKind = NeverUpdate | AlwaysUpdate

  /** One per-plugin preference: the plugin's working id and its kind. */
  datatype AutoUpdatePreference = AutoUpdatePreference(WorkingPluginId: Guid, Kind: OptKind)

  /** What the tab reads of an installed plugin. */
  datatype LocalPlugin = LocalPlugin(EffectiveWorkingPluginId: Guid, IsDev: bool)

  /** Whether some preference is for the given plugin id (LINQ's Any over the list). */
  function AnyWithId(s: seq<AutoUpdatePreference>, id: Guid): (r: bool)
    ensures r <==> exists i :: 0 <= i < |s| && s[i].WorkingPluginId == id
  {
    if s == [] then false
    else s[0].WorkingPluginId == id || AnyWithId(s[1..], id)
  }

  /** The list with every preference for `id` taken out, the rest in their order
      (List.RemoveAll with the predicate "WorkingPluginId == id"). */
  function Without(s: seq<AutoUpdatePreference>, id: Guid): (r: seq<AutoUpdatePreference>)
    ensures |r| <= |s|
  {
    if s == [] then []
    else if s[0].WorkingPluginId == id then Without(s[1..], id)
    else [s[0]] + Without(s[1..], id)
  }

  /** No two preferences are for the same plugin. */
  ghost predicate UniqueIds(s: seq<AutoUpdatePreference>)
  {
    forall i, j :: 0 <= i < j < |s| ==> s[i].WorkingPluginId != s[j].WorkingPluginId
  }

  // ---------------------------------------------------------------------------
  // Properties of removal

  /** After removal no preference for `id` is left. */
  lemma {:induction false} WithoutRemovesId(s: seq<AutoUpdatePreference>, id: Guid)
    ensures !AnyWithId(Without(s, id), id)
  {
    if s != [] {
      WithoutRemovesId(s[1..], id);
    }
  }

  /** Removal keeps each preference for another plugin as often as it was there and
      drops every preference for `id`. */
  lemma {:induction false} WithoutCount(s: seq<AutoUpdatePreference>, id: Guid,
                                        e: AutoUpdatePreference)
    ensures multiset(Without(s, id))[e] ==
            if e.WorkingPluginId == id then 0 else multiset(s)[e]
  {
    if s != [] {
      WithoutCount(s[1..], id, e);
      assert s == [s[0]] + s[1..];
    }
  }

  /** Removal keeps exactly the preferences for other plugins. */
  lemma WithoutMembership(s: seq<AutoUpdatePreference>, id: Guid, e: AutoUpdatePreference)
    ensures e in Without(s, id) <==> e in s && e.WorkingPluginId != id
  {
    WithoutCount(s, id, e);
  }

  /** Removal keeps the relative order: it distributes over concatenation. */
  lemma {:induction false} WithoutConcat(a: seq<AutoUpdatePreference>,
                                         b: seq<AutoUpdatePreference>, id: Guid)
    ensures Without(a + b, id) == Without(a, id) + Without(b, id)
  {
    if a != [] {
      WithoutConcat(a[1..], b, id);
      assert (a + b)[1..] == a[1..] + b;
    } else {
      assert a + b == b;
    }
  }

  /** Removing an id that is not listed leaves the list as it was. */
  lemma {:induction false} WithoutAbsent(s: seq<AutoUpdatePreference>, id: Guid)
    requires !AnyWithId(s, id)
    ensures Without(s, id) == s
  {
    if s != [] {
      assert !AnyWithId(s[1..], id);
      WithoutAbsent(s[1..], id);
    }
  }

  /** Removal cannot introduce two preferences for one plugin. */
  lemma {:induction false} WithoutKeepsUnique(s: seq<AutoUpdatePreference>, id: Guid)
    requires UniqueIds(s)
    ensures UniqueIds(Without(s, id))
  {
    if s != [] {
      WithoutKeepsUnique(s[1..], id);
      if s[0].WorkingPluginId != id {
        var rest := Without(s[1..], id);
        forall e | e in rest
          ensures e.WorkingPluginId != s[0].WorkingPluginId
        {
          WithoutMembership(s[1..], id, e);
        }
        var r := [s[0]] + rest;
        forall i, j | 0 <= i < j < |r|
          ensures r[i].WorkingPluginId != r[j].WorkingPluginId
        {
          if i == 0 {
            assert r[j] == rest[j - 1];
          } else {
            assert r[i] == rest[i - 1] && r[j] == rest[j - 1];
          }
        }
      }
    }
  }

  /** Appending a preference for a plugin not yet listed keeps the ids unique; this is
      what the picker's IsPluginDisabled guard buys. */
  lemma AppendKeepsUnique(s: seq<AutoUpdatePreference>, p: AutoUpdatePreference)
    requires UniqueIds(s) && !AnyWithId(s, p.WorkingPluginId)
    ensures UniqueIds(s + [p])
  {
  }

  /** Adding A, B and C and then removing B leaves A and C, in that order. */
  lemma RemoveMiddleKeepsOrder(a: AutoUpdatePreference, b: AutoUpdatePreference,
                               c: AutoUpdatePreference)
    requires a.WorkingPluginId != b.WorkingPluginId && c.WorkingPluginId != b.WorkingPluginId
    ensures Without([a, b, c], b.WorkingPluginId) == [a, c]
  {
    var id := b.WorkingPluginId;
    assert [a, b, c][1..] == [b, c] && [b, c][1..] == [c] && [c][1..] == [];
    assert Without([c], id) == [c];
    assert Without([b, c], id) == [c];
  }

  // ---------------------------------------------------------------------------
  // One draw pass over the preference rows

  /** The user input of one drawn row: the kind chosen in its combo box, if any, and
      whether its remove button was clicked. */
  datatype RowInput = RowInput(picked: Wrappers.Option<OptKind>, removeClicked: bool)

  /** A preference after its row's combo box: the chosen kind, the same plugin. */
  function EditKind(p: AutoUpdatePreference, row: RowInput): (q: AutoUpdatePreference)
    ensures q.WorkingPluginId == p.WorkingPluginId
    ensures row.picked.Some? ==> q.Kind == row.picked.value
    ensures row.picked.None? ==> q == p
  {
    match row.picked
    case Some(kind) => p.(Kind := kind)
    case None => p
  }

  /** The list after every row's combo box, before any removal. */
  function EditKinds(s: seq<AutoUpdatePreference>, rows: seq<RowInput>)
    : (r: seq<AutoUpdatePreference>)
    requires |rows| == |s|
    ensures |r| == |s|
    ensures forall i :: 0 <= i < |s| ==> r[i] == EditKind(s[i], rows[i])
  {
    seq(|s|, i requires 0 <= i < |s| => EditKind(s[i], rows[i]))
  }

  /** The id recorded by the remove buttons of the first `n` rows: that of the last row
      whose button was clicked, or none. */
  function RemovalRequest(s: seq<AutoUpdatePreference>, rows: seq<RowInput>, n: nat)
    : (r: Wrappers.Option<Guid>)
    requires |rows| == |s| && n <= |s|
    ensures r.None? <==> forall j :: 0 <= j < n ==> !rows[j].removeClicked
    ensures r.Some? ==>
      exists i :: (0 <= i < n && rows[i].removeClicked && s[i].WorkingPluginId == r.value &&
                   forall j :: i < j < n ==> !rows[j].removeClicked)
  {
    if n == 0 then Wrappers.None
    else if rows[n - 1].removeClicked then Wrappers.Some(s[n - 1].WorkingPluginId)
    else RemovalRequest(s, rows, n - 1)
  }

  /** The list after a whole draw pass: the kinds chosen, then at most one removal. */
  function DrawPass(s: seq<AutoUpdatePreference>, rows: seq<RowInput>)
    : (r: seq<AutoUpdatePreference>)
    requires |rows| == |s|
    ensures |r| <= |s|
    ensures RemovalRequest(s, rows, |s|).Some? ==>
      !AnyWithId(r, RemovalRequest(s, rows, |s|).value)
    ensures RemovalRequest(s, rows, |s|).None? ==>
      (|r| == |s| && forall i :: 0 <= i < |s| ==> r[i].WorkingPluginId == s[i].WorkingPluginId)
  {
    match RemovalRequest(s, rows, |s|)
    case None => EditKinds(s, rows)
    case Some(id) =>
      WithoutRemovesId(EditKinds(s, rows), id);
      Without(EditKinds(s, rows), id)
  }

  /** A pass in which no remove button was clicked removes nothing: every preference
      stays, for the same plugin, at the same place. */
  lemma DrawPassWithoutRemoval(s: seq<AutoUpdatePreference>, rows: seq<RowInput>)
    requires |rows| == |s|
    requires forall j :: 0 <= j < |s| ==> !rows[j].removeClicked
    ensures DrawPass(s, rows) == EditKinds(s, rows)
    ensures |DrawPass(s, rows)| == |s|
    ensures forall i :: 0 <= i < |s| ==>
      DrawPass(s, rows)[i].WorkingPluginId == s[i].WorkingPluginId
  {
    assert RemovalRequest(s, rows, |s|).None?;
  }

  /** A pass in which a remove button was clicked removes every preference for the
      plugin of the last such row and keeps every other one, in order. */
  lemma DrawPassRemoval(s: seq<AutoUpdatePreference>, rows: seq<RowInput>, i: nat)
    requires |rows| == |s| && i < |s| && rows[i].removeClicked
    requires forall j :: i < j < |s| ==> !rows[j].removeClicked
    ensures DrawPass(s, rows) == Without(EditKinds(s, rows), s[i].WorkingPluginId)
    ensures !AnyWithId(DrawPass(s, rows), s[i].WorkingPluginId)
    ensures forall e :: (e in EditKinds(s, rows) && e.WorkingPluginId != s[i].WorkingPluginId
                         ==> e in DrawPass(s, rows))
  {
    var r := RemovalRequest(s, rows, |s|);
    assert r.Some?;
    var k :| 0 <= k < |s| && rows[k].removeClicked && s[k].WorkingPluginId == r.value &&
             forall j :: k < j < |s| ==> !rows[j].removeClicked;
    assert k == i;
    WithoutRemovesId(EditKinds(s, rows), s[i].WorkingPluginId);
    forall e | e in EditKinds(s, rows) && e.WorkingPluginId != s[i].WorkingPluginId
      ensures e in DrawPass(s, rows)
    {
      WithoutMembership(EditKinds(s, rows), s[i].WorkingPluginId, e);
    }
  }

  /** A draw pass keeps the preference ids unique. */
  lemma DrawPassKeepsUnique(s: seq<AutoUpdatePreference>, rows: seq<RowInput>)
    requires |rows| == |s| && UniqueIds(s)
    ensures UniqueIds(DrawPass(s, rows))
  {
    var e := EditKinds(s, rows);
    assert UniqueIds(e);
    match RemovalRequest(s, rows, |s|)
    case None =>
    case Some(id) => WithoutKeepsUnique(e, id);
  }

  // ---------------------------------------------------------------------------
  // State

  /** The List<AutoUpdatePreference> object, which the tab and the configuration share. */
  class PreferenceList {
    var Items: seq<AutoUpdatePreference>

    constructor (items: seq<AutoUpdatePreference>)
      ensures Items == items
    {
      Items := items;
    }

    /** List.Add. */
    method Add(p: AutoUpdatePreference)
      modifies this
      ensures Items == old(Items) + [p]
    {
      Items := Items + [p];
    }

    /** List.RemoveAll(x => x.WorkingPluginId == id). */
    method RemoveAll(id: Guid)
      modifies this
      ensures Items == Without(old(Items), id)
    {
      Items := Without(Items, id);
    }

    /** `preference.Kind = kind` on the entry at `index`. */
    method SetKind(index: nat, kind: OptKind)
      requires index < |Items|
      modifies this
      ensures Items == old(Items)[index := old(Items)[index].(Kind := kind)]
    {
      Items := Items[index := Items[index].(Kind := kind)];
    }
  }

  /** The persisted settings, as the configuration object holds them. */
  datatype ConfigValues = ConfigValues(
    AutoUpdateBehavior: Wrappers.Option<AutoUpdateBehavior>,
    UpdateDisabledPlugins: bool,
    SendUpdateNotificationToChat: bool,
    CheckPeriodicallyForUpdates: bool,
    PluginAutoUpdatePreferences: PreferenceList)

  /** The settings as the tab holds them while it is open. */
  datatype TabValues = TabValues(
    behavior: AutoUpdateBehavior,
    updateDisabledPlugins: bool,
    chatNotification: bool,
    checkPeriodically: bool,
    autoUpdatePreferences: PreferenceList)

  /** What loading copies into the tab: a missing behaviour becomes None; the list is
      the configuration's own list object. */
  function Loaded(c: ConfigValues): (t: TabValues)
    ensures c.AutoUpdateBehavior.None? ==> t.behavior == None
    ensures c.AutoUpdateBehavior.Some? ==> Saved(t) == c
    ensures t.autoUpdatePreferences == c.PluginAutoUpdatePreferences
  {
    TabValues(c.AutoUpdateBehavior.GetOr(None), c.UpdateDisabledPlugins,
              c.SendUpdateNotificationToChat, c.CheckPeriodicallyForUpdates,
              c.PluginAutoUpdatePreferences)
  }

  /** What saving copies back into the configuration. */
  function Saved(t: TabValues): (c: ConfigValues)
    ensures c.AutoUpdateBehavior.Some? && c.AutoUpdateBehavior.value == t.behavior
    ensures c.PluginAutoUpdatePreferences == t.autoUpdatePreferences
  {
    ConfigValues(Wrappers.Some(t.behavior), t.updateDisabledPlugins, t.chatNotification,
                 t.checkPeriodically, t.autoUpdatePreferences)
  }

  /** Saving straight after loading writes back what was loaded, except that a missing
      behaviour is now written as None. */
  lemma SaveAfterLoad(c: ConfigValues)
    ensures Saved(Loaded(c)) ==
            c.(AutoUpdateBehavior := Wrappers.Some(c.AutoUpdateBehavior.GetOr(None)))
    ensures c.AutoUpdateBehavior.Some? ==> Saved(Loaded(c)) == c
  {
  }

  /** Loading what was saved gives the tab back exactly. */
  lemma LoadAfterSave(t: TabValues)
    ensures Loaded(Saved(t)) == t
  {
  }

  /** The configuration object that holds the auto-update settings. */
  class DalamudConfiguration {
    var AutoUpdateBehavior: Wrappers.Option<AutoUpdateBehavior>
    var UpdateDisabledPlugins: bool
    var SendUpdateNotificationToChat: bool
    var CheckPeriodicallyForUpdates: bool
    var PluginAutoUpdatePreferences: PreferenceList

    constructor (values: ConfigValues)
      ensures Values() == values
    {
      AutoUpdateBehavior := values.AutoUpdateBehavior;
      UpdateDisabledPlugins := values.UpdateDisabledPlugins;
      SendUpdateNotificationToChat := values.SendUpdateNotificationToChat;
      CheckPeriodicallyForUpdates := values.CheckPeriodicallyForUpdates;
      PluginAutoUpdatePreferences := values.PluginAutoUpdatePreferences;
    }

    function Values(): ConfigValues
      reads this
    {
      ConfigValues(AutoUpdateBehavior, UpdateDisabledPlugins, SendUpdateNotificationToChat,
                   CheckPeriodicallyForUpdates, PluginAutoUpdatePreferences)
    }
  }

  /** The settings tab. */
  class SettingsTabAutoUpdates {
    var behavior: AutoUpdateBehavior
    var updateDisabledPlugins: bool
    var checkPeriodically: bool
    var chatNotification: bool
    var autoUpdatePreferences: PreferenceList

    /** A new tab starts with an empty list of its own. */
    constructor ()
      ensures fresh(autoUpdatePreferences) && autoUpdatePreferences.Items == []
      ensures behavior == None && !updateDisabledPlugins && !checkPeriodically
      ensures !chatNotification
    {
      behavior := None;
      updateDisabledPlugins := false;
      checkPeriodically := false;
      chatNotification := false;
      autoUpdatePreferences := new PreferenceList([]);
    }

    function Values(): TabValues
      reads this
    {
      TabValues(behavior, updateDisabledPlugins, chatNotification, checkPeriodically,
                autoUpdatePreferences)
    }

    /** The radio buttons: the behaviour goes to its integer and back, taking the chosen
        button's value if one was clicked. */
    method DrawBehaviorRadioButtons(clicked: Wrappers.Option<AutoUpdateBehavior>)
      modifies this`behavior
      ensures behavior == clicked.GetOr(old(behavior))
    {
      var behaviorInt := BehaviorToInt(behavior);
      if clicked.Some? {
        behaviorInt := BehaviorToInt(clicked.value);
      }
      var b := IntToBehavior(behaviorInt);
      BehaviorIntRoundTrip(clicked.GetOr(behavior));
      behavior := b.value;
    }

    /** The rows of the preference list: each row's combo box may set that preference's
        kind in place and each remove button records its plugin's id; after the loop the
        last recorded id, if any, is removed from the list. */
    method DrawPreferenceRows(rows: seq<RowInput>)
      requires |rows| == |autoUpdatePreferences.Items|
      modifies autoUpdatePreferences
      ensures autoUpdatePreferences.Items == DrawPass(old(autoUpdatePreferences.Items), rows)
    {
      var list := autoUpdatePreferences;
      ghost var s := list.Items;
      var wantRemovePluginGuid: Wrappers.Option<Guid> := Wrappers.None;
      var i := 0;
      while i < |list.Items|
        invariant 0 <= i <= |s| && |list.Items| == |s|
        invariant forall j :: 0 <= j < i ==> list.Items[j] == EditKind(s[j], rows[j])
        invariant forall j :: i <= j < |s| ==> list.Items[j] == s[j]
        invariant wantRemovePluginGuid == RemovalRequest(s, rows, i)
      {
        var preference := list.Items[i];
        ghost var before := list.Items;
        if rows[i].picked.Some? {
          list.SetKind(i, rows[i].picked.value);
        }
        assert list.Items == before[i := EditKind(s[i], rows[i])];
        if rows[i].removeClicked {
          wantRemovePluginGuid := Wrappers.Some(preference.WorkingPluginId);
        }
        i := i + 1;
      }
      assert list.Items == EditKinds(s, rows);
      if wantRemovePluginGuid.Some? {
        list.RemoveAll(wantRemovePluginGuid.value);
      }
    }

    /** The picker's callback: a plugin without a working id is refused, any other is
        appended with the kind a new preference starts with (`newKind`). */
    method OnPluginPicked(plugin: LocalPlugin, newKind: OptKind) returns (outcome: PickOutcome)
      modifies autoUpdatePreferences
      ensures plugin.EffectiveWorkingPluginId == Empty <==> outcome.InvalidOperation?
      ensures outcome.InvalidOperation? ==> outcome.message == "Plugin ID is empty."
      ensures outcome.InvalidOperation? ==>
        autoUpdatePreferences.Items == old(autoUpdatePreferences.Items)
      ensures outcome.Added? ==>
        autoUpdatePreferences.Items == old(autoUpdatePreferences.Items) +
          [AutoUpdatePreference(plugin.EffectiveWorkingPluginId, newKind)]
      ensures (outcome.Added? && UniqueIds(old(autoUpdatePreferences.Items)) &&
               !old(IsPluginDisabled(plugin))) ==> UniqueIds(autoUpdatePreferences.Items)
    {
      var id := plugin.EffectiveWorkingPluginId;
      if id == Empty {
        return InvalidOperation("Plugin ID is empty.");
      }
      if UniqueIds(autoUpdatePreferences.Items) && !IsPluginDisabled(plugin) {
        AppendKeepsUnique(autoUpdatePreferences.Items, AutoUpdatePreference(id, newKind));
      }
      autoUpdatePreferences.Add(AutoUpdatePreference(id, newKind));
      outcome := Added;
    }

    /** The picker greys out a plugin that already has a preference. */
    function IsPluginDisabled(plugin: LocalPlugin): (r: bool)
      reads this, autoUpdatePreferences
      ensures r <==> exists i :: (0 <= i < |autoUpdatePreferences.Items| &&
                    autoUpdatePreferences.Items[i].WorkingPluginId == plugin.EffectiveWorkingPluginId)
    {
      AnyWithId(autoUpdatePreferences.Items, plugin.EffectiveWorkingPluginId)
    }

    /** The picker's filter: every plugin that is not a dev plugin. */
    function IsPluginFiltered(plugin: LocalPlugin): bool
    {
      !plugin.IsDev
    }

    /** Copy the settings out of the configuration; the tab's list becomes the
        configuration's own list object. */
    method Load(configuration: DalamudConfiguration)
      modifies this
      ensures Values() == Loaded(configuration.Values())
    {
      behavior := configuration.AutoUpdateBehavior.GetOr(None);
      updateDisabledPlugins := configuration.UpdateDisabledPlugins;
      chatNotification := configuration.SendUpdateNotificationToChat;
      checkPeriodically := configuration.CheckPeriodicallyForUpdates;
      autoUpdatePreferences := configuration.PluginAutoUpdatePreferences;
    }

    /** Copy the settings back into the configuration. */
    method Save(configuration: DalamudConfiguration)
      modifies configuration
      ensures configuration.Values() == Saved(Values())
    {
      configuration.AutoUpdateBehavior := Wrappers.Some(behavior);
      configuration.UpdateDisabledPlugins := updateDisabledPlugins;
      configuration.SendUpdateNotificationToChat := chatNotification;
      configuration.CheckPeriodicallyForUpdates := checkPeriodically;
      configuration.PluginAutoUpdatePreferences := autoUpdatePreferences;
    }
  }

  /** How the picker's callback ends: the plugin was added, or an
      InvalidOperationException with the given message was thrown. */
  datatype PickOutcome = Added | InvalidOperation(message: string)

  /** Loading and then saving writes back what the configuration held, except that a
      missing behaviour is now written as None. */
  method ReloadRoundTrip(tab: SettingsTabAutoUpdates, configuration: DalamudConfiguration)
    modifies tab, configuration
    ensures configuration.Values() ==
      old(configuration.Values()).(AutoUpdateBehavior :=
        Wrappers.Some(old(configuration.AutoUpdateBehavior).GetOr(None)))
  {
    tab.Load(configuration);
    tab.Save(configuration);
    SaveAfterLoad(old(configuration.Values()));
  }

  /** After loading, a plugin picked in the tab is in the configuration's list at once,
      before any save: the two hold the same list object. */
  method PickAfterLoad(tab: SettingsTabAutoUpdates, configuration: DalamudConfiguration,
                       plugin: LocalPlugin, newKind: OptKind) returns (outcome: PickOutcome)
    requires plugin.EffectiveWorkingPluginId != Empty
    modifies tab, configuration.PluginAutoUpdatePreferences
    ensures outcome == Added
    ensures configuration.PluginAutoUpdatePreferences.Items ==
      old(configuration.PluginAutoUpdatePreferences.Items) +
        [AutoUpdatePreference(plugin.EffectiveWorkingPluginId, newKind)]
  {
    tab.Load(configuration);
    outcome := tab.OnPluginPicked(plugin, newKind);
  }
}
