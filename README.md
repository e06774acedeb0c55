# Dalamud auto-update settings and localised game-font paths, in Dafny

This project models two pieces of logic from Dalamud, the plugin framework for the
FFXIV client.

**The per-plugin auto-update preferences of the settings tab** (module
`AutoUpdateSettings`, file `auto_update_settings.dfy`). The "auto updates" settings
tab holds four things: a global `AutoUpdateBehavior` (`None`, `OnlyNotify`,
`UpdateMainRepo`, `UpdateAll`), three flags, and an ordered list of
`AutoUpdatePreference` records. Each record pairs a plugin's working id (a `Guid`)
with an `OptKind` (`NeverUpdate` or `AlwaysUpdate`).

- The tab is a class, `SettingsTabAutoUpdates`, with the source's fields.
- The list is a class of its own, `PreferenceList`, standing for the C#
  `List<AutoUpdatePreference>` object. `Load` makes the tab hold the configuration's
  own list object, so later edits in the tab change the configuration's list at once.
  `PickAfterLoad` states this.
- One draw pass over the rows is `DrawPreferenceRows`. Each row's combo box may set
  that entry's kind in place. Each remove button overwrites one pending id. After the
  loop, every entry with the pending id is removed. The method is proved equal to the
  pure function `DrawPass`, and the lemmas are about `DrawPass`.
- The picker callback is `OnPluginPicked`. It refuses `Guid.Empty`, which the source
  does by throwing `InvalidOperationException`; the model returns `InvalidOperation`.
  Any other id is appended.
- The add step does not check for duplicates. The picker keeps them out by greying out
  every plugin for which `IsPluginDisabled` holds. `OnPluginPicked` proves that unique
  ids stay unique when the picked plugin was not disabled.
- `IsPluginFiltered` is the picker's filter predicate, `!plugin.IsDev`. What the picker
  does with it is not part of this model.

**The localised font paths of `GameFontFamilyAndSizeAttribute`** (module `GameFonts`,
file `game_fonts.dfy`). The attribute's constructor works as follows:

- It maps the client language to a font code: `chn`, `krn`, `tc`, or none.
- It scans the size table in the order 12, 14, 18, 36, 96.
- At the first entry whose `common/font/AXIS_{n}.fdt` occurs in the path (an ordinal,
  case-sensitive `Contains`), it rewrites the path to `common/font/{code}axis_{m}0.fdt`
  and the texture format to `common/font/font_{code}_{0}.tex`, then stops. Size 96 maps
  to 12.
- It passes the horizontal offset through.

The attribute is immutable once built, so it is a datatype. The constructor's loop is
the method `NewGameFontFamilyAndSize`, proved equal to the first-match function
`Localized`. The contract of `Localized` keeps the offset, keeps both paths when there
is no font code, and changes the path only together with the texture format. The lemmas
state the following about `Localized`:

- pass-through when no table entry matches;
- first match wins;
- the standard sizes map to themselves and 96 maps to 12;
- applying it twice gives the same result as applying it once.

The client language is a process-wide setting in the program. Here it is a parameter.

Modules `Wrappers` (`Option`, C#'s nullable values) and `Guids` (`Guid`, with
`Guid.Empty` as the all-zero value) are shared helpers.

## Model

| member | source | states |
|---|---|---|
| AutoUpdateSettings.BehaviorToInt | Dalamud/Interface/Internal/Windows/Settings/Tabs/SettingsTabAutoUpdate.cs:53 | the `(int)` cast of a behaviour is one of the radio buttons' values 0..3 |
| AutoUpdateSettings.IntToBehavior | Dalamud/Interface/Internal/Windows/Settings/Tabs/SettingsTabAutoUpdate.cs:58 | the cast back names a behaviour exactly for 0..3, and that behaviour casts to the same int |
| AutoUpdateSettings.BehaviorIntRoundTrip | Dalamud/Interface/Internal/Windows/Settings/Tabs/SettingsTabAutoUpdate.cs:53-58 | casting a behaviour to the radio buttons' int and back gives the same behaviour |
| AutoUpdateSettings.SettingsTabAutoUpdates.DrawBehaviorRadioButtons | Dalamud/Interface/Internal/Windows/Settings/Tabs/SettingsTabAutoUpdate.cs:53-58 | after the radio buttons, the behaviour is the one clicked, or the old one if none was clicked |
| AutoUpdateSettings.AnyWithId | Dalamud/Interface/Internal/Windows/Settings/Tabs/SettingsTabAutoUpdate.cs:218 | true exactly when some entry of the list has the given working id |
| AutoUpdateSettings.SettingsTabAutoUpdates.IsPluginDisabled | Dalamud/Interface/Internal/Windows/Settings/Tabs/SettingsTabAutoUpdate.cs:217-218 | a plugin is greyed out in the picker iff some preference has its effective working id |
| AutoUpdateSettings.SettingsTabAutoUpdates.constructor | Dalamud/Interface/Internal/Windows/Settings/Tabs/SettingsTabAutoUpdate.cs:23-28 | a new tab has behaviour None, all three flags false, and a fresh empty list of its own |
| AutoUpdateSettings.SettingsTabAutoUpdates.OnPluginPicked | Dalamud/Interface/Internal/Windows/Settings/Tabs/SettingsTabAutoUpdate.cs:208-215 | an empty id fails with "Plugin ID is empty." and leaves the list unchanged; any other id appends one entry with that id and keeps the earlier entries; unique ids stay unique when the plugin was not disabled in the picker |
| AutoUpdateSettings.AppendKeepsUnique | Dalamud/Interface/Internal/Windows/Settings/Tabs/SettingsTabAutoUpdate.cs:214-218 | appending an id that no entry has keeps the ids unique |
| AutoUpdateSettings.PreferenceList.Add | Dalamud/Interface/Internal/Windows/Settings/Tabs/SettingsTabAutoUpdate.cs:214 | the list becomes the old list with the new entry at its end |
| AutoUpdateSettings.PreferenceList.RemoveAll | Dalamud/Interface/Internal/Windows/Settings/Tabs/SettingsTabAutoUpdate.cs:204 | the list becomes the old list without the entries for the given id |
| AutoUpdateSettings.PreferenceList.SetKind | Dalamud/Interface/Internal/Windows/Settings/Tabs/SettingsTabAutoUpdate.cs:183 | only the kind of the one entry changes; its id and every other entry stay |
| AutoUpdateSettings.Without | Dalamud/Interface/Internal/Windows/Settings/Tabs/SettingsTabAutoUpdate.cs:204 | removal never lengthens the list |
| AutoUpdateSettings.WithoutRemovesId | Dalamud/Interface/Internal/Windows/Settings/Tabs/SettingsTabAutoUpdate.cs:204 | after removal no entry has the removed id |
| AutoUpdateSettings.WithoutCount | Dalamud/Interface/Internal/Windows/Settings/Tabs/SettingsTabAutoUpdate.cs:204 | every entry with another id is kept as often as it occurred; entries with the id are gone |
| AutoUpdateSettings.WithoutMembership | Dalamud/Interface/Internal/Windows/Settings/Tabs/SettingsTabAutoUpdate.cs:204 | an entry is in the result iff it was in the list and has another id |
| AutoUpdateSettings.WithoutConcat | Dalamud/Interface/Internal/Windows/Settings/Tabs/SettingsTabAutoUpdate.cs:204 | removal distributes over concatenation, so relative order is kept |
| AutoUpdateSettings.WithoutAbsent | Dalamud/Interface/Internal/Windows/Settings/Tabs/SettingsTabAutoUpdate.cs:204 | removing an id that no entry has leaves the list as it was |
| AutoUpdateSettings.WithoutKeepsUnique | Dalamud/Interface/Internal/Windows/Settings/Tabs/SettingsTabAutoUpdate.cs:204 | removal keeps the ids unique |
| AutoUpdateSettings.RemoveMiddleKeepsOrder | Dalamud/Interface/Internal/Windows/Settings/Tabs/SettingsTabAutoUpdate.cs:204 | entries A, B, C with B removed leave exactly A, C |
| AutoUpdateSettings.EditKind | Dalamud/Interface/Internal/Windows/Settings/Tabs/SettingsTabAutoUpdate.cs:179-184 | a combo box selection sets the entry's kind and keeps its plugin id; with no selection the entry is unchanged |
| AutoUpdateSettings.EditKinds | Dalamud/Interface/Internal/Windows/Settings/Tabs/SettingsTabAutoUpdate.cs:110-187 | the combo boxes of a pass edit each entry at its own place and keep the length |
| AutoUpdateSettings.RemovalRequest | Dalamud/Interface/Internal/Windows/Settings/Tabs/SettingsTabAutoUpdate.cs:108-196 | no id is pending iff no remove button was clicked; otherwise the pending id is that of the last row whose button was clicked |
| AutoUpdateSettings.DrawPass | Dalamud/Interface/Internal/Windows/Settings/Tabs/SettingsTabAutoUpdate.cs:108-205 | a whole draw pass never lengthens the list; when an id was recorded no entry with it remains; when none was, every entry keeps its id and place |
| AutoUpdateSettings.DrawPassWithoutRemoval | Dalamud/Interface/Internal/Windows/Settings/Tabs/SettingsTabAutoUpdate.cs:202-205 | with no remove click the pass is exactly the combo-box edits: same length, every entry keeps its id and place, only kinds change |
| AutoUpdateSettings.DrawPassRemoval | Dalamud/Interface/Internal/Windows/Settings/Tabs/SettingsTabAutoUpdate.cs:193-205 | with a remove click, the id of the last clicked row is removed after the edits: no entry with it remains, every entry with another id remains, and the order is kept |
| AutoUpdateSettings.DrawPassKeepsUnique | Dalamud/Interface/Internal/Windows/Settings/Tabs/SettingsTabAutoUpdate.cs:108-205 | a draw pass keeps the ids unique |
| AutoUpdateSettings.SettingsTabAutoUpdates.DrawPreferenceRows | Dalamud/Interface/Internal/Windows/Settings/Tabs/SettingsTabAutoUpdate.cs:108-205 | the loop over the rows, with the deferred removal after it, leaves the list equal to `DrawPass` of the old list |
| AutoUpdateSettings.SettingsTabAutoUpdates.Load | Dalamud/Interface/Internal/Windows/Settings/Tabs/SettingsTabAutoUpdate.cs:238-249 | the tab takes the configured behaviour, or None when it is null, the three flags, and the configuration's own list object |
| AutoUpdateSettings.SettingsTabAutoUpdates.Save | Dalamud/Interface/Internal/Windows/Settings/Tabs/SettingsTabAutoUpdate.cs:251-262 | the configuration takes the tab's behaviour, flags and list object |
| AutoUpdateSettings.Loaded | Dalamud/Interface/Internal/Windows/Settings/Tabs/SettingsTabAutoUpdate.cs:242-246 | loading takes None for a null behaviour, shares the configuration's list object, and saving its result gives a non-null configuration back unchanged |
| AutoUpdateSettings.Saved | Dalamud/Interface/Internal/Windows/Settings/Tabs/SettingsTabAutoUpdate.cs:255-259 | saving never writes a null behaviour: it writes the tab's behaviour and the tab's list object |
| AutoUpdateSettings.SaveAfterLoad | Dalamud/Interface/Internal/Windows/Settings/Tabs/SettingsTabAutoUpdate.cs:238-262 | saving right after loading writes back what was loaded, except that a null behaviour becomes None |
| AutoUpdateSettings.LoadAfterSave | Dalamud/Interface/Internal/Windows/Settings/Tabs/SettingsTabAutoUpdate.cs:238-262 | loading what was just saved gives the tab's values back exactly |
| AutoUpdateSettings.ReloadRoundTrip | Dalamud/Interface/Internal/Windows/Settings/Tabs/SettingsTabAutoUpdate.cs:238-262 | Load then Save on a configuration object leaves it as it was, except that a null behaviour becomes None |
| AutoUpdateSettings.PickAfterLoad | Dalamud/Interface/Internal/Windows/Settings/Tabs/SettingsTabAutoUpdate.cs:246 | after Load, a plugin picked in the tab is in the configuration's list at once, before any Save |
| GameFonts.FontCode | Dalamud/Interface/GameFonts/GameFontFamilyAndSizeAttribute.cs:20-26 | a font code, when there is one, is a non-empty lower-case word |
| GameFonts.FontCodeInjective | Dalamud/Interface/GameFonts/GameFontFamilyAndSizeAttribute.cs:20-26 | two languages with the same font code are the same language |
| GameFonts.FontCodeDomain | Dalamud/Interface/GameFonts/GameFontFamilyAndSizeAttribute.cs:20-26 | exactly ChineseSimplified, Korean and TraditionalChinese have a font code |
| GameFonts.FirstMatch | Dalamud/Interface/GameFonts/GameFontFamilyAndSizeAttribute.cs:39-47 | gives the first table entry whose AXIS file the path contains, or none when no entry matches |
| GameFonts.Localized | Dalamud/Interface/GameFonts/GameFontFamilyAndSizeAttribute.cs:18-53 | the offset is kept; with no font code both paths are kept; the path only changes together with the texture format becoming the localised one |
| GameFonts.NewGameFontFamilyAndSize | Dalamud/Interface/GameFonts/GameFontFamilyAndSizeAttribute.cs:18-53 | the constructor's scan-and-break loop builds exactly the first-match result `Localized` |
| GameFonts.FirstMatchWins | Dalamud/Interface/GameFonts/GameFontFamilyAndSizeAttribute.cs:39-46 | with a font code, the first matching entry decides both paths, whatever later entries also match |
| GameFonts.NoMatchKeepsPaths | Dalamud/Interface/GameFonts/GameFontFamilyAndSizeAttribute.cs:39-51 | when no entry matches, both paths are kept, even with a font code |
| GameFonts.StandardSizeRemapped | Dalamud/Interface/GameFonts/GameFontFamilyAndSizeAttribute.cs:30-44 | the AXIS file of size 12, 14, 18 or 36 becomes the localised file of the same size, with the localised texture format |
| GameFonts.Size96RemappedTo12 | Dalamud/Interface/GameFonts/GameFontFamilyAndSizeAttribute.cs:36-44 | `common/font/AXIS_96.fdt` becomes `common/font/{code}axis_120.fdt` |
| GameFonts.LocalePathMatchesNothing | Dalamud/Interface/GameFonts/GameFontFamilyAndSizeAttribute.cs:41-43 | no localised path contains any AXIS name of the table: those names have an upper-case A and the localised ones have none |
| GameFonts.LocalizedIdempotent | Dalamud/Interface/GameFonts/GameFontFamilyAndSizeAttribute.cs:39-51 | building the attribute again from its own paths gives the same attribute |

## Left out

- Which plugins get updated, notified or skipped. The updater that reads these settings is not part of this model. Nothing here decides on updates.
- Drawing is left out: text, colours, layout arithmetic, icons, tooltips, the `UpdateAll` warning and the localised strings (`Loc.Localize`, `OptKindToString`).
- The three checkboxes are left out because they are ImGui widgets. The flags are modelled as fields that `Load` and `Save` copy.
- The `PluginImageCache` and `PluginManager.InstalledPlugins` lookups are left out. They only decide how a row is drawn. The user's input for each row is a `RowInput` parameter.
- `DalamudComponents.DrawPluginPicker` and the picker's search text are not modelled. The picker's predicate `IsPluginDisabled` is modelled, but not how the picker uses it.
- `AutoUpdateSettings.SettingsTabAutoUpdates.IsPluginFiltered` is the one-line predicate `!plugin.IsDev` of SettingsTabAutoUpdate.cs:221. Nothing is proved about it, because the picker that uses it is not part of this model.
- `Service<DalamudConfiguration>.Get()` is left out. The configuration object is a parameter.
- `base.Load`, `base.Save` and persistence of the configuration are left out, because their code is not shown.
- `AutoUpdateSettings.SettingsTabAutoUpdates.OnPluginPicked`: the kind of a new entry is the `newKind` parameter. The `AutoUpdatePreference` constructor that picks the default is not part of this model.
- `AutoUpdateSettings.PreferenceList.SetKind`: entries are values stored in the shared list. In C# they are objects, assigned through `preference.Kind = kind`. Aliasing of one preference object from two lists is not modelled.
- `AutoUpdateSettings.IntToBehavior`: a C# cast of an int outside 0..3 gives an unnamed enum value. The model gives `None` (no value) instead.
- `AutoUpdateSettings.AutoUpdateBehavior` and `AutoUpdateSettings.OptKind` hold only their named values, while the C# enums can hold any int, and a deserialised configuration can supply one. Two behaviours are lost:
  - An entry with an unnamed `OptKind` makes `OptKindToString` throw `ArgumentOutOfRangeException` (SettingsTabAutoUpdate.cs:170) when its combo box is drawn (:175). That aborts the draw pass after the earlier rows' kind edits and before the deferred `RemoveAll` (:202-205). `DrawPass` and `DrawPreferenceRows` always reach the removal.
  - An unnamed behaviour loaded at :242 stays in `behaviorInt` when no radio button is clicked (:53), passes through the cast at :58 and is written back by `Save` (:255). `Loaded`, `DrawBehaviorRadioButtons` and `Saved` cannot represent it.
- The `ClientLanguage` enum is not part of this model. Only the three localised languages are named in the code; the model adds Japanese, English, German and French as the other values.
- `DalamudStartInfo.DefaultLanguage` is a parameter in the model.
- The later `string.Format` use of `TexPathFormat` is not modelled.
- `null` path arguments are not modelled. `Contains` would throw on them.
- The add step does not de-duplicate, and setting a kind has no "not found" error, because the code has neither. The model follows the code.
