# Story layer of the exthird MUD, modelled in Dafny

This project models the character-sheet rules of `world/story/`. That layer turns a player's
command into rows of two kinds. **Catalog rows** define things: stats addressed by a path such
as `Abilities/Brawl`, powers and merits. **Ledger rows** bind one owner to one catalog row and
hold a value and two flags.

All tables live in one `Store` object as maps keyed by their uniqueness keys. `Store.Valid`
states that every row sits under its own key and that every foreign key points at an existing
row (`on_delete=PROTECT` and `CASCADE`). The handlers are classes over that store. Each one's
methods state, case by case:
- the error it raises;
- which tables it may write;
- the exact new contents of those tables, stated through a few specification functions
  (`GetOrCreate`, `WriteEntry`, `WritePurchase`, `WriteValues`, `PowerGroups`, `MeritGroups`).

The lemmas prove what those functions promise:
- get-or-create is idempotent;
- a setter touches one column of one row;
- a later write wins;
- grouping files every owned row once, in order;
- the fixed name tables are distinct and sorted;
- favouring keeps Brawl and Martial Arts from both being picked.

Files:
- `utils.dfy` holds `Option`, and the two helpers of the surrounding code as parameters.
  `dramatic_capitalize` is assumed nothing. `partial_match` is assumed only to return nothing
  or a member of the list it was given.
- `exceptions.dfy` has one error constructor per distinct `raise`, plus `Result`.
- `ordering.dfy` is the sort order of `order_by`, a sort, and grouping.
- `tables.dfy` holds the name tables of `__init__.py`.
- `models.dfy` holds the rows of `models.py` and the store.
- `base.dfy` holds `BaseHandler` and `StatHandler`.
- `stats.dfy` holds the family rules, `AbilityHandler.favor` and `CraftHandler.set`.
- `powers.dfy` holds Charms, Spells, Evocations and Merits.
- `templates.dfy` holds templates and the template handler.

Several points need reading before the table:
- **Family handlers.** `AttributeHandler`, `AbilityHandler` (for `set`) and `StyleHandler`
  are one `StatHandler` class with a `StatFamily` value. The value selects the overridden
  `options`, `valid_value`, `can_set` and `base_path`.
- **Power handlers.** `CharmHandler`, `SpellHandler` and `EvocationHandler` are one
  `PowerNameHandler` with a `PowerFamily` value.
- **Catalog key.** A catalog row is found by its capitalised path: the `name_1`..`name_n`
  columns `stat_row` filters on. The key is a map from segment index to name, so "at most one
  row per path" holds by construction.
- **Ledger keys.** A ledger row is keyed by (owner, path). Powers are keyed by
  (root, category, subcategory, name), and merits by (category, name).
- **Sort order.** Code-point lexicographic order stands in for the database collation of
  `order_by`.

Three behaviours that follow the code and that a reader may not expect:
- A power or merit purchase **overwrites** the stored value (`powers.py:77-79`). It does not
  add to it.
- A failing operation may still leave a catalog row behind. `stat_row` (or `get_power` /
  `get_or_create` of the purchase row) runs before the negative-value check, so the rows it
  created stay. This applies to Styles via `set`, and to `favor`, Crafts, powers and
  merits.
- A negative power or merit value is refused by the column's non-negative CHECK constraint
  when the row is saved, after both get-or-creates (`CheckConstraint`). For stats it is
  refused by `set_base` before the ledger row is created.

## Model

| member | source | states |
|---|---|---|
| StoryTables.AttributesAreNineDistinct | world/story/__init__.py:1-2 | the Attribute list has nine names and no repeats |
| StoryTables.PsmPartitionsAttributes | world/story/__init__.py:4-8 | physical, social and mental have three names each, share none, and together are exactly the Attributes |
| StoryTables.AbilitiesAreSortedAndDistinct | world/story/__init__.py:10-12 | the Ability list has 26 names, each sorting strictly after the one before, hence none repeated |
| StoryTables.SpecialAbilitiesListed | world/story/__init__.py:10-12 | Brawl, Martial Arts and Craft, the names the Ability rules single out, are Abilities |
| StoryModels.SetField | world/story/models.py:21-27 | the written column reads back the new value and every other column keeps its old value |
| StoryModels.GetOrCreate | world/story/models.py:12-18 | a get-or-create on a uniquely keyed table finds the existing row or adds exactly one, keeping every other row |
| StoryModels.GetOrCreateIdempotent | world/story/base.py:18-27 | a second get-or-create of the same key finds the row the first returned, so the same path yields the same catalog row |
| StoryModels.WriteEntry | world/story/models.py:21-33 | get-or-create of the owner's row (value 0, flags 0 when new) then one column write: the key exists afterwards, it holds the written value in that column, and every other row is untouched |
| StoryModels.CascadeSpecialties | world/story/models.py:36-39 | deleting a ledger row removes exactly that row's specialties and every other specialty keeps its value |
| StoryModels.WritePurchase | world/story/models.py:62-74 | a purchase row is created with value 1 and flags 0 when absent; the value is then overwritten, the flags are kept, and no other row changes |
| StoryModels.WriteValuesFrame | world/story/templates.py:22-33 | a run of value writes adds exactly the written keys and leaves every unwritten row unchanged |
| StoryModels.WriteValuesLastWins | world/story/templates.py:30-33 | a key ends holding the value of the last write to it |
| StoryModels.WriteValuesSomeWrite | world/story/templates.py:22-25 | every written key ends holding one of the values written to it at or after that write |
| StoryModels.WriteValuesKeepsFlags | world/story/templates.py:22-33 | value writes never change a flag: an existing row keeps both flags and a created row has both at 0 |
| StoryModels.CreateRowsKeys | world/story/templates.py:22-33 | a run of catalog get-or-creates leaves exactly the old rows plus the requested paths |
| StoryModels.CreateRowsRows | world/story/templates.py:22-33 | that run keeps every old row as it was and creates each new path as a bare row without creator |
| StoryModels.Store.constructor | world/story/models.py:12-101 | an empty store satisfies every key and foreign-key constraint |
| StoryBase.PathNamesSize | world/story/base.py:12-16 | the lookup key of an n-segment path has exactly n columns |
| StoryBase.PathNamesEqual | world/story/base.py:12-16 | two paths name the same catalog row exactly when they have the same depth and capitalise alike segment by segment |
| StoryBase.ValidValue | world/story/base.py:61-66 | parsing succeeds exactly on whole numbers, yielding that number; anything else is the "must be a number" error |
| StoryBase.CatalogAfterStatRowAsWritten | world/story/base.py:18-27 | with the creator as a lookup column, the lookup fails exactly when the path already exists under a different creator |
| StoryBase.StatRowAsWrittenRejectsSecondCreator | world/story/base.py:22-24 | as written, a path one character created is refused with an integrity error for a second creator, while the lookup by path alone finds the existing row |
| StoryBase.BaseHandler.ProcessPath | world/story/base.py:12-16 | one key per segment, key i holding the capitalised segment i, and nothing else |
| StoryBase.BaseHandler.StatRow | world/story/base.py:18-27 | more than four segments fails before the catalog is touched; otherwise get-or-create of the path's row, with the creator recorded only on a row it creates, and the store stays consistent |
| StoryBase.BaseHandler.StatRowAsWritten | world/story/base.py:18-27 | the same, with the creator taking part in the lookup: a clash with an existing row of another creator fails and writes nothing |
| StoryBase.BaseHandler.GoodName | world/story/base.py:29-35 | fails exactly when the capitalised name is empty or longer than the limit (80 by default), with the matching error; otherwise returns the capitalised name |
| StoryBase.BaseHandler.SetBase | world/story/base.py:37-41 | a negative value fails with no ledger row created; otherwise the owner's row is fetched or created with the defaults |
| StoryBase.BaseHandler.SetColumn | world/story/base.py:43-59 | a negative value fails and writes nothing; otherwise exactly one column of the owner's row changes and every other row is untouched |
| StoryBase.BaseHandler.SetInt | world/story/base.py:43-47 | only the owner's value for that stat changes |
| StoryBase.BaseHandler.SetFlag1 | world/story/base.py:49-53 | only the owner's first flag for that stat changes |
| StoryBase.BaseHandler.SetFlag2 | world/story/base.py:55-59 | only the owner's second flag for that stat changes |
| StatHandlers.StatHandler.FindStat | world/story/base.py:75-81 | an empty name fails; otherwise succeeds exactly when the partial match among the family's options (`StatFamilies.Options`: the Attributes, the Abilities or the styles) is non-empty, returning that option; no match is "not found" |
| StatHandlers.StatHandler.GetValue | world/story/base.py:94-104 | reads only; resolution errors propagate; the owner's stored value when both the catalog row and the owner's row exist, else the default of `default_value` (`DefaultValue`), which is 0 |
| StatHandlers.StatHandler.Set | world/story/base.py:86-92 | validation, then `can_set`, then the write: every refusal before the write changes nothing, a falsy `can_set` returns nothing, and a write makes `GetValue` report the new value; for Abilities nothing is ever written |
| StatFamilies.BasePath | world/story/stats.py:8 | each family stores its stats one segment deep |
| StatFamilies.PathDepth | world/story/stats.py:8 | every stat path a family handler builds has two segments, within the depth limit |
| StatFamilies.ValidValue | world/story/stats.py:13-17 | Attributes accept exactly the whole numbers of at least 1, refusing smaller ones with "below 1"; other families accept any whole number |
| StatFamilies.LinkAbilSymmetric | world/story/stats.py:22-23 | the link pairs two distinct Abilities, each pointing back at the other |
| StatFamilies.CanSet | world/story/stats.py:29-31 | Attributes and Styles may always be set; for Abilities it fails exactly on Craft and Martial Arts and otherwise answers no |
| Stats.AbilityHandler.FavorKeepsExclusion | world/story/stats.py:36-43 | a flag write the guard lets through never leaves Brawl and Martial Arts both favoured when they were not before |
| Stats.AbilityHandler.Favor | world/story/stats.py:33-43 | resolution and parse errors change nothing; a positive favour of a linked Ability whose partner is favoured fails, writing no ledger row; otherwise only the chosen Ability's first flag changes; the exclusion is preserved |
| Stats.AbilityHandler.LinkedPicked | world/story/stats.py:36-41 | for a positive favour of a linked Ability, the partner's catalog row is fetched or created and the answer is whether the owner has favoured it; otherwise nothing is touched |
| Stats.CraftHandler.Set | world/story/stats.py:56-68 | name and parse errors change nothing; a non-zero value gets or creates `Crafts/<name>` with the creator; a negative value then fails; a positive value is written; zero deletes the owner's row and its specialties, keeps every other specialty's value, returns the deleted row, and deletes the catalog row once no owner uses it; the row is fetched with the corrected `StatRow`, so a second creator of the same Craft succeeds |
| Stats.CraftHandler.Forget | world/story/stats.py:62-68 | the owner's row and its specialties are removed, every other row is kept, and the catalog row goes exactly when no ledger row references it |
| Ordering.AscendingIsOrdered | world/story/__init__.py:10-12 | a list whose neighbours ascend is ordered throughout and has no repeats |
| Ordering.SortByKey | world/story/powers.py:82-83 | the rows of a set listed in strictly ascending order of a sort key that tells them apart, each row exactly once |
| Ordering.GroupMembers | world/story/powers.py:85-89 | a group holds exactly the listed rows with its key |
| Ordering.GroupCounts | world/story/powers.py:85-89 | a row appears in its group as often as in the list, and in no other group |
| Ordering.GroupSorted | world/story/powers.py:85-89 | filtering a list ordered by a sort key keeps it ordered |
| Powers.Keys | world/story/powers.py:49 | the keys of a category table, one per entry, in order |
| Powers.Lookup | world/story/powers.py:55 | a category table lookup finds an allow-list exactly for its keys |
| Powers.LookupFindsFirst | world/story/powers.py:55 | what the lookup finds is the list of an entry with that key, and no earlier entry has the key |
| Powers.CategoryKeysDistinct | world/story/powers.py:12-33 | no two entries of the Charm or Spell table share a key, and no Merit category (`powers.py:122`) repeats |
| Powers.LookupFindsEntry | world/story/powers.py:55 | on the Charm and Spell tables the lookup of every entry's key finds that entry's list, as `dict.get` does |
| Powers.LookupAt | world/story/powers.py:12-28 | an entry no earlier entry shares a key with is what the lookup finds |
| Powers.SpellCategoryLists | world/story/powers.py:30-33 | Spells file under Sorcery (Terrestrial, Celestial, Solar) and Necromancy (Ivory, Shadow, Void) |
| Powers.CharmCategoryLists | world/story/powers.py:12-28 | the Charm table has 14 main categories, files Solar Charms under the Abilities and Martial Arts Charms under the Styles |
| Powers.Base | world/story/powers.py:95-112 | every power family files its rows under Charms, Spells or Evocations |
| Powers.BasesDistinct | world/story/powers.py:95-112 | two families share a root exactly when they are the same family, so their rows never mix |
| Powers.PowerSortKeyDistinguishes | world/story/models.py:55-56 | under one root the sort columns of `all()` tell purchases of different powers apart |
| Powers.PowerNameHandler.GetMainCategory | world/story/powers.py:45-52 | Evocations always use "Evocations"; otherwise no category takes the family's default (`DefaultCategory`: the native Charm category, Sorcery for Spells) and a given one partial-matches among the keys of the family's table (`Root`), and an empty result fails |
| Powers.PowerNameHandler.GetSubCategory | world/story/powers.py:54-61 | Evocations take any good name; otherwise a missing allow-list, an empty name and no match each fail with their own error, and a result is always a member of the main category's allow-list |
| Powers.PowerNameHandler.Resolve | world/story/powers.py:71-75 | succeeds exactly when main category, sub-category, name and value all resolve, in that order, yielding the definition key and the value; the name is at most 80 characters |
| Powers.PowerNameHandler.GetPower | world/story/powers.py:63-69 | get-or-create on (root, category, subcategory, name), recording the owner as creator only on a row it creates |
| Powers.PowerNameHandler.Set | world/story/powers.py:71-80 | a resolution failure writes nothing; otherwise the definition and the owner's row are fetched or created and the row's value is overwritten, not added to |
| Powers.PowerNameHandler.Purchase | world/story/powers.py:77-80 | the owner's purchase row is fetched or created and its value overwritten, flags kept; a negative value is refused at save |
| Powers.PowerNameHandler.All | world/story/powers.py:82-83 | exactly the owner's purchases in this family, strictly ordered by category, sub-category, name |
| Powers.PowerNameHandler.AllMain | world/story/powers.py:85-89 | every owned row sits under its category and sub-category, each group holds exactly that pair's rows in the order of `all()`, and no group is empty |
| Powers.PowerGroupKeyParts | world/story/powers.py:88 | the two-level group key names exactly the category and sub-category |
| Powers.PowerGroupsCover | world/story/powers.py:85-89 | the nested grouping files every row and leaves no category empty |
| Powers.PowerGroupsAreGroups | world/story/powers.py:85-89 | each group of the nested grouping is exactly the rows with that category and sub-category, in list order, and never empty |
| Powers.PowerGroupsOfSorted | world/story/powers.py:85-89 | grouping the ordered list of `all()` files every row under its category and sub-category, leaves no level empty, and gives each pair exactly its listed rows, still ordered |
| Powers.MeritSortKeyDistinguishes | world/story/models.py:82-83 | the sort columns of the Merit `all()` tell Merits apart |
| Powers.MeritHandler.GetMainCategory | world/story/powers.py:125-135 | no category means "General" (`MeritHandler.DefaultCategory`); a given one succeeds exactly on a non-empty partial match among the seven Merit categories |
| Powers.MeritHandler.Resolve | world/story/powers.py:144-147 | succeeds exactly when category, name and value resolve, yielding the Merit key and value |
| Powers.MeritHandler.GetMerit | world/story/powers.py:137-142 | get-or-create on (category, name), recording the owner as creator only on a row it creates |
| Powers.MeritHandler.Set | world/story/powers.py:144-152 | a resolution failure writes nothing; otherwise the Merit and the owner's row are fetched or created and the value overwritten |
| Powers.MeritHandler.Purchase | world/story/powers.py:149-152 | the owner's Merit row is fetched or created and its value overwritten, flags kept; a negative value is refused at save |
| Powers.MeritHandler.All | world/story/powers.py:154-155 | exactly the owner's Merits, strictly ordered by category and name |
| Powers.MeritHandler.AllMain | world/story/powers.py:157-161 | every owned Merit sits under its category, each group holds exactly that category's Merits in the order of `all()`, and none is empty |
| Powers.MeritGroupKeyParts | world/story/powers.py:160 | the group key names exactly the category |
| Powers.MeritGroupsAreGroups | world/story/powers.py:157-161 | the grouping files every row and each group is exactly its category's rows in list order, never empty |
| Templates.TemplateRepr | world/story/templates.py:54-62 | the name (`GetName`, standing for both `get_name` and `__str__`: the `name` attribute, else the class name) wrapped in `<Template: ...>`, from which it can be read back |
| Templates.RegistryKeys | world/story/templates.py:73-74 | the registered keys, one per template, in order |
| Templates.Find | world/story/templates.py:78 | the lookup finds a template exactly for registered keys, and what it finds is registered under that key |
| Templates.Template.SetSub | world/story/templates.py:15-20 | an empty entry and no match each fail leaving the owner unchanged; otherwise the matched sub-type, a member of the list, is stored on the owner |
| Templates.Template.InitializeTemplate | world/story/templates.py:35-37 | the first sub-type when there is one, else the owner is unchanged |
| Templates.Template.StartWrites | world/story/templates.py:22-33 | one value write per pair, in order, at `group/name` |
| Templates.Template.StartPaths | world/story/templates.py:22-33 | one path `group/name` per pair, in order |
| Templates.Template.WriteStartingValues | world/story/templates.py:22-33 | the ledger becomes the in-order run of those writes and the catalog the in-order run of get-or-creates of those paths: exactly the started rows are added, no other row changes, no flag changes |
| Templates.Template.WriteStartingValue | world/story/templates.py:25 | one step: the catalog row `group/name` is fetched or created and the owner's value set |
| Templates.Template.StartingRunLedger | world/story/templates.py:22-33 | the run of starting writes adds exactly the started keys, keeps every other row and changes no flag |
| Templates.Template.StartingRunCatalog | world/story/templates.py:22-33 | the run of starting get-or-creates adds exactly the started paths as bare rows and keeps every other row |
| Templates.AttributeStarts | world/story/templates.py:24-25 | the Attribute run pairs each Attribute, in order, with 1 |
| Templates.AttributeStartsNames | world/story/templates.py:24-25 | a pair of that run names an Attribute, and every Attribute has its pair |
| Templates.Template.AttributeRunNames | world/story/templates.py:24-25 | the Attribute run touches exactly the owner's `Attributes/<name>` rows and paths |
| Templates.Template.AttributeRunSetsOne | world/story/templates.py:24-25 | after the Attribute run every Attribute row of the owner holds 1 |
| Templates.Template.InitializeAttributes | world/story/templates.py:22-25 | every Attribute of the owner ends at 1; the ledger gains exactly the owner's Attribute rows and the catalog exactly the Attribute paths; no other row and no flag changes |
| Templates.Template.InitializeAbilities | world/story/templates.py:27-28 | nothing changes |
| Templates.Template.InitializeAdvantages | world/story/templates.py:30-33 | each starting Advantage holds the value of the last pair naming its row; the ledger gains exactly the owner's Advantage rows and the catalog exactly the Advantage paths; no other row and no flag changes |
| Templates.Template.Initialize | world/story/templates.py:39-68 | the class defines `initialize` twice (lines 39-43 and 67-68) and the second, empty definition is the one in effect: nothing changes |
| Templates.TemplateHandler.constructor | world/story/templates.py:76-78 | the template is the class registered under the owner's stored key, "Mortal" when none is stored |
| Templates.TemplateHandler.Str | world/story/templates.py:80-81 | the template's name wrapped in `<TemplateHandler: ...>`, from which it can be read back |
| Templates.TemplateHandler.Set | world/story/templates.py:83-90 | an empty name and no match each fail keeping the template; otherwise a new instance of the matched class replaces it; neither owner nor store changes |

## Left out

- `partial_match` and `dramatic_capitalize`: their code is not part of this model. They are parameters, with only the property stated above assumed of `partial_match`.
- Database mechanics: `get_or_create`, `save`, `delete`, `filter` and `order_by` become map operations. Concurrency, transactions and the races a unique constraint resolves are not modelled.
- Collation: `order_by` sorts by code point, not by the database's collation.
- `int(value)`: the argument is abstracted as a `RawValue`, a whole number or `Unparsable`, the text `int` refuses with a `ValueError`. A `None` argument, which `editor.py:121` can pass, raises an uncaught `TypeError` in the source; the model has no value for it.
- Path lookup: `filter(**names)` matches on the columns it is given, so a shorter path could match a deeper row. The model keys the catalog by the exact path. Every path the handlers build has two segments, so the two agree for them.
- Stats.CraftHandler.Set: it uses the corrected `StatRow`. As written, `stat_row` looks up with the creator, so a second character setting an existing Craft raises an integrity error (see Findings).
- Crash-level inconsistencies are resolved to one consistent shape, and the crashes are not modelled:
  - `base.py` imports a `StorytellerStat` model that does not exist. Its path catalog (`name_1`..`name_4`, up to four levels) is used in place of the `(category, name)` columns of `Stat`.
  - The handlers assign `stat_value`/`stat_flag_1`/`stat_flag_2` and read `story_stats`. These are taken as the `value`/`flag_1`/`flag_2` columns and the owner's stat rows.
  - `valid_value` is called with one argument in `powers.py` against a two-argument signature. It is taken as the ordinary integer parse.
  - `sub_category` is taken as the `subcategory` column.
  - `order_by` is called with a list (`powers.py:83`, `powers.py:155`) instead of separate field names. It is taken as ordering by those fields in turn.
  - `all_main` groups by `x.stat.name_2` and `x.stat.name_3` (`powers.py:88`, `powers.py:160`), columns the power and Merit rows do not have. They are taken as the category and sub-category (for Merits, the category).
  - `get_merit` passes a `root` that `Merit` does not have, so Merits are keyed by (category, name).
  - The "no valid Main Category" message of `MeritHandler` refers to an undefined `stat_type`. It is modelled as the same error as for powers.
- Undefined names become parameters:
  - `MA_STYLES` and `STYLES` are the `styles` of `StatFamily.Styles` and `PowerFamily.Charms`.
  - The template registry `TEMPLATES` is the `registry` of `TemplateHandler`.
  - The owner's native Charm category (from `story_template.template.native_charm_category()`, which is not part of this model) is the `nativeCategory` of `PowerFamily.Charms`.
- `_ATTRIBUTES`, `st_attributes` and `st_advantages` are undefined. `initialize_attributes` and `initialize_advantages` are modelled as writing the owner's values at `Attributes/<name>` and `Advantages/<name>` through `stat_row` and `set_int`.
- Templates.TemplateHandler.constructor: requires the stored (or default) key to be registered, because the source calls the result of a failed lookup and crashes.
- Templates.TemplateHandler.Set: the chosen template key is not stored on the owner, as in the source. A new handler therefore reads the old key.
- `Template.initialize`: the second, empty definition shadows the first, so `Initialize` does nothing. The sequence `initialize_template`, `initialize_attributes`, `initialize_abilities`, `initialize_advantages` exists only as the separate methods.
- `pool_personal_max`, `pool_peripheral_max`, `pool_overdrive_max`: these bodies are empty and return nothing. `sheet_colors` is presentation only.
- `CharacterTemplate`: no handler reads or writes it. The owner's stored template key (`Character.template`) is what `TemplateHandler` consults.
- `extra` JSON columns and the `__str__` methods of the rows: nothing in the handlers reads them.
- `CharacterSpecialty`: it is modelled as a table that cascades when a Craft row is deleted. No handler shown creates specialties, so the column default of 1 for a new specialty is not modelled.
- Favoured, Caste and Supernal budgets and derived maxima are not implemented in the handlers and are not modelled.

## Findings

| source | as written | input that shows it | evidently intended | confidence | as-written member | corrected member |
|---|---|---|---|---|---|---|
| world/story/base.py:22-24 | `stat_row` adds the creator to the `get_or_create` lookup columns, so an existing path coined by another character is not found and the insert collides with it on the unique path | character 1 sets Craft "Weaponsmithing" to 2 (row created with creator 1); character 2 then sets the same Craft, passing creator 2: the lookup misses and the insert is an integrity error | look the row up by path alone and record the creator only on a row it creates, as `get_power` does | not executed | StoryBase.StatRowAsWrittenRejectsSecondCreator | StoryBase.BaseHandler.StatRow |
