/**
 * world/story/powers.py: Charms, Spells and Evocations (one handler shape over
 * three families) and Merits. A purchase resolves a main category and a
 * sub-category against the family's allow-lists, gets or creates the definition
 * row, gets or creates the owner's purchase row and overwrites its value.
 */
module Powers {
  import opened Utils
  import opened StoryErrors
  import opened StoryModels
  import opened StoryBase
  import opened Ordering
  import StoryTables

  /** A category table in declaration order: main category and its allowed sub-categories. */
  type Categories = seq<(string, seq<string>)>

  const EssenceCharms: seq<string> := ["Essence"]
  const ExigentCharms: seq<string> := StoryTables.Attributes + StoryTables.Abilities + EssenceCharms

  /** `CHARM_CATEGORIES`; the Martial Arts Style names it refers to are not defined in the source and are a parameter. */
  function CharmCategories(styles: seq<string>): Categories {
    [ ("Solar", StoryTables.Abilities),
      ("Abyssal", StoryTables.Abilities),
      ("Lunar", StoryTables.Attributes + ["Universal"]),
      ("Dragon-Blooded", StoryTables.Abilities),
      ("Martial Arts", styles),
      ("Sidereal", StoryTables.Abilities),
      ("Liminal", StoryTables.Attributes),
      ("Getimian", StoryTables.Attributes),
      ("Celestial Exigent", ExigentCharms),
      ("Terrestrial Exigent", ExigentCharms),
      ("Spirit", ["Universal", "Blessings", "Divinations", "Sendings", "Divine Works", "Eidola", "Relocations",
                  "Enchantments", "Inhabitings", "Tantra", "Aegis", "Curses", "Edges"]),
      ("Dream-Souled", ["Illusion and Transformation", "Offensive", "Defensive", "Social", "Mobility and Travel"]),
      ("Hearteater", ["Pawn", "Offensive", "Defensive", "Social", "Mobility and Travel", "Mysticism"]),
      ("Umbral", ["Penumbra", "Darkness", "Offensive", "Defensive", "Social", "Mobility and Travel"]) ]
  }

  /** `SPELL_CATEGORIES`. */
  const SpellCategories: Categories := [
    ("Sorcery", ["Terrestrial", "Celestial", "Solar"]),
    ("Necromancy", ["Ivory", "Shadow", "Void"])
  ]

  /** `MeritHandler.root`: the flat list of Merit categories. */
  const MeritCategories: seq<string> :=
    ["General", "Artifact", "Language", "Shaping Ritual", "Mutation", "Familiar", "Social"]

  /** The keys of a category table, in order (`root.keys()`). */
  function Keys(t: Categories): (r: seq<string>)
    ensures |r| == |t|
    ensures forall i :: 0 <= i < |t| ==> r[i] == t[i].0
  {
    if t == [] then [] else [t[0].0] + Keys(t[1..])
  }

  /**
   * `root.get(key)`: the allow-list of the entry with that key. The tables are
   * dict literals whose keys are distinct (`CategoryKeysDistinct`), so the
   * first entry with a key is the only one.
   */
  function Lookup(t: Categories, key: string): (r: Option<seq<string>>)
    ensures r.Some? <==> key in Keys(t)
  {
    if t == [] then None
    else if t[0].0 == key then Some(t[0].1)
    else
      assert Keys(t) == [t[0].0] + Keys(t[1..]);
      Lookup(t[1..], key)
  }

  /** What `root.get` finds is the list of an entry with that key, and no earlier entry has it. */
  lemma {:induction false} LookupFindsFirst(t: Categories, key: string)
    requires key in Keys(t)
    ensures exists i :: 0 <= i < |t| && t[i] == (key, Lookup(t, key).value) && forall j :: 0 <= j < i ==> t[j].0 != key
    decreases |t|
  {
    if t[0].0 != key {
      assert Keys(t) == [t[0].0] + Keys(t[1..]);
      LookupFindsFirst(t[1..], key);
      var i :| 0 <= i < |t[1..]| && t[1..][i] == (key, Lookup(t[1..], key).value) && forall j :: 0 <= j < i ==> t[1..][j].0 != key;
      assert t[i + 1] == t[1..][i];
      forall j | 0 <= j < i + 1 ensures t[j].0 != key {
        if j > 0 { assert t[j] == t[1..][j - 1]; }
      }
    } else {
      assert t[0] == (key, Lookup(t, key).value);
    }
  }

  /** Every sub-category a Spell can be filed under, by main category. */
  lemma SpellCategoryLists()
    ensures Keys(SpellCategories) == ["Sorcery", "Necromancy"]
    ensures Lookup(SpellCategories, "Sorcery") == Some(["Terrestrial", "Celestial", "Solar"])
    ensures Lookup(SpellCategories, "Necromancy") == Some(["Ivory", "Shadow", "Void"])
  {
  }

  /** An entry no earlier entry shares a key with is what `root.get` finds for that key. */
  lemma {:induction false} LookupAt(t: Categories, i: nat)
    requires i < |t| && forall j :: 0 <= j < i ==> t[j].0 != t[i].0
    ensures Lookup(t, t[i].0) == Some(t[i].1)
    decreases i
  {
    if i > 0 {
      forall j | 0 <= j < i - 1 ensures t[1..][j].0 != t[1..][i - 1].0 {
        assert t[1..][j] == t[j + 1];
      }
      LookupAt(t[1..], i - 1);
    }
  }

  /** No two entries of the Charm or Spell table share a key, and no Merit category repeats. */
  lemma CategoryKeysDistinct(styles: seq<string>)
    ensures forall i, j :: 0 <= i < j < |CharmCategories(styles)| ==> CharmCategories(styles)[i].0 != CharmCategories(styles)[j].0
    ensures forall i, j :: 0 <= i < j < |SpellCategories| ==> SpellCategories[i].0 != SpellCategories[j].0
    ensures forall i, j :: 0 <= i < j < |MeritCategories| ==> MeritCategories[i] != MeritCategories[j]
  {
  }

  /** Hence every entry of the Charm and Spell tables is what `root.get` finds for its key. */
  lemma LookupFindsEntry(styles: seq<string>)
    ensures forall i :: 0 <= i < |CharmCategories(styles)| ==>
      Lookup(CharmCategories(styles), CharmCategories(styles)[i].0) == Some(CharmCategories(styles)[i].1)
    ensures forall i :: 0 <= i < |SpellCategories| ==> Lookup(SpellCategories, SpellCategories[i].0) == Some(SpellCategories[i].1)
  {
    CategoryKeysDistinct(styles);
    forall i | 0 <= i < |CharmCategories(styles)|
      ensures Lookup(CharmCategories(styles), CharmCategories(styles)[i].0) == Some(CharmCategories(styles)[i].1)
    {
      LookupAt(CharmCategories(styles), i);
    }
    forall i | 0 <= i < |SpellCategories|
      ensures Lookup(SpellCategories, SpellCategories[i].0) == Some(SpellCategories[i].1)
    {
      LookupAt(SpellCategories, i);
    }
  }

  /** The Charm table files Solar Charms under the Abilities and Martial Arts Charms under the Styles. */
  lemma CharmCategoryLists(styles: seq<string>)
    ensures Lookup(CharmCategories(styles), "Solar") == Some(StoryTables.Abilities)
    ensures Lookup(CharmCategories(styles), "Martial Arts") == Some(styles)
    ensures |Keys(CharmCategories(styles))| == 14
  {
    var t := CharmCategories(styles);
    LookupAt(t, 0);
    assert t[0].0 == "Solar" && t[1].0 == "Abyssal" && t[2].0 == "Lunar" && t[3].0 == "Dragon-Blooded";
    assert t[4] == ("Martial Arts", styles);
    LookupAt(t, 4);
  }

  /** The three families sharing `PowerNameHandler`; a Charm handler's default main category comes from the owner's template. */
  datatype PowerFamily = Charms(nativeCategory: string, styles: seq<string>) | Spells | Evocations

  /** The class attribute `root`: Evocations keep the empty table of the base class. */
  function Root(f: PowerFamily): Categories {
    match f
    case Charms(_, styles) => CharmCategories(styles)
    case Spells => SpellCategories
    case Evocations => []
  }

  /** The class attribute `base`, stored as the `root` column of `Power`. */
  function Base(f: PowerFamily): (r: string)
    ensures r in {"Charms", "Spells", "Evocations"}
  {
    match f
    case Charms(_, _) => "Charms"
    case Spells => "Spells"
    case Evocations => "Evocations"
  }

  /** `default_category`. */
  function DefaultCategory(f: PowerFamily): string {
    match f
    case Charms(native, _) => native
    case Spells => "Sorcery"
    case Evocations => ""
  }

  /** The three families file their powers under different roots, so their rows never mix. */
  lemma BasesDistinct(f: PowerFamily, g: PowerFamily)
    ensures Base(f) == Base(g) <==> f.Charms? == g.Charms? && f.Spells? == g.Spells?
  {
  }

  /** An owner's purchase as the handler lists it: the definition's key and the owner's row. */
  datatype PowerHolding = PowerHolding(power: PowerKey, row: Entry)

  /** `order_by` of `all()`: category, sub-category, name. */
  function PowerSortKey(h: PowerHolding): seq<string> {
    [h.power.category, h.power.subcategory, h.power.name]
  }

  /** The two levels `all_main` groups by. */
  function PowerGroupKey(h: PowerHolding): seq<string> {
    [h.power.category, h.power.subcategory]
  }

  /** Under one root the sort key tells purchases of different powers apart. */
  lemma PowerSortKeyDistinguishes(x: PowerHolding, y: PowerHolding)
    requires x.power.root == y.power.root && PowerSortKey(x) == PowerSortKey(y)
    ensures x.power == y.power
  {
    assert PowerSortKey(x)[0] == PowerSortKey(y)[0];
    assert PowerSortKey(x)[1] == PowerSortKey(y)[1];
    assert PowerSortKey(x)[2] == PowerSortKey(y)[2];
  }

  class PowerNameHandler {
    const base: BaseHandler
    const family: PowerFamily

    constructor (base: BaseHandler, family: PowerFamily)
      ensures this.base == base && this.family == family
    {
      this.base := base;
      this.family := family;
    }

    /**
     * `get_main_category`: Evocations always file under "Evocations"; the
     * others take the default when no category is given and a partial match
     * among the table's keys otherwise, refusing an empty result.
     */
    function GetMainCategory(category: Option<string>): (r: Result<string>)
      ensures family.Evocations? ==> r == Success("Evocations")
      ensures !family.Evocations? && category.None? ==>
        (r.Success? <==> DefaultCategory(family) != "") && (r.Success? ==> r.value == DefaultCategory(family))
      ensures !family.Evocations? && category.Some? ==>
        && (r.Success? <==> Truthy(base.helpers.partialMatch(category.value, Keys(Root(family)))))
        && (r.Success? ==> r.value in Keys(Root(family)) && Some(r.value) == base.helpers.partialMatch(category.value, Keys(Root(family))))
      ensures r.Failure? ==> r.error == NoMainCategory
      ensures family.Spells? && category.None? ==> r == Success("Sorcery")
    {
      if family.Evocations? then Success("Evocations")
      else
        var found := if category.None? then Some(DefaultCategory(family))
                     else base.helpers.partialMatch(category.value, Keys(Root(family)));
        if Truthy(found) then Success(found.value) else Failure(NoMainCategory)
    }

    /**
     * `get_sub_category`: Evocations accept any good name; the others need an
     * allow-list for the main category, a non-empty name and a partial match
     * within that list.
     */
    function GetSubCategory(main: string, name: string): (r: Result<string>)
      ensures family.Evocations? ==> r == base.GoodName(name, MaxNameLength)
      ensures !family.Evocations? ==>
        var cats := Lookup(Root(family), main);
        && (cats.None? || cats.value == [] ==> r == Failure(NoCategories))
        && (cats.Some? && cats.value != [] && name == "" ==> r == Failure(NoSubCategory))
        && (cats.Some? && cats.value != [] && name != "" ==>
              && (r.Success? <==> Truthy(base.helpers.partialMatch(name, cats.value)))
              && (r.Failure? ==> r.error == SubCategoryNotFound))
        && (r.Success? ==> cats.Some? && r.value in cats.value && r.value != "")
    {
      if family.Evocations? then base.GoodName(name, MaxNameLength)
      else
        var cats := Lookup(Root(family), main);
        if cats.None? || cats.value == [] then Failure(NoCategories)
        else if name == "" then Failure(NoSubCategory)
        else
          var found := base.helpers.partialMatch(name, cats.value);
          if Truthy(found) then Success(found.value) else Failure(SubCategoryNotFound)
    }

    /**
     * Everything `set` checks before its first write: main category,
     * sub-category, name and value, in that order; the result is the
     * definition's key and the parsed value.
     */
    function Resolve(sub: string, name: string, raw: RawValue, main: Option<string>): (r: Result<(PowerKey, int)>)
      ensures r.Success? <==>
        && GetMainCategory(main).Success?
        && GetSubCategory(GetMainCategory(main).value, sub).Success?
        && base.GoodName(name, MaxNameLength).Success?
        && raw.Number?
      ensures r.Success? ==>
        && r.value.0 == PowerKey(Base(family), GetMainCategory(main).value,
                                 GetSubCategory(GetMainCategory(main).value, sub).value,
                                 base.GoodName(name, MaxNameLength).value)
        && r.value.1 == raw.n
        && 0 < |r.value.0.name| <= MaxNameLength
      ensures GetMainCategory(main).Failure? ==> r == Failure(NoMainCategory)
    {
      var mc :- GetMainCategory(main);
      var sc :- GetSubCategory(mc, sub);
      var nm :- base.GoodName(name, MaxNameLength);
      var v :- ValidValue(raw);
      Success((PowerKey(Base(family), mc, sc, nm), v))
    }

    /** `get_power`: get or create the definition, recording the owner as creator only on a row it creates. */
    method GetPower(main: string, sub: string, name: string) returns (key: PowerKey)
      requires base.store.Valid()
      modifies base.store`powers
      ensures base.store.Valid()
      ensures key == PowerKey(Base(family), main, sub, name) && key in base.store.powers
      ensures base.store.powers == GetOrCreate(old(base.store.powers), key, PowerRow(key, Some(base.owner.id)))
    {
      key := PowerKey(Base(family), main, sub, name);
      if key !in base.store.powers {
        base.store.powers := base.store.powers[key := PowerRow(key, Some(base.owner.id))];
      }
    }

    /**
     * `set`: resolve everything, then get or create the definition and the
     * owner's purchase row, and overwrite its value (never add to it). A
     * negative value is refused by the column's CHECK constraint when the row
     * is saved, after both get-or-creates.
     */
    method Set(sub: string, name: string, raw: RawValue, main: Option<string>) returns (r: Result<Entry>)
      requires base.store.Valid()
      modifies base.store`powers, base.store`ownedPowers
      ensures base.store.Valid()
      ensures Resolve(sub, name, raw, main).Failure? ==>
        && r == Failure(Resolve(sub, name, raw, main).error)
        && base.store.powers == old(base.store.powers) && base.store.ownedPowers == old(base.store.ownedPowers)
      ensures Resolve(sub, name, raw, main).Success? ==>
        var key, v := Resolve(sub, name, raw, main).value.0, Resolve(sub, name, raw, main).value.1;
        var owned := OwnedPowerKey(base.owner.id, key);
        && base.store.powers == GetOrCreate(old(base.store.powers), key, PowerRow(key, Some(base.owner.id)))
        && (v < 0 ==> r == Failure(CheckConstraint)
                      && base.store.ownedPowers == GetOrCreate(old(base.store.ownedPowers), owned, NewPurchaseEntry))
        && (v >= 0 ==> base.store.ownedPowers == WritePurchase(old(base.store.ownedPowers), owned, v)
                       && r == Success(base.store.ownedPowers[owned]))
    {
      var resolved := Resolve(sub, name, raw, main);
      if resolved.Failure? {
        return Failure(resolved.error);
      }
      var key0, value := resolved.value.0, resolved.value.1;
      var key := GetPower(key0.category, key0.subcategory, key0.name);
      r := Purchase(key, value);
    }

    /** The owner's purchase row of a power: get or create it, then save the value. */
    method Purchase(key: PowerKey, value: int) returns (r: Result<Entry>)
      requires base.store.Valid() && key in base.store.powers
      modifies base.store`ownedPowers
      ensures base.store.Valid()
      ensures var owned := OwnedPowerKey(base.owner.id, key);
        && (value < 0 ==> r == Failure(CheckConstraint)
                          && base.store.ownedPowers == GetOrCreate(old(base.store.ownedPowers), owned, NewPurchaseEntry))
        && (value >= 0 ==> base.store.ownedPowers == WritePurchase(old(base.store.ownedPowers), owned, value)
                           && r == Success(base.store.ownedPowers[owned]))
    {
      var owned := OwnedPowerKey(base.owner.id, key);
      ghost var rows0 := base.store.ownedPowers;
      if owned !in base.store.ownedPowers {
        base.store.ownedPowers := base.store.ownedPowers[owned := NewPurchaseEntry];
      }
      if value < 0 {
        return Failure(CheckConstraint);
      }
      var row := base.store.ownedPowers[owned];
      OverwriteAfterGetOrCreate(rows0, owned, NewPurchaseEntry, row.(value := value));
      base.store.ownedPowers := base.store.ownedPowers[owned := row.(value := value)];
      r := Success(base.store.ownedPowers[owned]);
    }

    /** Whether a holding is one of the owner's purchases in this family. */
    predicate Owns(h: PowerHolding)
      reads base.store
    {
      var owned := OwnedPowerKey(base.owner.id, h.power);
      h.power.root == Base(family) && owned in base.store.ownedPowers && base.store.ownedPowers[owned] == h.row
    }

    /** `all`: the owner's purchases in this family, ordered by category, sub-category and name. */
    method All() returns (rows: seq<PowerHolding>)
      ensures SortedByKey(rows, PowerSortKey)
      ensures forall h :: h in rows <==> Owns(h)
    {
      var held := set k | k in base.store.ownedPowers && k.owner == base.owner.id && k.power.root == Base(family)
        :: PowerHolding(k.power, base.store.ownedPowers[k]);
      forall x, y | x in held && y in held && x != y
        ensures PowerSortKey(x) != PowerSortKey(y)
      {
        if PowerSortKey(x) == PowerSortKey(y) {
          PowerSortKeyDistinguishes(x, y);
        }
      }
      rows := SortByKey(held, PowerSortKey);
    }

    /**
     * `all_main`: the purchases of `all()` grouped by category and then
     * sub-category, each group keeping the order of `all()`.
     */
    method AllMain() returns (out: map<string, map<string, seq<PowerHolding>>>)
      ensures forall c :: c in out ==> out[c] != map[]
      ensures forall c, s :: c in out && s in out[c] ==>
        && out[c][s] != []
        && SortedByKey(out[c][s], PowerSortKey)
        && (forall h :: h in out[c][s] <==> Owns(h) && h.power.category == c && h.power.subcategory == s)
      ensures forall h :: Owns(h) ==> h.power.category in out && h.power.subcategory in out[h.power.category]
    {
      var rows := All();
      out := map[];
      for i := 0 to |rows|
        invariant out == PowerGroups(rows[..i])
      {
        assert rows[..i + 1][..i] == rows[..i];
        var h := rows[i];
        var c, s := h.power.category, h.power.subcategory;
        var inner := if c in out then out[c] else map[];
        var grp := if s in inner then inner[s] else [];
        out := out[c := inner[s := grp + [h]]];
      }
      assert rows[..|rows|] == rows;
      PowerGroupsOfSorted(rows);
    }
  }

  /**
   * Grouping a list ordered by the `all()` key: every row is filed under its
   * category and sub-category, no level is empty, and each group is ordered
   * and holds exactly the listed rows of its pair.
   */
  lemma PowerGroupsOfSorted(rows: seq<PowerHolding>)
    requires SortedByKey(rows, PowerSortKey)
    ensures var out := PowerGroups(rows);
      && (forall c :: c in out ==> out[c] != map[])
      && (forall h :: h in rows ==> h.power.category in out && h.power.subcategory in out[h.power.category])
      && (forall c, s :: c in out && s in out[c] ==>
            && out[c][s] != []
            && SortedByKey(out[c][s], PowerSortKey)
            && (forall h :: h in out[c][s] <==> h in rows && h.power.category == c && h.power.subcategory == s))
  {
    var out := PowerGroups(rows);
    PowerGroupsCover(rows);
    PowerGroupsAreGroups(rows);
    forall c, s | c in out && s in out[c]
      ensures SortedByKey(out[c][s], PowerSortKey)
      ensures forall h :: h in out[c][s] <==> h in rows && h.power.category == c && h.power.subcategory == s
    {
      GroupSorted(rows, PowerGroupKey, [c, s], PowerSortKey);
      GroupMembers(rows, PowerGroupKey, [c, s]);
      forall h ensures PowerGroupKey(h) == [c, s] <==> h.power.category == c && h.power.subcategory == s {
        PowerGroupKeyParts(h, c, s);
      }
    }
    forall h | h in rows
      ensures h.power.category in out && h.power.subcategory in out[h.power.category]
    {
      var j :| 0 <= j < |rows| && rows[j] == h;
    }
  }

  /** A holding's group key names its category and sub-category. */
  lemma PowerGroupKeyParts(h: PowerHolding, c: string, s: string)
    ensures PowerGroupKey(h) == [c, s] <==> h.power.category == c && h.power.subcategory == s
  {
    if PowerGroupKey(h) == [c, s] {
      assert PowerGroupKey(h)[0] == c && PowerGroupKey(h)[1] == s;
    }
  }

  /** The nested grouping `all_main` builds, one row at a time in list order. */
  function PowerGroups(rows: seq<PowerHolding>): map<string, map<string, seq<PowerHolding>>>
    decreases |rows|
  {
    if rows == [] then map[]
    else
      var out := PowerGroups(rows[..|rows| - 1]);
      var h := rows[|rows| - 1];
      var c, s := h.power.category, h.power.subcategory;
      var inner := if c in out then out[c] else map[];
      var grp := if s in inner then inner[s] else [];
      out[c := inner[s := grp + [h]]]
  }

  /** The grouping files every row, and no category is left empty. */
  lemma {:induction false} PowerGroupsCover(rows: seq<PowerHolding>)
    ensures var out := PowerGroups(rows);
      && (forall c :: c in out ==> out[c] != map[])
      && (forall j :: 0 <= j < |rows| ==> rows[j].power.category in out && rows[j].power.subcategory in out[rows[j].power.category])
    decreases |rows|
  {
    if rows != [] {
      var i := |rows| - 1;
      var prev := rows[..i];
      PowerGroupsCover(prev);
      var out := PowerGroups(rows);
      forall j | 0 <= j < |rows|
        ensures rows[j].power.category in out && rows[j].power.subcategory in out[rows[j].power.category]
      {
        if j < i { assert prev[j] == rows[j]; }
      }
    }
  }

  /** Each group of the grouping is exactly the rows with its category and sub-category, in list order. */
  lemma {:induction false} PowerGroupsAreGroups(rows: seq<PowerHolding>)
    ensures var out := PowerGroups(rows);
      forall c, s :: c in out && s in out[c] ==> out[c][s] == Group(rows, PowerGroupKey, [c, s]) && out[c][s] != []
    decreases |rows|
  {
    if rows != [] {
      var i := |rows| - 1;
      var prev := rows[..i];
      PowerGroupsAreGroups(prev);
      var out0 := PowerGroups(prev);
      var h := rows[i];
      var c, s := h.power.category, h.power.subcategory;
      var inner := if c in out0 then out0[c] else map[];
      var grp := if s in inner then inner[s] else [];
      var out := out0[c := inner[s := grp + [h]]];
      assert PowerGroups(rows) == out;
      assert rows[..i + 1] == rows;
      assert out[c][s] == Group(rows, PowerGroupKey, [c, s]) by {
        GroupStep(rows, PowerGroupKey, i, [c, s]);
        if s !in inner {
          PowerGroupsCover(prev);
          forall j | 0 <= j < i ensures PowerGroupKey(prev[j]) != [c, s] {
            PowerGroupKeyParts(prev[j], c, s);
          }
          GroupAbsent(prev, PowerGroupKey, [c, s]);
        }
      }
      forall c', s' | c' in out && s' in out[c']
        ensures out[c'][s'] == Group(rows, PowerGroupKey, [c', s']) && out[c'][s'] != []
      {
        if (c', s') != (c, s) {
          GroupStep(rows, PowerGroupKey, i, [c', s']);
          PowerGroupKeyParts(h, c', s');
        }
      }
    }
  }

  /** An owner's Merit as `MeritHandler` lists it. */
  datatype MeritHolding = MeritHolding(merit: MeritKey, row: Entry)

  /** `order_by` of `MeritHandler.all()`: category, then name. */
  function MeritSortKey(h: MeritHolding): seq<string> {
    [h.merit.category, h.merit.name]
  }

  /** The one level `MeritHandler.all_main` groups by. */
  function MeritGroupKey(h: MeritHolding): seq<string> {
    [h.merit.category]
  }

  /** The sort key tells Merits apart. */
  lemma MeritSortKeyDistinguishes(x: MeritHolding, y: MeritHolding)
    requires MeritSortKey(x) == MeritSortKey(y)
    ensures x.merit == y.merit
  {
    assert MeritSortKey(x)[0] == MeritSortKey(y)[0];
    assert MeritSortKey(x)[1] == MeritSortKey(y)[1];
  }

  class MeritHandler {
    const base: BaseHandler

    constructor (base: BaseHandler)
      ensures this.base == base
    {
      this.base := base;
    }

    /** `default_category`. */
    function DefaultCategory(): string {
      "General"
    }

    /** `get_main_category`: "General" when none is given, else a partial match among the Merit categories. */
    function GetMainCategory(category: Option<string>): (r: Result<string>)
      ensures category.None? ==> r == Success("General")
      ensures category.Some? ==>
        && (r.Success? <==> Truthy(base.helpers.partialMatch(category.value, MeritCategories)))
        && (r.Success? ==> r.value in MeritCategories)
        && (r.Failure? ==> r.error == NoMainCategory)
    {
      var found := if category.None? then Some(DefaultCategory())
                   else base.helpers.partialMatch(category.value, MeritCategories);
      if Truthy(found) then Success(found.value) else Failure(NoMainCategory)
    }

    /** Everything `set` checks before its first write: category, name, value. */
    function Resolve(name: string, raw: RawValue, main: Option<string>): (r: Result<(MeritKey, int)>)
      ensures r.Success? <==>
        GetMainCategory(main).Success? && base.GoodName(name, MaxNameLength).Success? && raw.Number?
      ensures r.Success? ==>
        && r.value.0 == MeritKey(GetMainCategory(main).value, base.GoodName(name, MaxNameLength).value)
        && r.value.1 == raw.n
        && r.value.0.category in MeritCategories
    {
      var mc :- GetMainCategory(main);
      var nm :- base.GoodName(name, MaxNameLength);
      var v :- ValidValue(raw);
      Success((MeritKey(mc, nm), v))
    }

    /** `get_merit`: get or create the Merit, recording the owner as creator only on a row it creates. */
    method GetMerit(main: string, name: string) returns (key: MeritKey)
      requires base.store.Valid()
      modifies base.store`merits
      ensures base.store.Valid()
      ensures key == MeritKey(main, name) && key in base.store.merits
      ensures base.store.merits == GetOrCreate(old(base.store.merits), key, MeritRow(key, Some(base.owner.id)))
    {
      key := MeritKey(main, name);
      if key !in base.store.merits {
        base.store.merits := base.store.merits[key := MeritRow(key, Some(base.owner.id))];
      }
    }

    /**
     * `set`: resolve, get or create the Merit and the owner's row, then
     * overwrite its value; a negative value is refused when the row is saved.
     */
    method Set(name: string, raw: RawValue, main: Option<string>) returns (r: Result<Entry>)
      requires base.store.Valid()
      modifies base.store`merits, base.store`ownedMerits
      ensures base.store.Valid()
      ensures Resolve(name, raw, main).Failure? ==>
        && r == Failure(Resolve(name, raw, main).error)
        && base.store.merits == old(base.store.merits) && base.store.ownedMerits == old(base.store.ownedMerits)
      ensures Resolve(name, raw, main).Success? ==>
        var key, v := Resolve(name, raw, main).value.0, Resolve(name, raw, main).value.1;
        var owned := OwnedMeritKey(base.owner.id, key);
        && base.store.merits == GetOrCreate(old(base.store.merits), key, MeritRow(key, Some(base.owner.id)))
        && (v < 0 ==> r == Failure(CheckConstraint)
                      && base.store.ownedMerits == GetOrCreate(old(base.store.ownedMerits), owned, NewPurchaseEntry))
        && (v >= 0 ==> base.store.ownedMerits == WritePurchase(old(base.store.ownedMerits), owned, v)
                       && r == Success(base.store.ownedMerits[owned]))
    {
      var resolved := Resolve(name, raw, main);
      if resolved.Failure? {
        return Failure(resolved.error);
      }
      var key0, value := resolved.value.0, resolved.value.1;
      var key := GetMerit(key0.category, key0.name);
      r := Purchase(key, value);
    }

    /** The owner's row of a Merit: get or create it, then save the value. */
    method Purchase(key: MeritKey, value: int) returns (r: Result<Entry>)
      requires base.store.Valid() && key in base.store.merits
      modifies base.store`ownedMerits
      ensures base.store.Valid()
      ensures var owned := OwnedMeritKey(base.owner.id, key);
        && (value < 0 ==> r == Failure(CheckConstraint)
                          && base.store.ownedMerits == GetOrCreate(old(base.store.ownedMerits), owned, NewPurchaseEntry))
        && (value >= 0 ==> base.store.ownedMerits == WritePurchase(old(base.store.ownedMerits), owned, value)
                           && r == Success(base.store.ownedMerits[owned]))
    {
      var owned := OwnedMeritKey(base.owner.id, key);
      ghost var rows0 := base.store.ownedMerits;
      if owned !in base.store.ownedMerits {
        base.store.ownedMerits := base.store.ownedMerits[owned := NewPurchaseEntry];
      }
      if value < 0 {
        return Failure(CheckConstraint);
      }
      var row := base.store.ownedMerits[owned];
      OverwriteAfterGetOrCreate(rows0, owned, NewPurchaseEntry, row.(value := value));
      base.store.ownedMerits := base.store.ownedMerits[owned := row.(value := value)];
      r := Success(base.store.ownedMerits[owned]);
    }

    /** Whether a holding is one of the owner's Merits. */
    predicate Owns(h: MeritHolding)
      reads base.store
    {
      var owned := OwnedMeritKey(base.owner.id, h.merit);
      owned in base.store.ownedMerits && base.store.ownedMerits[owned] == h.row
    }

    /** `all`: the owner's Merits ordered by category and name. */
    method All() returns (rows: seq<MeritHolding>)
      ensures SortedByKey(rows, MeritSortKey)
      ensures forall h :: h in rows <==> Owns(h)
    {
      var held := set k | k in base.store.ownedMerits && k.owner == base.owner.id
        :: MeritHolding(k.merit, base.store.ownedMerits[k]);
      forall x, y | x in held && y in held && x != y
        ensures MeritSortKey(x) != MeritSortKey(y)
      {
        if MeritSortKey(x) == MeritSortKey(y) {
          MeritSortKeyDistinguishes(x, y);
        }
      }
      rows := SortByKey(held, MeritSortKey);
    }

    /** `all_main`: the Merits of `all()` grouped by category, each group keeping the order of `all()`. */
    method AllMain() returns (out: map<string, seq<MeritHolding>>)
      ensures forall c :: c in out ==>
        && out[c] != []
        && SortedByKey(out[c], MeritSortKey)
        && (forall h :: h in out[c] <==> Owns(h) && h.merit.category == c)
      ensures forall h :: Owns(h) ==> h.merit.category in out
    {
      var rows := All();
      out := map[];
      for i := 0 to |rows|
        invariant out == MeritGroups(rows[..i])
      {
        assert rows[..i + 1][..i] == rows[..i];
        var h := rows[i];
        var grp := if h.merit.category in out then out[h.merit.category] else [];
        out := out[h.merit.category := grp + [h]];
      }
      assert rows[..|rows|] == rows;
      MeritGroupsAreGroups(rows);
      forall c | c in out
        ensures SortedByKey(out[c], MeritSortKey)
        ensures forall h :: h in out[c] <==> Owns(h) && h.merit.category == c
      {
        GroupSorted(rows, MeritGroupKey, [c], MeritSortKey);
        GroupMembers(rows, MeritGroupKey, [c]);
        forall h ensures MeritGroupKey(h) == [c] <==> h.merit.category == c {
          MeritGroupKeyParts(h, c);
        }
      }
      forall h | Owns(h)
        ensures h.merit.category in out
      {
        assert h in rows;
        var j :| 0 <= j < |rows| && rows[j] == h;
      }
    }
  }

  lemma MeritGroupKeyParts(h: MeritHolding, c: string)
    ensures MeritGroupKey(h) == [c] <==> h.merit.category == c
  {
    if MeritGroupKey(h) == [c] {
      assert MeritGroupKey(h)[0] == c;
    }
  }

  /** The grouping `MeritHandler.all_main` builds, one row at a time in list order. */
  function MeritGroups(rows: seq<MeritHolding>): map<string, seq<MeritHolding>>
    decreases |rows|
  {
    if rows == [] then map[]
    else
      var out := MeritGroups(rows[..|rows| - 1]);
      var h := rows[|rows| - 1];
      var grp := if h.merit.category in out then out[h.merit.category] else [];
      out[h.merit.category := grp + [h]]
  }

  /**
   * The grouping files every row, and each group is exactly the rows of its
   * category in list order, never empty.
   */
  lemma {:induction false} MeritGroupsAreGroups(rows: seq<MeritHolding>)
    ensures var out := MeritGroups(rows);
      && (forall j :: 0 <= j < |rows| ==> rows[j].merit.category in out)
      && (forall c :: c in out ==> out[c] == Group(rows, MeritGroupKey, [c]) && out[c] != [])
    decreases |rows|
  {
    if rows != [] {
      var i := |rows| - 1;
      var prev := rows[..i];
      MeritGroupsAreGroups(prev);
      var out0 := MeritGroups(prev);
      var h := rows[i];
      var c := h.merit.category;
      var grp := if c in out0 then out0[c] else [];
      var out := MeritGroups(rows);
      assert out == out0[c := grp + [h]];
      assert rows[..i + 1] == rows;
      assert out[c] == Group(rows, MeritGroupKey, [c]) by {
        GroupStep(rows, MeritGroupKey, i, [c]);
        if c !in out0 {
          forall j | 0 <= j < i ensures MeritGroupKey(prev[j]) != [c] {
            MeritGroupKeyParts(prev[j], c);
          }
          GroupAbsent(prev, MeritGroupKey, [c]);
        }
      }
      forall c' | c' in out
        ensures out[c'] == Group(rows, MeritGroupKey, [c']) && out[c'] != []
      {
        if c' != c {
          GroupStep(rows, MeritGroupKey, i, [c']);
          MeritGroupKeyParts(h, c');
        }
      }
      forall j | 0 <= j < |rows|
        ensures rows[j].merit.category in out
      {
        if j < i { assert prev[j] == rows[j]; }
      }
    }
  }
}
