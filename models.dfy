/**
 * The rows of world/story/models.py and the tables that hold them. Each table
 * is a map keyed by the row's uniqueness key, so "at most one row per key" holds
 * by construction; `Store.Valid` adds that every row carries its own key and
 * that every foreign key points at an existing row (`on_delete=PROTECT`).
 */
module StoryModels {
  import opened Utils

  /** Primary key of an `ObjectDB` (a character or other owner). */
  type ObjId = nat

  /**
   * A catalog path as the handlers look it up: the columns `name_1` .. `name_n`,
   * key i holding `name_{i+1}`. It is what `get_or_create(**names)` filters on.
   */
  type Names = map<nat, string>

  /** A catalog row: a stat definition and the character who coined it, if any. */
  datatype Stat = Stat(names: Names, creator: Option<ObjId>)

  /** A ledger row (`CharacterStat`, `CharacterPower`, `CharacterMerit`): value and two flags. */
  datatype Entry = Entry(value: nat, flag1: int, flag2: int)

  /** `CharacterStat` defaults: value 0, both flags 0. */
  const NewStatEntry := Entry(0, 0, 0)
  /** `CharacterPower` and `CharacterMerit` default: value 1, both flags 0. */
  const NewPurchaseEntry := Entry(1, 0, 0)

  /** `unique_together = (stat, owner)` of `CharacterStat`. */
  datatype LedgerKey = LedgerKey(owner: ObjId, stat: Names)

  /** `unique_together = (stat, name)` of `CharacterSpecialty`: a named specialty of one ledger row. */
  datatype SpecialtyKey = SpecialtyKey(stat: LedgerKey, name: string)

  /** `unique_together = (root, category, subcategory, name)` of `Power`. */
  datatype PowerKey = PowerKey(root: string, category: string, subcategory: string, name: string)
  datatype PowerRow = PowerRow(key: PowerKey, creator: Option<ObjId>)
  /** `unique_together = (power, owner)` of `CharacterPower`. */
  datatype OwnedPowerKey = OwnedPowerKey(owner: ObjId, power: PowerKey)

  /** `unique_together = (category, name)` of `Merit`. */
  datatype MeritKey = MeritKey(category: string, name: string)
  datatype MeritRow = MeritRow(key: MeritKey, creator: Option<ObjId>)
  /** `unique_together = (owner, merit)` of `CharacterMerit`. */
  datatype OwnedMeritKey = OwnedMeritKey(owner: ObjId, merit: MeritKey)

  /** Which ledger column a setter writes. */
  datatype Field = Value | Flag1 | Flag2

  /** The column `f` of a ledger row. */
  function Column(e: Entry, f: Field): int {
    match f
    case Value => e.value
    case Flag1 => e.flag1
    case Flag2 => e.flag2
  }

  /** Assigning one column: that column reads back the new value and every other column keeps its old one. */
  function SetField(e: Entry, f: Field, v: nat): (r: Entry)
    ensures Column(r, f) == v
    ensures forall g :: g != f ==> Column(r, g) == Column(e, g)
  {
    match f
    case Value => e.(value := v)
    case Flag1 => e.(flag1 := v)
    case Flag2 => e.(flag2 := v)
  }

  /** Django's `get_or_create` on a table keyed by its uniqueness key. */
  function GetOrCreate<K, V>(t: map<K, V>, k: K, row: V): (r: map<K, V>)
    ensures k in r && r[k] == (if k in t then t[k] else row)
    ensures r.Keys == t.Keys + {k}
    ensures forall k' :: k' in t ==> k' in r && r[k'] == t[k']
    ensures |r| <= |t| + 1
  {
    if k in t then t else t[k := row]
  }

  /**
   * Deleting a ledger row cascades to its specialties (`on_delete=CASCADE`):
   * exactly the specialties of that row go, every other one keeps its value.
   */
  function CascadeSpecialties(specialties: map<SpecialtyKey, nat>, k: LedgerKey): (r: map<SpecialtyKey, nat>)
    ensures forall s :: s in r <==> s in specialties && s.stat != k
    ensures forall s :: s in r ==> r[s] == specialties[s]
  {
    map s | s in specialties && s.stat != k :: specialties[s]
  }

  /** Overwriting the row a `get_or_create` returned is the same as writing it straight into the table. */
  lemma OverwriteAfterGetOrCreate<K, V>(t: map<K, V>, k: K, row: V, x: V)
    ensures GetOrCreate(t, k, row)[k := x] == t[k := x]
  {
  }

  /** A second `get_or_create` of the same key finds the row the first one returned or made. */
  lemma GetOrCreateIdempotent<K, V>(t: map<K, V>, k: K, row: V, other: V)
    ensures GetOrCreate(GetOrCreate(t, k, row), k, other) == GetOrCreate(t, k, row)
  {
  }

  /**
   * `get_or_create` of a ledger row followed by assigning one column and `save()`:
   * the row keeps its other two columns (or the defaults when it was created)
   * and no other row changes.
   */
  function WriteEntry(ledger: map<LedgerKey, Entry>, k: LedgerKey, f: Field, v: nat): (r: map<LedgerKey, Entry>)
    ensures r.Keys == ledger.Keys + {k}
    ensures forall k' :: k' in ledger && k' != k ==> r[k'] == ledger[k']
    ensures r[k] == SetField(if k in ledger then ledger[k] else NewStatEntry, f, v)
  {
    var e := if k in ledger then ledger[k] else NewStatEntry;
    ledger[k := SetField(e, f, v)]
  }

  /**
   * A purchase (`CharacterPower`, `CharacterMerit`): get or create the owner's
   * row with its defaults, then overwrite the value; the flags are kept and no
   * other row changes.
   */
  function WritePurchase<K>(t: map<K, Entry>, k: K, v: nat): (r: map<K, Entry>)
    ensures r.Keys == t.Keys + {k}
    ensures forall k' :: k' in t && k' != k ==> r[k'] == t[k']
    ensures r[k].value == v
    ensures k in t ==> r[k].flag1 == t[k].flag1 && r[k].flag2 == t[k].flag2
    ensures k !in t ==> r[k] == NewPurchaseEntry.(value := v)
  {
    var e := if k in t then t[k] else NewPurchaseEntry;
    t[k := e.(value := v)]
  }

  /**
   * A run of value writes in order; later writes to the same key win. The fold
   * runs from the last write backwards so that a loop extends it one step at a time.
   */
  function WriteValues(ledger: map<LedgerKey, Entry>, writes: seq<(LedgerKey, nat)>): map<LedgerKey, Entry>
    decreases |writes|
  {
    if writes == [] then ledger
    else
      var last := writes[|writes| - 1];
      WriteEntry(WriteValues(ledger, writes[..|writes| - 1]), last.0, Value, last.1)
  }

  /** Rows no write touches keep their contents; every written key exists afterwards. */
  lemma {:induction false} WriteValuesFrame(ledger: map<LedgerKey, Entry>, writes: seq<(LedgerKey, nat)>)
    ensures var r := WriteValues(ledger, writes);
      && r.Keys == ledger.Keys + (set i | 0 <= i < |writes| :: writes[i].0)
      && forall k :: k in ledger && (forall i :: 0 <= i < |writes| ==> writes[i].0 != k) ==> r[k] == ledger[k]
    decreases |writes|
  {
    if writes != [] {
      var n := |writes| - 1;
      var prefix := writes[..n];
      var r0 := WriteValues(ledger, prefix);
      var r := WriteValues(ledger, writes);
      assert r == WriteEntry(r0, writes[n].0, Value, writes[n].1);
      WriteValuesFrame(ledger, prefix);
      var s0 := set i | 0 <= i < n :: prefix[i].0;
      var s := set i | 0 <= i < |writes| :: writes[i].0;
      assert s == s0 + {writes[n].0} by {
        forall i | 0 <= i < n ensures prefix[i] == writes[i] { }
      }
      assert r.Keys == ledger.Keys + s by {
        assert r.Keys == r0.Keys + {writes[n].0};
        assert r0.Keys == ledger.Keys + s0;
      }
      forall k | k in ledger && (forall i :: 0 <= i < |writes| ==> writes[i].0 != k)
        ensures r[k] == ledger[k]
      {
        forall i | 0 <= i < |prefix| ensures prefix[i].0 != k { assert prefix[i] == writes[i]; }
        assert r0[k] == ledger[k];
      }
    }
  }

  /** A written key ends up holding the value of the last write to it. */
  lemma {:induction false} WriteValuesLastWins(ledger: map<LedgerKey, Entry>, writes: seq<(LedgerKey, nat)>, i: nat)
    requires i < |writes|
    requires forall j :: i < j < |writes| ==> writes[j].0 != writes[i].0
    ensures var r := WriteValues(ledger, writes);
      writes[i].0 in r && r[writes[i].0].value == writes[i].1
    decreases |writes|
  {
    var n := |writes| - 1;
    var prefix := writes[..n];
    assert WriteValues(ledger, writes) == WriteEntry(WriteValues(ledger, prefix), writes[n].0, Value, writes[n].1);
    if i < n {
      assert prefix[i] == writes[i];
      forall j | i < j < |prefix| ensures prefix[j].0 != prefix[i].0 {
        assert prefix[j] == writes[j];
      }
      WriteValuesLastWins(ledger, prefix, i);
    }
  }

  /** Every written key holds one of the values written to it. */
  lemma {:induction false} WriteValuesSomeWrite(ledger: map<LedgerKey, Entry>, writes: seq<(LedgerKey, nat)>, i: nat)
    requires i < |writes|
    ensures var r := WriteValues(ledger, writes);
      writes[i].0 in r && exists j :: i <= j < |writes| && writes[j].0 == writes[i].0 && r[writes[i].0].value == writes[j].1
    decreases |writes|
  {
    var n := |writes| - 1;
    var prefix := writes[..n];
    var r0 := WriteValues(ledger, prefix);
    assert WriteValues(ledger, writes) == WriteEntry(r0, writes[n].0, Value, writes[n].1);
    if writes[n].0 == writes[i].0 {
      assert writes[n].0 == writes[i].0 && WriteValues(ledger, writes)[writes[i].0].value == writes[n].1;
    } else {
      assert prefix[i] == writes[i];
      WriteValuesSomeWrite(ledger, prefix, i);
      var j :| i <= j < n && prefix[j].0 == writes[i].0 && r0[writes[i].0].value == prefix[j].1;
      assert writes[j] == prefix[j];
    }
  }

  /**
   * `after` differs from `before` only by value writes at `keys`: it holds the
   * old rows plus exactly the rows of `keys`, every row outside `keys` is
   * unchanged, rows that existed keep their flags and new rows have flags 0.
   */
  ghost predicate ValueWritesOnly(before: map<LedgerKey, Entry>, after: map<LedgerKey, Entry>, keys: set<LedgerKey>) {
    && (forall k :: k in after <==> k in before || k in keys)
    && (forall k :: k in before && k !in keys ==> after[k] == before[k])
    && (forall k :: k in after ==>
          if k in before then after[k].flag1 == before[k].flag1 && after[k].flag2 == before[k].flag2
          else after[k].flag1 == 0 && after[k].flag2 == 0)
  }

  /**
   * `after` is `before` plus a creator-less row for each of `paths` that was
   * missing: the old rows are unchanged and nothing else is added.
   */
  ghost predicate RowsAddedOnly(before: map<Names, Stat>, after: map<Names, Stat>, paths: set<Names>) {
    && (forall n :: n in after <==> n in before || n in paths)
    && (forall n :: n in before ==> after[n] == before[n])
    && (forall n :: n in after && n !in before ==> after[n] == Stat(n, None))
  }

  /**
   * Value writes never touch the flag columns: a row that existed keeps its
   * flags, and a row the writes created has both flags at their default 0.
   */
  lemma {:induction false} WriteValuesKeepsFlags(ledger: map<LedgerKey, Entry>, writes: seq<(LedgerKey, nat)>)
    ensures var r := WriteValues(ledger, writes);
      forall k :: k in r ==>
        if k in ledger then r[k].flag1 == ledger[k].flag1 && r[k].flag2 == ledger[k].flag2
        else r[k].flag1 == 0 && r[k].flag2 == 0
    decreases |writes|
  {
    if writes != [] {
      var n := |writes| - 1;
      WriteValuesKeepsFlags(ledger, writes[..n]);
      WriteValuesFrame(ledger, writes[..n]);
    }
  }

  /**
   * A run of catalog get-or-creates in order, each creating its row without a
   * creator; folded from the last path backwards like `WriteValues`.
   */
  function CreateRows(catalog: map<Names, Stat>, paths: seq<Names>): map<Names, Stat>
    decreases |paths|
  {
    if paths == [] then catalog
    else
      var last := paths[|paths| - 1];
      GetOrCreate(CreateRows(catalog, paths[..|paths| - 1]), last, Stat(last, None))
  }

  /** One more write extends the run by one `WriteEntry`. */
  lemma WriteValuesStep(ledger: map<LedgerKey, Entry>, writes: seq<(LedgerKey, nat)>, i: nat)
    requires i < |writes|
    ensures WriteValues(ledger, writes[..i + 1]) == WriteEntry(WriteValues(ledger, writes[..i]), writes[i].0, Value, writes[i].1)
  {
    assert writes[..i + 1][..i] == writes[..i];
  }

  /** One more path extends the run by one get-or-create. */
  lemma CreateRowsStep(catalog: map<Names, Stat>, paths: seq<Names>, i: nat)
    requires i < |paths|
    ensures CreateRows(catalog, paths[..i + 1]) == GetOrCreate(CreateRows(catalog, paths[..i]), paths[i], Stat(paths[i], None))
  {
    assert paths[..i + 1][..i] == paths[..i];
  }

  /** The catalog after such a run holds its old paths plus exactly the paths of the run. */
  lemma {:induction false} CreateRowsKeys(catalog: map<Names, Stat>, paths: seq<Names>)
    ensures forall n :: n in CreateRows(catalog, paths) <==> n in catalog || n in paths
    decreases |paths|
  {
    if paths != [] {
      var prefix := paths[..|paths| - 1];
      CreateRowsKeys(catalog, prefix);
      assert paths == prefix + [paths[|paths| - 1]];
    }
  }

  /**
   * Every row present before such a run is kept unchanged, and every row the run
   * added carries its own path and no creator.
   */
  lemma {:induction false} CreateRowsRows(catalog: map<Names, Stat>, paths: seq<Names>)
    ensures var r := CreateRows(catalog, paths);
      && (forall n :: n in catalog ==> n in r && r[n] == catalog[n])
      && (forall n :: n in r && n !in catalog ==> r[n] == Stat(n, None))
    decreases |paths|
  {
    if paths != [] {
      CreateRowsRows(catalog, paths[..|paths| - 1]);
    }
  }

  /**
   * An owner object's attributes the template code reads and writes:
   * `attributes.get(key="template")` and `db.template_subtype`.
   */
  class Character {
    const id: ObjId
    var template: Option<string>
    var templateSubtype: Option<string>

    constructor (id: ObjId, template: Option<string>)
      ensures this.id == id && this.template == template && templateSubtype == None
    {
      this.id := id;
      this.template := template;
      templateSubtype := None;
    }
  }

  /** The persisted tables the handlers read and write. */
  class Store {
    /** `Stat` rows, the path catalog. */
    var catalog: map<Names, Stat>
    /** `CharacterStat` rows. */
    var ledger: map<LedgerKey, Entry>
    /** `CharacterSpecialty` values. */
    var specialties: map<SpecialtyKey, nat>
    /** `Power` rows. */
    var powers: map<PowerKey, PowerRow>
    /** `CharacterPower` rows. */
    var ownedPowers: map<OwnedPowerKey, Entry>
    /** `Merit` rows. */
    var merits: map<MeritKey, MeritRow>
    /** `CharacterMerit` rows. */
    var ownedMerits: map<OwnedMeritKey, Entry>

    /** Every catalog row is stored under its own path. */
    ghost predicate CatalogKeyed()
      reads this`catalog
    {
      forall n :: n in catalog ==> catalog[n].names == n
    }

    /** Every ledger row's stat is in the catalog (`on_delete=PROTECT`). */
    ghost predicate LedgerRefsCatalog()
      reads this`catalog, this`ledger
    {
      forall k :: k in ledger ==> k.stat in catalog
    }

    /** Every specialty belongs to an existing ledger row. */
    ghost predicate SpecialtiesRefLedger()
      reads this`ledger, this`specialties
    {
      forall s :: s in specialties ==> s.stat in ledger
    }

    /** Power rows are keyed by their own key, and purchases point at existing powers. */
    ghost predicate PowersValid()
      reads this`powers, this`ownedPowers
    {
      && (forall p :: p in powers ==> powers[p].key == p)
      && (forall k :: k in ownedPowers ==> k.power in powers)
    }

    /** Merit rows are keyed by their own key, and purchases point at existing merits. */
    ghost predicate MeritsValid()
      reads this`merits, this`ownedMerits
    {
      && (forall m :: m in merits ==> merits[m].key == m)
      && (forall k :: k in ownedMerits ==> k.merit in merits)
    }

    ghost predicate Valid()
      reads this
    {
      CatalogKeyed() && LedgerRefsCatalog() && SpecialtiesRefLedger() && PowersValid() && MeritsValid()
    }

    /** Whether any owner's ledger row still references the catalog row (`row.users.count()`). */
    predicate HasUsers(names: Names)
      reads this
    {
      exists k :: k in ledger && k.stat == names
    }

    constructor ()
      ensures Valid()
      ensures catalog == map[] && ledger == map[] && specialties == map[] && powers == map[]
      ensures ownedPowers == map[] && merits == map[] && ownedMerits == map[]
    {
      catalog, ledger, specialties := map[], map[], map[];
      powers, ownedPowers := map[], map[];
      merits, ownedMerits := map[], map[];
    }
  }
}
