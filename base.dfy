/**
 * world/story/base.py, first half: `BaseHandler`, the catalog and ledger
 * primitives every family handler is built on.
 */
module StoryBase {
  import opened Utils
  import opened StoryErrors
  import opened StoryModels

  /** A value as a command passes it: `int(value)` either yields a whole number or raises `ValueError`. */
  datatype RawValue = Number(n: int) | Unparsable

  /** `stat_row` refuses paths deeper than this. */
  const MaxDepth := 4
  /** `good_name`'s default `max_length`. */
  const MaxNameLength := 80

  /**
   * The lookup key of a path: key i holds column `name_{i+1}`, the capitalised
   * (i+1)-th segment, for every segment and nothing else.
   */
  function PathNames(cap: Capitalizer, path: seq<string>): Names {
    map i | 0 <= i < |path| :: cap(path[i])
  }

  /** One key per segment: the lookup key of an n-segment path has exactly n entries. */
  lemma {:induction false} PathNamesSize(cap: Capitalizer, path: seq<string>)
    ensures |PathNames(cap, path)| == |path|
    decreases |path|
  {
    if path != [] {
      var n := |path| - 1;
      var prefix := path[..n];
      PathNamesSize(cap, prefix);
      assert PathNames(cap, path) == PathNames(cap, prefix)[n := cap(path[n])];
      assert n !in PathNames(cap, prefix);
    }
  }

  /** Two paths share a catalog row exactly when they have the same depth and capitalise alike segment by segment. */
  lemma PathNamesEqual(cap: Capitalizer, p: seq<string>, q: seq<string>)
    ensures PathNames(cap, p) == PathNames(cap, q) <==>
      |p| == |q| && forall i :: 0 <= i < |p| ==> cap(p[i]) == cap(q[i])
  {
    var np, nq := PathNames(cap, p), PathNames(cap, q);
    if np == nq {
      PathNamesSize(cap, p);
      PathNamesSize(cap, q);
      forall i | 0 <= i < |p|
        ensures cap(p[i]) == cap(q[i])
      {
        assert np[i] == cap(p[i]);
        assert i in nq;
      }
    }
    if |p| == |q| && forall i :: 0 <= i < |p| ==> cap(p[i]) == cap(q[i]) {
      assert forall i :: i in np <==> i in nq;
      assert forall i :: i in np ==> np[i] == nq[i];
    }
  }

  /** `valid_value`: `int(value)` or the "must be a number" error. */
  function ValidValue(raw: RawValue): (r: Result<int>)
    ensures r.Success? <==> raw.Number?
    ensures r.Success? ==> r.value == raw.n
    ensures r.Failure? ==> r.error == NotANumber
  {
    match raw
    case Number(n) => Success(n)
    case Unparsable => Failure(NotANumber)
  }

  /**
   * The catalog after `stat_row` AS WRITTEN: a supplied creator is passed into
   * `get_or_create` as a lookup column, so a path another character already
   * coined is not found, and the insert that follows collides with the
   * existing row on its unique path.
   */
  function CatalogAfterStatRowAsWritten(catalog: map<Names, Stat>, names: Names, creator: Option<ObjId>): (r: Result<map<Names, Stat>>)
    ensures r.Success? ==> r.value == GetOrCreate(catalog, names, Stat(names, creator))
    ensures r.Failure? <==> names in catalog && creator.Some? && catalog[names].creator != creator
  {
    if names in catalog && (creator.None? || catalog[names].creator == creator) then Success(catalog)
    else if names in catalog then Failure(IntegrityError)
    else Success(catalog[names := Stat(names, creator)])
  }

  /**
   * The discrepancy: a Craft coined by one character cannot be recorded by
   * another, although the path names one shared catalog row; the corrected
   * lookup by path alone finds that row.
   */
  lemma {:induction false} StatRowAsWrittenRejectsSecondCreator(names: Names, first: ObjId, second: ObjId)
    requires first != second
    ensures var catalog := map[names := Stat(names, Some(first))];
      && CatalogAfterStatRowAsWritten(catalog, names, Some(second)) == Failure(IntegrityError)
      && GetOrCreate(catalog, names, Stat(names, Some(second))) == catalog
  {
    var catalog := map[names := Stat(names, Some(first))];
    assert catalog[names].creator == Some(first) != Some(second);
  }

  class BaseHandler {
    const owner: Character
    const store: Store
    const helpers: Helpers

    constructor (owner: Character, store: Store, helpers: Helpers)
      ensures this.owner == owner && this.store == store && this.helpers == helpers
    {
      this.owner := owner;
      this.store := store;
      this.helpers := helpers;
    }

    /** `process_path`: fills the names dict one segment at a time. */
    method ProcessPath(path: seq<string>) returns (names: Names)
      ensures forall i :: i in names <==> 0 <= i < |path|
      ensures forall i :: 0 <= i < |path| ==> names[i] == helpers.capitalize(path[i])
      ensures names == PathNames(helpers.capitalize, path)
    {
      names := map[];
      var i := 0;
      while i < |path|
        invariant 0 <= i <= |path|
        invariant names == map j | 0 <= j < i :: helpers.capitalize(path[j])
      {
        names := names[i := helpers.capitalize(path[i])];
        i := i + 1;
      }
    }

    /**
     * `stat_row`, with the catalog looked up by path alone: get-or-create of the
     * path's row, recording the creator only on a row it creates.
     */
    method StatRow(path: seq<string>, creator: Option<ObjId>) returns (r: Result<Stat>)
      requires store.Valid()
      modifies store`catalog
      ensures store.Valid()
      ensures |path| > MaxDepth ==> r == Failure(DepthLimit) && store.catalog == old(store.catalog)
      ensures |path| <= MaxDepth ==>
        var names := PathNames(helpers.capitalize, path);
        && store.catalog == GetOrCreate(old(store.catalog), names, Stat(names, creator))
        && r == Success(store.catalog[names])
    {
      if |path| > MaxDepth {
        return Failure(DepthLimit);
      }
      var names := ProcessPath(path);
      if names !in store.catalog {
        store.catalog := store.catalog[names := Stat(names, creator)];
      }
      r := Success(store.catalog[names]);
    }

    /** `stat_row` as written: the creator takes part in the lookup. */
    method StatRowAsWritten(path: seq<string>, creator: Option<ObjId>) returns (r: Result<Stat>)
      requires store.Valid()
      modifies store`catalog
      ensures store.Valid()
      ensures |path| > MaxDepth ==> r == Failure(DepthLimit) && store.catalog == old(store.catalog)
      ensures |path| <= MaxDepth ==>
        var names := PathNames(helpers.capitalize, path);
        match CatalogAfterStatRowAsWritten(old(store.catalog), names, creator)
        case Failure(e) => r == Failure(e) && store.catalog == old(store.catalog)
        case Success(c) => store.catalog == c && r == Success(c[names])
    {
      if |path| > MaxDepth {
        return Failure(DepthLimit);
      }
      var names := ProcessPath(path);
      if names in store.catalog && (creator.None? || store.catalog[names].creator == creator) {
        r := Success(store.catalog[names]);
      } else if names in store.catalog {
        r := Failure(IntegrityError);
      } else {
        store.catalog := store.catalog[names := Stat(names, creator)];
        r := Success(store.catalog[names]);
      }
    }

    /** `good_name`: the capitalised name, refused when empty or longer than `maxLength`. */
    function GoodName(inName: string, maxLength: int): (r: Result<string>)
      ensures r.Success? <==> helpers.capitalize(inName) != "" && |helpers.capitalize(inName)| <= maxLength
      ensures r.Success? ==> r.value == helpers.capitalize(inName) && 0 < |r.value| <= maxLength
      ensures helpers.capitalize(inName) == "" ==> r == Failure(EmptyName)
      ensures helpers.capitalize(inName) != "" && |helpers.capitalize(inName)| > maxLength ==> r == Failure(NameTooLong)
    {
      var dc := helpers.capitalize(inName);
      if dc == "" then Failure(EmptyName)
      else if |dc| > maxLength then Failure(NameTooLong)
      else Success(dc)
    }

    /** The owner's ledger key for a catalog row. */
    function KeyFor(names: Names): LedgerKey {
      LedgerKey(owner.id, names)
    }

    /** `set_base`: refuses negative values, otherwise gets or creates the owner's row. */
    method SetBase(row: Stat, value: int) returns (r: Result<LedgerKey>)
      requires store.Valid() && row.names in store.catalog
      modifies store`ledger
      ensures store.Valid()
      ensures value < 0 ==> r == Failure(NegativeValue) && store.ledger == old(store.ledger)
      ensures value >= 0 ==>
        && r == Success(KeyFor(row.names))
        && store.ledger == GetOrCreate(old(store.ledger), KeyFor(row.names), NewStatEntry)
    {
      if value < 0 {
        return Failure(NegativeValue);
      }
      var k := KeyFor(row.names);
      if k !in store.ledger {
        store.ledger := store.ledger[k := NewStatEntry];
      }
      r := Success(k);
    }

    /** The shared body of `set_int`, `set_flag_1` and `set_flag_2`: `set_base`, assign one column, save. */
    method SetColumn(row: Stat, f: Field, value: int) returns (r: Result<Entry>)
      requires store.Valid() && row.names in store.catalog
      modifies store`ledger
      ensures store.Valid()
      ensures value < 0 ==> r == Failure(NegativeValue) && store.ledger == old(store.ledger)
      ensures value >= 0 ==>
        && store.ledger == WriteEntry(old(store.ledger), KeyFor(row.names), f, value)
        && r == Success(store.ledger[KeyFor(row.names)])
    {
      ghost var ledger0 := store.ledger;
      var b := SetBase(row, value);
      if b.Failure? {
        return Failure(b.error);
      }
      var k := b.value;
      var e := store.ledger[k];
      assert e == if k in ledger0 then ledger0[k] else NewStatEntry;
      OverwriteAfterGetOrCreate(ledger0, k, NewStatEntry, SetField(e, f, value));
      store.ledger := store.ledger[k := SetField(e, f, value)];
      r := Success(store.ledger[k]);
    }

    /** `set_int`: only the owner's value for this stat changes. */
    method SetInt(row: Stat, value: int) returns (r: Result<Entry>)
      requires store.Valid() && row.names in store.catalog
      modifies store`ledger
      ensures store.Valid()
      ensures value < 0 ==> r == Failure(NegativeValue) && store.ledger == old(store.ledger)
      ensures value >= 0 ==>
        && store.ledger == WriteEntry(old(store.ledger), KeyFor(row.names), Value, value)
        && r == Success(store.ledger[KeyFor(row.names)])
    {
      r := SetColumn(row, Value, value);
    }

    /** `set_flag_1`: only the owner's first flag for this stat changes. */
    method SetFlag1(row: Stat, value: int) returns (r: Result<Entry>)
      requires store.Valid() && row.names in store.catalog
      modifies store`ledger
      ensures store.Valid()
      ensures value < 0 ==> r == Failure(NegativeValue) && store.ledger == old(store.ledger)
      ensures value >= 0 ==>
        && store.ledger == WriteEntry(old(store.ledger), KeyFor(row.names), Flag1, value)
        && r == Success(store.ledger[KeyFor(row.names)])
    {
      r := SetColumn(row, Flag1, value);
    }

    /** `set_flag_2`: only the owner's second flag for this stat changes. */
    method SetFlag2(row: Stat, value: int) returns (r: Result<Entry>)
      requires store.Valid() && row.names in store.catalog
      modifies store`ledger
      ensures store.Valid()
      ensures value < 0 ==> r == Failure(NegativeValue) && store.ledger == old(store.ledger)
      ensures value >= 0 ==>
        && store.ledger == WriteEntry(old(store.ledger), KeyFor(row.names), Flag2, value)
        && r == Success(store.ledger[KeyFor(row.names)])
    {
      r := SetColumn(row, Flag2, value);
    }
  }
}

/**
 * world/story/base.py, second half: `StatHandler`, the generic handler of a
 * fixed-name stat family. The per-family rules it consults (options, base path,
 * value floor, `can_set`) are those of world/story/stats.py, in `StatFamilies`.
 */
module StatHandlers {
  import opened Utils
  import opened StoryErrors
  import opened StoryModels
  import opened StoryBase
  import opened StatFamilies

  class StatHandler {
    const base: BaseHandler
    const family: StatFamily

    constructor (base: BaseHandler, family: StatFamily)
      ensures this.base == base && this.family == family
    {
      this.base := base;
      this.family := family;
    }

    /** The catalog key of one of the family's stats: `base_path + [stat]`. */
    function StatNames(stat: string): Names {
      PathNames(base.helpers.capitalize, BasePath(family) + [stat])
    }

    /** `find_stat`: refuses an empty name, otherwise a partial match among the family's options. */
    function FindStat(name: string): (r: Result<string>)
      ensures r.Success? ==> r.value in Options(family) && r.value != ""
      ensures r.Success? <==> name != "" && Truthy(base.helpers.partialMatch(name, Options(family)))
      ensures r.Success? ==> Some(r.value) == base.helpers.partialMatch(name, Options(family))
      ensures name == "" ==> r == Failure(NoStatName)
      ensures name != "" && r.Failure? ==> r.error == StatNotFound
    {
      if name == "" then Failure(NoStatName)
      else
        var found := base.helpers.partialMatch(name, Options(family));
        if Truthy(found) then Success(found.value) else Failure(StatNotFound)
    }

    /** `default_value`: what `get_value` reports for a stat the owner has no row for. */
    function DefaultValue(stat: string): int {
      0
    }

    /**
     * `get_value`: never writes; the owner's stored value, or the default when
     * the catalog row or the owner's row is missing.
     */
    function GetValue(name: string): (r: Result<int>)
      reads base.store
      ensures FindStat(name).Failure? ==> r == Failure(FindStat(name).error)
      ensures FindStat(name).Success? ==>
        var names := StatNames(FindStat(name).value);
        var k := base.KeyFor(names);
        && r.Success?
        && (names in base.store.catalog && k in base.store.ledger ==> r.value == base.store.ledger[k].value)
        && (names !in base.store.catalog || k !in base.store.ledger ==> r.value == DefaultValue(FindStat(name).value))
    {
      var stat :- FindStat(name);
      var names := StatNames(stat);
      if names !in base.store.catalog then Success(DefaultValue(stat))
      else if base.KeyFor(names) !in base.store.ledger then Success(DefaultValue(stat))
      else Success(base.store.ledger[base.KeyFor(names)].value)
    }

    /**
     * `set`: resolve the name, validate the value, consult `can_set`, then
     * get or create the catalog row and write the owner's value. A falsy
     * `can_set` returns without writing; every earlier failure writes nothing.
     * A negative value that passes the family's checks is refused by `set_base`
     * only after the catalog row exists, so that row stays.
     */
    method Set(name: string, raw: RawValue) returns (r: Result<Option<Entry>>)
      requires base.store.Valid()
      modifies base.store`catalog, base.store`ledger
      ensures base.store.Valid()
      ensures FindStat(name).Failure? ==>
        r == Failure(FindStat(name).error) && unchanged(base.store)
      ensures FindStat(name).Success? && StatFamilies.ValidValue(family, raw).Failure? ==>
        r == Failure(StatFamilies.ValidValue(family, raw).error) && unchanged(base.store)
      ensures FindStat(name).Success? && StatFamilies.ValidValue(family, raw).Success? ==>
        var stat, v := FindStat(name).value, StatFamilies.ValidValue(family, raw).value;
        var names := StatNames(stat);
        && (CanSet(family, stat, v).Failure? ==> r == Failure(CanSet(family, stat, v).error) && unchanged(base.store))
        && (CanSet(family, stat, v) == Success(false) ==> r == Success(None) && unchanged(base.store))
        && (CanSet(family, stat, v) == Success(true) ==>
              && base.store.catalog == GetOrCreate(old(base.store.catalog), names, Stat(names, None))
              && (v < 0 ==> r == Failure(NegativeValue) && base.store.ledger == old(base.store.ledger))
              && (v >= 0 ==>
                    && base.store.ledger == WriteEntry(old(base.store.ledger), base.KeyFor(names), Value, v)
                    && r == Success(Some(base.store.ledger[base.KeyFor(names)]))
                    && GetValue(name) == Success(v)))
      ensures family.Abilities? ==> unchanged(base.store) && (r.Failure? || r == Success(None))
    {
      var stat :- FindStat(name);
      var value :- StatFamilies.ValidValue(family, raw);
      var allowed :- CanSet(family, stat, value);
      if !allowed {
        return Success(None);
      }
      PathDepth(family, stat);
      var found := base.StatRow(BasePath(family) + [stat], None);
      var row := found.value;
      var e :- base.SetInt(row, value);
      r := Success(Some(e));
    }
  }
}
