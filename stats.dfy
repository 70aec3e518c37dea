/**
 * world/story/stats.py, the pure part: what distinguishes the Attribute,
 * Ability and Style families. The generic handler in `StatHandlers` consults
 * these rules where the source overrides `options`, `valid_value` and `can_set`.
 */
module StatFamilies {
  import opened StoryErrors
  import opened StoryTables
  import StoryBase

  /** `MA_STYLES` is not defined anywhere in the source; the Style names are a parameter. */
  datatype StatFamily = Attributes | Abilities | Styles(styles: seq<string>)

  /** The class attribute `base_path`. */
  function BasePath(f: StatFamily): (r: seq<string>)
    ensures |r| == 1
  {
    match f
    case Attributes => ["Attributes"]
    case Abilities => ["Abilities"]
    case Styles(_) => ["Styles"]
  }

  /** Every stat path a family handler builds has two segments, within the catalog's depth limit. */
  lemma PathDepth(f: StatFamily, stat: string)
    ensures |BasePath(f) + [stat]| == 2 <= StoryBase.MaxDepth
  {
  }

  /** `options()`. */
  function Options(f: StatFamily): seq<string> {
    match f
    case Attributes => StoryTables.Attributes
    case Abilities => StoryTables.Abilities
    case Styles(styles) => styles
  }

  /** `valid_value`: a whole number, and for Attributes one of at least 1. */
  function ValidValue(f: StatFamily, raw: StoryBase.RawValue): (r: Result<int>)
    ensures r.Success? ==> raw.Number? && r.value == raw.n
    ensures f.Attributes? ==> (r.Success? <==> raw.Number? && raw.n >= 1)
    ensures f.Attributes? && raw.Number? && raw.n < 1 ==> r == Failure(BelowOne)
    ensures !f.Attributes? ==> r == StoryBase.ValidValue(raw)
  {
    var v :- StoryBase.ValidValue(raw);
    if f.Attributes? && v < 1 then Failure(BelowOne) else Success(v)
  }

  /** `AbilityHandler.no_set`: the Abilities that cannot be set directly. */
  const NoSet: seq<string> := ["Craft", "Martial Arts"]

  /** `AbilityHandler.link_abil`: the two Abilities that are favoured as a pair. */
  const LinkAbil: map<string, string> := map["Brawl" := "Martial Arts", "Martial Arts" := "Brawl"]

  /** The link pairs two distinct Abilities, each pointing back at the other. */
  lemma LinkAbilSymmetric()
    ensures forall a :: a in LinkAbil ==> LinkAbil[a] in LinkAbil && LinkAbil[LinkAbil[a]] == a && LinkAbil[a] != a
    ensures forall a :: a in LinkAbil ==> a in StoryTables.Abilities && LinkAbil[a] in StoryTables.Abilities
  {
    SpecialAbilitiesListed();
  }

  /**
   * `can_set`: true for Attributes and Styles; for Abilities it raises on the
   * `no_set` names and otherwise falls off the end, returning `None`, which the
   * caller reads as a refusal.
   */
  function CanSet(f: StatFamily, stat: string, value: int): (r: Result<bool>)
    ensures !f.Abilities? ==> r == Success(true)
    ensures f.Abilities? ==> (r == Failure(NotSettable) <==> stat in NoSet)
    ensures f.Abilities? ==> r.Failure? || r == Success(false)
  {
    if !f.Abilities? then Success(true)
    else if stat in NoSet then Failure(NotSettable)
    else Success(false)
  }
}

/**
 * world/story/stats.py, the handlers with operations of their own: the
 * favoured-Ability flag with its Brawl / Martial Arts exclusion, and Crafts,
 * whose names are free-form and whose rows are removed again at zero.
 * `AttributeHandler` and `StyleHandler` add nothing beyond their family rules:
 * they are `StatHandler` with family `Attributes` and `Styles`.
 */
module Stats {
  import opened Utils
  import opened StoryErrors
  import opened StoryModels
  import opened StoryBase
  import opened StatFamilies
  import opened StatHandlers
  import StoryTables

  class AbilityHandler {
    const stats: StatHandler

    constructor (base: BaseHandler)
      ensures stats.base == base && stats.family == Abilities
    {
      stats := new StatHandler(base, Abilities);
    }

    /** Whether, in a ledger, the owner's row for an Ability has its favoured flag set. */
    predicate Picked(ledger: map<LedgerKey, Entry>, stat: string) {
      var k := stats.base.KeyFor(stats.StatNames(stat));
      k in ledger && ledger[k].flag1 > 0
    }

    /** Whether the Ability linked to `stat` is already favoured. */
    predicate PartnerPicked(stat: string)
      reads stats.base.store
    {
      stat in LinkAbil && Picked(stats.base.store.ledger, LinkAbil[stat])
    }

    /** Both linked Abilities favoured at once: what `favor` exists to prevent. */
    predicate BothPicked(ledger: map<LedgerKey, Entry>) {
      Picked(ledger, "Brawl") && Picked(ledger, "Martial Arts")
    }

    /**
     * The capitaliser keeps each linked Ability's catalog row apart from every
     * other Ability's, as it does for distinct names.
     */
    predicate LinkedRowsApart() {
      forall a, b :: a in LinkAbil && b in StoryTables.Abilities && a != b ==> stats.StatNames(a) != stats.StatNames(b)
    }

    /**
     * The exclusion `favor` keeps: a flag write that the guard let through (no
     * positive favour while the partner is favoured) never leaves both linked
     * Abilities favoured when they were not before.
     */
    lemma FavorKeepsExclusion(ledger: map<LedgerKey, Entry>, stat: string, v: nat)
      requires LinkedRowsApart() && stat in StoryTables.Abilities
      requires !BothPicked(ledger)
      requires !(stat in LinkAbil && v > 0 && Picked(ledger, LinkAbil[stat]))
      ensures !BothPicked(WriteEntry(ledger, stats.base.KeyFor(stats.StatNames(stat)), Flag1, v))
    {
      var after := WriteEntry(ledger, stats.base.KeyFor(stats.StatNames(stat)), Flag1, v);
      StoryTables.SpecialAbilitiesListed();
      if stat in LinkAbil {
        var other := LinkAbil[stat];
        assert stats.StatNames(stat) != stats.StatNames(other);
        assert Picked(after, other) == Picked(ledger, other);
      } else {
        assert stats.StatNames(stat) != stats.StatNames("Brawl");
        assert Picked(after, "Brawl") == Picked(ledger, "Brawl");
      }
    }

    /**
     * `favor`: resolve and parse, refuse a positive favour while the linked
     * Ability is favoured (its catalog row is fetched or created first), then
     * write the first flag of the owner's row.
     */
    method Favor(name: string, raw: RawValue) returns (r: Result<Entry>)
      requires stats.family == Abilities && stats.base.store.Valid()
      modifies stats.base.store`catalog, stats.base.store`ledger
      ensures stats.base.store.Valid()
      ensures stats.FindStat(name).Failure? ==>
        r == Failure(stats.FindStat(name).error) && unchanged(stats.base.store)
      ensures stats.FindStat(name).Success? && raw.Unparsable? ==>
        r == Failure(NotANumber) && unchanged(stats.base.store)
      ensures stats.FindStat(name).Success? && raw.Number? ==>
        var stat, v := stats.FindStat(name).value, raw.n;
        var names := stats.StatNames(stat);
        var linked := stat in LinkAbil && v > 0;
        var catalog1 := if linked then GetOrCreate(old(stats.base.store.catalog), stats.StatNames(LinkAbil[stat]),
                                                   Stat(stats.StatNames(LinkAbil[stat]), None))
                        else old(stats.base.store.catalog);
        && (linked && old(PartnerPicked(stat)) ==>
              r == Failure(AlreadyPicked) && stats.base.store.catalog == catalog1
              && stats.base.store.ledger == old(stats.base.store.ledger))
        && (!(linked && old(PartnerPicked(stat))) ==>
              && stats.base.store.catalog == GetOrCreate(catalog1, names, Stat(names, None))
              && (v < 0 ==> r == Failure(NegativeValue) && stats.base.store.ledger == old(stats.base.store.ledger))
              && (v >= 0 ==>
                    && stats.base.store.ledger == WriteEntry(old(stats.base.store.ledger), stats.base.KeyFor(names), Flag1, v)
                    && r == Success(stats.base.store.ledger[stats.base.KeyFor(names)])))
      ensures LinkedRowsApart() && !BothPicked(old(stats.base.store.ledger)) ==> !BothPicked(stats.base.store.ledger)
    {
      var fs := stats.FindStat(name);
      if fs.Failure? {
        return Failure(fs.error);
      }
      if raw.Unparsable? {
        return Failure(NotANumber);
      }
      var stat, value := fs.value, raw.n;
      var blocked := LinkedPicked(stat, value);
      if blocked {
        return Failure(AlreadyPicked);
      }
      PathDepth(Abilities, stat);
      var found := stats.base.StatRow(BasePath(Abilities) + [stat], None);
      var row := found.value;
      assert row.names == stats.StatNames(stat);
      ghost var before := stats.base.store.ledger;
      r := stats.base.SetFlag1(row, value);
      if LinkedRowsApart() && !BothPicked(before) && value >= 0 {
        FavorKeepsExclusion(before, stat, value);
      }
    }

    /**
     * The guard of `favor`: for a positive favour of a linked Ability, fetch or
     * create the partner's catalog row and report whether the owner has favoured it.
     */
    method LinkedPicked(stat: string, value: int) returns (picked: bool)
      requires stats.family == Abilities && stats.base.store.Valid()
      modifies stats.base.store`catalog
      ensures stats.base.store.Valid()
      ensures picked == (stat in LinkAbil && value > 0 && old(PartnerPicked(stat)))
      ensures stat in LinkAbil && value > 0 ==>
        var partner := stats.StatNames(LinkAbil[stat]);
        stats.base.store.catalog == GetOrCreate(old(stats.base.store.catalog), partner, Stat(partner, None))
      ensures !(stat in LinkAbil && value > 0) ==> stats.base.store.catalog == old(stats.base.store.catalog)
    {
      picked := false;
      if stat in LinkAbil && value > 0 {
        var partner := stats.StatNames(LinkAbil[stat]);
        PathDepth(Abilities, LinkAbil[stat]);
        var linkedFound := stats.base.StatRow(BasePath(Abilities) + [LinkAbil[stat]], None);
        var lnkRow := linkedFound.value;
        assert lnkRow.names == partner;
        var k := stats.base.KeyFor(lnkRow.names);
        picked := k in stats.base.store.ledger && stats.base.store.ledger[k].flag1 > 0;
      }
    }
  }

  class CraftHandler {
    const base: BaseHandler

    constructor (base: BaseHandler)
      ensures this.base == base
    {
      this.base := base;
    }

    /** The catalog key of a Craft: `["Crafts", stat]`. */
    function CraftNames(stat: string): Names {
      PathNames(base.helpers.capitalize, ["Crafts", stat])
    }

    /**
     * `set`: a non-zero value is written like any stat; zero deletes the
     * owner's row, returning it, and then the catalog row once no owner uses it.
     * The catalog row is fetched or created (recording `creator` when created)
     * before the value is checked for sign.
     */
    method Set(name: string, raw: RawValue, creator: Option<ObjId>) returns (r: Result<Option<Entry>>)
      requires base.store.Valid()
      modifies base.store`catalog, base.store`ledger, base.store`specialties
      ensures base.store.Valid()
      ensures base.GoodName(name, MaxNameLength).Failure? ==>
        r == Failure(base.GoodName(name, MaxNameLength).error) && unchanged(base.store)
      ensures base.GoodName(name, MaxNameLength).Success? && raw.Unparsable? ==>
        r == Failure(NotANumber) && unchanged(base.store)
      ensures base.GoodName(name, MaxNameLength).Success? && raw.Number? ==>
        var names, v := CraftNames(base.GoodName(name, MaxNameLength).value), raw.n;
        var k := base.KeyFor(names);
        var catalog1 := GetOrCreate(old(base.store.catalog), names, Stat(names, creator));
        && (v != 0 ==> base.store.catalog == catalog1 && base.store.specialties == old(base.store.specialties))
        && (v < 0 ==> r == Failure(NegativeValue) && base.store.ledger == old(base.store.ledger))
        && (v > 0 ==>
              && base.store.ledger == WriteEntry(old(base.store.ledger), k, Value, v)
              && r == Success(Some(base.store.ledger[k])))
        && (v == 0 ==>
              && base.store.ledger == old(base.store.ledger) - {k}
              && r == Success(if k in old(base.store.ledger) then Some(old(base.store.ledger)[k]) else None)
              && (forall s :: s in base.store.specialties <==> s in old(base.store.specialties) && s.stat != k)
              && (forall s :: s in base.store.specialties ==> base.store.specialties[s] == old(base.store.specialties)[s])
              && base.store.catalog == (if base.store.HasUsers(names) then catalog1 else catalog1 - {names}))
    {
      var good := base.GoodName(name, MaxNameLength);
      if good.Failure? {
        return Failure(good.error);
      }
      if raw.Unparsable? {
        return Failure(NotANumber);
      }
      var stat, value := good.value, raw.n;
      var created := base.StatRow(["Crafts", stat], creator);
      var row := created.value;
      if value != 0 {
        var e := base.SetInt(row, value);
        if e.Failure? {
          return Failure(e.error);
        }
        return Success(Some(e.value));
      }
      r := Forget(row);
    }

    /**
     * The zero branch of `set`: delete the owner's row if there is one, with
     * its specialties (`on_delete=CASCADE`), then the catalog row when no
     * owner's row references it any more.
     */
    method Forget(row: Stat) returns (r: Result<Option<Entry>>)
      requires base.store.Valid() && row.names in base.store.catalog
      modifies base.store`catalog, base.store`ledger, base.store`specialties
      ensures base.store.Valid()
      ensures base.store.ledger == old(base.store.ledger) - {base.KeyFor(row.names)}
      ensures forall s :: s in base.store.specialties <==> s in old(base.store.specialties) && s.stat != base.KeyFor(row.names)
      ensures forall s :: s in base.store.specialties ==> base.store.specialties[s] == old(base.store.specialties)[s]
      ensures var k := base.KeyFor(row.names);
        r == Success(if k in old(base.store.ledger) then Some(old(base.store.ledger)[k]) else None)
      ensures base.store.catalog ==
        (if base.store.HasUsers(row.names) then old(base.store.catalog) else old(base.store.catalog) - {row.names})
    {
      var store := base.store;
      var k := base.KeyFor(row.names);
      var found := if k in store.ledger then Some(store.ledger[k]) else None;
      store.ledger := store.ledger - {k};
      store.specialties := CascadeSpecialties(store.specialties, k);
      if !store.HasUsers(row.names) {
        store.catalog := store.catalog - {row.names};
      }
      r := Success(found);
    }
  }
}
