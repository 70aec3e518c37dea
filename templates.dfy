/**
 * world/story/templates.py: a character's template (Solar, Mortal, ...), its
 * sub-type (Caste), the starting values it writes, and the handler that picks
 * a template from the registry by partial match.
 */
module Templates {
  import opened Utils
  import opened StoryErrors
  import opened StoryModels
  import opened StoryBase
  import StoryTables

  /** `Template.sub_name` default. */
  const DefaultSubName := "Caste"
  /** `Template.start_advantages` default, in declaration order. */
  const DefaultStartAdvantages: seq<(string, nat)> := [("Willpower", 5), ("Essence", 1)]
  /** The path segment Attributes are stored under. */
  const AttributeGroup := "Attributes"
  /** The path segment the starting Advantages are stored under. */
  const AdvantageGroup := "Advantages"
  /** The key `TemplateHandler` falls back to when the owner has none stored. */
  const DefaultTemplateKey := "Mortal"

  /**
   * The class attributes of one template class, and the key it is registered
   * under. `name` is the optional `name` attribute; `className` the class's own name.
   */
  datatype TemplateDef = TemplateDef(
    key: string,
    className: string,
    name: Option<string>,
    subTypes: seq<string>,
    subName: string,
    startAdvantages: seq<(string, nat)>)

  /** A template class that overrides nothing: no sub-types, "Caste", Willpower 5 and Essence 1. */
  function PlainTemplate(key: string, className: string): (d: TemplateDef)
    ensures d.subTypes == [] && d.subName == "Caste" && d.name.None?
    ensures d.startAdvantages == [("Willpower", 5), ("Essence", 1)]
  {
    TemplateDef(key, className, None, [], DefaultSubName, DefaultStartAdvantages)
  }

  /**
   * `get_name` and `__str__`: both read the `name` attribute, falling back to
   * the class name, one through the class and one through an instance.
   */
  function GetName(d: TemplateDef): (r: string)
    ensures d.name.Some? ==> r == d.name.value
    ensures d.name.None? ==> r == d.className
  {
    d.name.GetOr(d.className)
  }

  const ReprPrefix := "<Template: "

  /** `__repr__`: the name wrapped in `<Template: ...>`, from which it can be read back. */
  function TemplateRepr(d: TemplateDef): (r: string)
    ensures |r| == |GetName(d)| + 12
    ensures r[..11] == "<Template: " && r[|r| - 1] == '>'
    ensures r[11..|r| - 1] == GetName(d)
  {
    ReprPrefix + GetName(d) + ">"
  }

  /** The registered keys, in registration order (`TEMPLATES.keys()`). */
  function RegistryKeys(registry: seq<TemplateDef>): (r: seq<string>)
    ensures |r| == |registry|
    ensures forall i :: 0 <= i < |registry| ==> r[i] == registry[i].key
  {
    if registry == [] then [] else [registry[0].key] + RegistryKeys(registry[1..])
  }

  /** `TEMPLATES.get(key)`: the first class registered under that key. */
  function Find(registry: seq<TemplateDef>, key: string): (r: Option<TemplateDef>)
    ensures r.Some? <==> key in RegistryKeys(registry)
    ensures r.Some? ==> r.value in registry && r.value.key == key
  {
    if registry == [] then None
    else if registry[0].key == key then Some(registry[0])
    else
      assert RegistryKeys(registry) == [registry[0].key] + RegistryKeys(registry[1..]);
      Find(registry[1..], key)
  }

  class Template {
    const def: TemplateDef
    const base: BaseHandler

    constructor (def: TemplateDef, base: BaseHandler)
      ensures this.def == def && this.base == base
    {
      this.def := def;
      this.base := base;
    }

    /** `set_sub`: refuse an empty entry or one matching no sub-type, else store the matched sub-type on the owner. */
    method SetSub(entry: string) returns (r: Result<string>)
      modifies base.owner`templateSubtype
      ensures entry == "" ==> r == Failure(NoTemplateName) && unchanged(base.owner)
      ensures entry != "" && !Truthy(base.helpers.partialMatch(entry, def.subTypes)) ==>
        r == Failure(SubTypeNotFound) && unchanged(base.owner)
      ensures entry != "" && Truthy(base.helpers.partialMatch(entry, def.subTypes)) ==>
        && r == Success(base.helpers.partialMatch(entry, def.subTypes).value)
        && r.value in def.subTypes
        && base.owner.templateSubtype == Some(r.value)
    {
      if entry == "" {
        return Failure(NoTemplateName);
      }
      var found := base.helpers.partialMatch(entry, def.subTypes);
      if !Truthy(found) {
        return Failure(SubTypeNotFound);
      }
      base.owner.templateSubtype := Some(found.value);
      r := Success(found.value);
    }

    /** `initialize_template`: the first sub-type, when the template has any. */
    method InitializeTemplate()
      modifies base.owner`templateSubtype
      ensures def.subTypes != [] ==> base.owner.templateSubtype == Some(def.subTypes[0])
      ensures def.subTypes == [] ==> unchanged(base.owner)
    {
      if def.subTypes != [] {
        base.owner.templateSubtype := Some(def.subTypes[0]);
      }
    }

    /** The catalog path `group/name`. */
    function StartPath(group: string, name: string): Names {
      PathNames(base.helpers.capitalize, [group, name])
    }

    /** The owner's ledger key for `group/name`. */
    function StartKey(group: string, name: string): LedgerKey {
      base.KeyFor(StartPath(group, name))
    }

    /** The catalog paths a run of starting values fetches or creates, in order. */
    function StartPaths(group: string, pairs: seq<(string, nat)>): (ps: seq<Names>)
      ensures |ps| == |pairs|
      ensures forall i :: 0 <= i < |pairs| ==> ps[i] == StartPath(group, pairs[i].0)
    {
      seq(|pairs|, i requires 0 <= i < |pairs| => StartPath(group, pairs[i].0))
    }

    /** The value writes a run of starting values makes, in order. */
    function StartWrites(group: string, pairs: seq<(string, nat)>): (w: seq<(LedgerKey, nat)>)
      ensures |w| == |pairs|
      ensures forall i :: 0 <= i < |pairs| ==> w[i] == (StartKey(group, pairs[i].0), pairs[i].1)
    {
      seq(|pairs|, i requires 0 <= i < |pairs| => (StartKey(group, pairs[i].0), pairs[i].1))
    }

    /**
     * The loop shared by `initialize_attributes` and `initialize_advantages`:
     * for each pair in order, get or create the catalog row `group/name` and
     * set the owner's value.
     */
    method WriteStartingValues(group: string, pairs: seq<(string, nat)>)
      requires base.store.Valid()
      modifies base.store`catalog, base.store`ledger
      ensures base.store.Valid()
      ensures base.store.ledger == WriteValues(old(base.store.ledger), StartWrites(group, pairs))
      ensures base.store.catalog == CreateRows(old(base.store.catalog), StartPaths(group, pairs))
      ensures forall n :: n in old(base.store.catalog) ==> n in base.store.catalog && base.store.catalog[n] == old(base.store.catalog)[n]
      ensures ValueWritesOnly(old(base.store.ledger), base.store.ledger, StartedKeys(group, pairs))
      ensures RowsAddedOnly(old(base.store.catalog), base.store.catalog, StartedPaths(group, pairs))
    {
      ghost var writes, paths := StartWrites(group, pairs), StartPaths(group, pairs);
      ghost var ledger0, catalog0 := base.store.ledger, base.store.catalog;
      for i := 0 to |pairs|
        invariant base.store.Valid()
        invariant base.store.ledger == WriteValues(ledger0, writes[..i])
        invariant base.store.catalog == CreateRows(catalog0, paths[..i])
      {
        WriteStartingValue(group, pairs[i].0, pairs[i].1);
        WriteValuesStep(ledger0, writes, i);
        CreateRowsStep(catalog0, paths, i);
      }
      assert writes[..|pairs|] == writes;
      assert paths[..|pairs|] == paths;
      CreateRowsRows(catalog0, paths);
      StartingRunLedger(ledger0, group, pairs);
      StartingRunCatalog(catalog0, group, pairs);
    }

    /** One step of that loop: `group/name` gets or creates its catalog row and the owner's value is set. */
    method WriteStartingValue(group: string, name: string, v: nat)
      requires base.store.Valid()
      modifies base.store`catalog, base.store`ledger
      ensures base.store.Valid()
      ensures base.store.ledger == WriteEntry(old(base.store.ledger), StartKey(group, name), Value, v)
      ensures base.store.catalog == GetOrCreate(old(base.store.catalog), StartPath(group, name), Stat(StartPath(group, name), None))
    {
      var found := base.StatRow([group, name], None);
      var row := found.value;
      var e := base.SetInt(row, v);
    }

    /** The owner's ledger keys a run of starting values writes. */
    function StartedKeys(group: string, pairs: seq<(string, nat)>): set<LedgerKey> {
      set p | p in pairs :: StartKey(group, p.0)
    }

    /** The catalog paths a run of starting values fetches or creates. */
    function StartedPaths(group: string, pairs: seq<(string, nat)>): set<Names> {
      set p | p in pairs :: StartPath(group, p.0)
    }

    /**
     * What a run of starting values does to the ledger: it gains exactly the
     * written rows, every row no pair names is untouched, rows already there
     * keep their flags and new rows have flags 0.
     */
    lemma StartingRunLedger(ledger0: map<LedgerKey, Entry>, group: string, pairs: seq<(string, nat)>)
      ensures ValueWritesOnly(ledger0, WriteValues(ledger0, StartWrites(group, pairs)), StartedKeys(group, pairs))
    {
      var writes := StartWrites(group, pairs);
      WriteValuesFrame(ledger0, writes);
      WriteValuesKeepsFlags(ledger0, writes);
      assert (set i | 0 <= i < |writes| :: writes[i].0) == StartedKeys(group, pairs) by {
        forall k | k in StartedKeys(group, pairs)
          ensures k in (set i | 0 <= i < |writes| :: writes[i].0)
        {
          var p :| p in pairs && k == StartKey(group, p.0);
          var i :| 0 <= i < |pairs| && pairs[i] == p;
          assert writes[i].0 == k;
        }
        forall i | 0 <= i < |writes| ensures writes[i].0 in StartedKeys(group, pairs) {
          assert pairs[i] in pairs;
        }
      }
    }

    /**
     * What a run of starting values does to the catalog: it gains exactly the
     * written paths, as creator-less rows, and keeps every row it had.
     */
    lemma StartingRunCatalog(catalog0: map<Names, Stat>, group: string, pairs: seq<(string, nat)>)
      ensures RowsAddedOnly(catalog0, CreateRows(catalog0, StartPaths(group, pairs)), StartedPaths(group, pairs))
    {
      var paths := StartPaths(group, pairs);
      CreateRowsKeys(catalog0, paths);
      CreateRowsRows(catalog0, paths);
      forall n | n in paths
        ensures n in StartedPaths(group, pairs)
      {
        var i :| 0 <= i < |paths| && paths[i] == n;
        assert pairs[i] in pairs;
      }
      forall n | n in StartedPaths(group, pairs)
        ensures n in paths
      {
        var p :| p in pairs && n == StartPath(group, p.0);
        var i :| 0 <= i < |pairs| && pairs[i] == p;
        assert paths[i] == n;
      }
    }

    /** The owner's Attribute rows. */
    function AttributeKeys(): set<LedgerKey> {
      set a | a in StoryTables.Attributes :: StartKey(AttributeGroup, a)
    }

    /** The Attribute paths. */
    function AttributePaths(): set<Names> {
      set a | a in StoryTables.Attributes :: StartPath(AttributeGroup, a)
    }

    /** The Attribute run names exactly the Attributes, so its keys and paths are the Attributes'. */
    lemma AttributeRunNames()
      ensures StartedKeys(AttributeGroup, AttributeStarts()) == AttributeKeys()
      ensures StartedPaths(AttributeGroup, AttributeStarts()) == AttributePaths()
    {
      AttributeStartsNames();
      forall k | k in AttributeKeys()
        ensures k in StartedKeys(AttributeGroup, AttributeStarts())
      {
        var a :| a in StoryTables.Attributes && k == StartKey(AttributeGroup, a);
        assert (a, 1 as nat) in AttributeStarts();
      }
      forall n | n in AttributePaths()
        ensures n in StartedPaths(AttributeGroup, AttributeStarts())
      {
        var a :| a in StoryTables.Attributes && n == StartPath(AttributeGroup, a);
        assert (a, 1 as nat) in AttributeStarts();
      }
    }

    /**
     * `initialize_attributes`: every Attribute of the owner ends at 1. The
     * catalog gains exactly the Attribute paths, the ledger exactly the
     * owner's Attribute rows; no other row changes and no flag changes.
     */
    method InitializeAttributes()
      requires base.store.Valid()
      modifies base.store`catalog, base.store`ledger
      ensures base.store.Valid()
      ensures forall a :: a in StoryTables.Attributes ==>
        StartKey(AttributeGroup, a) in base.store.ledger && base.store.ledger[StartKey(AttributeGroup, a)].value == 1
      ensures ValueWritesOnly(old(base.store.ledger), base.store.ledger, AttributeKeys())
      ensures RowsAddedOnly(old(base.store.catalog), base.store.catalog, AttributePaths())
    {
      var pairs := AttributeStarts();
      WriteStartingValues(AttributeGroup, pairs);
      assert ValueWritesOnly(old(base.store.ledger), base.store.ledger, AttributeKeys()) by {
        StartingRunLedger(old(base.store.ledger), AttributeGroup, pairs);
        AttributeRunNames();
      }
      assert RowsAddedOnly(old(base.store.catalog), base.store.catalog, AttributePaths()) by {
        StartingRunCatalog(old(base.store.catalog), AttributeGroup, pairs);
        AttributeRunNames();
      }
      AttributeRunSetsOne(old(base.store.ledger));
    }

    /** After the Attribute run, every Attribute row of the owner holds 1. */
    lemma AttributeRunSetsOne(ledger0: map<LedgerKey, Entry>)
      ensures var ledger := WriteValues(ledger0, StartWrites(AttributeGroup, AttributeStarts()));
        forall a :: a in StoryTables.Attributes ==> StartKey(AttributeGroup, a) in ledger && ledger[StartKey(AttributeGroup, a)].value == 1
    {
      var writes := StartWrites(AttributeGroup, AttributeStarts());
      forall a | a in StoryTables.Attributes
        ensures StartKey(AttributeGroup, a) in WriteValues(ledger0, writes)
        ensures WriteValues(ledger0, writes)[StartKey(AttributeGroup, a)].value == 1
      {
        var i :| 0 <= i < |StoryTables.Attributes| && StoryTables.Attributes[i] == a;
        WriteValuesSomeWrite(ledger0, writes, i);
      }
    }

    /** `initialize_abilities` writes nothing. */
    method InitializeAbilities()
      ensures unchanged(base.store) && unchanged(base.owner)
    {
    }

    /**
     * `initialize_advantages`: each starting Advantage holds the value of the
     * last pair naming its row (its own value when the names are told apart).
     * The catalog gains exactly the Advantage paths, the ledger exactly the
     * owner's Advantage rows; no other row changes and no flag changes.
     */
    method InitializeAdvantages()
      requires base.store.Valid()
      modifies base.store`catalog, base.store`ledger
      ensures base.store.Valid()
      ensures forall i ::
        (&& 0 <= i < |def.startAdvantages|
         && forall j :: i < j < |def.startAdvantages| ==>
              StartKey(AdvantageGroup, def.startAdvantages[j].0) != StartKey(AdvantageGroup, def.startAdvantages[i].0)) ==>
        && StartKey(AdvantageGroup, def.startAdvantages[i].0) in base.store.ledger
        && base.store.ledger[StartKey(AdvantageGroup, def.startAdvantages[i].0)].value == def.startAdvantages[i].1
      ensures ValueWritesOnly(old(base.store.ledger), base.store.ledger, StartedKeys(AdvantageGroup, def.startAdvantages))
      ensures RowsAddedOnly(old(base.store.catalog), base.store.catalog, StartedPaths(AdvantageGroup, def.startAdvantages))
    {
      var pairs := def.startAdvantages;
      WriteStartingValues(AdvantageGroup, pairs);
      ghost var writes := StartWrites(AdvantageGroup, pairs);
      StartingRunLedger(old(base.store.ledger), AdvantageGroup, pairs);
      StartingRunCatalog(old(base.store.catalog), AdvantageGroup, pairs);
      forall i | 0 <= i < |pairs| && (forall j :: i < j < |pairs| ==> StartKey(AdvantageGroup, pairs[j].0) != StartKey(AdvantageGroup, pairs[i].0))
        ensures StartKey(AdvantageGroup, pairs[i].0) in base.store.ledger
        ensures base.store.ledger[StartKey(AdvantageGroup, pairs[i].0)].value == pairs[i].1
      {
        WriteValuesLastWins(old(base.store.ledger), writes, i);
      }
    }

    /**
     * `initialize`: the class defines it twice and the second definition, which
     * does nothing, is the one in effect.
     */
    method Initialize()
      ensures unchanged(base.store) && unchanged(base.owner)
    {
    }
  }

  /** The pairs `initialize_attributes` writes: each Attribute, in order, with value 1. */
  function AttributeStarts(): (pairs: seq<(string, nat)>)
    ensures |pairs| == |StoryTables.Attributes|
    ensures forall i :: 0 <= i < |pairs| ==> pairs[i] == (StoryTables.Attributes[i], 1)
  {
    seq(|StoryTables.Attributes|, i requires 0 <= i < |StoryTables.Attributes| => (StoryTables.Attributes[i], 1 as nat))
  }

  /** A pair of that run names an Attribute, and every Attribute has its pair. */
  lemma AttributeStartsNames()
    ensures forall p :: p in AttributeStarts() ==> p.0 in StoryTables.Attributes
    ensures forall a :: a in StoryTables.Attributes ==> (a, 1 as nat) in AttributeStarts()
  {
    var pairs := AttributeStarts();
    forall a | a in StoryTables.Attributes
      ensures (a, 1 as nat) in pairs
    {
      var i :| 0 <= i < |StoryTables.Attributes| && StoryTables.Attributes[i] == a;
      assert pairs[i] == (a, 1);
    }
  }

  class TemplateHandler {
    const base: BaseHandler
    const registry: seq<TemplateDef>
    var template: Template

    /**
     * `__init__`: instantiate the class registered under the owner's stored
     * template key, "Mortal" when none is stored. The source calls the result
     * of the lookup, so an unregistered key is a crash there: it is required here.
     */
    constructor (base: BaseHandler, registry: seq<TemplateDef>)
      requires base.owner.template.GetOr(DefaultTemplateKey) in RegistryKeys(registry)
      ensures this.base == base && this.registry == registry
      ensures template.def == Find(registry, base.owner.template.GetOr(DefaultTemplateKey)).value
      ensures template.base == base
      ensures base.owner.template.None? ==> template.def.key == "Mortal"
    {
      this.base := base;
      this.registry := registry;
      var def := Find(registry, base.owner.template.GetOr(DefaultTemplateKey)).value;
      template := new Template(def, base);
    }

    /** `__str__`: the handler's class name around the template's name. */
    function Str(): (r: string)
      reads this
      ensures |r| == |GetName(template.def)| + 19
      ensures r[..18] == "<TemplateHandler: " && r[|r| - 1] == '>'
      ensures r[18..|r| - 1] == GetName(template.def)
    {
      "<TemplateHandler: " + GetName(template.def) + ">"
    }

    /**
     * `set`: refuse an empty name or one matching no registered key; otherwise
     * replace the template by a new instance of the matched class and run its
     * `initialize`, which does nothing. The chosen key is not stored on the owner.
     */
    method Set(templateName: string) returns (r: Result<TemplateDef>)
      modifies this`template
      ensures unchanged(base.owner) && unchanged(base.store)
      ensures templateName == "" ==> r == Failure(NoTemplateName) && template == old(template)
      ensures templateName != "" && !Truthy(base.helpers.partialMatch(templateName, RegistryKeys(registry))) ==>
        r == Failure(TemplateNotFound) && template == old(template)
      ensures templateName != "" && Truthy(base.helpers.partialMatch(templateName, RegistryKeys(registry))) ==>
        var found := base.helpers.partialMatch(templateName, RegistryKeys(registry)).value;
        && found in RegistryKeys(registry)
        && fresh(template) && template.base == base
        && template.def == Find(registry, found).value && template.def.key == found
        && r == Success(template.def)
    {
      if templateName == "" {
        return Failure(NoTemplateName);
      }
      var found := base.helpers.partialMatch(templateName, RegistryKeys(registry));
      if !Truthy(found) {
        return Failure(TemplateNotFound);
      }
      template := new Template(Find(registry, found.value).value, base);
      template.Initialize();
      r := Success(template.def);
    }
  }
}
