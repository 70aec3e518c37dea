/** The fixed name tables the stat handlers resolve against (world/story/__init__.py). */
module StoryTables {
  import opened Ordering

  const Attributes: seq<string> :=
    ["Strength", "Dexterity", "Stamina", "Charisma", "Manipulation", "Appearance", "Perception",
     "Intelligence", "Wits"]

  /** `ATTRIBUTES_PSM`, in its declared order physical, social, mental. */
  const AttributesPsm: seq<(string, seq<string>)> := [
    ("physical", ["Strength", "Dexterity", "Stamina"]),
    ("social", ["Charisma", "Manipulation", "Appearance"]),
    ("mental", ["Perception", "Intelligence", "Wits"])
  ]

  const Abilities: seq<string> :=
    ["Archery", "Athletics", "Awareness", "Brawl", "Bureaucracy", "Craft", "Dodge", "Integrity",
     "Investigation", "Larceny", "Linguistics", "Lore", "Martial Arts", "Medicine", "Melee", "Occult",
     "Performance", "Presence", "Resistance", "Ride", "Sail", "Socialize", "Stealth", "Survival",
     "Thrown", "War"]

  predicate Distinct(s: seq<string>) {
    forall i, j :: 0 <= i < j < |s| ==> s[i] != s[j]
  }

  /** Nine Attributes, none repeated. */
  lemma AttributesAreNineDistinct()
    ensures |Attributes| == 9 && Distinct(Attributes)
  {
  }

  /** The three groups have three names each, share none, and together are exactly the Attributes. */
  lemma {:induction false} PsmPartitionsAttributes()
    ensures |AttributesPsm| == 3
    ensures forall g :: 0 <= g < 3 ==> |AttributesPsm[g].1| == 3
    ensures forall g, h :: 0 <= g < h < 3 ==>
      forall a :: a in AttributesPsm[g].1 ==> a !in AttributesPsm[h].1
    ensures forall a :: a in Attributes <==> exists g :: 0 <= g < 3 && a in AttributesPsm[g].1
  {
    AttributesAreNineDistinct();
    var p, s, m := AttributesPsm[0].1, AttributesPsm[1].1, AttributesPsm[2].1;
    assert p == Attributes[0..3] && s == Attributes[3..6] && m == Attributes[6..9];
    forall a | a in Attributes
      ensures exists g :: 0 <= g < 3 && a in AttributesPsm[g].1
    {
      var i :| 0 <= i < 9 && Attributes[i] == a;
      if i < 3 {
        assert a == p[i];
      } else if i < 6 {
        assert a == s[i - 3];
      } else {
        assert a == m[i - 6];
      }
    }
  }

  /** Twenty-six Abilities in ascending order, hence none repeated. */
  lemma AbilitiesAreSortedAndDistinct()
    ensures |Abilities| == 26
    ensures StrictlyAscending(Abilities)
    ensures Distinct(Abilities)
  {
    AbilitiesAscendFirstHalf();
    AbilitiesAscendSecondHalf();
    assert StrictlyAscending(Abilities);
    AscendingIsOrdered(Abilities);
  }

  lemma AbilitiesAscendFirstHalf()
    ensures forall i :: 0 < i <= 12 ==> StrLt(Abilities[i - 1], Abilities[i])
  {
    assert StrLt("Archery", "Athletics");
    assert StrLt("Athletics", "Awareness");
    assert StrLt("Awareness", "Brawl");
    assert StrLt("Brawl", "Bureaucracy");
    assert StrLt("Bureaucracy", "Craft");
    assert StrLt("Craft", "Dodge");
    assert StrLt("Dodge", "Integrity");
    assert StrLt("Integrity", "Investigation") by { assert StrLt("tegrity", "vestigation"); }
    assert StrLt("Investigation", "Larceny");
    assert StrLt("Larceny", "Linguistics");
    assert StrLt("Linguistics", "Lore");
    assert StrLt("Lore", "Martial Arts");
  }

  lemma AbilitiesAscendSecondHalf()
    ensures forall i :: 12 < i < 26 ==> StrLt(Abilities[i - 1], Abilities[i])
  {
    assert StrLt("Martial Arts", "Medicine");
    assert StrLt("Medicine", "Melee") by { assert StrLt("dicine", "lee"); }
    assert StrLt("Melee", "Occult");
    assert StrLt("Occult", "Performance");
    assert StrLt("Performance", "Presence");
    assert StrLt("Presence", "Resistance");
    assert StrLt("Resistance", "Ride");
    assert StrLt("Ride", "Sail");
    assert StrLt("Sail", "Socialize");
    assert StrLt("Socialize", "Stealth");
    assert StrLt("Stealth", "Survival");
    assert StrLt("Survival", "Thrown");
    assert StrLt("Thrown", "War");
  }

  /** The names the Ability rules single out are all Abilities. */
  lemma SpecialAbilitiesListed()
    ensures "Brawl" in Abilities && "Martial Arts" in Abilities && "Craft" in Abilities
  {
    assert Abilities[3] == "Brawl" && Abilities[5] == "Craft" && Abilities[12] == "Martial Arts";
  }
}
