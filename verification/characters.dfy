/** The character draft: a fixed set of keys, each holding an optional string. */
module Characters {
  import opened Wrappers

  /** The keys of the attribute dictionary, in insertion order. */
  datatype Field = Name | Race | Class | Weapon | Magic

  /** The draft a builder fills in; every field starts out absent. */
  datatype Character = Character(
    name: Option<string>,
    race: Option<string>,
    charClass: Option<string>,
    weapon: Option<string>,
    magic: Option<string>)

  /** The draft a new builder starts from: every key present, every value `None`. */
  function Empty(): (c: Character)
    ensures forall f :: Get(c, f) == None
  {
    Character(None, None, None, None, None)
  }

  /** The value stored under one key. */
  function Get(c: Character, f: Field): Option<string>
  {
    match f
    case Name => c.name
    case Race => c.race
    case Class => c.charClass
    case Weapon => c.weapon
    case Magic => c.magic
  }

  /** The two drafts agree on every key except possibly `f`. */
  predicate OthersUnchanged(c: Character, c': Character, f: Field) {
    forall g :: g != f ==> Get(c', g) == Get(c, g)
  }

  /** Store `value` under `key`, replacing whatever was there. */
  function SetAttribute(c: Character, key: Field, value: string): (r: Character)
    ensures Get(r, key) == Some(value)
    ensures OthersUnchanged(c, r, key)
  {
    match key
    case Name => c.(name := Some(value))
    case Race => c.(race := Some(value))
    case Class => c.(charClass := Some(value))
    case Weapon => c.(weapon := Some(value))
    case Magic => c.(magic := Some(value))
  }

  /** The attribute dictionary: all five keys, each mapped to its value. */
  function Attributes(c: Character): (m: map<Field, Option<string>>)
    ensures forall f :: f in m && m[f] == Get(c, f)
  {
    var m := map[Name := c.name, Race := c.race, Class := c.charClass,
                 Weapon := c.weapon, Magic := c.magic];
    DictionaryHoldsEachField(c, m);
    m
  }

  lemma DictionaryHoldsEachField(c: Character, m: map<Field, Option<string>>)
    requires m == map[Name := c.name, Race := c.race, Class := c.charClass,
                      Weapon := c.weapon, Magic := c.magic]
    ensures forall f :: f in m && m[f] == Get(c, f)
  {
    forall f ensures f in m && m[f] == Get(c, f) {
      match f
      case Name =>
      case Race =>
      case Class =>
      case Weapon =>
      case Magic =>
    }
  }

  /** The attribute dictionary determines the draft. */
  lemma AttributesInjective(c: Character, c': Character)
    requires Attributes(c) == Attributes(c')
    ensures c == c'
  {
    assert Attributes(c)[Name] == Attributes(c')[Name];
    assert Attributes(c)[Race] == Attributes(c')[Race];
    assert Attributes(c)[Class] == Attributes(c')[Class];
    assert Attributes(c)[Weapon] == Attributes(c')[Weapon];
    assert Attributes(c)[Magic] == Attributes(c')[Magic];
  }
}
