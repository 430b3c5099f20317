/** The validator, the builder's five setters and `build`. A setter either
    checks its argument and writes one key of the draft, or raises. A raised
    error is a `Failure`; it carries no draft, so the caller's draft stays as
    it was, just as a raising setter writes nothing. */
module Builder {
  import opened Wrappers
  import opened PyText
  import opened Characters

  /** The races the builder accepts. The fourth entry ends in a space. */
  const ValidRaces: seq<string> :=
    ["абаюдненько", "тайота самри", "ня аригато", "ня тютюпи ся ", "ты🫵"]

  /** The classes the builder accepts. */
  const ValidClasses: seq<string> := ["воин", "маг", "лучник", "жрец", "разбойник"]

  // The validator's three rules.

  /** The lower-cased race is one of the listed races. */
  function ValidateRace(o: Ops, race: string, validRaces: seq<string>): (r: bool)
    ensures r <==> o.lower(race) in validRaces
  {
    ListContains(validRaces, o.lower(race))
  }

  /** The lower-cased class is one of the listed classes. */
  function ValidateClass(o: Ops, charClass: string, validClasses: seq<string>): (r: bool)
    ensures r <==> o.lower(charClass) in validClasses
  {
    ListContains(validClasses, o.lower(charClass))
  }

  /** `bool(value.strip())`: something other than whitespace is left. */
  function ValidateNotEmpty(o: Ops, value: string): (r: bool)
    ensures r ==> value != ""
  {
    o.strip(value) != ""
  }

  /** The `ValueError`s the builder raises. */
  datatype BuildError = EmptyName | InvalidRace | InvalidClass | EmptyWeapon | MissingRequired

  /** A heading followed by the options joined with ", " names every option. */
  lemma ListedAfterHeading(heading: string, options: seq<string>)
    ensures forall k :: 0 <= k < |options| ==> Mentions(heading + Join(", ", options), options[k])
  {
    forall k | 0 <= k < |options|
      ensures Mentions(heading + Join(", ", options), options[k])
    {
      JoinContainsEach(", ", options, k);
      var i :| OccursAt(options[k], Join(", ", options), i);
      OccursAfterPrefix(options[k], heading, Join(", ", options), i);
      assert OccursAt(options[k], heading + Join(", ", options), |heading| + i);
    }
  }

  /** The text each error carries. The race error names every valid race and
      the class error every valid class. */
  function Message(e: BuildError): (r: string)
    ensures e == InvalidRace ==> forall k :: 0 <= k < |ValidRaces| ==> Mentions(r, ValidRaces[k])
    ensures e == InvalidClass ==> forall k :: 0 <= k < |ValidClasses| ==> Mentions(r, ValidClasses[k])
  {
    match e
    case EmptyName => "Имя не может быть пустым"
    case InvalidRace =>
      var heading := "Недопустимая раса. Допустимые расы: ";
      ListedAfterHeading(heading, ValidRaces);
      heading + Join(", ", ValidRaces)
    case InvalidClass =>
      var heading := "Недопустимый класс. Допустимые классы: ";
      ListedAfterHeading(heading, ValidClasses);
      heading + Join(", ", ValidClasses)
    case EmptyWeapon => "Оружие не может быть пустым"
    case MissingRequired => "Не заполнены обязательные поля: имя, раса и класс"
  }

  /** Every race and class value a draft holds is on its whitelist. */
  predicate Valid(c: Character) {
    && (c.race.Some? ==> c.race.value in ValidRaces)
    && (c.charClass.Some? ==> c.charClass.value in ValidClasses)
  }

  function SetName(o: Ops, c: Character, name: string): (r: Result<Character, BuildError>)
    ensures r.Success? <==> ValidateNotEmpty(o, name)
    ensures r.Failure? ==> r.error == EmptyName
    ensures r.Success? ==> Get(r.value, Name) == Some(name) && OthersUnchanged(c, r.value, Name)
    ensures r.Success? ==> name != ""
    ensures r.Success? && Valid(c) ==> Valid(r.value)
  {
    if ValidateNotEmpty(o, name) then Success(SetAttribute(c, Name, name))
    else Failure(EmptyName)
  }

  function SetRace(o: Ops, c: Character, race: string): (r: Result<Character, BuildError>)
    ensures r.Success? <==> o.lower(race) in ValidRaces
    ensures r.Failure? ==> r.error == InvalidRace
    ensures r.Success? ==> Get(r.value, Race) == Some(o.lower(race)) && OthersUnchanged(c, r.value, Race)
    ensures r.Success? ==> r.value.race.value in ValidRaces
    ensures r.Success? && Valid(c) ==> Valid(r.value)
  {
    if ValidateRace(o, race, ValidRaces) then Success(SetAttribute(c, Race, o.lower(race)))
    else Failure(InvalidRace)
  }

  function SetClass(o: Ops, c: Character, charClass: string): (r: Result<Character, BuildError>)
    ensures r.Success? <==> o.lower(charClass) in ValidClasses
    ensures r.Failure? ==> r.error == InvalidClass
    ensures r.Success? ==> Get(r.value, Class) == Some(o.lower(charClass)) && OthersUnchanged(c, r.value, Class)
    ensures r.Success? ==> r.value.charClass.value in ValidClasses
    ensures r.Success? && Valid(c) ==> Valid(r.value)
  {
    if ValidateClass(o, charClass, ValidClasses) then Success(SetAttribute(c, Class, o.lower(charClass)))
    else Failure(InvalidClass)
  }

  function SetWeapon(o: Ops, c: Character, weapon: string): (r: Result<Character, BuildError>)
    ensures r.Success? <==> ValidateNotEmpty(o, weapon)
    ensures r.Failure? ==> r.error == EmptyWeapon
    ensures r.Success? ==> Get(r.value, Weapon) == Some(weapon) && OthersUnchanged(c, r.value, Weapon)
    ensures r.Success? && Valid(c) ==> Valid(r.value)
  {
    if ValidateNotEmpty(o, weapon) then Success(SetAttribute(c, Weapon, weapon))
    else Failure(EmptyWeapon)
  }

  function SetMagic(o: Ops, c: Character, magic: string): (r: Result<Character, BuildError>)
    ensures r.Success?
    ensures Get(r.value, Magic) == Some(magic) && OthersUnchanged(c, r.value, Magic)
    ensures Valid(c) ==> Valid(r.value)
  {
    Success(SetAttribute(c, Magic, magic))
  }

  /** Python truthiness of an optional string: `None` and `""` are false. */
  function Truthy(v: Option<string>): (r: bool)
    ensures r <==> v != None && v != Some("")
  {
    match v
    case None => false
    case Some(s) => |s| > 0
  }

  /** Python's `all(vs)`: scan left to right, stop at the first false entry. */
  function All(vs: seq<Option<string>>): (r: bool)
    ensures r <==> forall i :: 0 <= i < |vs| ==> Truthy(vs[i])
  {
    if |vs| == 0 then true
    else if !Truthy(vs[0]) then false
    else All(vs[1..])
  }

  /** The keys `build` insists on. */
  const Required: set<Field> := {Name, Race, Class}

  function Build(c: Character): (r: Result<map<Field, Option<string>>, BuildError>)
    ensures r.Success? <==> forall f :: f in Required ==> Get(c, f).Some? && Get(c, f).value != ""
    ensures r.Failure? ==> r.error == MissingRequired
    ensures r.Success? ==> forall f :: f in r.value && r.value[f] == Get(c, f)
  {
    var attributes := Attributes(c);
    var required := [attributes[Name], attributes[Race], attributes[Class]];
    assert All(required) <==> Truthy(c.name) && Truthy(c.race) && Truthy(c.charClass) by {
      assert required[0] == c.name && required[1] == c.race && required[2] == c.charClass;
    }
    if !All(required) then Failure(MissingRequired)
    else Success(attributes)
  }

  /** One setter call on the builder. */
  datatype Call =
    | NameCall(name: string)
    | RaceCall(race: string)
    | ClassCall(charClass: string)
    | WeaponCall(weapon: string)
    | MagicCall(magic: string)

  function Apply(o: Ops, c: Character, call: Call): Result<Character, BuildError> {
    match call
    case NameCall(s) => SetName(o, c, s)
    case RaceCall(s) => SetRace(o, c, s)
    case ClassCall(s) => SetClass(o, c, s)
    case WeaponCall(s) => SetWeapon(o, c, s)
    case MagicCall(s) => SetMagic(o, c, s)
  }

  /** The builder's draft after a call: the new draft, or the old one if it raised. */
  function After(c: Character, r: Result<Character, BuildError>): Character {
    if r.Success? then r.value else c
  }

  /** The draft after a sequence of setter calls on one builder, each raised
      error caught and the builder used again. */
  function Run(o: Ops, c: Character, calls: seq<Call>): Character
    decreases |calls|
  {
    if |calls| == 0 then c
    else Run(o, After(c, Apply(o, c, calls[0])), calls[1..])
  }

  /** No sequence of setter calls, raising or not, puts an unlisted race or
      class into a draft that had none. */
  lemma {:induction false} RunKeepsValid(o: Ops, c: Character, calls: seq<Call>)
    requires Valid(c)
    ensures Valid(Run(o, c, calls))
    decreases |calls|
  {
    if |calls| > 0 {
      RunKeepsValid(o, After(c, Apply(o, c, calls[0])), calls[1..]);
    }
  }

  /** Every draft a fresh builder can reach holds only whitelisted races and classes. */
  lemma ReachableIsValid(o: Ops, calls: seq<Call>)
    ensures Valid(Run(o, Empty(), calls))
  {
    RunKeepsValid(o, Empty(), calls);
  }
}
