/** The director: five answers in, the finished attribute dictionary out, or
    the empty dictionary when some step raises. The prompts and the printing
    are not modelled; the five answers are parameters. */
module Director {
  import opened Wrappers
  import opened PyText
  import opened Characters
  import opened Builder

  /** Every answer passes the check of the setter it is given to. */
  predicate AnswersValid(o: Ops, name: string, race: string, charClass: string, weapon: string) {
    && ValidateNotEmpty(o, name)
    && ValidateRace(o, race, ValidRaces)
    && ValidateClass(o, charClass, ValidClasses)
    && ValidateNotEmpty(o, weapon)
  }

  /** The character the wizard should produce from valid answers. */
  function Expected(o: Ops, name: string, race: string, charClass: string, weapon: string, magic: string): Character {
    Character(Some(name), Some(o.lower(race)), Some(o.lower(charClass)), Some(weapon), Some(magic))
  }

  /** The guarded chain: name, race, class, weapon, magic, then `build`,
      stopping at the first error raised. */
  function Wizard(o: Ops, builder: Character, name: string, race: string, charClass: string,
                  weapon: string, magic: string): (r: Result<map<Field, Option<string>>, BuildError>)
    ensures r.Success? <==> AnswersValid(o, name, race, charClass, weapon)
    ensures r.Success? ==> r.value == Attributes(Expected(o, name, race, charClass, weapon, magic))
    ensures !ValidateNotEmpty(o, name) ==> r == Failure(EmptyName)
    ensures ValidateNotEmpty(o, name) && o.lower(race) !in ValidRaces ==> r == Failure(InvalidRace)
    ensures (ValidateNotEmpty(o, name) && o.lower(race) in ValidRaces && o.lower(charClass) !in ValidClasses)
            ==> r == Failure(InvalidClass)
    ensures (ValidateNotEmpty(o, name) && o.lower(race) in ValidRaces && o.lower(charClass) in ValidClasses
             && !ValidateNotEmpty(o, weapon))
            ==> r == Failure(EmptyWeapon)
    ensures r != Failure(MissingRequired)
  {
    var c1 :- SetName(o, builder, name);
    var c2 :- SetRace(o, c1, race);
    var c3 :- SetClass(o, c2, charClass);
    var c4 :- SetWeapon(o, c3, weapon);
    var c5 := SetMagic(o, c4, magic).value;  // set_magic never raises
    assert c5 == Expected(o, name, race, charClass, weapon, magic) by {
      AttributesInjective(c5, Expected(o, name, race, charClass, weapon, magic));
    }
    Build(c5)
  }

  /** `create_character` with its answers as parameters: the built dictionary,
      or the empty one when a `ValueError` was caught. */
  function CreateCharacter(o: Ops, builder: Character, name: string, race: string, charClass: string,
                           weapon: string, magic: string): (r: map<Field, Option<string>>)
    ensures r == map[] <==> !AnswersValid(o, name, race, charClass, weapon)
    ensures r != map[] ==> r == Attributes(Expected(o, name, race, charClass, weapon, magic))
    ensures r != map[] ==> r[Race].value in ValidRaces && r[Class].value in ValidClasses
  {
    match Wizard(o, builder, name, race, charClass, weapon, magic)
    case Success(attributes) => attributes
    case Failure(_) => map[]
  }

  /** The result does not depend on what the builder held before: every
      successful run overwrites all five keys. */
  lemma ResultIgnoresStartingDraft(o: Ops, b1: Character, b2: Character, name: string, race: string,
                                   charClass: string, weapon: string, magic: string)
    ensures CreateCharacter(o, b1, name, race, charClass, weapon, magic)
         == CreateCharacter(o, b2, name, race, charClass, weapon, magic)
  {
  }

  /** With valid answers the wizard's chain is the five setter calls, in
      prompt order, replayed on the builder and then built. */
  lemma {:induction false} WizardIsRunThenBuild(o: Ops, builder: Character, name: string, race: string,
                                                charClass: string, weapon: string, magic: string)
    requires AnswersValid(o, name, race, charClass, weapon)
    ensures Wizard(o, builder, name, race, charClass, weapon, magic)
         == Build(Run(o, builder, [NameCall(name), RaceCall(race), ClassCall(charClass),
                                   WeaponCall(weapon), MagicCall(magic)]))
  {
    var calls := [NameCall(name), RaceCall(race), ClassCall(charClass), WeaponCall(weapon), MagicCall(magic)];
    var c1 := SetName(o, builder, name).value;
    var c2 := SetRace(o, c1, race).value;
    var c3 := SetClass(o, c2, charClass).value;
    var c4 := SetWeapon(o, c3, weapon).value;
    var c5 := SetMagic(o, c4, magic).value;
    calc {
      Run(o, builder, calls);
      Run(o, c1, calls[1..]);
      { assert calls[1..][1..] == calls[2..]; }
      Run(o, c2, calls[2..]);
      { assert calls[2..][1..] == calls[3..]; }
      Run(o, c3, calls[3..]);
      { assert calls[3..][1..] == calls[4..]; }
      Run(o, c4, calls[4..]);
      { assert calls[4..][1..] == calls[5..]; }
      Run(o, c5, calls[5..]);
    }
  }
}
