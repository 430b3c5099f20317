/** Concrete runs of the wizard. Each lemma states, as a requirement, only
    what Python's `str.lower` and `str.strip` do to the strings involved. */
module WizardExamples {
  import opened Wrappers
  import opened PyText
  import opened Characters
  import opened Builder
  import opened Director

  /** A whitelisted race, a whitelisted class, a weapon and empty magic build
      the full dictionary, magic stored as the empty string. */
  lemma FullRun(o: Ops)
    requires o.strip("Лина") != "" && o.strip("меч") != ""
    requires o.lower("Ты🫵") == "ты🫵" && o.lower("маг") == "маг"
    ensures CreateCharacter(o, Empty(), "Лина", "Ты🫵", "маг", "меч", "")
         == map[Name := Some("Лина"), Race := Some("ты🫵"), Class := Some("маг"),
                Weapon := Some("меч"), Magic := Some("")]
  {
  }

  /** "Маг" is a class, not a race: the wizard stops at the race. */
  lemma ClassGivenAsRace(o: Ops)
    requires o.strip("Лина") != "" && o.lower("Маг") == "маг"
    ensures Wizard(o, Empty(), "Лина", "Маг", "маг", "меч", "") == Failure(InvalidRace)
    ensures CreateCharacter(o, Empty(), "Лина", "Маг", "маг", "меч", "") == map[]
  {
  }

  /** The fourth race is accepted only with its trailing space. */
  lemma TrailingSpaceRace(o: Ops, c: Character)
    requires o.lower("ня тютюпи ся") == "ня тютюпи ся"
    requires o.lower("ня тютюпи ся ") == "ня тютюпи ся "
    ensures SetRace(o, c, "ня тютюпи ся") == Failure(InvalidRace)
    ensures SetRace(o, c, "ня тютюпи ся ").Success?
  {
  }

  /** Weapon and magic are optional for `build`; name, race and class are not. */
  lemma BuildWithoutOptionalFields(o: Ops, name: string)
    requires ValidateNotEmpty(o, name) && o.lower("воин") == "воин" && o.lower("ты🫵") == "ты🫵"
    ensures var c := SetClass(o, SetRace(o, SetName(o, Empty(), name).value, "ты🫵").value, "воин").value;
            && Build(c).Success?
            && Build(c).value[Weapon] == None
            && Build(c).value[Magic] == None
    ensures Build(SetName(o, Empty(), name).value) == Failure(MissingRequired)
  {
  }
}
