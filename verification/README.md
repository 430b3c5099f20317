# Character builder: a Dafny model

This project models the character-creation wizard of `main.py`: the
`Character` draft (five optional string attributes), the
`CharacterValidator` rules, the `CharacterBuilder` with its five validating
setters, its race and class whitelists and its `build` guard, and
`CharacterDirector.create_character`, which chains the setters and returns
either the finished attribute dictionary or `{}`.

Modules, one per part of the program:

- `Wrappers` (`wrappers.dfy`): `Option` for `Optional[str]`. `Result` stands
  for a call that returns a value or raises a `ValueError`. It works with
  `:-`, so a chain stops at the first raised error.
- `PyText` (`text.dfy`): Python's `str.lower` and `str.strip` are
  uninterpreted. `StrOps` holds any two total string functions. The subset
  type `Ops` adds one fact: `strip("")` is `""`. `ListContains` is `in` on a
  list, and `Join` is `sep.join`.
- `Characters` (`characters.dfy`): the keys (`Field`) and the draft
  (`Character`), with `Get`, `SetAttribute` and the attribute dictionary
  `Attributes`.
- `Builder` (`builder.dfy`): the whitelists, kept verbatim (the fourth race,
  `"ня тютюпи ся "`, ends in a space), the validator predicates, the error
  messages, the setters and `Build`. `Run` replays any sequence of setter
  calls on one builder, where a raising call leaves the draft as it was.
  `Valid` is the whitelist invariant.
- `Director` (`director.dfy`): `Wizard` is the guarded chain inside the
  `try`. `CreateCharacter` is the whole function. The five console answers
  are parameters.
- `WizardExamples` (`examples.dfy`): concrete runs. Each states what `lower`
  and `strip` do to its strings as a requirement.

A setter that raises writes nothing. In the model it returns a `Failure`
that carries no draft, so the caller keeps its old draft. `After` gives the
builder's draft after a call either way.

Only race and class are lower-cased (main.py:77, 84). Name and weapon are
stored exactly as given (main.py:70, 91).

## Model

| member | source | states |
|---|---|---|
| Characters.Empty | main.py:31-38 | a new draft holds all five keys, each with the value `None` |
| Characters.SetAttribute | main.py:40-41 | the key now holds the value; every other key keeps its value |
| Characters.Attributes | main.py:31-44 | the dictionary has all five keys, each holding the draft's value for that key |
| Characters.AttributesInjective | main.py:31-38 | two drafts with the same attribute dictionary are the same draft |
| PyText.ListContains | main.py:50 | the list scan finds the value iff some entry of the list equals it |
| Builder.ValidateRace | main.py:49-50 | true iff the lower-cased race is one of the listed races |
| Builder.ValidateClass | main.py:53-54 | true iff the lower-cased class is one of the listed classes |
| Builder.ValidateNotEmpty | main.py:57-58 | a value that passes the not-blank rule is never the empty string |
| Builder.SetName | main.py:68-73 | succeeds iff the name is not blank after strip, storing it verbatim and changing no other key; otherwise raises the empty-name error; a stored name is never empty |
| Builder.SetRace | main.py:75-80 | succeeds iff the lower-cased race is on the race whitelist; stores the lower-cased race, so the stored value is a whitelist member; changes no other key; otherwise raises the invalid-race error |
| Builder.SetClass | main.py:82-87 | succeeds iff the lower-cased class is on the class whitelist; stores the lower-cased class, a whitelist member; changes no other key; otherwise raises the invalid-class error |
| Builder.SetWeapon | main.py:89-94 | succeeds iff the weapon is not blank after strip, storing it verbatim and changing no other key; otherwise raises the empty-weapon error |
| Builder.SetMagic | main.py:96-98 | never raises; stores any value verbatim, the empty string included; changes no other key |
| Builder.Truthy | main.py:102 | an optional string is truthy iff it is neither `None` nor the empty string |
| Builder.All | main.py:102 | the left-to-right scan is true iff every entry is truthy |
| Builder.Build | main.py:100-104 | succeeds iff name, race and class are each present and non-empty (weapon and magic are not required); returns the attribute dictionary unchanged; otherwise raises the missing-fields error |
| Builder.Message | main.py:72-103 | the invalid-race message contains every valid race and the invalid-class message every valid class |
| Builder.ListedAfterHeading | main.py:79 | a heading followed by a list joined with ", " contains every entry of the list |
| PyText.Join | main.py:79 | the joined string is empty for an empty list, and otherwise starts with the first entry and ends with the last |
| PyText.JoinContainsEach | main.py:79 | every entry of a list occurs in the list joined with a separator |
| Builder.RunKeepsValid | main.py:68-98 | whatever setter calls are made, raising or not, a draft whose race and class are absent or whitelisted stays so |
| Builder.ReachableIsValid | main.py:61-98 | every draft a fresh builder reaches through setter calls holds only whitelisted races and classes |
| Director.Wizard | main.py:122-130 | the chain succeeds iff all four checked answers pass their checks; it then returns the dictionary of the name, the lower-cased race and class, the weapon and the magic; otherwise it raises the error of the first answer that fails, in prompt order, and never the missing-fields error |
| Director.CreateCharacter | main.py:122-135 | returns `{}` iff some answer fails its check (the display step, which can also raise, is not modelled); otherwise the expected dictionary, whose race and class are whitelisted |
| Director.ResultIgnoresStartingDraft | main.py:122-135 | the result does not depend on what the builder held beforehand |
| Director.WizardIsRunThenBuild | main.py:124-130 | with valid answers, the chain equals replaying the five setter calls in prompt order and then building |
| WizardExamples.FullRun | main.py:124-132 | a whitelisted race and class, a weapon and empty magic build the full dictionary, with magic stored as the empty string |
| WizardExamples.ClassGivenAsRace | main.py:75-80 | the class name "Маг" given as a race is rejected at the race step and the director returns `{}` |
| WizardExamples.TrailingSpaceRace | main.py:65 | the fourth race is accepted only with its trailing space |
| WizardExamples.BuildWithoutOptionalFields | main.py:100-104 | name, race and class alone build, with weapon and magic still `None`; name alone does not |

## Left out

- Console I/O is not modelled. This covers the `input` prompts of the director, the printing of the caught error and of the banner in `main`, and `ConsoleCharacterDisplayer.display`. The answers are parameters. The printed text is not produced.
- Director.CreateCharacter: the call to `displayer.display` (main.py:131) sits inside the `try`, so a `ValueError` it raises is caught and `{}` is returned even for valid answers. A `UnicodeEncodeError` from printing "ты🫵" to a console that cannot encode it is one such error. The model's display never raises, so "`{}` iff some answer fails" holds only for a display that succeeds.
- The abstract interfaces `ICharacterBuilder` and `ICharacterDisplayer` are not modelled. They carry no behaviour.
- Unicode case mapping and whitespace stripping are not modelled. `str.lower` and `str.strip` are uninterpreted, apart from `strip("") == ""`. So any claim about a concrete string's case depends on requirements, as in `WizardExamples`.
- Aliasing is not modelled. `build` and `get_attributes` return the builder's own dictionary object (main.py:44, 101-104). Later setter calls change the returned dictionary. In the other direction, a caller who writes `d['race'] = 'x'` into it changes the builder's draft, bypassing the whitelist. The model returns a value. `Builder.ReachableIsValid` covers only drafts reached through setter calls.
- Dictionary insertion order is not modelled. It matters only to the display, which is left out.
- The password-jotter program is not part of this model. Its source files are not available.
