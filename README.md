# space_compass core in Dafny

space_compass builds an "astro guide" profile from a birth date, time and
place, and answers chat questions about it. This project models the
deterministic logic under its web, database, PDF and ephemeris layers, and
proves properties of that logic:

- **Profile text and chat** (`backend/src/server.js`). This covers:
  - the resonance sentence and the archetype label of a profile;
  - the topic classifier of the chat endpoint (ordered keyword substring
    search on the lower-cased message);
  - the per-topic reply templates with their sign and authority lookups;
  - the place geocoder (exact key, then first partial match, then (0, 0)).
- **Astrological arithmetic** (`backend/src/utils/astro_calculator.py`).
  This covers aspect detection by shorter arc and orb windows, the split of
  a longitude into sign and degrees, equal-house cusps, the positions loop,
  the loop over unordered body pairs, the moon-phase labels and the error
  result. The ephemeris readings are inputs: ten ecliptic longitudes, the
  sidereal time in degrees and the phase value.
- **Human-design derivation** (`backend/src/utils/human_design.py`).
  - Type, authority, profile and definition are chosen by integer
    remainders, and the gate count is drawn from the seed.
  - Gates are the sorted prefix of the shuffled gate list, and the
    activated centers come from the `random()` draws.
  - The error fallback is modelled.
  - The seed and the date fields are integer inputs. The shuffled list and
    the draw stream are inputs too.
- **City table queries** (`backend/src/utils/location_utils.py`).
  - Case-insensitive lookup of coordinates and country.
  - Filtering by country.
  - The hemisphere letters of a formatted coordinate pair.

Modules, one per file:
- `Wrappers`: an `Option` type.
- `Text`: ASCII lower-casing, trimming and substring search.
- `Zodiac`: the twelve signs.
- `Profile`: resonance.
- `Archetype`: the archetype matrix.
- `Chat`: the classifier and composer.
- `Geocode`: the server's `getCoordinates`.
- `Degrees`: real modulo, zodiac split and house cusps.
- `Aspects`: aspect detection.
- `MoonPhases`: the phase labels.
- `Chart`: the assembly of `calculate_astro`.
- `HumanDesign`: `calculate_human_design`.
- `Locations`: `LocationUtils`.

Where the source mutates local variables in loops or `if` chains, the model
has a `method` with the same loop or chain. That covers the resonance
chains, the classifier loop with its `break`, the `response +=` arms, the
geocoder loop, the aspect loop, the positions and pair loops, and the
center loop. Each such method is proved equal to a specification function,
and the properties are lemmas about that function.

Two behaviours of the server code worth noting:
- `determineResonance` returns `""` for a design type outside the five
  known ones; it does not fall back to the Reflector phrase
  (`Profile.Resonance`).
- A "guidance" message has no `case` of its own and gets the default reply
  (`Chat.GuidanceRepliesAsGeneral`).

## Model

| member | source | states |
|---|---|---|
| Text.Lower | backend/src/server.js:303 | lower-casing keeps the length and maps each character through ASCII case folding |
| Text.LowerIdempotent | backend/src/utils/location_utils.py:29 | lower-casing an already lower-cased name changes nothing |
| Text.Trim | backend/src/server.js:106 | `trim` gives the slice whose outside is all whitespace and whose ends are not whitespace; it is empty exactly for an all-whitespace string |
| Text.Contains | backend/src/server.js:303 | `includes` is true exactly when the substring occurs at some position |
| Text.ContainsEmpty | backend/src/server.js:118 | every string includes the empty string |
| Text.ContainsSelf | backend/src/server.js:118 | every string includes itself |
| Text.ContainsInfix | backend/src/server.js:378-381 | a string concatenated between two others is included in the result |
| Text.ContainsTransitive | backend/src/server.js:303 | an occurrence inside an occurrence is an occurrence |
| Zodiac.Index | backend/src/utils/astro_calculator.py:40-41 | every sign has a position among the twelve names |
| Zodiac.SignAt | backend/src/utils/astro_calculator.py:49 | `zodiac_signs[k]` is the sign whose position is `k` |
| Zodiac.IsSignIffListed | backend/src/server.js:389-402 | a string keys the sign tables exactly when it is one of the twelve names |
| Zodiac.NameOfParse | backend/src/server.js:389-402 | a recognised key is the name of the sign it denotes |
| Zodiac.ParseName | backend/src/utils/astro_calculator.py:40-41 | each sign's name is recognised as that sign |
| Zodiac.SignNamesDistinct | backend/src/utils/astro_calculator.py:40-41 | the list holds twelve distinct names |
| Profile.ElementOf | backend/src/server.js:172-186 | the element is empty exactly for a string that is not a sign name |
| Profile.ElementCycles | backend/src/server.js:172-175 | the four lists partition the zodiac, with elements cycling Fire, Earth, Air, Water from Aries |
| Profile.DetermineResonance | backend/src/server.js:165-202 | the two reassigning `if` chains compute the resonance text of the sign and type |
| Profile.Resonance | backend/src/server.js:171-201 | the text is empty exactly for a type outside the five known ones, so an unknown type never gets the Reflector phrase; otherwise it starts with "<element> energy " |
| Profile.ResonanceGeneratorsAgree | backend/src/server.js:189-190 | Generator and Manifesting Generator give identical text |
| Archetype.ArchetypeRowLabels | backend/src/server.js:211-283 | every entry of the matrix is non-empty and differs from the fallback |
| Archetype.ColumnDomain | backend/src/server.js:212-217 | a row answers exactly for Generator, Projector, Manifestor and Reflector |
| Archetype.ArchetypeEntry | backend/src/server.js:211-286 | `archetypeMap[sunSign]?.[hdType]` has an entry exactly for the twelve signs times the four matrix types, and every entry is a non-empty label other than the fallback |
| Archetype.DetermineArchetype | backend/src/server.js:205-287 | the label is the matrix entry where there is one, and "The Cosmic Voyager" exactly when sign or type is off the matrix |
| Archetype.ManifestingGeneratorIsVoyager | backend/src/server.js:286 | every Manifesting Generator gets "The Cosmic Voyager" |
| Chat.FirstMention | backend/src/server.js:302-307 | the position returned is the first category with a keyword in the message, or past the end when none has one |
| Chat.FirstMentionUnique | backend/src/server.js:302-307 | a matching category with no earlier match is the one found |
| Chat.ClassifyIsFirstMatch | backend/src/server.js:292-307 | the topic is a category exactly when that category's keywords occur in the lower-cased message and no earlier category's do |
| Chat.Classify | backend/src/server.js:292-307 | the topic is "general" exactly when no keyword of any category occurs in the lower-cased message; any other topic is a category whose keyword occurs |
| Chat.CareerWordWins | backend/src/server.js:292-307 | a message holding a career keyword is career whatever else it holds |
| Chat.ClassifyTopic | backend/src/server.js:301-307 | the `for` loop with `break` computes the classification |
| Chat.LookupBySignFallback | backend/src/server.js:388-443 | `table[sign] \|\| default` answers the table entry for a sign name, and the default exactly for other strings |
| Chat.GetSignStrength | backend/src/server.js:388-405 | a sign name gets its strength entry, and every other string "unique talents" |
| Chat.GetSignRelationshipValue | backend/src/server.js:407-424 | a sign name gets its relationship entry, and every other string "authentic connection" |
| Chat.GetSignBodyFocus | backend/src/server.js:426-443 | a sign name gets its body-focus entry, and every other string "overall energy balance" |
| Chat.StrengthEntries | backend/src/server.js:389-402 | every strength entry is non-empty and differs from "unique talents" |
| Chat.RelationshipValueEntries | backend/src/server.js:408-421 | every relationship entry is non-empty and differs from "authentic connection" |
| Chat.BodyFocusEntries | backend/src/server.js:427-440 | every body-focus entry is non-empty and differs from "overall energy balance" |
| Chat.SignStrengthFallback | backend/src/server.js:388-405 | `getSignStrength` gives the sign's entry, and "unique talents" exactly for non-signs |
| Chat.SignRelationshipValueFallback | backend/src/server.js:407-424 | `getSignRelationshipValue` gives the sign's entry, and "authentic connection" exactly for non-signs |
| Chat.SignBodyFocusFallback | backend/src/server.js:426-443 | `getSignBodyFocus` gives the sign's entry, and "overall energy balance" exactly for non-signs |
| Chat.BranchOfCases | backend/src/server.js:316-324 | Generator and Manifesting Generator share a branch; exactly the types other than the four named take the else branch |
| Chat.GetPurposeOutcome | backend/src/server.js:445-455 | the two Generator types get the "creating satisfaction" outcome, and every type other than the four named ones the Reflector's "reflecting and sampling" outcome |
| Chat.PurposeOutcomeIgnoresSign | backend/src/server.js:445-455 | `getPurposeOutcome` does not depend on its sign argument |
| Chat.GetAuthorityAdvice | backend/src/server.js:457-469 | one of the seven authorities gets its table entry, and every other string "honor your inner knowing" |
| Chat.AuthorityAdviceFallback | backend/src/server.js:457-469 | the advice table answers exactly the seven authorities, and "honor your inner knowing" exactly for the rest |
| Chat.Reply | backend/src/server.js:312-384 | every topic without a case of its own, guidance included, gets the default reply, which ends with the closing question |
| Chat.ComposeCareer | backend/src/server.js:313-327 | the career arm builds opening, type-branch sentence and strength closing |
| Chat.ComposeLove | backend/src/server.js:329-343 | the love arm builds opening, type-branch sentence and relationship closing |
| Chat.ComposeHealth | backend/src/server.js:345-359 | the health arm builds opening, type-branch sentence and body-focus closing |
| Chat.ComposePurpose | backend/src/server.js:361-375 | the purpose arm builds opening, authority-branch sentence and outcome closing |
| Chat.ComposeGeneral | backend/src/server.js:377-381 | the default arm builds opening, advice, moon sentence and the closing question |
| Chat.ComposeResponse | backend/src/server.js:312-384 | the `switch` yields the reply of the topic, guidance falling to the default |
| Chat.GenerateChatbotResponse | backend/src/server.js:290-385 | the response is the reply for the message's classified topic |
| Chat.GuidanceRepliesAsGeneral | backend/src/server.js:312-381 | a guidance topic gets exactly the default reply |
| Chat.CareerTailFollowsBranch | backend/src/server.js:316-326 | after the opening, the career reply depends only on the type's branch and the sign |
| Chat.LoveTailFollowsBranch | backend/src/server.js:332-342 | after the opening, the love reply depends only on the type's branch and the sign |
| Chat.HealthTailFollowsBranch | backend/src/server.js:348-358 | after the opening, the health reply depends only on the type's branch and the sign |
| Chat.PurposeTailFollowsBranches | backend/src/server.js:364-374 | after the opening, the purpose reply depends only on the authority's branch and the type's branch |
| Chat.GeneralReplyQuotesAdvice | backend/src/server.js:379 | the default reply quotes the authority's advice |
| Chat.GeneralReplyNamesMoon | backend/src/server.js:380 | the default reply names the moon sign, or "moon sign" |
| Chat.GeneralReplyContents | backend/src/server.js:378-381 | the default reply contains the authority advice and the moon sign, or "moon sign" when that is absent or empty, and ends with the fixed question |
| Geocode.Lookup | backend/src/server.js:109 | `cities[key]` finds an entry with that key, or none exists |
| Geocode.FirstPartial | backend/src/server.js:117-124 | the loop stops at the first entry where either string contains the other |
| Geocode.Coordinates | backend/src/server.js:105-129 | the answer is the coordinates of a city of the table, or (0, 0); it is (0, 0) when no city's name equals or partially matches the normalised place |
| Geocode.GetCoordinates | backend/src/server.js:105-129 | the lookup, the loop with early return and the fallback compute the geocoder's answer |
| Geocode.FirstPartialUnique | backend/src/server.js:117-124 | a partial match with none before it is the one the loop returns |
| Geocode.CoordinatesExact | backend/src/server.js:106-114 | a place whose lower-cased, trimmed form is a key gets that city |
| Geocode.CoordinatesPartial | backend/src/server.js:117-128 | with no exact key, the first partially matching city wins, and (0, 0) comes back when none matches |
| Geocode.CoordinatesIgnoreCase | backend/src/server.js:106 | the letter case of the place does not matter |
| Geocode.BlankPlaceGetsFirstCity | backend/src/server.js:105-124 | a whitespace-only place gets the first city's coordinates |
| Degrees.FloorMod | backend/src/utils/astro_calculator.py:44-46 | Python's float `%` by a positive modulus lies in `[0, m)` |
| Degrees.FloorModUnique | backend/src/utils/astro_calculator.py:44-46 | `x % m` is the unique `y` in `[0, m)` with `x - y` a multiple of `m` |
| Degrees.Mod360 | backend/src/utils/astro_calculator.py:44 | normalised degrees lie in `[0, 360)` |
| Degrees.Mod360Turns | backend/src/utils/astro_calculator.py:34-35 | normalising is idempotent and ignores whole turns |
| Degrees.ShortArc | backend/src/utils/astro_calculator.py:10-11 | the distance is the shorter of the two arcs between the longitudes, and never above 180 |
| Degrees.ShortArcRange | backend/src/utils/astro_calculator.py:10-11 | for longitudes in `[0, 360)` the shorter arc lies in `[0, 180]`, and it is symmetric |
| Degrees.SignIndexOf | backend/src/utils/astro_calculator.py:45 | `int(degrees / 30)` is a sign index in 0..11 |
| Degrees.ZodiacOf | backend/src/utils/astro_calculator.py:39-51 | degrees within the sign lie in `[0, 30)`, and 30 * index + in-sign is the input mod 360 |
| Degrees.ZodiacOfUnique | backend/src/utils/astro_calculator.py:44-46 | that split into sign and in-sign degrees is the only one |
| Degrees.HouseCusps | backend/src/utils/astro_calculator.py:28-37 | there are twelve cusps, each in `[0, 360)` |
| Degrees.FirstCuspIsAscendant | backend/src/utils/astro_calculator.py:34-35 | the first cusp is `(st - 90) % 360` |
| Degrees.CuspsThirtyApart | backend/src/utils/astro_calculator.py:35 | each cusp is the previous one plus 30 mod 360, the twelfth wrapping back to the first |
| Degrees.HouseSigns | backend/src/utils/astro_calculator.py:34-35 | house `i` lies `i` signs after the first house's sign, mod 12 |
| Aspects.FirstWithin | backend/src/utils/astro_calculator.py:23-26 | the result is an aspect of the table whose window holds the distance, and None exactly when no window does |
| Aspects.WindowsDisjoint | backend/src/utils/astro_calculator.py:14-20 | the orb windows are pairwise disjoint |
| Aspects.AspectOfIsWindow | backend/src/utils/astro_calculator.py:14-26 | the aspect returned is exactly the one whose window holds the distance, and None exactly when none does |
| Aspects.AspectBetween | backend/src/utils/astro_calculator.py:8-26 | the aspect found has a window holding the shorter arc, and None comes back exactly when no window holds it |
| Aspects.AspectBetweenSymmetric | backend/src/utils/astro_calculator.py:8-26 | `calculate_aspects(a, b) == calculate_aspects(b, a)` |
| Aspects.CalculateAspects | backend/src/utils/astro_calculator.py:8-26 | the loop with early return computes the aspect of the shorter arc |
| MoonPhases.PhaseOf | backend/src/utils/astro_calculator.py:147-154 | the label of rank `k` is given only from `25 k` on and only below `25 (k + 1)`, the first label also below 0 and the last from 175 on |
| MoonPhases.PhaseOfMonotone | backend/src/utils/astro_calculator.py:147-154 | a larger phase never gets an earlier label |
| MoonPhases.PhaseBands | backend/src/utils/astro_calculator.py:147-154 | "New" exactly below 25, "Waning Crescent" exactly from 175, one label per band of 25 in between |
| MoonPhases.IlluminationLabels | backend/src/utils/astro_calculator.py:141-154 | a phase in `[0, 100]` reaches only the first five labels, "Full" exactly at 100 |
| Chart.BodyIndex | backend/src/utils/astro_calculator.py:66-77 | each body has its place in the body order |
| Chart.BodiesDistinct | backend/src/utils/astro_calculator.py:66-77 | the ten bodies are distinct |
| Chart.ComputePositions | backend/src/utils/astro_calculator.py:83-91 | the loop assigns each body, in order, its sign and degrees and its longitude |
| Chart.FindRowAspects | backend/src/utils/astro_calculator.py:96-102 | the inner loop appends, in order, the aspects the body forms with each later body |
| Chart.FindAspects | backend/src/utils/astro_calculator.py:94-102 | the nested loops build the aspect list |
| Chart.RowUpToMembers | backend/src/utils/astro_calculator.py:96-102 | one row holds exactly its aspected pairs with later bodies |
| Chart.RowsBeforeMembers | backend/src/utils/astro_calculator.py:95-102 | the rows so far hold exactly the aspected pairs whose first body comes earlier |
| Chart.AspectListMembers | backend/src/utils/astro_calculator.py:94-102 | an entry is in the list exactly when its first body precedes its second and the two form that aspect |
| Chart.RowUpToOrdered | backend/src/utils/astro_calculator.py:96-102 | a row lists its partners strictly in body order |
| Chart.RowsBeforeOrdered | backend/src/utils/astro_calculator.py:95-102 | the rows so far are strictly ordered by pair, below the current row |
| Chart.AspectList | backend/src/utils/astro_calculator.py:94-102 | the list is strictly ordered by pair, so no pair appears twice, and has at most 45 entries |
| Chart.RowsBeforeLength | backend/src/utils/astro_calculator.py:95-102 | the rows so far hold at most one entry per pair examined |
| Chart.CalculateAstro | backend/src/utils/astro_calculator.py:53-162 | the assembly computes the chart of the readings, or the error result |
| Chart.ChartOf | backend/src/utils/astro_calculator.py:104-147 | one planet per body in body order with its own longitude and position, twelve houses, sun and moon signs from the first two planets, ascendant and midheaven from houses 1 and 10, and the reported phase value |
| Chart.AstroOf | backend/src/utils/astro_calculator.py:53-162 | an exception gives the error message with sun sign "Unknown", and only an exception does; otherwise the result is the chart of the readings |
| Chart.ChartAngles | backend/src/utils/astro_calculator.py:108-123 | sun and moon signs are those of the first two planets; the ascendant is house 1's sign and the midheaven house 10's, nine signs further on |
| Chart.ChartHouses | backend/src/utils/astro_calculator.py:132-135 | house `i` is `i` signs after the ascendant's sign |
| Chart.ChartAspects | backend/src/utils/astro_calculator.py:94-131 | the chart's aspects are exactly the aspected pairs, earlier body first, strictly ordered, at most 45 |
| HumanDesign.Residue | backend/src/utils/human_design.py:23 | Python's `%` by a positive modulus is a residue in `[0, n)` that differs from the input by a multiple of `n`, negative seeds included |
| HumanDesign.ResidueUnique | backend/src/utils/human_design.py:23 | a position in `[0, n)` that differs from the input by a multiple of `n` is the residue, so the selections below pick one entry each |
| HumanDesign.TypeOf | backend/src/utils/human_design.py:12-23 | the type is the entry of the type list at the position congruent to the seed modulo 5 |
| HumanDesign.TypeIsListed | backend/src/utils/human_design.py:12-23 | the type is always one of the five listed types |
| HumanDesign.AuthorityOf | backend/src/utils/human_design.py:25-33 | Generator and Manifesting Generator get Sacral, Reflector Lunar, and any other type the authority among the first five at the position congruent to the minute modulo 5 |
| HumanDesign.AuthorityByType | backend/src/utils/human_design.py:30-33 | Projectors and Manifestors get one of the first five authorities, never Mental Projector or Lunar |
| HumanDesign.ProfileOf | backend/src/utils/human_design.py:35-37 | the profile is the entry at the position congruent to day plus month modulo 12 |
| HumanDesign.DefinitionOf | backend/src/utils/human_design.py:39-41 | the definition is the entry at the position congruent to the year modulo 4 |
| HumanDesign.GateCount | backend/src/utils/human_design.py:44 | the gate count lies in `[15, 24]` and is congruent to `15 + seed` modulo 10 |
| HumanDesign.GatesOf | backend/src/utils/human_design.py:45-47 | the gates are the first `count` shuffled gates (all of them if fewer) in ascending order, as many as that slice |
| HumanDesign.Insert | backend/src/utils/human_design.py:47 | inserting into an ascending list keeps it ascending and adds exactly one element |
| HumanDesign.Sort | backend/src/utils/human_design.py:47 | `sorted` gives an ascending permutation |
| HumanDesign.SortDistinct | backend/src/utils/human_design.py:47 | sorting a list without repeats gives a strictly increasing list |
| HumanDesign.InsertIncreasing | backend/src/utils/human_design.py:47 | inserting a new element keeps a strictly increasing list strictly increasing |
| HumanDesign.GatesShape | backend/src/utils/human_design.py:44-47 | for any permutation of 1..64 the gates are strictly increasing, within 1..64, exactly the first `count` shuffled gates, and `count` of them |
| HumanDesign.ActivateCenters | backend/src/utils/human_design.py:50-53 | the loop appends, in declared order, each center whose draw is below one half |
| HumanDesign.ActiveAmongIsSubsequence | backend/src/utils/human_design.py:16-53 | the active centers sit at strictly increasing indices of the center list, exactly the indices whose draw is below one half |
| HumanDesign.CentersDistinct | backend/src/utils/human_design.py:16 | the nine centers are distinct |
| HumanDesign.ActiveCentersDistinct | backend/src/utils/human_design.py:16-53 | no center is activated twice, and a center is active exactly when its draw is below one half |
| HumanDesign.DesignOf | backend/src/utils/human_design.py:6-68 | a parse failure, and only one, gives the error with type and authority "Unknown"; a parsed birth gets the authority of its type, a listed profile and definition, and ascending gates |
| HumanDesign.CalculateHumanDesign | backend/src/utils/human_design.py:6-68 | the selection steps, the slice and sort, and the center loop compute the design, or the fallback on a parse failure |
| HumanDesign.DesignFields | backend/src/utils/human_design.py:23-68 | for a shuffle of all 64 gates, a parsed birth gets a known type, an authority other than "Unknown", fifteen to twenty-four strictly increasing gates and no center twice |
| Locations.GetCoordinates | backend/src/utils/location_utils.py:20-32 | coordinates come back exactly when the lower-cased name is a key, and they are that entry's |
| Locations.GetCountry | backend/src/utils/location_utils.py:34-46 | a country comes back exactly when the lower-cased name is a key, and it is that entry's |
| Locations.GetAllCities | backend/src/utils/location_utils.py:48-54 | the whole stored table is returned unchanged |
| Locations.GetCitiesByCountry | backend/src/utils/location_utils.py:56-68 | exactly the entries whose country equals the argument, with keys among the table's and values unchanged |
| Locations.LookupIgnoresCase | backend/src/utils/location_utils.py:29-43 | lookups of a name and of its lower-cased form agree |
| Locations.CountryAgreesWithCoordinates | backend/src/utils/location_utils.py:29-46 | country and coordinates are found for the same names and come from the same entry |
| Locations.CountriesPartition | backend/src/utils/location_utils.py:65-68 | each city is in its own country's filter and in no other |
| Locations.FormatCoordinates | backend/src/utils/location_utils.py:70-82 | the string is the absolute latitude, a degree sign, N exactly when lat >= 0 (else S), ", ", the absolute longitude, a degree sign, and E exactly when lng >= 0 (else W) |
| Locations.FormatMirror | backend/src/utils/location_utils.py:80-82 | negating a coordinate changes only its hemisphere letter |

## Left out

- Express routes, middleware, SQLite, child-process spawning, logging, the
  PDF chart generator and the frontend are I/O or UI, and are not part of
  this model. `console.log` in the geocoder's fallback is dropped for the
  same reason.
- The parsing of cities.json (server.js and `LocationUtils._load_cities`)
  is file I/O. Each table is a parameter: an ordered list of
  distinct-keyed entries for the server, a `map` for the Python class.
- Iteration order of `Object.entries`: JavaScript lists integer-like keys
  first. The server table is taken as already in enumeration order.
- JavaScript prototype keys: a sign, type or authority such as
  "constructor" is treated as absent from the lookup objects, and so is a
  place that normalises to such a key in the geocoder. In the server the
  inherited value is truthy, so such a place comes back with undefined
  coordinates instead of going on to the partial-match loop.
- Case mapping and trimming are ASCII. Unicode case folding and Unicode
  whitespace are not modelled.
- The ephemeris calls are foreign library calls and are inputs here. These
  are the planet longitudes, sidereal time, moon phase, and the next full
  and new moon. The `nextFull`/`nextNew` fields are therefore not part of
  the chart.
- `round(..., 2)` on degrees, longitudes and the phase percentage is float
  formatting. The model keeps the exact value.
- Degrees are exact reals. The float edge case where `x % 360` rounds up to
  360.0 is not modelled. That case would give sign index 12 and, through
  the `IndexError`, the error result.
- The `humanDesign` field of the astro result is computed by
  `calculate_human_design`. That is modelled on its own in `HumanDesign`
  and is not repeated inside `Chart`.
- Datetime parsing, the time-zone dependent `timestamp()` and
  `int(latitude * 100)` are not modelled. The seed and the date fields
  are integers; only a parse failure is modelled, as `Unparsable`.
- `random.seed`, `random.shuffle` and `random.random()` are inputs. The
  shuffled gate list is a parameter and the draws are a function from draw
  number to value. `HumanDesign.GatesShape` assumes the list is a
  permutation of 1..64, which is what `shuffle` leaves.
- Locations.FormatCoordinates: Python's float-to-text conversion is a
  parameter `show`, so the contract states the shape of the string but not
  its digits.
- Python truthiness of a city entry: every entry of the table has all
  three fields, so a present key is always truthy.
