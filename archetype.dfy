/**
 * The archetype label of backend/src/server.js (`determineArchetype`):
 * a 12-sign by 4-type matrix of literal labels with a fallback.
 */
module Archetype {
  import opened Wrappers
  import opened Zodiac

  const CosmicVoyager: string := "The Cosmic Voyager"

  /** The design types that key the archetype matrix; "Manifesting Generator" is not one. */
  predicate IsMatrixType(hdType: string) {
    hdType in {"Generator", "Projector", "Manifestor", "Reflector"}
  }

  /** One row of the matrix: the labels of the four matrix types. */
  datatype Row = Row(generator: string, projector: string, manifestor: string, reflector: string)

  /** `archetypeMap[sign]` for each of the twelve signs. */
  function ArchetypeRow(z: Sign): Row {
    match z
    case Aries =>
      Row("The Warrior (like Achilles)", "The Strategist (like Sun Tzu)",
          "The Pioneer (like Amelia Earhart)", "The Observer (like Jane Goodall)")
    case Taurus =>
      Row("The Builder (like Frank Lloyd Wright)", "The Artisan (like Georgia O'Keeffe)",
          "The Provider (like Jamie Oliver)", "The Conservator (like John Muir)")
    case Gemini =>
      Row("The Messenger (like Mercury)", "The Teacher (like Socrates)",
          "The Communicator (like Oscar Wilde)", "The Diplomat (like Kofi Annan)")
    case Cancer =>
      Row("The Nurturer (like Mother Teresa)", "The Caretaker (like Florence Nightingale)",
          "The Protector (like Diana)", "The Empathizer (like Carl Rogers)")
    case Leo =>
      Row("The Performer (like Elvis Presley)", "The Director (like Steven Spielberg)",
          "The Leader (like Alexander the Great)", "The Magnifier (like Oprah Winfrey)")
    case Virgo =>
      Row("The Craftsperson (like Leonardo da Vinci)", "The Analyst (like Sherlock Holmes)",
          "The Perfectionist (like Marie Curie)", "The Purifier (like Gandhi)")
    case Libra =>
      Row("The Harmonizer (like Jimmy Carter)", "The Mediator (like Desmond Tutu)",
          "The Peacemaker (like Eleanor Roosevelt)", "The Judge (like Ruth Bader Ginsburg)")
    case Scorpio =>
      Row("The Investigator (like Marie Curie)", "The Alchemist (like Carl Jung)",
          "The Phoenix (like Frida Kahlo)", "The Mystic (like Rumi)")
    case Sagittarius =>
      Row("The Explorer (like Amelia Earhart)", "The Philosopher (like Aristotle)",
          "The Visionary (like Walt Disney)", "The Seeker (like Joseph Campbell)")
    case Capricorn =>
      Row("The Builder (like Benjamin Franklin)", "The Manager (like Warren Buffet)",
          "The Authority (like Margaret Thatcher)", "The Elder (like Nelson Mandela)")
    case Aquarius =>
      Row("The Innovator (like Thomas Edison)", "The Humanitarian (like Martin Luther King Jr.)",
          "The Revolutionary (like Galileo)", "The Outsider (like Alan Turing)")
    case Pisces =>
      Row("The Artist (like Claude Monet)", "The Healer (like Carl Jung)",
          "The Dreamer (like Albert Einstein)", "The Mystic (like Joan of Arc)")
  }

  /** `row[hdType]`; `None` for a type that does not key the matrix. */
  function Column(row: Row, hdType: string): Option<string> {
    match hdType
    case "Generator" => Some(row.generator)
    case "Projector" => Some(row.projector)
    case "Manifestor" => Some(row.manifestor)
    case "Reflector" => Some(row.reflector)
    case _ => None
  }


  /** A label is non-empty, so `||` never replaces it, and differs from the fallback. */
  predicate IsLabel(s: string) {
    s != "" && s != CosmicVoyager
  }

  predicate LabelledRow(row: Row) {
    IsLabel(row.generator) && IsLabel(row.projector) && IsLabel(row.manifestor) && IsLabel(row.reflector)
  }

  // The literals are checked three rows at a time: each literal costs the solver a little.
  lemma FireRowLabels(z: Sign)
    requires z == Aries || z == Leo || z == Sagittarius
    ensures LabelledRow(ArchetypeRow(z))
  {
  }

  lemma EarthRowLabels(z: Sign)
    requires z == Taurus || z == Virgo || z == Capricorn
    ensures LabelledRow(ArchetypeRow(z))
  {
  }

  lemma AirRowLabels(z: Sign)
    requires z == Gemini || z == Libra || z == Aquarius
    ensures LabelledRow(ArchetypeRow(z))
  {
  }

  lemma WaterRowLabels(z: Sign)
    requires z == Cancer || z == Scorpio || z == Pisces
    ensures LabelledRow(ArchetypeRow(z))
  {
  }

  /** No row of the matrix holds an empty label. */
  lemma ArchetypeRowLabels(z: Sign)
    ensures LabelledRow(ArchetypeRow(z))
  {
    match z
    case Aries | Leo | Sagittarius => FireRowLabels(z);
    case Taurus | Virgo | Capricorn => EarthRowLabels(z);
    case Gemini | Libra | Aquarius => AirRowLabels(z);
    case Cancer | Scorpio | Pisces => WaterRowLabels(z);
  }

  /** The column lookup hits exactly the four matrix types. */
  lemma ColumnDomain(row: Row, hdType: string)
    ensures Column(row, hdType).Some? <==> IsMatrixType(hdType)
    ensures Column(row, hdType).Some? && LabelledRow(row) ==> IsLabel(Column(row, hdType).value)
  {
  }

  /**
   * `archetypeMap[sunSign]?.[hdType]`: the matrix has an entry exactly for
   * the twelve signs times the four matrix types, and every entry is a label.
   */
  function ArchetypeEntry(sunSign: string, hdType: string): (r: Option<string>)
    ensures r.Some? <==> IsSign(sunSign) && IsMatrixType(hdType)
    ensures r.Some? ==> IsLabel(r.value)
  {
    match ParseSign(sunSign)
    case Some(z) =>
      ArchetypeRowLabels(z);
      ColumnDomain(ArchetypeRow(z), hdType);
      Column(ArchetypeRow(z), hdType)
    case None => None
  }

  /**
   * `determineArchetype`: `archetypeMap[sunSign]?.[hdType] || 'The Cosmic Voyager'`.
   * The matrix entry is returned for the twelve signs times the four matrix
   * types, and the fallback exactly for every other pair.
   */
  function DetermineArchetype(sunSign: string, hdType: string): (archetype: string)
    ensures ArchetypeEntry(sunSign, hdType).Some? ==> archetype == ArchetypeEntry(sunSign, hdType).value
    ensures archetype == CosmicVoyager <==> !(IsSign(sunSign) && IsMatrixType(hdType))
  {
    match ArchetypeEntry(sunSign, hdType)
    case Some(entry) => if entry != "" then entry else CosmicVoyager
    case None => CosmicVoyager
  }

  /** Every Manifesting Generator, whatever the sign, gets the fallback label. */
  lemma ManifestingGeneratorIsVoyager(sunSign: string)
    ensures DetermineArchetype(sunSign, "Manifesting Generator") == CosmicVoyager
  {
  }
}
