/**
 * Profile derivation of backend/src/server.js: the resonance sentence
 * (`determineResonance`) and the archetype label (`determineArchetype`),
 * both computed once when a profile is created from the calculator's
 * sun sign and design type.
 */
module Profile {
  import opened Wrappers
  import opened Zodiac

  /** The five design types the resonance sentence knows by name. */
  predicate IsDesignType(hdType: string) {
    hdType in {"Generator", "Manifesting Generator", "Projector", "Manifestor", "Reflector"}
  }

  // ---------------------------------------------------------------- elements

  const FireSigns: seq<string> := ["Aries", "Leo", "Sagittarius"]
  const EarthSigns: seq<string> := ["Taurus", "Virgo", "Capricorn"]
  const AirSigns: seq<string> := ["Gemini", "Libra", "Aquarius"]
  const WaterSigns: seq<string> := ["Cancer", "Scorpio", "Pisces"]

  /** The element of a sun sign: the first of the four membership lists holding it, or "". */
  function ElementOf(sunSign: string): (element: string)
    ensures element == "" <==> !IsSign(sunSign)
  {
    if sunSign in FireSigns then "Fire"
    else if sunSign in EarthSigns then "Earth"
    else if sunSign in AirSigns then "Air"
    else if sunSign in WaterSigns then "Water"
    else ""
  }

  /**
   * The four membership lists partition the zodiac so that the elements
   * cycle Fire, Earth, Air, Water from Aries onwards.
   */
  lemma ElementCycles(z: Sign)
    ensures ElementOf(Name(z)) == ["Fire", "Earth", "Air", "Water"][Index(z) % 4]
  {
  }

  // --------------------------------------------------------------- resonance

  /** The phrase each known design type contributes; `None` for any other type. */
  const CreativeWork: string := "channeled through creative work"
  const GuidingOthers: string := "focused through guiding others"
  const Initiative: string := "expressed through initiative"
  const ReflectedOverTime: string := "sampled and reflected over time"

  function ResonancePhrase(hdType: string): Option<string> {
    match hdType
    case "Generator" => Some(CreativeWork)
    case "Manifesting Generator" => Some(CreativeWork)
    case "Projector" => Some(GuidingOthers)
    case "Manifestor" => Some(Initiative)
    case "Reflector" => Some(ReflectedOverTime)
    case _ => None
  }

  /**
   * The resonance text: "<element> energy <phrase>". It is empty exactly
   * for types outside the five known ones, and otherwise begins with the
   * sign's element followed by " energy ".
   */
  function Resonance(sunSign: string, hdType: string): (r: string)
    ensures r == [] <==> !IsDesignType(hdType)
    ensures IsDesignType(hdType) ==>
      var prefix := ElementOf(sunSign) + " energy ";
      |prefix| <= |r| && r[..|prefix|] == prefix
  {
    match ResonancePhrase(hdType)
    case Some(phrase) =>
      var prefix := ElementOf(sunSign) + " energy ";
      assert (prefix + phrase)[..|prefix|] == prefix;
      prefix + phrase
    case None => ""
  }

  /** `determineResonance`: two if/else chains that reassign the element and the sentence. */
  method DetermineResonance(sunSign: string, hdType: string) returns (resonance: string)
    ensures resonance == Resonance(sunSign, hdType)
  {
    var elementResonance := "";
    if sunSign in FireSigns {
      elementResonance := "Fire";
    } else if sunSign in EarthSigns {
      elementResonance := "Earth";
    } else if sunSign in AirSigns {
      elementResonance := "Air";
    } else if sunSign in WaterSigns {
      elementResonance := "Water";
    }

    resonance := "";
    if hdType == "Generator" || hdType == "Manifesting Generator" {
      resonance := elementResonance + " energy " + CreativeWork;
    } else if hdType == "Projector" {
      resonance := elementResonance + " energy " + GuidingOthers;
    } else if hdType == "Manifestor" {
      resonance := elementResonance + " energy " + Initiative;
    } else if hdType == "Reflector" {
      resonance := elementResonance + " energy " + ReflectedOverTime;
    }
  }

  /** Generator and Manifesting Generator give identical resonance text. */
  lemma ResonanceGeneratorsAgree(sunSign: string)
    ensures Resonance(sunSign, "Generator") == Resonance(sunSign, "Manifesting Generator")
  {
  }
}
