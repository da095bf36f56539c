/**
 * The twelve zodiac signs in their conventional order, as listed in
 * backend/src/utils/astro_calculator.py and used as lookup keys
 * throughout backend/src/server.js.
 */
module Zodiac {
  import opened Wrappers

  datatype Sign =
    Aries | Taurus | Gemini | Cancer | Leo | Virgo |
    Libra | Scorpio | Sagittarius | Capricorn | Aquarius | Pisces

  /** The sign names in zodiac order (`zodiac_signs` of astro_calculator.py). */
  const SignNames: seq<string> := [
    "Aries", "Taurus", "Gemini", "Cancer", "Leo", "Virgo",
    "Libra", "Scorpio", "Sagittarius", "Capricorn", "Aquarius", "Pisces"
  ]

  /** The position of a sign in zodiac order, Aries first. */
  function Index(z: Sign): (k: nat)
    ensures k < |SignNames|
  {
    match z
    case Aries => 0 case Taurus => 1 case Gemini => 2 case Cancer => 3
    case Leo => 4 case Virgo => 5 case Libra => 6 case Scorpio => 7
    case Sagittarius => 8 case Capricorn => 9 case Aquarius => 10 case Pisces => 11
  }

  /** The sign at a position of the zodiac order. */
  function SignAt(k: nat): (z: Sign)
    requires k < 12
    ensures Index(z) == k
  {
    [Aries, Taurus, Gemini, Cancer, Leo, Virgo, Libra, Scorpio, Sagittarius, Capricorn, Aquarius, Pisces][k]
  }

  function Name(z: Sign): string {
    SignNames[Index(z)]
  }

  /** The sign a name stands for, if it is exactly one of the twelve names; the lookup key of server.js. */
  function ParseSign(s: string): Option<Sign> {
    match s
    case "Aries" => Some(Aries)
    case "Taurus" => Some(Taurus)
    case "Gemini" => Some(Gemini)
    case "Cancer" => Some(Cancer)
    case "Leo" => Some(Leo)
    case "Virgo" => Some(Virgo)
    case "Libra" => Some(Libra)
    case "Scorpio" => Some(Scorpio)
    case "Sagittarius" => Some(Sagittarius)
    case "Capricorn" => Some(Capricorn)
    case "Aquarius" => Some(Aquarius)
    case "Pisces" => Some(Pisces)
    case _ => None
  }

  predicate IsSign(s: string) {
    ParseSign(s).Some?
  }

  /** Parsing recognises exactly the names in the list... */
  lemma IsSignIffListed(s: string)
    ensures IsSign(s) <==> s in SignNames
  {
  }

  /** ...and inverts `Name`. */
  lemma NameOfParse(s: string)
    ensures IsSign(s) ==> Name(ParseSign(s).value) == s
  {
  }

  lemma ParseName(z: Sign)
    ensures ParseSign(Name(z)) == Some(z)
  {
  }

  /** The signs are twelve distinct names. */
  lemma SignNamesDistinct()
    ensures |SignNames| == 12
    ensures forall i, j :: 0 <= i < j < |SignNames| ==> SignNames[i] != SignNames[j]
  {
  }
}
