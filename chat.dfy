/**
 * The rule-based chatbot of backend/src/server.js (`generateChatbotResponse`
 * and its helpers): a message is classified by keyword, then a per-topic
 * template is filled in from the stored profile. No chat history is read.
 */
module Chat {
  import opened Wrappers
  import opened Text
  import opened Zodiac

  /** The astrological fields the composer reads; `moonSign` may be absent. */
  datatype AstroProfile = AstroProfile(sunSign: string, moonSign: Option<string>)

  /** The design fields the composer reads. */
  datatype DesignProfile = DesignProfile(hdType: string, authority: string)

  // ------------------------------------------------------------ classifier

  datatype Topic = Career | Love | Health | Purpose | Guidance | General

  /** The categories of `messageKeywords` in declaration order, which is the order they are tried in. */
  const KeywordTopics: seq<Topic> := [Career, Love, Health, Purpose, Guidance]

  /** The keyword list of each category (General has none). */
  function Keywords(topic: Topic): seq<string> {
    match topic
    case Career => ["career", "job", "work", "profession", "occupation"]
    case Love => ["love", "relationship", "partner", "marriage", "dating", "romance"]
    case Health => ["health", "wellness", "fitness", "diet", "exercise", "healing"]
    case Purpose => ["purpose", "meaning", "mission", "destiny", "path", "calling"]
    case Guidance => ["guide", "advice", "suggest", "recommend", "help", "guidance"]
    case General => []
  }

  /** `words.some(word => message.includes(word))`. */
  predicate Mentions(message: string, words: seq<string>) {
    exists w :: w in words && Contains(message, w)
  }

  /** The position of the first category with a keyword in `message`, or `|cats|`. */
  function FirstMention(message: string, topics: seq<Topic>): (k: nat)
    ensures k <= |topics|
    ensures forall j :: 0 <= j < k ==> !Mentions(message, Keywords(topics[j]))
    ensures k < |topics| ==> Mentions(message, Keywords(topics[k]))
  {
    if topics == [] then 0
    else if Mentions(message, Keywords(topics[0])) then 0
    else 1 + FirstMention(message, topics[1..])
  }

  /** `FirstMention` is the only position that matches with no earlier match. */
  lemma FirstMentionUnique(message: string, topics: seq<Topic>, k: nat)
    requires k < |topics| && Mentions(message, Keywords(topics[k]))
    requires forall j :: 0 <= j < k ==> !Mentions(message, Keywords(topics[j]))
    ensures FirstMention(message, topics) == k
  {
  }

  /**
   * The topic of a message: the first category matching its lower-cased
   * text, and General exactly when no category has a keyword in it.
   */
  function Classify(message: string): (topic: Topic)
    ensures topic == General <==>
      forall j :: 0 <= j < |KeywordTopics| ==> !Mentions(Lower(message), Keywords(KeywordTopics[j]))
    ensures topic != General ==> topic in KeywordTopics && Mentions(Lower(message), Keywords(topic))
  {
    var k := FirstMention(Lower(message), KeywordTopics);
    if k < |KeywordTopics| then KeywordTopics[k] else General
  }

  /**
   * Category `k` is chosen exactly when it matches and no earlier category
   * does; so "job and love" is a career message.
   */
  lemma ClassifyIsFirstMatch(message: string, k: nat)
    requires k < |KeywordTopics|
    ensures Classify(message) == KeywordTopics[k] <==>
      Mentions(Lower(message), Keywords(KeywordTopics[k])) &&
      forall j :: 0 <= j < k ==> !Mentions(Lower(message), Keywords(KeywordTopics[j]))
  {
    var first := FirstMention(Lower(message), KeywordTopics);
    if first < |KeywordTopics| && first != k {
      assert KeywordTopics[first] != KeywordTopics[k];
    }
  }

  /** Guidance is never produced for a message that also names a career word. */
  lemma CareerWordWins(message: string, w: string)
    requires w in Keywords(Career) && Contains(Lower(message), w)
    ensures Classify(message) == Career
  {
    assert Mentions(Lower(message), Keywords(Career));
  }

  /** The `for ... of Object.entries(messageKeywords)` loop with its `break`. */
  method ClassifyTopic(message: string) returns (topic: Topic)
    ensures topic == Classify(message)
  {
    var lowered := Lower(message);
    topic := General;
    var i := 0;
    while i < |KeywordTopics|
      invariant 0 <= i <= |KeywordTopics|
      invariant forall j :: 0 <= j < i ==> !Mentions(lowered, Keywords(KeywordTopics[j]))
      invariant topic == General
    {
      if Mentions(lowered, Keywords(KeywordTopics[i])) {
        FirstMentionUnique(lowered, KeywordTopics, i);
        topic := KeywordTopics[i];
        break;
      }
      i := i + 1;
    }
  }

  // ---------------------------------------------------------- sign lookups

  function Strength(z: Sign): string {
    match z
    case Aries => "initiative and courage"
    case Taurus => "stability and resourcefulness"
    case Gemini => "versatility and communication"
    case Cancer => "intuition and nurturing"
    case Leo => "creativity and leadership"
    case Virgo => "analysis and practical solutions"
    case Libra => "diplomacy and aesthetic sense"
    case Scorpio => "depth and transformation"
    case Sagittarius => "vision and optimism"
    case Capricorn => "discipline and management"
    case Aquarius => "innovation and humanitarian values"
    case Pisces => "compassion and artistic expression"
  }

  function RelationshipValue(z: Sign): string {
    match z
    case Aries => "excitement and independence"
    case Taurus => "loyalty and sensuality"
    case Gemini => "mental connection and variety"
    case Cancer => "emotional security and nurturing"
    case Leo => "admiration and romance"
    case Virgo => "practical support and thoughtfulness"
    case Libra => "harmony and partnership"
    case Scorpio => "intensity and depth"
    case Sagittarius => "freedom and adventure"
    case Capricorn => "commitment and stability"
    case Aquarius => "friendship and intellectual stimulation"
    case Pisces => "spiritual connection and empathy"
  }

  function BodyFocus(z: Sign): string {
    match z
    case Aries => "head and adrenals"
    case Taurus => "throat and thyroid"
    case Gemini => "lungs and nervous system"
    case Cancer => "digestive system and breasts"
    case Leo => "heart and spine"
    case Virgo => "intestines and assimilation"
    case Libra => "kidneys and balance"
    case Scorpio => "reproductive system and elimination"
    case Sagittarius => "liver and thighs"
    case Capricorn => "bones and joints"
    case Aquarius => "circulation and ankles"
    case Pisces => "lymphatic system and feet"
  }

  /** `table[sign] || fallback` for a table keyed by the twelve sign names. */
  function LookupBySign(sign: string, table: Sign -> string, fallback: string): string {
    match ParseSign(sign)
    case Some(z) => if table(z) != "" then table(z) else fallback
    case None => fallback
  }

  function GetSignStrength(sign: string): (r: string)
    ensures IsSign(sign) ==> r == Strength(ParseSign(sign).value)
    ensures !IsSign(sign) ==> r == "unique talents"
  {
    StrengthEntries();
    LookupBySign(sign, Strength, "unique talents")
  }

  function GetSignRelationshipValue(sign: string): (r: string)
    ensures IsSign(sign) ==> r == RelationshipValue(ParseSign(sign).value)
    ensures !IsSign(sign) ==> r == "authentic connection"
  {
    RelationshipValueEntries();
    LookupBySign(sign, RelationshipValue, "authentic connection")
  }

  function GetSignBodyFocus(sign: string): (r: string)
    ensures IsSign(sign) ==> r == BodyFocus(ParseSign(sign).value)
    ensures !IsSign(sign) ==> r == "overall energy balance"
  {
    BodyFocusEntries();
    LookupBySign(sign, BodyFocus, "overall energy balance")
  }

  /**
   * A table whose every entry is non-empty and differs from the fallback
   * returns the sign's entry for the twelve names and the fallback exactly
   * for every other string.
   */
  lemma LookupBySignFallback(sign: string, table: Sign -> string, fallback: string)
    requires forall z :: table(z) != "" && table(z) != fallback
    ensures IsSign(sign) ==> LookupBySign(sign, table, fallback) == table(ParseSign(sign).value)
    ensures LookupBySign(sign, table, fallback) == fallback <==> !IsSign(sign)
  {
  }

  // ------------------------------------------------------ profile branches

  /** The four arms of the composer's type `if` chains (and of `getPurposeOutcome`). */
  datatype TypeBranch = SustainedEnergy | Guiding | Initiating | Otherwise

  function BranchOf(hdType: string): TypeBranch {
    if hdType == "Generator" || hdType == "Manifesting Generator" then SustainedEnergy
    else if hdType == "Projector" then Guiding
    else if hdType == "Manifestor" then Initiating
    else Otherwise
  }

  /**
   * Generator and Manifesting Generator share a branch; every type other
   * than the four named ones, Reflector and unknown names alike, takes the else arm.
   */
  lemma BranchOfCases(hdType: string)
    ensures BranchOf("Generator") == BranchOf("Manifesting Generator") == SustainedEnergy
    ensures BranchOf(hdType) == Otherwise <==>
      hdType !in {"Generator", "Manifesting Generator", "Projector", "Manifestor"}
  {
  }

  /**
   * `getPurposeOutcome(sign, type)`: the sign argument is never read; the
   * two Generator types share an outcome, and every type other than the
   * four named ones gets the Reflector's.
   */
  function GetPurposeOutcome(sign: string, hdType: string): (r: string)
    ensures hdType == "Generator" || hdType == "Manifesting Generator" ==>
      r == "creating satisfaction and impact through your response to life"
    ensures hdType !in {"Generator", "Manifesting Generator", "Projector", "Manifestor"} ==>
      r == "reflecting and sampling life, offering surprise and wonder"
  {
    match BranchOf(hdType)
    case SustainedEnergy => "creating satisfaction and impact through your response to life"
    case Guiding => "guiding others with your wisdom and experiencing success"
    case Initiating => "initiating important changes and experiencing peace"
    case Otherwise => "reflecting and sampling life, offering surprise and wonder"
  }

  lemma PurposeOutcomeIgnoresSign(sign1: string, sign2: string, hdType: string)
    ensures GetPurposeOutcome(sign1, hdType) == GetPurposeOutcome(sign2, hdType)
  {
  }

  /** `getAuthorityAdvice`: the advice table keyed by the seven authorities. */
  function AuthorityAdviceEntry(authority: string): Option<string> {
    match authority
    case "Sacral" => Some("listen to your gut response (uh-huh or uh-uh)")
    case "Emotional" => Some("wait through your emotional wave before deciding")
    case "Splenic" => Some("pay attention to immediate intuitive hits")
    case "Ego" => Some("listen to your heart's desire and commitments")
    case "Self" => Some("wait for clarity and certainty to emerge")
    case "Mental Projector" => Some("consult with others you trust before deciding")
    case "Lunar" => Some("wait through a full lunar cycle for clarity")
    case _ => None
  }

  function InnerKnowing(): string { "honor your inner knowing" }

  /** `authorityAdvice[authority] || 'honor your inner knowing'`. */
  function GetAuthorityAdvice(authority: string): (r: string)
    ensures authority in AdvisedAuthorities ==> AuthorityAdviceEntry(authority) == Some(r)
    ensures authority !in AdvisedAuthorities ==> r == InnerKnowing()
  {
    match AuthorityAdviceEntry(authority)
    case Some(advice) => if advice != "" then advice else InnerKnowing()
    case None => InnerKnowing()
  }

  /** `astroData.moonSign || 'moon sign'`: absent and empty both read as the placeholder. */
  function MoonText(moonSign: Option<string>): string {
    match moonSign
    case Some(m) => if m != "" then m else "moon sign"
    case None => "moon sign"
  }

  // ------------------------------------------------------------ sentences

  function CareerOpening(sunSign: string, hdType: string): string {
    "As a " + sunSign + " " + hdType + ", your professional strengths are unique. "
  }

  function CareerLine(b: TypeBranch): string {
    match b
    case SustainedEnergy => "Your natural ability to sustain energy makes you excellent at roles requiring consistent output. "
    case Guiding => "Your gift for seeing others clearly makes you an excellent guide, manager, or advisor. "
    case Initiating => "Your ability to initiate makes you a natural entrepreneur or leader in your field. "
    case Otherwise => "Your reflective nature gives you unique insights that others might miss. "
  }

  function CareerClosing(sunSign: string): string {
    "With your " + sunSign + " traits, you thrive in environments that value your " + GetSignStrength(sunSign) + "."
  }

  function LoveOpening(sunSign: string, hdType: string): string {
    "In relationships, your " + sunSign + " energy combines with your " + hdType + " design in fascinating ways. "
  }

  function LoveLine(b: TypeBranch): string {
    match b
    case SustainedEnergy => "You bring consistent energy and responsiveness to your partnerships. "
    case Guiding => "You see your partners deeply and can offer profound guidance when invited. "
    case Initiating => "You initiate and lead in relationships, but remember to inform your partner of your plans. "
    case Otherwise => "You reflect your partner's energy, giving you deep empathy but requiring time for processing. "
  }

  function LoveClosing(sunSign: string): string {
    "Your " + sunSign + " traits mean you value " + GetSignRelationshipValue(sunSign) + " in your connections."
  }

  function HealthOpening(hdType: string): string {
    "For optimal wellbeing, your " + hdType + " energy needs specific attention. "
  }

  function HealthLine(b: TypeBranch): string {
    match b
    case SustainedEnergy => "Regular physical activity that you enjoy is essential for your sacral energy. "
    case Guiding => "Rest and recognition are critical - don't overextend yourself trying to keep up with others. "
    case Initiating => "You need freedom and space to discharge your powerful energy. "
    case Otherwise => "Your health is tied to your environment - seek places that feel nourishing. "
  }

  function HealthClosing(sunSign: string): string {
    "As a " + sunSign + ", paying attention to your " + GetSignBodyFocus(sunSign) + " can support your overall balance."
  }

  function PurposeOpening(sunSign: string, hdType: string): string {
    "Your cosmic purpose blends your " + sunSign + " essence with your " + hdType + " design. "
  }

  /** The arms of the purpose reply's `if` chain, which branches on the authority rather than the type. */
  datatype AuthorityBranch = TrustGut | RideWaves | HonorHits | OtherAuthority(name: string)

  function AuthorityBranchOf(authority: string): AuthorityBranch {
    if authority == "Sacral" then TrustGut
    else if authority == "Emotional" then RideWaves
    else if authority == "Splenic" then HonorHits
    else OtherAuthority(authority)
  }

  function AuthorityLine(b: AuthorityBranch): string {
    match b
    case TrustGut => "Trust your gut responses to guide you toward what's correct for you. "
    case RideWaves => "Ride the waves of your emotions and make decisions over time for clarity. "
    case HonorHits => "Your intuitive hits are instantaneous wisdom - honor them. "
    case OtherAuthority(name) => "Your " + name + " authority is your inner guidance system - learn to listen to it. "
  }

  function PurposeClosing(sunSign: string, hdType: string): string {
    "When you align with your design and cosmic signature, you'll find yourself " + GetPurposeOutcome(sunSign, hdType) + "."
  }

  function GeneralOpening(sunSign: string, hdType: string): string {
    "As a " + sunSign + " " + hdType + ", your cosmic signature has unique gifts and challenges. "
  }

  function AdviceLine(authority: string): string {
    "Your " + authority + " authority guides your decisions best when you " + GetAuthorityAdvice(authority) + ". "
  }

  function MoonLine(moonSign: Option<string>): string {
    "Consider exploring how your " + MoonText(moonSign) + " influences your emotional landscape as well. "
  }

  function ClosingQuestion(): string { "What specific questions do you have about your design or cosmic path?" }

  // ---------------------------------------------------------------- replies

  function CareerReply(astro: AstroProfile, hd: DesignProfile): string {
    CareerOpening(astro.sunSign, hd.hdType) + CareerLine(BranchOf(hd.hdType)) + CareerClosing(astro.sunSign)
  }

  function LoveReply(astro: AstroProfile, hd: DesignProfile): string {
    LoveOpening(astro.sunSign, hd.hdType) + LoveLine(BranchOf(hd.hdType)) + LoveClosing(astro.sunSign)
  }

  function HealthReply(astro: AstroProfile, hd: DesignProfile): string {
    HealthOpening(hd.hdType) + HealthLine(BranchOf(hd.hdType)) + HealthClosing(astro.sunSign)
  }

  function PurposeReply(astro: AstroProfile, hd: DesignProfile): string {
    PurposeOpening(astro.sunSign, hd.hdType) + AuthorityLine(AuthorityBranchOf(hd.authority)) + PurposeClosing(astro.sunSign, hd.hdType)
  }

  function GeneralReply(astro: AstroProfile, hd: DesignProfile): string {
    GeneralOpening(astro.sunSign, hd.hdType) + AdviceLine(hd.authority) + MoonLine(astro.moonSign) + ClosingQuestion()
  }

  /**
   * The reply for a topic: the `switch (topic)` of `generateChatbotResponse`.
   * Every topic without a case of its own, guidance included, takes the
   * default arm, which ends with the closing question.
   */
  function Reply(topic: Topic, astro: AstroProfile, hd: DesignProfile): (r: string)
    ensures topic !in {Career, Love, Health, Purpose} ==>
      r == GeneralReply(astro, hd) && EndsWith(r, ClosingQuestion())
  {
    EndsWithAppend(GeneralOpening(astro.sunSign, hd.hdType) + AdviceLine(hd.authority) + MoonLine(astro.moonSign),
                   ClosingQuestion());
    match topic
    case Career => CareerReply(astro, hd)
    case Love => LoveReply(astro, hd)
    case Health => HealthReply(astro, hd)
    case Purpose => PurposeReply(astro, hd)
    case _ => GeneralReply(astro, hd)
  }

  /** The `case 'career'` arm of the composer. */
  method ComposeCareer(astro: AstroProfile, hd: DesignProfile) returns (response: string)
    ensures response == CareerReply(astro, hd)
  {
    var sun := astro.sunSign;
    var hdType := hd.hdType;
    response := "As a " + sun + " " + hdType + ", your professional strengths are unique. ";
    if hdType == "Generator" || hdType == "Manifesting Generator" {
      response := response + CareerLine(SustainedEnergy);
    } else if hdType == "Projector" {
      response := response + CareerLine(Guiding);
    } else if hdType == "Manifestor" {
      response := response + CareerLine(Initiating);
    } else {
      response := response + CareerLine(Otherwise);
    }
    response := response + ("With your " + sun + " traits, you thrive in environments that value your " + GetSignStrength(sun) + ".");
  }

  /** The `case 'love'` arm of the composer. */
  method ComposeLove(astro: AstroProfile, hd: DesignProfile) returns (response: string)
    ensures response == LoveReply(astro, hd)
  {
    var sun := astro.sunSign;
    var hdType := hd.hdType;
    response := "In relationships, your " + sun + " energy combines with your " + hdType + " design in fascinating ways. ";
    if hdType == "Generator" || hdType == "Manifesting Generator" {
      response := response + LoveLine(SustainedEnergy);
    } else if hdType == "Projector" {
      response := response + LoveLine(Guiding);
    } else if hdType == "Manifestor" {
      response := response + LoveLine(Initiating);
    } else {
      response := response + LoveLine(Otherwise);
    }
    response := response + ("Your " + sun + " traits mean you value " + GetSignRelationshipValue(sun) + " in your connections.");
  }

  /** The `case 'health'` arm of the composer. */
  method ComposeHealth(astro: AstroProfile, hd: DesignProfile) returns (response: string)
    ensures response == HealthReply(astro, hd)
  {
    var sun := astro.sunSign;
    var hdType := hd.hdType;
    response := "For optimal wellbeing, your " + hdType + " energy needs specific attention. ";
    if hdType == "Generator" || hdType == "Manifesting Generator" {
      response := response + HealthLine(SustainedEnergy);
    } else if hdType == "Projector" {
      response := response + HealthLine(Guiding);
    } else if hdType == "Manifestor" {
      response := response + HealthLine(Initiating);
    } else {
      response := response + HealthLine(Otherwise);
    }
    response := response + ("As a " + sun + ", paying attention to your " + GetSignBodyFocus(sun) + " can support your overall balance.");
  }

  /** The `case 'purpose'` arm of the composer. */
  method ComposePurpose(astro: AstroProfile, hd: DesignProfile) returns (response: string)
    ensures response == PurposeReply(astro, hd)
  {
    var sun := astro.sunSign;
    var hdType := hd.hdType;
    response := "Your cosmic purpose blends your " + sun + " essence with your " + hdType + " design. ";
    if hd.authority == "Sacral" {
      response := response + AuthorityLine(TrustGut);
    } else if hd.authority == "Emotional" {
      response := response + AuthorityLine(RideWaves);
    } else if hd.authority == "Splenic" {
      response := response + AuthorityLine(HonorHits);
    } else {
      response := response + AuthorityLine(OtherAuthority(hd.authority));
    }
    response := response + ("When you align with your design and cosmic signature, you'll find yourself " + GetPurposeOutcome(sun, hdType) + ".");
  }

  /** The `default` arm of the composer, also taken by guidance. */
  method ComposeGeneral(astro: AstroProfile, hd: DesignProfile) returns (response: string)
    ensures response == GeneralReply(astro, hd)
  {
    var sun := astro.sunSign;
    var hdType := hd.hdType;
    response := "As a " + sun + " " + hdType + ", your cosmic signature has unique gifts and challenges. ";
    response := response + ("Your " + hd.authority + " authority guides your decisions best when you " + GetAuthorityAdvice(hd.authority) + ". ");
    response := response + ("Consider exploring how your " + MoonText(astro.moonSign) + " influences your emotional landscape as well. ");
    response := response + "What specific questions do you have about your design or cosmic path?";
  }

  /** The composer: the `switch (topic)`, each arm building `response` with `+=`. */
  method ComposeResponse(astro: AstroProfile, hd: DesignProfile, topic: Topic) returns (response: string)
    ensures response == Reply(topic, astro, hd)
  {
    match topic {
      case Career => response := ComposeCareer(astro, hd);
      case Love => response := ComposeLove(astro, hd);
      case Health => response := ComposeHealth(astro, hd);
      case Purpose => response := ComposePurpose(astro, hd);
      case _ => response := ComposeGeneral(astro, hd);
    }
  }

  /** `generateChatbotResponse`: classify the message, then compose the reply for its topic. */
  method GenerateChatbotResponse(astro: AstroProfile, hd: DesignProfile, message: string) returns (response: string)
    ensures response == Reply(Classify(message), astro, hd)
  {
    var topic := ClassifyTopic(message);
    response := ComposeResponse(astro, hd, topic);
  }

  // ---------------------------------------------------------- reply lemmas

  /** A guidance message gets the default reply: `switch` has no guidance case. */
  lemma GuidanceRepliesAsGeneral(astro: AstroProfile, hd: DesignProfile)
    ensures Reply(Guidance, astro, hd) == Reply(General, astro, hd)
  {
  }

  /**
   * After its opening sentence, a career reply depends on the type only
   * through its branch: a Manifesting Generator hears what a Generator
   * hears, and an unknown type what a Reflector hears.
   */
  lemma CareerTailFollowsBranch(astro: AstroProfile, hd1: DesignProfile, hd2: DesignProfile)
    requires BranchOf(hd1.hdType) == BranchOf(hd2.hdType)
    ensures CareerReply(astro, hd1)[|CareerOpening(astro.sunSign, hd1.hdType)|..]
         == CareerReply(astro, hd2)[|CareerOpening(astro.sunSign, hd2.hdType)|..]
  {
    var sun := astro.sunSign;
    DropOpening(CareerOpening(sun, hd1.hdType), CareerLine(BranchOf(hd1.hdType)), CareerClosing(sun));
    DropOpening(CareerOpening(sun, hd2.hdType), CareerLine(BranchOf(hd2.hdType)), CareerClosing(sun));
  }

  /** The same for the love reply. */
  lemma LoveTailFollowsBranch(astro: AstroProfile, hd1: DesignProfile, hd2: DesignProfile)
    requires BranchOf(hd1.hdType) == BranchOf(hd2.hdType)
    ensures LoveReply(astro, hd1)[|LoveOpening(astro.sunSign, hd1.hdType)|..]
         == LoveReply(astro, hd2)[|LoveOpening(astro.sunSign, hd2.hdType)|..]
  {
    var sun := astro.sunSign;
    DropOpening(LoveOpening(sun, hd1.hdType), LoveLine(BranchOf(hd1.hdType)), LoveClosing(sun));
    DropOpening(LoveOpening(sun, hd2.hdType), LoveLine(BranchOf(hd2.hdType)), LoveClosing(sun));
  }

  /** The same for the health reply. */
  lemma HealthTailFollowsBranch(astro: AstroProfile, hd1: DesignProfile, hd2: DesignProfile)
    requires BranchOf(hd1.hdType) == BranchOf(hd2.hdType)
    ensures HealthReply(astro, hd1)[|HealthOpening(hd1.hdType)|..]
         == HealthReply(astro, hd2)[|HealthOpening(hd2.hdType)|..]
  {
    var sun := astro.sunSign;
    DropOpening(HealthOpening(hd1.hdType), HealthLine(BranchOf(hd1.hdType)), HealthClosing(sun));
    DropOpening(HealthOpening(hd2.hdType), HealthLine(BranchOf(hd2.hdType)), HealthClosing(sun));
  }

  lemma DropOpening(opening: string, line: string, closing: string)
    ensures (opening + line + closing)[|opening|..] == line + closing
  {
  }

  /** A purpose reply after its opening depends only on the authority's branch and the type's. */
  lemma PurposeTailFollowsBranches(astro: AstroProfile, hd1: DesignProfile, hd2: DesignProfile)
    requires AuthorityBranchOf(hd1.authority) == AuthorityBranchOf(hd2.authority)
    requires BranchOf(hd1.hdType) == BranchOf(hd2.hdType)
    ensures PurposeReply(astro, hd1)[|PurposeOpening(astro.sunSign, hd1.hdType)|..]
         == PurposeReply(astro, hd2)[|PurposeOpening(astro.sunSign, hd2.hdType)|..]
  {
    var sun := astro.sunSign;
    DropOpening(PurposeOpening(sun, hd1.hdType), AuthorityLine(AuthorityBranchOf(hd1.authority)), PurposeClosing(sun, hd1.hdType));
    DropOpening(PurposeOpening(sun, hd2.hdType), AuthorityLine(AuthorityBranchOf(hd2.authority)), PurposeClosing(sun, hd2.hdType));
  }

  /** An infix of an infix of a three-part string is contained in it. */
  lemma ContainsInPart(pre: string, part: string, post: string, x: string, y: string, z: string)
    requires part == x + y + z
    ensures Contains(pre + part + post, y)
  {
    ContainsInfix(pre, part, post);
    ContainsInfix(x, y, z);
    ContainsTransitive(pre + part + post, part, y);
  }

  /** The default reply quotes the authority's advice. */
  lemma GeneralReplyQuotesAdvice(astro: AstroProfile, hd: DesignProfile)
    ensures Contains(GeneralReply(astro, hd), GetAuthorityAdvice(hd.authority))
  {
    var opening := GeneralOpening(astro.sunSign, hd.hdType);
    var rest := MoonLine(astro.moonSign) + ClosingQuestion();
    assert GeneralReply(astro, hd) == opening + AdviceLine(hd.authority) + rest;
    ContainsInPart(opening, AdviceLine(hd.authority), rest,
      "Your " + hd.authority + " authority guides your decisions best when you ", GetAuthorityAdvice(hd.authority), ". ");
  }

  /** The default reply names the moon sign, or the placeholder. */
  lemma GeneralReplyNamesMoon(astro: AstroProfile, hd: DesignProfile)
    ensures Contains(GeneralReply(astro, hd), MoonText(astro.moonSign))
  {
    var opening := GeneralOpening(astro.sunSign, hd.hdType) + AdviceLine(hd.authority);
    ContainsInPart(opening, MoonLine(astro.moonSign), ClosingQuestion(),
      "Consider exploring how your ", MoonText(astro.moonSign), " influences your emotional landscape as well. ");
  }

  /**
   * The default reply ends with the closing question, quotes the authority's
   * advice and names the moon sign, or the placeholder "moon sign" when the
   * moon sign is missing or empty.
   */
  lemma GeneralReplyContents(astro: AstroProfile, hd: DesignProfile)
    ensures EndsWith(GeneralReply(astro, hd), ClosingQuestion())
    ensures Contains(GeneralReply(astro, hd), GetAuthorityAdvice(hd.authority))
    ensures Contains(GeneralReply(astro, hd), MoonText(astro.moonSign))
    ensures astro.moonSign.None? || astro.moonSign == Some("") ==> Contains(GeneralReply(astro, hd), "moon sign")
  {
    EndsWithAppend(GeneralOpening(astro.sunSign, hd.hdType) + AdviceLine(hd.authority) + MoonLine(astro.moonSign),
                   ClosingQuestion());
    GeneralReplyQuotesAdvice(astro, hd);
    GeneralReplyNamesMoon(astro, hd);
    if astro.moonSign.None? || astro.moonSign == Some("") {
      assert MoonText(astro.moonSign) == "moon sign";
    }
  }

  // -------------------------------------------------------- lookup lemmas

  lemma StrengthEntries()
    ensures forall z :: Strength(z) != "" && Strength(z) != "unique talents"
  {
  }

  lemma RelationshipValueEntries()
    ensures forall z :: RelationshipValue(z) != "" && RelationshipValue(z) != "authentic connection"
  {
  }

  lemma BodyFocusEntries()
    ensures forall z :: BodyFocus(z) != "" && BodyFocus(z) != "overall energy balance"
  {
  }

  /** `getSignStrength` answers "unique talents" exactly for strings that are not sign names. */
  lemma SignStrengthFallback(sign: string)
    ensures IsSign(sign) ==> GetSignStrength(sign) == Strength(ParseSign(sign).value)
    ensures GetSignStrength(sign) == "unique talents" <==> !IsSign(sign)
  {
    StrengthEntries();
    LookupBySignFallback(sign, Strength, "unique talents");
  }

  /** `getSignRelationshipValue` answers "authentic connection" exactly off the table. */
  lemma SignRelationshipValueFallback(sign: string)
    ensures IsSign(sign) ==> GetSignRelationshipValue(sign) == RelationshipValue(ParseSign(sign).value)
    ensures GetSignRelationshipValue(sign) == "authentic connection" <==> !IsSign(sign)
  {
    RelationshipValueEntries();
    LookupBySignFallback(sign, RelationshipValue, "authentic connection");
  }

  /** `getSignBodyFocus` answers "overall energy balance" exactly off the table. */
  lemma SignBodyFocusFallback(sign: string)
    ensures IsSign(sign) ==> GetSignBodyFocus(sign) == BodyFocus(ParseSign(sign).value)
    ensures GetSignBodyFocus(sign) == "overall energy balance" <==> !IsSign(sign)
  {
    BodyFocusEntries();
    LookupBySignFallback(sign, BodyFocus, "overall energy balance");
  }

  /** The seven authorities of the advice table. */
  const AdvisedAuthorities: set<string> :=
    {"Sacral", "Emotional", "Splenic", "Ego", "Self", "Mental Projector", "Lunar"}

  /** `getAuthorityAdvice` answers "honor your inner knowing" exactly for authorities off its table. */
  lemma AuthorityAdviceFallback(authority: string)
    ensures AuthorityAdviceEntry(authority).Some? <==> authority in AdvisedAuthorities
    ensures GetAuthorityAdvice(authority) == InnerKnowing() <==> authority !in AdvisedAuthorities
  {
  }
}
