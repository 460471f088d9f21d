/**
 * Intent detection and persona reply templates: an ordered table of patterns
 * tried first to last on the trimmed, lower-cased message, and per-persona
 * reply lists whose placeholders are filled from the bot's profile.
 */
module ConversationPatterns {
  import opened Text
  import Rephrase

  datatype Intent =
    | GreetingGeneral | GreetingTime | HowAreYou | MoodBored | MoodTired | MoodHappy | MoodSad
    | Thanks | Sorry | Goodbye | ReflectBack | AskName | AskLocation | AskJob | AskHobby
    | AskRelation | AskSocials | AskPhone | Food | Weather | Compliment | Laugh | SmalltalkOk
    | Unknown

  /**
   * The three shapes of regular expression the table uses, each an alternation of literals:
   * `\b(a|b|...)\b`, `^(a|b|...)([.!?\s]|$)` and `^(a|b|...)\b`.
   */
  datatype Pattern =
    | Words(alts: seq<String>)
    | Leading(alts: seq<String>)
    | LeadingWord(alts: seq<String>)

  datatype Entry = Entry(intent: Intent, pattern: Pattern)

  /** `^w([.!?\s]|$)`. */
  predicate LeadingAt(s: String, w: String)
  {
    StartsWith(s, w) && (|s| == |w| || s[|w|] in ".!?" || IsSpace(s[|w|]))
  }

  /** `^w\b`. */
  predicate LeadingWordAt(s: String, w: String)
  {
    StartsWith(s, w) && Boundary(s, |w|)
  }

  /** `regex.test(s)` for one table pattern. */
  predicate Matches(p: Pattern, s: String)
  {
    match p
    case Words(alts) => HasAnyWord(s, alts)
    case Leading(alts) => exists k :: 0 <= k < |alts| && LeadingAt(s, alts[k])
    case LeadingWord(alts) => exists k :: 0 <= k < |alts| && LeadingWordAt(s, alts[k])
  }

  /** The pattern table, in the order it is tried. `you?` stands for `yo` or `you`, `what'?s` for `whats` or `what's`. */
  const PATTERNS: seq<Entry> := [
    Entry(GreetingTime, Words(["good morning", "good night", "good evening", "good afternoon"])),
    Entry(GreetingGeneral, Leading(["hi", "hello", "hey", "hii", "helo", "hiya", "yo"])),
    Entry(HowAreYou, Words(["how are you", "how's it going", "how r u", "how are u"])),
    Entry(MoodBored, Words(["bored", "boring", "nothing to do"])),
    Entry(MoodTired, Words(["tired", "sleepy", "exhausted"])),
    Entry(MoodHappy, Words(["happy", "great", "awesome", "good mood"])),
    Entry(MoodSad, Words(["sad", "down", "unhappy", "depressed"])),
    Entry(Thanks, Words(["thank you", "thanks", "thx", "ty"])),
    Entry(Sorry, Words(["sorry", "my bad", "sry"])),
    Entry(Goodbye, Words(["bye", "goodbye", "see you", "gtg", "g2g", "night", "cya"])),
    Entry(ReflectBack, Words(["and you", "what about you", "yo", "you"])),
    Entry(AskName, Words(["your name", "who are you", "whats your name", "what's your name"])),
    Entry(AskLocation, Words(["where are you from", "where r u", "which city", "where do you live"])),
    Entry(AskJob, Words(["what do you do", "your job", "work as", "profession"])),
    Entry(AskHobby, Words(["hobby", "what do you do for fun", "what are you into"])),
    Entry(AskRelation, Words(["boyfriend", "girlfriend", "partner", "dating"])),
    Entry(AskSocials, Words(["insta", "instagram", "facebook", "twitter", "snapchat", "socials", "social media"])),
    Entry(AskPhone, Words(["phone", "number", "call me", "whatsapp", "whats app", "whatsap"])),
    Entry(Food, Words(["have you eaten", "had dinner", "had lunch", "hungry"])),
    Entry(Weather, Words(["rain", "raining", "sunny", "cold", "hot", "weather"])),
    Entry(Compliment, Words(["nice", "sweet", "cute", "pretty", "handsome", "good looking"])),
    Entry(Laugh, Words(["lol", "haha", "😂", "😅", "hehe"])),
    Entry(SmalltalkOk, LeadingWord(["ok", "okay", "sure", "y", "n", "yes", "no", "fine"]))
  ]

  /** The index of the first table entry at or after `k` whose pattern matches `t`. */
  function FirstMatchFrom(t: String, k: nat): (r: Option<nat>)
    requires k <= |PATTERNS|
    decreases |PATTERNS| - k
    ensures r.Some? ==> k <= r.value < |PATTERNS| && Matches(PATTERNS[r.value].pattern, t)
    ensures r.Some? ==> forall j :: k <= j < r.value ==> !Matches(PATTERNS[j].pattern, t)
    ensures r.None? ==> forall j :: k <= j < |PATTERNS| ==> !Matches(PATTERNS[j].pattern, t)
  {
    if k == |PATTERNS| then None
    else if Matches(PATTERNS[k].pattern, t) then Some(k)
    else FirstMatchFrom(t, k + 1)
  }

  /** The strings the short-text fallback accepts: `/^(ok|y|n|hi|yo|yo\.)$/`. */
  const SHORT_GREETINGS: seq<String> := ["ok", "y", "n", "hi", "yo", "yo."]

  /**
   * `detectIntent`: `None` stands for a value that is not a string. The intent of the first
   * matching pattern, else the short-text fallback, else `Unknown`.
   */
  function DetectIntent(text: Option<String>): Intent
  {
    match text
    case None => Unknown
    case Some(s) =>
      if s == [] then Unknown
      else
        var lowered := Lower(Trim(s));
        match FirstMatchFrom(lowered, 0)
        case Some(k) => PATTERNS[k].intent
        case None =>
          if Utf16Length(lowered) < 4 && lowered in SHORT_GREETINGS then GreetingGeneral else Unknown
  }

  /** The text `detectIntent` matches against. */
  function Normalized(s: String): String
  {
    Lower(Trim(s))
  }

  /** Each string the short-text fallback accepts is already matched by a table pattern. */
  lemma ShortGreetingsAlreadyMatched(t: String)
    requires t in SHORT_GREETINGS
    ensures FirstMatchFrom(t, 0).Some?
  {
    if t == "ok" || t == "y" || t == "n" {
      assert LeadingWordAt(t, t);
      assert Matches(PATTERNS[22].pattern, t) by {
        var alts := PATTERNS[22].pattern.alts;
        assert t == alts[0] || t == alts[3] || t == alts[4];
      }
      FirstMatchReaches(t, 22);
    } else {
      var w := if t == "hi" then "hi" else "yo";
      assert LeadingAt(t, w);
      assert Matches(PATTERNS[1].pattern, t) by {
        var alts := PATTERNS[1].pattern.alts;
        assert w == alts[0] || w == alts[6];
      }
      FirstMatchReaches(t, 1);
    }
  }

  /** When pattern `j` matches, the scan stops at `j` or earlier. */
  lemma FirstMatchReaches(t: String, j: nat)
    requires j < |PATTERNS| && Matches(PATTERNS[j].pattern, t)
    ensures FirstMatchFrom(t, 0).Some? && FirstMatchFrom(t, 0).value <= j
  {
  }

  /**
   * `detectIntent` is a first-match decision list: the result is the intent of the first
   * pattern that matches the normalised text, and `Unknown` exactly when none matches
   * (the short-text fallback never decides anything).
   */
  lemma DetectIntentFirstMatch(s: String)
    ensures var t := Normalized(s);
      DetectIntent(Some(s)) == Unknown <==> forall j :: 0 <= j < |PATTERNS| ==> !Matches(PATTERNS[j].pattern, t)
    ensures var t := Normalized(s);
      DetectIntent(Some(s)) != Unknown ==>
        exists k :: 0 <= k < |PATTERNS| && Matches(PATTERNS[k].pattern, t) && PATTERNS[k].intent == DetectIntent(Some(s))
          && forall j :: 0 <= j < k ==> !Matches(PATTERNS[j].pattern, t)
  {
    var t := Normalized(s);
    var m := FirstMatchFrom(t, 0);
    DetectIntentIsFirst(s);
    if m.Some? {
      NoUnknownInTable(m.value);
    }
  }

  /** `detectIntent` answers with the intent of the first matching entry, or `Unknown` when none matches. */
  lemma DetectIntentIsFirst(s: String)
    ensures var m := FirstMatchFrom(Normalized(s), 0);
      DetectIntent(Some(s)) == if m.Some? then PATTERNS[m.value].intent else Unknown
  {
    var t := Normalized(s);
    if s == [] {
      assert t == [];
      NothingMatchesEmpty();
    } else if FirstMatchFrom(t, 0).None? && t in SHORT_GREETINGS {
      ShortGreetingsAlreadyMatched(t);
    }
  }

  lemma NoUnknownInTable(k: nat)
    requires k < |PATTERNS|
    ensures PATTERNS[k].intent != Unknown
  {
  }

  lemma NothingMatchesEmpty()
    ensures forall j :: 0 <= j < |PATTERNS| ==> !Matches(PATTERNS[j].pattern, [])
  {
    forall j | 0 <= j < |PATTERNS| ensures !Matches(PATTERNS[j].pattern, []) {
      var p := PATTERNS[j].pattern;
      if p.Words? {
        forall k | 0 <= k < |p.alts| ensures !HasWord([], p.alts[k]) {
          assert |p.alts[k]| > 0;
        }
      }
    }
  }

  /** A value that is not a string, and the empty string, are `Unknown`. */
  lemma DetectIntentNonString()
    ensures DetectIntent(None) == Unknown && DetectIntent(Some([])) == Unknown
  {
  }

  /**
   * Earlier patterns win: when pattern `j` matches, the result is the intent of pattern `j`
   * or of an earlier one. So a time greeting beats a general greeting (entries 0 and 1) and a
   * relationship question beats a socials question (entries 15 and 16).
   */
  lemma EarlierPatternWins(s: String, j: nat)
    requires j < |PATTERNS| && Matches(PATTERNS[j].pattern, Normalized(s)) && s != []
    ensures exists k :: 0 <= k <= j && DetectIntent(Some(s)) == PATTERNS[k].intent
  {
    FirstMatchReaches(Normalized(s), j);
  }

  lemma TimeGreetingBeatsGeneral(s: String)
    requires s != [] && Matches(PATTERNS[0].pattern, Normalized(s))
    ensures DetectIntent(Some(s)) == GreetingTime
  {
  }

  lemma RelationBeatsSocials(s: String)
    requires s != [] && Matches(PATTERNS[15].pattern, Normalized(s)) && Matches(PATTERNS[16].pattern, Normalized(s))
    ensures DetectIntent(Some(s)) != AskSocials
  {
    var t := Normalized(s);
    FirstMatchReaches(t, 15);
    var k := FirstMatchFrom(t, 0).value;
    assert DetectIntent(Some(s)) == PATTERNS[k].intent;
    NotSocialsBefore(k);
  }

  lemma NotSocialsBefore(k: nat)
    requires k <= 15
    ensures PATTERNS[k].intent != AskSocials
  {
  }

  // ---------------------------------------------------------------- responses

  datatype Persona = Friendly | Witty | Chill | Curious | Reserved

  /** `RESPONSES[personaKey] ? RESPONSES[personaKey] : RESPONSES.friendly`. */
  function PersonaOf(key: String): Persona
  {
    if key == "witty" then Witty
    else if key == "chill" then Chill
    else if key == "curious" then Curious
    else if key == "reserved" then Reserved
    else Friendly
  }

  /**
   * The reply list of persona `p` for intent `i`. Every persona lists every intent, each with
   * at least one reply, so the fallbacks `persona[INTENTS.UNKNOWN] || ['hmm']` never apply.
   */
  function Replies(p: Persona, i: Intent): (r: seq<String>)
    ensures |r| > 0
  {
    match p
    case Friendly => FriendlyReplies(i)
    case Witty => WittyReplies(i)
    case Chill => ChillReplies(i)
    case Curious => CuriousReplies(i)
    case Reserved => ReservedReplies(i)
  }

  function FriendlyReplies(i: Intent): (r: seq<String>)
    ensures |r| > 0
  {
    match i
    case GreetingGeneral => ["hello", "hi there"]
    case GreetingTime => ["good one", "good day"]
    case HowAreYou => ["I’m good ya, you?"]
    case MoodBored => ["aww same, anything to do?"]
    case MoodTired => ["oh no, take rest ya"]
    case MoodHappy => ["that’s nice ya"]
    case MoodSad => ["oh no, why so?"]
    case Thanks => ["anytime", "no problem"]
    case Sorry => ["no worries ya"]
    case Goodbye => ["see you around"]
    case ReflectBack => ["same ya, what about you?"]
    case AskName => ["I’m {name}"]
    case AskLocation => ["from {city} only"]
    case AskJob => ["I work as {profession}"]
    case AskHobby => ["I like {hobby}"]
    case AskRelation => ["{relationReply}"]
    case AskSocials => ["nah, not something I share here"]
    case AskPhone => ["nah, not something I share here"]
    case Food => ["ya just ate", "not yet, you?"]
    case Weather => ["bit cloudy here", "bit hot here"]
    case Compliment => ["aww thanks ya"]
    case Laugh => ["haha"]
    case SmalltalkOk => ["ya"]
    case Unknown => ["hmm ya", "okay"]
  }

  function WittyReplies(i: Intent): (r: seq<String>)
    ensures |r| > 0
  {
    match i
    case GreetingGeneral => ["hello", "hiya"]
    case GreetingTime => ["good one"]
    case HowAreYou => ["surviving ya, you?"]
    case MoodBored => ["bored? risky move"]
    case MoodTired => ["sleep then, genius"]
    case MoodHappy => ["awesome ya"]
    case MoodSad => ["aww, that’s rough"]
    case Thanks => ["no prob"]
    case Sorry => ["it’s fine"]
    case Goodbye => ["later"]
    case ReflectBack => ["same here, you?"]
    case AskName => ["call me {name}"]
    case AskLocation => ["{city} only"]
    case AskJob => ["I’m {profession}"]
    case AskHobby => ["into {hobby}"]
    case AskRelation => ["{relationReply}"]
    case AskSocials => ["nah no socials"]
    case AskPhone => ["nope"]
    case Food => ["ate already", "not yet"]
    case Weather => ["bit meh here"]
    case Compliment => ["haha thanks"]
    case Laugh => ["lol"]
    case SmalltalkOk => ["ok"]
    case Unknown => ["hmm"]
  }

  function ChillReplies(i: Intent): (r: seq<String>)
    ensures |r| > 0
  {
    match i
    case GreetingGeneral => ["hello"]
    case GreetingTime => ["nice"]
    case HowAreYou => ["chill as always"]
    case MoodBored => ["same here"]
    case MoodTired => ["rest up"]
    case MoodHappy => ["nice ya"]
    case MoodSad => ["oh ya?"]
    case Thanks => ["np"]
    case Sorry => ["it’s okay"]
    case Goodbye => ["bye"]
    case ReflectBack => ["you tell"]
    case AskName => ["{name}"]
    case AskLocation => ["{city}"]
    case AskJob => ["{profession}"]
    case AskHobby => ["{hobby}"]
    case AskRelation => ["{relationReply}"]
    case AskSocials => ["nope"]
    case AskPhone => ["nope"]
    case Food => ["yeah ate", "not yet"]
    case Weather => ["bit hot here"]
    case Compliment => ["thanks"]
    case Laugh => ["haha"]
    case SmalltalkOk => ["ok"]
    case Unknown => ["hmm ok"]
  }

  function CuriousReplies(i: Intent): (r: seq<String>)
    ensures |r| > 0
  {
    match i
    case GreetingGeneral => ["hi"]
    case GreetingTime => ["good one"]
    case HowAreYou => ["I’m good, you?"]
    case MoodBored => ["oh why bored?"]
    case MoodTired => ["why tired?"]
    case MoodHappy => ["tell me more"]
    case MoodSad => ["what happened?"]
    case Thanks => ["you’re welcome"]
    case Sorry => ["no worries, why?"]
    case Goodbye => ["bye, take care"]
    case ReflectBack => ["and you?"]
    case AskName => ["I’m {name}"]
    case AskLocation => ["from {city}"]
    case AskJob => ["I do {profession}"]
    case AskHobby => ["I like {hobby}"]
    case AskRelation => ["{relationReply}"]
    case AskSocials => ["I don’t share socials"]
    case AskPhone => ["I don’t share phone"]
    case Food => ["what did you eat?"]
    case Weather => ["how’s weather there?"]
    case Compliment => ["oh thanks!"]
    case Laugh => ["haha tell more"]
    case SmalltalkOk => ["okay"]
    case Unknown => ["oh ya?"]
  }

  function ReservedReplies(i: Intent): (r: seq<String>)
    ensures |r| > 0
  {
    match i
    case GreetingGeneral => ["hello"]
    case GreetingTime => ["hi"]
    case HowAreYou => ["fine"]
    case MoodBored => ["ok"]
    case MoodTired => ["rest"]
    case MoodHappy => ["good"]
    case MoodSad => ["oh"]
    case Thanks => ["welcome"]
    case Sorry => ["okay"]
    case Goodbye => ["bye"]
    case ReflectBack => ["you?"]
    case AskName => ["{name}"]
    case AskLocation => ["{city}"]
    case AskJob => ["{profession}"]
    case AskHobby => ["{hobby}"]
    case AskRelation => ["{relationReply}"]
    case AskSocials => ["no"]
    case AskPhone => ["no"]
    case Food => ["yes"]
    case Weather => ["ok"]
    case Compliment => ["thanks"]
    case Laugh => ["ha"]
    case SmalltalkOk => ["ok"]
    case Unknown => ["hmm"]
  }

  /** `persona[intent] || persona[INTENTS.UNKNOWN] || ['hmm']` for the persona `personaKey` selects. */
  function Options(personaKey: String, intent: Intent): (r: seq<String>)
    ensures |r| > 0
  {
    Replies(PersonaOf(personaKey), intent)
  }

  /** An unknown persona key answers like `friendly`. */
  lemma UnknownPersonaIsFriendly(personaKey: String, intent: Intent)
    requires personaKey !in ["witty", "chill", "curious", "reserved"]
    ensures Options(personaKey, intent) == Options("friendly", intent)
  {
  }

  /** The profile fields the templates read; an empty string stands for a missing field. */
  datatype Profile = Profile(
    name: String, city: String, profession: String, hobby: String,
    hasPartner: bool, partnerName: String)

  /** The text that replaces `{relationReply}`. */
  function RelationReply(p: Profile): (r: String)
    ensures p.hasPartner ==> r == "ya, " + p.partnerName
    ensures !p.hasPartner ==> r == "nah, just single"
  {
    if p.hasPartner then "ya, " + p.partnerName else "nah, just single"
  }

  /** The five `replace` calls, in order, each on the first occurrence only. */
  function Fill(choice: String, p: Profile): String
  {
    var a := ReplaceFirst(choice, "{name}", p.name);
    var b := ReplaceFirst(a, "{city}", p.city);
    var c := ReplaceFirst(b, "{profession}", p.profession);
    var d := ReplaceFirst(c, "{hobby}", p.hobby);
    ReplaceFirst(d, "{relationReply}", RelationReply(p))
  }

  /** A template without placeholders is used as it is. */
  lemma FillWithoutPlaceholders(choice: String, p: Profile)
    requires !Contains(choice, "{name}") && !Contains(choice, "{city}") && !Contains(choice, "{profession}")
    requires !Contains(choice, "{hobby}") && !Contains(choice, "{relationReply}")
    ensures Fill(choice, p) == choice
  {
  }

  /** `{relationReply}` becomes `ya, <partner>` with a partner and `nah, just single` without one. */
  lemma FillRelation(p: Profile)
    ensures Fill("{relationReply}", p) == RelationReply(p)
  {
    var t: String := "{relationReply}";
    NotContained(t, "{name}");
    assert ReplaceFirst(t, "{name}", p.name) == t;
    NotContained(t, "{city}");
    assert ReplaceFirst(t, "{city}", p.city) == t;
    NotContained(t, "{profession}");
    assert ReplaceFirst(t, "{profession}", p.profession) == t;
    NotContained(t, "{hobby}");
    assert ReplaceFirst(t, "{hobby}", p.hobby) == t;
    assert OccursAt(t, t, 0);
    assert FindFrom(t, t, 0) == Some(0);
    EmptyEnds(t, RelationReply(p));
  }

  lemma EmptyEnds(t: String, v: String)
    ensures t[..0] + v + t[|t|..] == v
  {
    assert t[..0] == [] && t[|t|..] == [];
  }

  /** A placeholder does not occur in a text whose only `{` is its first character and whose second character differs. */
  lemma NotContained(t: String, w: String)
    requires |w| >= 2 && |t| >= 2 && w[0] == '{' && w[1] != t[1]
    requires forall k :: 1 <= k < |t| ==> t[k] != '{'
    ensures !Contains(t, w)
  {
    forall j: nat | j + |w| <= |t| ensures !OccursAt(t, w, j) {
      assert t[j..j + |w|][0] == t[j];
      assert t[j..j + |w|][1] == t[j + 1];
    }
  }

  /** `profile.name` placed into a name template, for a name without placeholders. */
  lemma FillName(p: Profile)
    requires !Contains(p.name, "{city}") && !Contains(p.name, "{profession}")
    requires !Contains(p.name, "{hobby}") && !Contains(p.name, "{relationReply}")
    ensures Fill("{name}", p) == p.name
  {
    var t: String := "{name}";
    assert OccursAt(t, t, 0);
    assert FindFrom(t, t, 0) == Some(0);
    assert ReplaceFirst(t, "{name}", p.name) == p.name;
  }

  /** The reply before rephrasing: the chosen template, filled, trimmed and cut to 120 characters. */
  function Draft(personaKey: String, intent: Intent, p: Profile, pick: nat): (r: String)
    requires pick < |Options(personaKey, intent)|
    ensures |r| <= 120
  {
    Take(Trim(Fill(Options(personaKey, intent)[pick], p)), 120)
  }

  /**
   * `getResponseForIntent`: `pick` is the option drawn by `Math.random`, `draws` the four
   * draws `rephrase` makes.
   */
  function GetResponseForIntent(personaKey: String, intent: Intent, p: Profile, pick: nat, draws: seq<Rephrase.Draw>): String
    requires pick < |Options(personaKey, intent)|
    requires Rephrase.DrawsFit(draws)
  {
    Rephrase.RephraseText(Draft(personaKey, intent, p, pick), draws)
  }

  /** The reply is the rephrasing of a draft of at most 120 characters; when no rule fires it is that draft. */
  lemma ResponseIsRephrasedDraft(personaKey: String, intent: Intent, p: Profile, pick: nat, draws: seq<Rephrase.Draw>)
    requires pick < |Options(personaKey, intent)|
    requires Rephrase.DrawsFit(draws)
    requires forall k :: 0 <= k < |draws| ==> draws[k].gate >= 4 as real / 10 as real
    ensures |Draft(personaKey, intent, p, pick)| <= 120
    ensures GetResponseForIntent(personaKey, intent, p, pick, draws) == Draft(personaKey, intent, p, pick)
  {
    Rephrase.NoFiringNoChange(Draft(personaKey, intent, p, pick), draws);
  }
}
