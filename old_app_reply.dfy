/**
 * The scripted bot's reply rule of the queue server (`generateBotReply`): a
 * first-match cascade of keyword lists over the lower-cased message, each with a
 * fixed answer, and otherwise a random small-talk line dressed with the
 * persona's tone and emoji.
 */
module OldAppReply {
  import opened Text

  /** A row of `botPersonalities`. */
  datatype Personality = Personality(emojis: seq<String>, tone: seq<String>)

  /** `botPersonalities[personaKey] || botPersonalities["friendly"]`; there is no `reserved` row. */
  function PersonalityOf(personaKey: String): (r: Personality)
    ensures |r.emojis| > 0 && |r.tone| > 0
  {
    if personaKey == "chill" then
      Personality(["😌", "✌️", "😅"], ["yeah", "cool", "makes sense", "true that"])
    else if personaKey == "curious" then
      Personality(["🤔", "😄", "🙂"], ["really?", "tell me more", "interesting!", "what about you?"])
    else if personaKey == "witty" then
      Personality(["😉", "😏", "😂"], ["haha good one", "you’re funny!", "lol right!"])
    else
      Personality(["😊", "😄", "🙂", "😁"], ["haha", "lol", "that's nice", "sounds fun"])
  }

  /** The bot profile fields the replies read; an empty string stands for a missing field. */
  datatype BotProfile = BotProfile(id: String, displayName: String, city: String, profession: String, hobby: String)

  const GENDER_WORDS: seq<String> := ["boy", "girl", "b or g", "b/g", "bg", "gender"]
  const PERSONAL_WORDS: seq<String> :=
    ["insta", "instagram", "snap", "snapchat", "whatsapp", "number", "contact", "pic", "photo", "selfie"]
  const LANG_WORDS: seq<String> := ["hindi", "tamil", "telugu", "malayalam", "kannada", "language"]
  const NAME_WORDS: seq<String> := ["name", "who are you", "ur name", "your name"]
  const FROM_WORDS: seq<String> := ["where", "city", "from", "place"]
  const JOB_WORDS: seq<String> := ["work", "job", "do for living", "office"]
  const HOBBY_WORDS: seq<String> := ["hobby", "fun", "free time", "weekend"]

  const GENDER_REPLY: String := "Haha maybe guess 😄 but I don’t really talk about that here."
  const PERSONAL_REPLY: String := "I don't share personal details online 😊 hope you understand!"
  const LANGUAGE_REPLY: String := "Haha I mostly chat in English 😅 makes it easier for everyone!"

  const SMALL_TALK: seq<String> := [
    "Oh really? That sounds nice",
    "Haha same here!",
    "Interesting! Tell me more.",
    "That’s cool, I like that.",
    "Hmm nice 😄 what do you " + "usually do on weekends?",
    "Haha yeah totally!",
    "Cool 😄 what are you up to now?",
    "That’s something I’d like to try someday!"
  ]

  /** Which branch of the cascade answers. */
  datatype Rule = GenderRule | PersonalRule | LanguageRule | NameRule | FromRule | JobRule | HobbyRule | SmallTalkRule

  /** The first keyword list any of whose words the lower-cased text contains. */
  function RuleFor(lower: String): Rule
  {
    if ContainsAny(lower, GENDER_WORDS) then GenderRule
    else if ContainsAny(lower, PERSONAL_WORDS) then PersonalRule
    else if ContainsAny(lower, LANG_WORDS) then LanguageRule
    else if ContainsAny(lower, NAME_WORDS) then NameRule
    else if ContainsAny(lower, FROM_WORDS) then FromRule
    else if ContainsAny(lower, JOB_WORDS) then JobRule
    else if ContainsAny(lower, HOBBY_WORDS) then HobbyRule
    else SmallTalkRule
  }

  /** The fixed answer of a keyword rule. */
  function Canned(rule: Rule, p: BotProfile): String
    requires rule != SmallTalkRule
  {
    match rule
    case GenderRule => GENDER_REPLY
    case PersonalRule => PERSONAL_REPLY
    case LanguageRule => LANGUAGE_REPLY
    case NameRule => "I'm " + OrElse(p.displayName, "someone") + " 😄 what about you?"
    case FromRule => "I'm from " + OrElse(p.city, "India") + " 😄 how about you?"
    case JobRule => "I work as a " + OrElse(p.profession, "freelancer") + " 🙂 what about you?"
    case HobbyRule => "I usually spend time " + OrElse(p.hobby, "listening to music") + " 😄 you?"
  }

  /** The `Math.random()` results a small-talk reply consumes. */
  datatype ReplyDraws = ReplyDraws(linePick: nat, expressiveness: real, tonePick: nat, emojiPick: nat)

  predicate DrawsFit(personaKey: String, d: ReplyDraws)
  {
    var pers := PersonalityOf(personaKey);
    d.linePick < |SMALL_TALK| && 0 as real <= d.expressiveness < 1 as real
    && d.tonePick < |pers.tone| && d.emojiPick < |pers.emojis|
  }

  /** The small-talk line before trimming: a tone prefix below 0.4, an emoji suffix below 0.7. */
  function Dressed(personaKey: String, d: ReplyDraws): String
    requires DrawsFit(personaKey, d)
  {
    var pers := PersonalityOf(personaKey);
    var line := SMALL_TALK[d.linePick];
    var toned := if d.expressiveness < 4 as real / 10 as real then pers.tone[d.tonePick] + ", " + line else line;
    if d.expressiveness < 7 as real / 10 as real then toned + " " + pers.emojis[d.emojiPick] else toned
  }

  /** `generateBotReply(text, personaKey, botProfile)`. */
  function GenerateBotReply(text: String, personaKey: String, p: BotProfile, d: ReplyDraws): String
    requires DrawsFit(personaKey, d)
  {
    var rule := RuleFor(Lower(text));
    if rule != SmallTalkRule then Canned(rule, p) else Trim(Dressed(personaKey, d))
  }

  /**
   * The safety filters come first: a message mentioning a gender word always gets the gender
   * deflection, and one mentioning a contact or photo word (and no gender word) the privacy one.
   */
  lemma SafetyFiltersFirst(text: String, personaKey: String, p: BotProfile, d: ReplyDraws)
    requires DrawsFit(personaKey, d)
    ensures ContainsAny(Lower(text), GENDER_WORDS) ==> GenerateBotReply(text, personaKey, p, d) == GENDER_REPLY
    ensures !ContainsAny(Lower(text), GENDER_WORDS) && ContainsAny(Lower(text), PERSONAL_WORDS) ==>
      GenerateBotReply(text, personaKey, p, d) == PERSONAL_REPLY
  {
  }

  /** Small talk is used exactly when no keyword list matches. */
  lemma SmallTalkIffNoKeyword(text: String, personaKey: String, p: BotProfile, d: ReplyDraws)
    requires DrawsFit(personaKey, d)
    ensures var lower := Lower(text);
      (RuleFor(lower) == SmallTalkRule) <==>
      (!ContainsAny(lower, GENDER_WORDS) && !ContainsAny(lower, PERSONAL_WORDS) && !ContainsAny(lower, LANG_WORDS)
       && !ContainsAny(lower, NAME_WORDS) && !ContainsAny(lower, FROM_WORDS) && !ContainsAny(lower, JOB_WORDS)
       && !ContainsAny(lower, HOBBY_WORDS))
  {
  }

  /** A name question is answered with the bot's display name, or `someone` when it has none. */
  lemma NameQuestionAnswer(text: String, personaKey: String, p: BotProfile, d: ReplyDraws)
    requires DrawsFit(personaKey, d)
    requires RuleFor(Lower(text)) == NameRule
    ensures GenerateBotReply(text, personaKey, p, d)
            == "I'm " + (if p.displayName != [] then p.displayName else "someone") + " 😄 what about you?"
  {
    assert GenerateBotReply(text, personaKey, p, d) == Canned(NameRule, p);
  }


  /** Text with no white space at either end is its own trim. */
  lemma TrimNoOuterSpace(s: String)
    requires s != [] && !IsSpace(s[0]) && !IsSpace(s[|s| - 1])
    ensures Trim(s) == s
  {
  }

  lemma SmallTalkEnds(personaKey: String, d: ReplyDraws)
    requires DrawsFit(personaKey, d)
    ensures var pers := PersonalityOf(personaKey);
      !IsSpace(SMALL_TALK[d.linePick][0]) && !IsSpace(SMALL_TALK[d.linePick][|SMALL_TALK[d.linePick]| - 1])
      && pers.tone[d.tonePick] != [] && !IsSpace(pers.tone[d.tonePick][0])
      && pers.emojis[d.emojiPick] != [] && !IsSpace(pers.emojis[d.emojiPick][|pers.emojis[d.emojiPick]| - 1])
  {
    LineEnds(d.linePick);
    PersonalityEnds(personaKey, d.tonePick, d.emojiPick);
  }

  lemma LineEnds(k: nat)
    requires k < |SMALL_TALK|
    ensures !IsSpace(SMALL_TALK[k][0]) && !IsSpace(SMALL_TALK[k][|SMALL_TALK[k]| - 1])
  {
    var line := SMALL_TALK[k];
    if k == 0 { assert |line| == 27 && line[0] == 'O' && line[26] == 'e'; }
    else if k == 1 { assert |line| == 15 && line[0] == 'H' && line[14] == '!'; }
    else if k == 2 { assert |line| == 26 && line[0] == 'I' && line[25] == '.'; }
    else if k == 3 { assert |line| == 25 && line[0] == 'T' && line[24] == '.'; }
    else if k == 4 { assert |line| == 46 && line[0] == 'H' && line[45] == '?'; }
    else if k == 5 { assert |line| == 18 && line[0] == 'H' && line[17] == '!'; }
    else if k == 6 { assert |line| == 30 && line[0] == 'C' && line[29] == '?'; }
    else { assert |line| == 41 && line[0] == 'T' && line[40] == '!'; }
  }

  lemma PersonalityEnds(personaKey: String, t: nat, e: nat)
    requires t < |PersonalityOf(personaKey).tone| && e < |PersonalityOf(personaKey).emojis|
    ensures var pers := PersonalityOf(personaKey);
      pers.tone[t] != [] && !IsSpace(pers.tone[t][0])
      && pers.emojis[e] != [] && !IsSpace(pers.emojis[e][|pers.emojis[e]| - 1])
  {
    var pers := PersonalityOf(personaKey);
    forall k | 0 <= k < |pers.tone| ensures pers.tone[k] != [] && 'a' <= pers.tone[k][0] <= 'z' {
    }
    forall k | 0 <= k < |pers.emojis| ensures pers.emojis[k] != [] && pers.emojis[k][|pers.emojis[k]| - 1] > '\U{3000}' && pers.emojis[k][|pers.emojis[k]| - 1] != '\U{FEFF}' {
    }
  }

  /**
   * A small-talk reply is the chosen line, with the persona's tone in front below 0.4 and
   * its emoji behind below 0.7; trimming never cuts into it.
   */
  lemma SmallTalkShape(text: String, personaKey: String, p: BotProfile, d: ReplyDraws)
    requires DrawsFit(personaKey, d)
    requires RuleFor(Lower(text)) == SmallTalkRule
    ensures var pers := PersonalityOf(personaKey);
      var line := SMALL_TALK[d.linePick];
      var r := GenerateBotReply(text, personaKey, p, d);
      && (d.expressiveness < 4 as real / 10 as real ==> r == pers.tone[d.tonePick] + ", " + line + " " + pers.emojis[d.emojiPick])
      && (4 as real / 10 as real <= d.expressiveness < 7 as real / 10 as real ==> r == line + " " + pers.emojis[d.emojiPick])
      && (7 as real / 10 as real <= d.expressiveness ==> r == line)
  {
    var pers := PersonalityOf(personaKey);
    var s := Dressed(personaKey, d);
    SmallTalkEnds(personaKey, d);
    var line := SMALL_TALK[d.linePick];
    if d.expressiveness < 4 as real / 10 as real {
      var t := pers.tone[d.tonePick];
      var e := pers.emojis[d.emojiPick];
      assert s == t + ", " + line + " " + e;
      assert s[0] == t[0];
      assert s[|s| - 1] == e[|e| - 1];
    } else if d.expressiveness < 7 as real / 10 as real {
      var e := pers.emojis[d.emojiPick];
      assert s == line + " " + e;
      assert s[0] == line[0];
      assert s[|s| - 1] == e[|e| - 1];
    } else {
      assert s == line;
    }
    TrimNoOuterSpace(s);
  }
}
