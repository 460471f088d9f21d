/**
 * The persona bot of `chroma-db-disabled.js` and of `botModule_chroma.js`. The two files are the
 * same program in two variants: the first keeps the bot's long-term memory in an in-process map
 * (`memoryStorage`), the second sends it to a Chroma collection, which is outside this model.
 * Each session object lives in `heap` under a reference, because the typing and follow-up timers
 * keep using the object after `endSession` has dropped the chat from `sessions`.
 */
module PersonaBot {
  import opened Text
  import CP = ConversationPatterns
  import Rephrase

  type ChatId = String
  type SocketId = String
  type Ref = nat
  type Token = nat

  /** `chroma-db-disabled.js` (`InMemory`) or `botModule_chroma.js` (`Chroma`). */
  datatype Variant = InMemory | Chroma

  const BOT_MESSAGE_LIMIT: nat := 60
  const MEMORY_WINDOW: nat := 8
  const N_CONTEXT: nat := 3

  function DefaultName(v: Variant): String
  {
    if v.InMemory? then "Natasha" else "Keerthi"
  }

  /** The five opening lines; the fourth is spelled with a straight or a curly apostrophe. */
  function Greetings(v: Variant): (r: seq<String>)
    ensures |r| == 5
  {
    ["hey there", "hello", "hi",
     if v.InMemory? then "hey, how's it going?" else "hey, how’s it going?",
     "hi there, nice to meet you"]
  }

  const GOODBYES: seq<String> := ["nice chatting", "bye for now", "see ya"]
  const MALE_PARTNERS: seq<String> := ["Aarav", "Rohan", "Kabir", "Aditya", "Arjun", "Vivaan", "Kian"]
  const FEMALE_PARTNERS: seq<String> := ["Myra", "Kiara", "Ananya", "Ira", "Diya", "Navya", "Aanya"]
  const DEFLECTION: String := "nah, not something I share here"
  const SHARE_REFUSAL: String := "nope, not sharing that here"
  const FALLBACK_REPLY: String := "hmm ok"

  /** A virtual profile; the empty string stands for a missing field, `hasPartner` is kept only when it is a boolean. */
  datatype BotProfile = BotProfile(
    id: String, name: String, gender: String, city: String, profession: String, hobby: String,
    persona: String, hasPartner: Option<bool>, partnerName: String)

  /** `Object.assign({}, undefined)`: the profile with no fields. */
  const EMPTY_PROFILE: BotProfile := BotProfile("", "", "", "", "", "", "", None, "")

  /** `pickProfile`: a copy of the given profile, else one drawn from `pool`, else the empty profile. */
  function PickProfile(provided: Option<BotProfile>, pool: seq<BotProfile>, pick: nat): (r: BotProfile)
    ensures provided.Some? ==> r == provided.value
    ensures provided.None? && pool != [] ==> r in pool
    ensures provided.None? && pool == [] ==> r == EMPTY_PROFILE
  {
    if provided.Some? then provided.value
    else if pool == [] then EMPTY_PROFILE
    else Pick(pool, pick)
  }

  /**
   * `assignPartner`: a profile without a boolean `hasPartner` gets one from a draw below 0.4, and a
   * partner's name from the list of the other sex (male names when the gender is `F`).
   */
  function AssignPartner(p: BotProfile, gate: real, pick: nat): (r: BotProfile)
    ensures r.hasPartner.Some?
    ensures p.hasPartner.Some? ==> r == p
    ensures p.hasPartner.None? ==>
      r == p.(hasPartner := r.hasPartner, partnerName := r.partnerName)
      && (r.hasPartner.value <==> gate < 4 as real / 10 as real)
      && (r.hasPartner.value ==> r.partnerName in (if p.gender in ["F", "f"] then MALE_PARTNERS else FEMALE_PARTNERS))
      && (!r.hasPartner.value ==> r.partnerName == "")
  {
    if p.hasPartner.Some? then p
    else
      var has := gate < 4 as real / 10 as real;
      var partner :=
        if !has then ""
        else if p.gender == "F" || p.gender == "f" then Pick(MALE_PARTNERS, pick)
        else Pick(FEMALE_PARTNERS, pick);
      p.(hasPartner := Some(has), partnerName := partner)
  }

  /** The fields `getResponseForIntent` reads from a profile. */
  function TemplateProfile(p: BotProfile): CP.Profile
  {
    CP.Profile(p.name, p.city, p.profession, p.hobby, p.hasPartner == Some(true), p.partnerName)
  }

  datatype Session = Session(
    botId: String, profile: BotProfile, displayName: String, persona: String, createdAt: nat,
    messageCount: nat, localMemory: seq<String>, followUpTimer: Option<Token>, userSocketId: SocketId)

  /** One `memoryStorage` item: the text and the time it was stored. */
  datatype Memory = Memory(text: String, timestamp: nat)

  /** A pending `setTimeout` callback: the typing delay of one message, or a follow-up nudge. */
  datatype Task =
    | Deliver(chat: ChatId, ref: Ref, socket: SocketId, text: String, delay: nat)
    | FollowUp(chat: ChatId, ref: Ref)

  /** The typing delay of a sent text: 600 ms and 8 ms per UTF-16 code unit, at most 1400 ms. */
  function TypingDelay(text: String): (r: nat)
    ensures 600 <= r <= 1400
    ensures r == 1400 <==> Utf16Length(text) >= 100
  {
    if 600 + 8 * Utf16Length(text) < 1400 then 600 + 8 * Utf16Length(text) else 1400
  }

  datatype Event =
    | Typing(to: SocketId, sender: String)
    | TypingOff(to: SocketId, sender: String)
    | Message(to: SocketId, chat: ChatId, sender: String, name: String, text: String)

  datatype State = State(
    io: bool,
    heap: map<Ref, Session>,
    sessions: map<ChatId, Ref>,
    chatToSocket: map<ChatId, SocketId>,
    store: map<String, seq<Memory>>,
    pending: map<Token, Task>,
    nextToken: Token,
    nextRef: Ref,
    out: seq<Event>)

  function Initial(): State
  {
    State(false, map[], map[], map[], map[], map[], 0, 0, [])
  }

  /** `init(io)`. */
  function Init(s: State): State
  {
    s.(io := true)
  }

  /** `isBotChat`. */
  predicate IsBotChat(s: State, chat: ChatId)
  {
    chat in s.sessions
  }

  /* ---------- memory ---------- */

  /** The profile key memories are stored under: `session.profile.id || session.botId`. */
  function MemoryKey(sess: Session): String
  {
    OrElse(sess.profile.id, sess.botId)
  }

  function Recall(store: map<String, seq<Memory>>, key: String): seq<Memory>
  {
    if key in store then store[key] else []
  }

  /** The list after `push`, cut back to its last `MEMORY_WINDOW` items once it exceeds twice that. */
  function Remember(list: seq<Memory>, m: Memory): seq<Memory>
  {
    var l := list + [m];
    if |l| > 2 * MEMORY_WINDOW then l[|l| - MEMORY_WINDOW..] else l
  }

  /** `addMemoryToChroma` in the in-memory variant; in the Chroma variant the write goes to the database. */
  function AddMemory(s: State, v: Variant, key: String, text: String, now: nat): (r: State)
    ensures r == s.(store := r.store)
  {
    if v.Chroma? then s
    else s.(store := s.store[key := Remember(Recall(s.store, key), Memory(text, now))])
  }

  /** `queryMemory` in the in-memory variant. */
  function QueryMemory(store: map<String, seq<Memory>>, key: String, n: nat): seq<String>
  {
    if key !in store then []
    else
      var recent := SliceFromEnd(store[key], n);
      seq(|recent|, k requires 0 <= k < |recent| => recent[k].text)
  }

  /** A stored list never exceeds 16 items, ends with the new memory and is a suffix of the old list plus it. */
  lemma RememberWindow(list: seq<Memory>, m: Memory)
    ensures var r := Remember(list, m);
      |r| <= 2 * MEMORY_WINDOW && r[|r| - 1] == m
      && r == (list + [m])[|list| + 1 - |r|..]
      && (|list| + 1 <= 2 * MEMORY_WINDOW ==> r == list + [m])
      && (|list| + 1 > 2 * MEMORY_WINDOW ==> |r| == MEMORY_WINDOW)
  {
  }

  /** `addMemoryToChroma` touches only the list under `key`. */
  lemma AddMemoryTouchesOneKey(s: State, key: String, text: String, now: nat, other: String)
    requires other != key
    ensures var r := AddMemory(s, InMemory, key, text, now);
      key in r.store && r.store[key] == Remember(Recall(s.store, key), Memory(text, now))
      && (other in r.store <==> other in s.store)
      && (other in s.store ==> r.store[other] == s.store[other])
  {
  }

  /** `queryMemory` gives `[]` for an unknown profile and otherwise the texts of the newest `n` memories, oldest first. */
  lemma QueryMemoryNewest(store: map<String, seq<Memory>>, key: String, n: nat)
    requires n > 0
    ensures key !in store ==> QueryMemory(store, key, n) == []
    ensures key in store ==>
      var r := QueryMemory(store, key, n); var l := store[key];
      |r| == (if |l| <= n then |l| else n)
      && forall k :: 0 <= k < |r| ==> r[k] == l[|l| - |r| + k].text
  {
  }

  /* ---------- privacy rules ---------- */

  const SOCIAL_WORDS: seq<String> :=
    ["instagram", "facebook", "twitter", "snapchat", "social media", "socials", "handle", "username"]
  const PHONE_WORDS: seq<String> :=
    ["phone", "number", "call me", "whatsapp", "whats app", "whatsapp number", "mobile"]
  const RELATION_WORDS: seq<String> := ["boyfriend", "girlfriend", "partner", "dating"]

  /** The characters `.` does not match in a JavaScript regular expression. */
  predicate LineBreak(c: char)
  {
    c == '\n' || c == '\r' || c == '\U{2028}' || c == '\U{2029}'
  }

  /** `(give me your|share your)` matches at `i` and ends at `j`. */
  predicate AskAt(s: String, i: nat, j: nat)
  {
    (OccursAt(s, "give me your", i) && j == i + 12) || (OccursAt(s, "share your", i) && j == i + 10)
  }

  /** `(instagram|facebook|phone|number)` matches at `k`. */
  predicate TargetAt(s: String, k: nat)
  {
    OccursAt(s, "instagram", k) || OccursAt(s, "facebook", k) || OccursAt(s, "phone", k) || OccursAt(s, "number", k)
  }

  /** `.*` matches `s[j..k]`. */
  predicate SameLine(s: String, j: nat, k: nat)
    requires j <= k <= |s|
  {
    forall m :: j <= m < k ==> !LineBreak(s[m])
  }

  /** `/(give me your|share your).*(instagram|facebook|phone|number)/.test(s)`. */
  predicate ShareAsk(s: String)
  {
    exists i: nat, j: nat, k: nat :: i <= j <= k <= |s| && AskAt(s, i, j) && SameLine(s, j, k) && TargetAt(s, k)
  }

  datatype PrivacyRule = SocialAsk | PhoneAsk | RelationAsk | ShareYourAsk | NoRule

  /** The rules of `handlePrivacyAndBasics`, tried in order on the lower-cased text. */
  function PrivacyRuleOf(lower: String): PrivacyRule
  {
    if ContainsAny(lower, SOCIAL_WORDS) then SocialAsk
    else if ContainsAny(lower, PHONE_WORDS) then PhoneAsk
    else if ContainsAny(lower, RELATION_WORDS) then RelationAsk
    else if ShareAsk(lower) then ShareYourAsk
    else NoRule
  }

  /** Any text the share-your rule matches has already been caught by the social or the phone rule. */
  lemma ShareAskCaught(s: String)
    requires ShareAsk(s)
    ensures ContainsAny(s, SOCIAL_WORDS) || ContainsAny(s, PHONE_WORDS)
  {
    var i: nat, j: nat, k: nat :| i <= j <= k <= |s| && AskAt(s, i, j) && SameLine(s, j, k) && TargetAt(s, k);
    if OccursAt(s, "instagram", k) {
      ContainsAt(s, "instagram", k);
      assert SOCIAL_WORDS[0] == "instagram";
    } else if OccursAt(s, "facebook", k) {
      ContainsAt(s, "facebook", k);
      assert SOCIAL_WORDS[1] == "facebook";
    } else if OccursAt(s, "phone", k) {
      ContainsAt(s, "phone", k);
      assert PHONE_WORDS[0] == "phone";
    } else {
      ContainsAt(s, "number", k);
      assert PHONE_WORDS[1] == "number";
    }
  }

  /** So the trailing `'nope, not sharing that here'` rule never fires. */
  lemma ShareYourUnreachable(lower: String)
    ensures PrivacyRuleOf(lower) != ShareYourAsk
  {
    if ShareAsk(lower) {
      ShareAskCaught(lower);
    }
  }

  /** The random numbers one reply may use. */
  datatype ReplyDraws = ReplyDraws(pick: nat, rephrase: seq<Rephrase.Draw>, react: nat, greetGate: real)

  /** `convo.getResponseForIntent(session.persona, intent, session.profile, '')`. */
  function Template(sess: Session, intent: CP.Intent, d: ReplyDraws): String
    requires Rephrase.DrawsFit(d.rephrase)
  {
    var options := CP.Options(sess.persona, intent);
    CP.GetResponseForIntent(sess.persona, intent, TemplateProfile(sess.profile), d.pick % |options|, d.rephrase)
  }

  /** `handlePrivacyAndBasics`: the rule reply for `text`, if a rule applies. */
  function PrivacyReply(sess: Session, text: String, d: ReplyDraws): (r: Option<String>)
    requires Rephrase.DrawsFit(d.rephrase)
  {
    match PrivacyRuleOf(Lower(text))
    case SocialAsk => Some(DEFLECTION)
    case PhoneAsk => Some(DEFLECTION)
    case RelationAsk => Some(Template(sess, CP.AskRelation, d))
    case ShareYourAsk => Some(SHARE_REFUSAL)
    case NoRule => None
  }

  /**
   * Social and phone questions get the fixed deflection, relationship questions the persona's
   * `ASK_RELATION` template, and nothing else gets a rule reply.
   */
  lemma PrivacyReplyCases(sess: Session, text: String, d: ReplyDraws)
    requires Rephrase.DrawsFit(d.rephrase)
    ensures var lower := Lower(text); var r := PrivacyReply(sess, text, d);
      (ContainsAny(lower, SOCIAL_WORDS) || ContainsAny(lower, PHONE_WORDS) ==> r == Some(DEFLECTION))
      && (!ContainsAny(lower, SOCIAL_WORDS) && !ContainsAny(lower, PHONE_WORDS) && ContainsAny(lower, RELATION_WORDS) ==>
            r == Some(Template(sess, CP.AskRelation, d)))
      && (!ContainsAny(lower, SOCIAL_WORDS) && !ContainsAny(lower, PHONE_WORDS) && !ContainsAny(lower, RELATION_WORDS) ==>
            r == None)
  {
    ShareYourUnreachable(Lower(text));
  }

  /* ---------- reply synthesis ---------- */

  /** `shortReacts[persona] || ['hmm,']`. */
  function Reacts(persona: String): (r: seq<String>)
    ensures |r| > 0 && forall k :: 0 <= k < |r| ==> |r[k]| <= 11
  {
    match persona
    case "friendly" => ["oh ya,", "haha,"]
    case "witty" => ["lol,", "haha,"]
    case "chill" => ["hmm,", "ya,"]
    case "curious" => ["oh really,", "tell me,"]
    case "reserved" => ["hmm,", "ok,"]
    case _ => ["hmm,"]
  }

  /** `nudges[persona] || nudges.friendly`. */
  function Nudges(persona: String): (r: seq<String>)
    ensures |r| > 0
  {
    match persona
    case "witty" => ["u there?", "haha quiet"]
    case "chill" => ["still here?", "you there?"]
    case "curious" => ["tell me more?", "you there?"]
    case "reserved" => ["you?"]
    case _ => ["u there?", "still here?"]
  }

  /** The first `|`-segment of the context with white-space runs collapsed, cut to 60 characters. */
  function Piece(context: String): (r: String)
    ensures |r| <= 60
  {
    Take(CollapseSpaces(BeforeFirst(context, '|')), 60)
  }

  /** `synthesizeFromContext`. */
  function Synthesize(sess: Session, context: String, d: ReplyDraws): String
    requires Rephrase.DrawsFit(d.rephrase)
  {
    if Utf16Length(context) > 6 then Take(Pick(Reacts(sess.persona), d.react) + " " + Piece(context), 120)
    else Template(sess, CP.Unknown, d)
  }

  /** Collapsing white space keeps every character that is not white space out if it was out. */
  lemma {:induction false} CollapseKeepsOut(s: String, c: char)
    requires !IsSpace(c) && c !in s
    ensures c !in CollapseSpaces(s)
    decreases |s|
  {
    if s != [] {
      if IsSpace(s[0]) {
        var d := TrimStart(s[1..]);
        assert c !in d by {
          forall k | 0 <= k < |d| ensures d[k] != c {
            assert d[k] == s[1..][LeadingSpace(s[1..]) + k];
          }
        }
        CollapseKeepsOut(d, c);
      } else {
        CollapseKeepsOut(s[1..], c);
      }
    }
  }

  /**
   * With more than 6 UTF-16 code units of context the reply is one of the persona's reactions, a space
   * and the start of the context's first `|`-segment (no `|` in it, at most 60 characters), 120
   * characters at most in all; with less it is the persona's `UNKNOWN` template.
   */
  lemma SynthesizeShape(sess: Session, context: String, d: ReplyDraws)
    requires Rephrase.DrawsFit(d.rephrase)
    ensures Utf16Length(context) > 6 ==>
      var r := Synthesize(sess, context, d); var react := Pick(Reacts(sess.persona), d.react);
      |r| <= 120 && StartsWith(r, react + " ")
      && var quoted := r[|react| + 1..];
         |quoted| <= 60 && '|' !in quoted && CollapseSpaces(BeforeFirst(context, '|'))[..|quoted|] == quoted
    ensures Utf16Length(context) <= 6 ==> Synthesize(sess, context, d) == Template(sess, CP.Unknown, d)
  {
    if Utf16Length(context) > 6 {
      var react := Pick(Reacts(sess.persona), d.react);
      var whole := react + " " + Piece(context);
      var r := Take(whole, 120);
      assert |react| <= 11;
      assert r[..|react| + 1] == react + " ";
      assert r[|react| + 1..] == Piece(context);
      CollapseKeepsOut(BeforeFirst(context, '|'), '|');
    }
  }

  /** The remembered line `user:😄` has 6 characters but 7 code units, so it is long enough to quote. */
  lemma EmojiContextQuoted()
    ensures |"user:😄"| == 6 && Utf16Length("user:😄") > 6
  {
    var line, emoji := "user:", "😄";
    assert "user:😄" == line + emoji;
    Utf16LengthAstral(emoji);
    Utf16LengthAppend(line, emoji);
  }

  /** `(ctxDocs && ctxDocs.length) ? ctxDocs.join(' | ').slice(0, 220) : ''`. */
  function Context(docs: seq<String>): (r: String)
    ensures |r| <= 220
  {
    if docs == [] then [] else Take(Join(docs, " | "), 220)
  }

  /** The context documents: the newest memories of the profile, or what the Chroma query returned. */
  function ContextDocs(v: Variant, store: map<String, seq<Memory>>, key: String, fromChroma: seq<String>): seq<String>
  {
    if v.InMemory? then QueryMemory(store, key, N_CONTEXT) else fromChroma
  }

  /**
   * The reply `handleUserMessage` sends: a privacy rule first. Then, in the in-memory variant, the
   * template of a recognised intent; in the Chroma variant, the `GREETING_GENERAL` template for an
   * unrecognised one on a draw below 0.5. Otherwise a reply synthesised from context.
   */
  function Reply(v: Variant, sess: Session, text: String, docs: seq<String>, d: ReplyDraws): String
    requires Rephrase.DrawsFit(d.rephrase)
  {
    match PrivacyReply(sess, text, d)
    case Some(rule) => rule
    case None =>
      var intent := CP.DetectIntent(Some(text));
      if v.InMemory? && intent != CP.Unknown then Template(sess, intent, d)
      else if v.Chroma? && intent == CP.Unknown && d.greetGate < 5 as real / 10 as real then
        Template(sess, CP.GreetingGeneral, d)
      else Synthesize(sess, Context(docs), d)
  }

  /** The in-memory variant answers a recognised intent with its template and an unrecognised one from context. */
  lemma InMemoryDispatch(sess: Session, text: String, docs: seq<String>, d: ReplyDraws)
    requires Rephrase.DrawsFit(d.rephrase) && PrivacyReply(sess, text, d).None?
    ensures var intent := CP.DetectIntent(Some(text)); var r := Reply(InMemory, sess, text, docs, d);
      (intent != CP.Unknown ==> r == Template(sess, intent, d))
      && (intent == CP.Unknown ==> r == Synthesize(sess, Context(docs), d))
  {
  }

  /**
   * The Chroma variant sends every recognised intent to context synthesis, never to its own
   * template; only an unrecognised one may take the greeting, on a draw below 0.5.
   */
  lemma ChromaDispatch(sess: Session, text: String, docs: seq<String>, d: ReplyDraws)
    requires Rephrase.DrawsFit(d.rephrase) && PrivacyReply(sess, text, d).None?
    ensures var intent := CP.DetectIntent(Some(text)); var r := Reply(Chroma, sess, text, docs, d);
      (intent != CP.Unknown ==> r == Synthesize(sess, Context(docs), d))
      && (intent == CP.Unknown && d.greetGate < 5 as real / 10 as real ==> r == Template(sess, CP.GreetingGeneral, d))
      && (intent == CP.Unknown && d.greetGate >= 5 as real / 10 as real ==> r == Synthesize(sess, Context(docs), d))
  {
  }

  /** A privacy rule answers before anything else, in both variants. */
  lemma PrivacyFirst(v: Variant, sess: Session, text: String, docs: seq<String>, d: ReplyDraws)
    requires Rephrase.DrawsFit(d.rephrase) && PrivacyReply(sess, text, d).Some?
    ensures Reply(v, sess, text, docs, d) == PrivacyReply(sess, text, d).value
  {
  }

  /* ---------- session steps ---------- */

  /** Every reference in use names a session object, and fresh references are above all of them. */
  predicate Linked(s: State)
  {
    (forall c :: c in s.sessions ==> s.sessions[c] in s.heap)
    && (forall t :: t in s.pending ==> s.pending[t].ref in s.heap)
    && (forall p :: p in s.heap ==> p < s.nextRef)
  }

  /** `chatToSocket.get(chatId) || session.userSocketId`. */
  function SocketFor(s: State, chat: ChatId, sess: Session): SocketId
  {
    if chat in s.chatToSocket then OrElse(s.chatToSocket[chat], sess.userSocketId) else sess.userSocketId
  }

  /**
   * `sendBotMessage`: nothing without `io` or a socket; otherwise the typing indicator goes out and
   * the trimmed text, cut to 240 characters, waits in a timer for its typing delay.
   */
  function SendBotMessage(s: State, chat: ChatId, ref: Ref, message: String): (r: State)
    requires ref in s.heap
    ensures r.heap == s.heap && r.sessions == s.sessions && r.chatToSocket == s.chatToSocket
    ensures r.store == s.store && r.io == s.io && r.nextRef == s.nextRef
  {
    var sess := s.heap[ref];
    var socket := SocketFor(s, chat, sess);
    var text := Take(Trim(message), 240);
    if !s.io || socket == [] then s
    else
      s.(out := s.out + [Typing(socket, sess.botId)],
         pending := s.pending[s.nextToken := Deliver(chat, ref, socket, text, TypingDelay(text))],
         nextToken := s.nextToken + 1)
  }

  /** `pushLocalMemory`: the session keeps its newest 16 items, and the text goes to long-term memory. */
  function PushLocalMemory(s: State, v: Variant, ref: Ref, text: String, now: nat): (r: State)
    requires ref in s.heap
    ensures r.heap.Keys == s.heap.Keys && r.sessions == s.sessions && r.chatToSocket == s.chatToSocket
    ensures r.pending == s.pending && r.nextToken == s.nextToken && r.nextRef == s.nextRef
    ensures r.io == s.io && r.out == s.out
    ensures r.heap[ref] == s.heap[ref].(localMemory := PushCapped(s.heap[ref].localMemory, text, 2 * MEMORY_WINDOW))
    ensures forall p :: p in s.heap && p != ref ==> r.heap[p] == s.heap[p]
  {
    var sess := s.heap[ref];
    var s1 := s.(heap := s.heap[ref := sess.(localMemory := PushCapped(sess.localMemory, text, 2 * MEMORY_WINDOW))]);
    AddMemory(s1, v, MemoryKey(sess), text, now)
  }

  /** `scheduleFollowUp`: the session's previous follow-up is cleared and a new one armed. */
  function ScheduleFollowUp(s: State, chat: ChatId, ref: Ref): (r: State)
    requires ref in s.heap
  {
    var sess := s.heap[ref];
    var kept := if sess.followUpTimer.Some? then s.pending - {sess.followUpTimer.value} else s.pending;
    s.(pending := kept[s.nextToken := FollowUp(chat, ref)],
       heap := s.heap[ref := sess.(followUpTimer := Some(s.nextToken))],
       nextToken := s.nextToken + 1)
  }

  /** The follow-up of the session at `ref` cleared, as `handleUserMessage` does first. */
  function CancelFollowUp(s: State, ref: Ref): (r: State)
    requires ref in s.heap
    ensures r.heap.Keys == s.heap.Keys && r.pending.Keys <= s.pending.Keys
  {
    var sess := s.heap[ref];
    if sess.followUpTimer.Some? then
      s.(pending := s.pending - {sess.followUpTimer.value}, heap := s.heap[ref := sess.(followUpTimer := None)])
    else s
  }

  /** `endSession`: the current session's follow-up is cleared and the chat leaves both maps. */
  function EndSession(s: State, chat: ChatId): (r: State)
    requires chat in s.sessions ==> s.sessions[chat] in s.heap
  {
    var kept :=
      if chat in s.sessions && s.heap[s.sessions[chat]].followUpTimer.Some? then
        s.pending - {s.heap[s.sessions[chat]].followUpTimer.value}
      else s.pending;
    s.(pending := kept, sessions := s.sessions - {chat}, chatToSocket := s.chatToSocket - {chat})
  }

  /** The random numbers `createBotSession` draws. */
  datatype CreateDraws = CreateDraws(poolPick: nat, partnerGate: real, partnerPick: nat, idSuffix: String, greetPick: nat)

  /** The new session object for `profile`. */
  function NewSession(v: Variant, profile: BotProfile, idSuffix: String, userSocket: SocketId, now: nat): Session
  {
    Session(OrElse(profile.id, "bot_" + idSuffix), profile, OrElse(profile.name, DefaultName(v)),
            Lower(OrElse(profile.persona, "friendly")), now, 0, [], None, userSocket)
  }

  /** `sessions.set` and `chatToSocket.set` for a new session object. */
  function Register(s: State, chat: ChatId, sess: Session): State
  {
    s.(heap := s.heap[s.nextRef := sess], sessions := s.sessions[chat := s.nextRef],
       chatToSocket := s.chatToSocket[chat := sess.userSocketId], nextRef := s.nextRef + 1)
  }

  /** The greeting is sent and remembered as `intro:<greeting>`, locally and (again) in long-term memory. */
  function Greet(s: State, v: Variant, chat: ChatId, ref: Ref, greet: String, now: nat): State
    requires ref in s.heap
  {
    var key := MemoryKey(s.heap[ref]);
    AddMemory(PushLocalMemory(SendBotMessage(s, chat, ref, greet), v, ref, "intro:" + greet, now), v, key, "intro:" + greet, now)
  }

  /** `createBotSession`. */
  function CreateBotSession(
    s: State, v: Variant, chat: ChatId, provided: Option<BotProfile>, userSocket: SocketId,
    pool: seq<BotProfile>, d: CreateDraws, now: nat): State
  {
    var profile := AssignPartner(PickProfile(provided, pool, d.poolPick), d.partnerGate, d.partnerPick);
    var sess := NewSession(v, profile, d.idSuffix, userSocket, now);
    Greet(Register(s, chat, sess), v, chat, s.nextRef, Pick(Greetings(v), d.greetPick), now)
  }

  /** The first half of a delivery: the timer is spent, the message goes out and the session counts it. */
  function Delivered(s: State, tok: Token): (r: State)
    requires tok in s.pending && s.pending[tok].Deliver? && s.pending[tok].ref in s.heap
    ensures r.heap.Keys == s.heap.Keys && r.sessions == s.sessions && r.chatToSocket == s.chatToSocket
    ensures r.pending == s.pending - {tok} && r.nextToken == s.nextToken && r.nextRef == s.nextRef
  {
    var t := s.pending[tok];
    var sess := s.heap[t.ref];
    s.(pending := s.pending - {tok},
       out := s.out + [TypingOff(t.socket, sess.botId), Message(t.socket, t.chat, sess.botId, sess.displayName, t.text)],
       heap := s.heap[t.ref := sess.(messageCount := sess.messageCount + 1)])
  }

  /** The goodbye `sess` sends on the socket and chat of `t`. */
  function Goodbye(s: State, t: Task, sess: Session, pick: nat): State
    requires t.Deliver?
  {
    s.(out := s.out + [Message(t.socket, t.chat, sess.botId, sess.displayName, Pick(GOODBYES, pick))])
  }

  /**
   * The typing timer of a message fires: the message goes out, the session counts it and
   * remembers it, and at `BOT_MESSAGE_LIMIT` a goodbye follows and the chat's session ends.
   */
  function FireDeliver(s: State, v: Variant, tok: Token, byePick: nat, now: nat): State
    requires Linked(s) && tok in s.pending && s.pending[tok].Deliver?
  {
    var t := s.pending[tok];
    var sess := s.heap[t.ref];
    var s2 := PushLocalMemory(Delivered(s, tok), v, t.ref, "bot:" + t.text, now);
    if sess.messageCount + 1 >= BOT_MESSAGE_LIMIT then EndSession(Goodbye(s2, t, sess, byePick), t.chat)
    else s2
  }

  /** The follow-up timer fires and the session sends one of its persona's nudges. */
  function FireFollowUp(s: State, tok: Token, pick: nat): State
    requires Linked(s) && tok in s.pending && s.pending[tok].FollowUp?
  {
    var t := s.pending[tok];
    SendBotMessage(s.(pending := s.pending - {tok}), t.chat, t.ref, Pick(Nudges(s.heap[t.ref].persona), pick))
  }

  /** Whether `handleUserMessage` returns before doing anything: no session, blank text or no socket. */
  predicate Ignored(s: State, chat: ChatId, message: String)
  {
    chat !in s.sessions || Trim(message) == [] || chat !in s.chatToSocket || s.chatToSocket[chat] == []
  }

  /** The follow-up is cancelled and the user's line remembered, locally and (again) in long-term memory. */
  function RecordUserText(s: State, v: Variant, ref: Ref, entry: String, now: nat): (r: State)
    requires ref in s.heap
    ensures r.heap.Keys == s.heap.Keys && r.sessions == s.sessions && r.chatToSocket == s.chatToSocket
    ensures r.nextToken == s.nextToken && r.nextRef == s.nextRef && r.io == s.io
  {
    var key := MemoryKey(s.heap[ref]);
    AddMemory(PushLocalMemory(CancelFollowUp(s, ref), v, ref, entry, now), v, key, entry, now)
  }

  /**
   * `handleUserMessage` with `message` the payload's `message || text || ''`; `fromChroma` is what
   * the Chroma query returns in that variant.
   */
  function HandleUserMessage(
    s: State, v: Variant, chat: ChatId, message: String, d: ReplyDraws, fromChroma: seq<String>, now: nat): State
    requires Linked(s) && Rephrase.DrawsFit(d.rephrase)
  {
    if Ignored(s, chat, message) then s
    else
      var ref := s.sessions[chat];
      var sess := s.heap[ref];
      var s3 := RecordUserText(s, v, ref, "user:" + Trim(message), now);
      var reply := Reply(v, sess, Trim(message), ContextDocs(v, s3.store, MemoryKey(sess), fromChroma), d);
      ScheduleFollowUp(SendBotMessage(s3, chat, ref, reply), chat, ref)
  }

  /* ---------- invariant ---------- */

  /** Every pending token was issued. */
  predicate TokensIssued(s: State)
  {
    forall t :: t in s.pending ==> t < s.nextToken
  }

  /** Every pending follow-up is the one its session records. */
  predicate FollowUpsRecorded(s: State)
  {
    forall t :: t in s.pending && s.pending[t].FollowUp? ==>
      s.pending[t].ref in s.heap && s.heap[s.pending[t].ref].followUpTimer == Some(t)
  }

  /** The token a session records as its follow-up was issued, and if still pending it is that session's follow-up. */
  predicate TimerOwned(s: State, p: Ref, t: Token)
  {
    t < s.nextToken && (t in s.pending ==> s.pending[t].FollowUp? && s.pending[t].ref == p)
  }

  predicate TimersOwned(s: State)
  {
    forall p :: p in s.heap && s.heap[p].followUpTimer.Some? ==> TimerOwned(s, p, s.heap[p].followUpTimer.value)
  }

  /**
   * The references are linked, tokens are issued once, both chat maps have the same keys, and
   * every pending follow-up is the one its session records, so a session has at most one.
   */
  predicate Valid(s: State)
  {
    Linked(s) && TokensIssued(s) && s.sessions.Keys == s.chatToSocket.Keys && FollowUpsRecorded(s) && TimersOwned(s)
  }

  lemma InitialValid()
    ensures Valid(Initial()) && Valid(Init(Initial()))
  {
  }

  /** A session has at most one follow-up pending. */
  lemma OneFollowUpPerSession(s: State, t1: Token, t2: Token)
    requires Valid(s)
    requires t1 in s.pending && t2 in s.pending && s.pending[t1].FollowUp? && s.pending[t2].FollowUp?
    requires s.pending[t1].ref == s.pending[t2].ref
    ensures t1 == t2
  {
  }

  lemma AddMemoryValid(s: State, v: Variant, key: String, text: String, now: nat)
    requires Valid(s)
    ensures Valid(AddMemory(s, v, key, text, now))
  {
    var r := AddMemory(s, v, key, text, now);
    assert r.heap == s.heap && r.pending == s.pending && r.sessions == s.sessions;
  }

  lemma SendBotMessageValid(s: State, chat: ChatId, ref: Ref, message: String)
    requires Valid(s) && ref in s.heap
    ensures Valid(SendBotMessage(s, chat, ref, message))
  {
    var r := SendBotMessage(s, chat, ref, message);
    if r != s {
      assert r.pending == s.pending[s.nextToken := r.pending[s.nextToken]] && r.nextToken == s.nextToken + 1;
      assert r.pending[s.nextToken].Deliver?;
      forall p | p in r.heap && r.heap[p].followUpTimer.Some?
        ensures TimerOwned(r, p, r.heap[p].followUpTimer.value)
      {
        assert TimerOwned(s, p, s.heap[p].followUpTimer.value);
      }
    }
  }

  lemma PushLocalMemoryValid(s: State, v: Variant, ref: Ref, text: String, now: nat)
    requires Valid(s) && ref in s.heap
    ensures Valid(PushLocalMemory(s, v, ref, text, now))
  {
    var r := PushLocalMemory(s, v, ref, text, now);
    forall p | p in r.heap
      ensures r.heap[p].followUpTimer == s.heap[p].followUpTimer
    {
    }
  }

  lemma ScheduleFollowUpValid(s: State, chat: ChatId, ref: Ref)
    requires Valid(s) && ref in s.heap
    ensures Valid(ScheduleFollowUp(s, chat, ref))
  {
    var r := ScheduleFollowUp(s, chat, ref);
    forall t | t in r.pending && r.pending[t].FollowUp?
      ensures r.pending[t].ref in r.heap && r.heap[r.pending[t].ref].followUpTimer == Some(t)
    {
      if t != s.nextToken {
        assert s.pending[t] == r.pending[t];
        assert s.pending[t].ref != ref;
      }
    }
    forall p | p in r.heap && r.heap[p].followUpTimer.Some?
      ensures TimerOwned(r, p, r.heap[p].followUpTimer.value)
    {
      if p != ref {
        assert TimerOwned(s, p, s.heap[p].followUpTimer.value);
      }
    }
  }

  lemma CancelFollowUpValid(s: State, ref: Ref)
    requires Valid(s) && ref in s.heap
    ensures Valid(CancelFollowUp(s, ref))
  {
    var r := CancelFollowUp(s, ref);
    if s.heap[ref].followUpTimer.Some? {
      var ft := s.heap[ref].followUpTimer.value;
      assert r.pending == s.pending - {ft} && r.heap == s.heap[ref := s.heap[ref].(followUpTimer := None)];
      assert Linked(r) && TokensIssued(r);
      forall t | t in r.pending && r.pending[t].FollowUp?
        ensures r.pending[t].ref in r.heap && r.heap[r.pending[t].ref].followUpTimer == Some(t)
      {
        assert s.pending[t] == r.pending[t];
      }
      forall p | p in r.heap && r.heap[p].followUpTimer.Some?
        ensures TimerOwned(r, p, r.heap[p].followUpTimer.value)
      {
        assert r.heap[p] == s.heap[p];
      }
    }
  }

  lemma EndSessionValid(s: State, chat: ChatId)
    requires Valid(s)
    ensures Valid(EndSession(s, chat))
  {
  }

  lemma GreetValid(s: State, v: Variant, chat: ChatId, ref: Ref, greet: String, now: nat)
    requires Valid(s) && ref in s.heap
    ensures Valid(Greet(s, v, chat, ref, greet, now))
  {
    SendBotMessageValid(s, chat, ref, greet);
    var s1 := SendBotMessage(s, chat, ref, greet);
    PushLocalMemoryValid(s1, v, ref, "intro:" + greet, now);
    AddMemoryValid(PushLocalMemory(s1, v, ref, "intro:" + greet, now), v, MemoryKey(s.heap[ref]), "intro:" + greet, now);
  }

  lemma RegisterValid(s: State, chat: ChatId, sess: Session)
    requires Valid(s) && sess.followUpTimer.None?
    ensures Valid(Register(s, chat, sess))
  {
    var r := Register(s, chat, sess);
    forall t | t in r.pending && r.pending[t].FollowUp?
      ensures r.pending[t].ref in r.heap && r.heap[r.pending[t].ref].followUpTimer == Some(t)
    {
      assert s.pending[t].ref < s.nextRef;
    }
  }

  lemma CreateBotSessionValid(
    s: State, v: Variant, chat: ChatId, provided: Option<BotProfile>, userSocket: SocketId,
    pool: seq<BotProfile>, d: CreateDraws, now: nat)
    requires Valid(s)
    ensures Valid(CreateBotSession(s, v, chat, provided, userSocket, pool, d, now))
  {
    var profile := AssignPartner(PickProfile(provided, pool, d.poolPick), d.partnerGate, d.partnerPick);
    var sess := NewSession(v, profile, d.idSuffix, userSocket, now);
    RegisterValid(s, chat, sess);
    GreetValid(Register(s, chat, sess), v, chat, s.nextRef, Pick(Greetings(v), d.greetPick), now);
  }

  lemma DeliveredValid(s: State, tok: Token)
    requires Valid(s) && tok in s.pending && s.pending[tok].Deliver?
    ensures Valid(Delivered(s, tok))
  {
    var r := Delivered(s, tok);
    forall p | p in r.heap
      ensures r.heap[p].followUpTimer == s.heap[p].followUpTimer
    {
    }
    forall t | t in r.pending && r.pending[t].FollowUp?
      ensures r.pending[t].ref in r.heap && r.heap[r.pending[t].ref].followUpTimer == Some(t)
    {
      assert s.pending[t] == r.pending[t];
    }
  }

  lemma FireDeliverValid(s: State, v: Variant, tok: Token, byePick: nat, now: nat)
    requires Valid(s) && tok in s.pending && s.pending[tok].Deliver?
    ensures Valid(FireDeliver(s, v, tok, byePick, now))
  {
    var t := s.pending[tok];
    var sess := s.heap[t.ref];
    DeliveredValid(s, tok);
    PushLocalMemoryValid(Delivered(s, tok), v, t.ref, "bot:" + t.text, now);
    var s2 := PushLocalMemory(Delivered(s, tok), v, t.ref, "bot:" + t.text, now);
    if sess.messageCount + 1 >= BOT_MESSAGE_LIMIT {
      GoodbyeValid(s2, t, sess, byePick);
    }
  }

  /** Saying goodbye and ending the chat keeps the invariant. */
  lemma GoodbyeValid(s: State, t: Task, sess: Session, byePick: nat)
    requires Valid(s) && t.Deliver?
    ensures Valid(EndSession(Goodbye(s, t, sess, byePick), t.chat))
  {
    var s1 := Goodbye(s, t, sess, byePick);
    assert s1.pending == s.pending && s1.heap == s.heap && s1.sessions == s.sessions && s1.chatToSocket == s.chatToSocket;
    assert Valid(s1);
    EndSessionValid(s1, t.chat);
  }

  lemma FireFollowUpValid(s: State, tok: Token, pick: nat)
    requires Valid(s) && tok in s.pending && s.pending[tok].FollowUp?
    ensures Valid(FireFollowUp(s, tok, pick))
  {
    var t := s.pending[tok];
    var s1 := s.(pending := s.pending - {tok});
    assert Valid(s1);
    SendBotMessageValid(s1, t.chat, t.ref, Pick(Nudges(s.heap[t.ref].persona), pick));
  }

  lemma RecordUserTextValid(s: State, v: Variant, ref: Ref, entry: String, now: nat)
    requires Valid(s) && ref in s.heap
    ensures Valid(RecordUserText(s, v, ref, entry, now))
  {
    CancelFollowUpValid(s, ref);
    var s1 := CancelFollowUp(s, ref);
    PushLocalMemoryValid(s1, v, ref, entry, now);
    AddMemoryValid(PushLocalMemory(s1, v, ref, entry, now), v, MemoryKey(s.heap[ref]), entry, now);
  }

  lemma HandleUserMessageValid(
    s: State, v: Variant, chat: ChatId, message: String, d: ReplyDraws, fromChroma: seq<String>, now: nat)
    requires Valid(s) && Rephrase.DrawsFit(d.rephrase)
    ensures Valid(HandleUserMessage(s, v, chat, message, d, fromChroma, now))
  {
    if !Ignored(s, chat, message) {
      var ref := s.sessions[chat];
      var sess := s.heap[ref];
      RecordUserTextValid(s, v, ref, "user:" + Trim(message), now);
      var s3 := RecordUserText(s, v, ref, "user:" + Trim(message), now);
      var reply := Reply(v, sess, Trim(message), ContextDocs(v, s3.store, MemoryKey(sess), fromChroma), d);
      SendBotMessageValid(s3, chat, ref, reply);
      ScheduleFollowUpValid(SendBotMessage(s3, chat, ref, reply), chat, ref);
    }
  }

  /* ---------- properties ---------- */

  /** Without `io`, or with no socket for the chat, `sendBotMessage` changes nothing. */
  lemma SendBotMessageNoOp(s: State, chat: ChatId, ref: Ref, message: String)
    requires ref in s.heap && (!s.io || SocketFor(s, chat, s.heap[ref]) == [])
    ensures SendBotMessage(s, chat, ref, message) == s
  {
  }

  /**
   * Otherwise it emits one typing indicator and arms one delivery whose text is the trimmed
   * message, 240 characters at most, on the chat's socket or else the session's own.
   */
  lemma SendBotMessageArms(s: State, chat: ChatId, ref: Ref, message: String)
    requires ref in s.heap && s.io && SocketFor(s, chat, s.heap[ref]) != []
    ensures var r := SendBotMessage(s, chat, ref, message); var socket := SocketFor(s, chat, s.heap[ref]);
      r.out == s.out + [Typing(socket, s.heap[ref].botId)]
      && r.nextToken == s.nextToken + 1 && r.pending == s.pending[s.nextToken := r.pending[s.nextToken]]
      && var t := r.pending[s.nextToken];
         t.Deliver? && t.chat == chat && t.ref == ref && t.socket == socket
         && |t.text| <= 240 && Trim(message)[..|t.text|] == t.text
         && (|Trim(message)| <= 240 ==> t.text == Trim(message))
         && t.delay == TypingDelay(t.text)
  {
  }

  /**
   * A delivery sends the typing-off and the message, counts it exactly once and remembers it as
   * `bot:<text>`; a goodbye follows and the chat's session ends exactly when the count reaches 60.
   */
  lemma FireDeliverCounts(s: State, v: Variant, tok: Token, byePick: nat, now: nat)
    requires Linked(s) && tok in s.pending && s.pending[tok].Deliver?
    ensures var t := s.pending[tok]; var sess := s.heap[t.ref]; var r := FireDeliver(s, v, tok, byePick, now);
      t.ref in r.heap && r.heap[t.ref].messageCount == sess.messageCount + 1
      && r.heap[t.ref].localMemory == PushCapped(sess.localMemory, "bot:" + t.text, 2 * MEMORY_WINDOW)
      && tok !in r.pending
      && r.out[..|s.out| + 2] == s.out + [TypingOff(t.socket, sess.botId), Message(t.socket, t.chat, sess.botId, sess.displayName, t.text)]
      && (sess.messageCount + 1 < BOT_MESSAGE_LIMIT ==> |r.out| == |s.out| + 2 && r.sessions == s.sessions)
      && (sess.messageCount + 1 >= BOT_MESSAGE_LIMIT ==>
            |r.out| == |s.out| + 3 && r.out[|s.out| + 2].text in GOODBYES && !IsBotChat(r, t.chat))
  {
    var t := s.pending[tok];
    var sess := s.heap[t.ref];
    var s1 := Delivered(s, tok);
    assert s1.heap[t.ref] == sess.(messageCount := sess.messageCount + 1);
    var s2 := PushLocalMemory(s1, v, t.ref, "bot:" + t.text, now);
    assert s2.out == s1.out;
    if sess.messageCount + 1 >= BOT_MESSAGE_LIMIT {
      var s3 := Goodbye(s2, t, sess, byePick);
      assert EndSession(s3, t.chat).out == s3.out && EndSession(s3, t.chat).heap == s3.heap;
    }
  }

  /** `endSession` is idempotent and leaves `isBotChat` false. */
  lemma EndSessionIdempotent(s: State, chat: ChatId)
    requires chat in s.sessions ==> s.sessions[chat] in s.heap
    ensures !IsBotChat(EndSession(s, chat), chat)
    ensures chat !in EndSession(s, chat).chatToSocket
    ensures EndSession(EndSession(s, chat), chat) == EndSession(s, chat)
  {
  }

  /** After `endSession` no follow-up of the ended session is pending; its deliveries still are. */
  lemma EndSessionClearsFollowUp(s: State, chat: ChatId, tok: Token)
    requires Valid(s) && chat in s.sessions
    requires tok in EndSession(s, chat).pending
    ensures var t := EndSession(s, chat).pending[tok]; t.FollowUp? ==> t.ref != s.sessions[chat]
    ensures forall u :: u in s.pending && s.pending[u].Deliver? ==> u in EndSession(s, chat).pending
  {
    var p := s.sessions[chat];
    if s.heap[p].followUpTimer.Some? {
      assert TimerOwned(s, p, s.heap[p].followUpTimer.value);
    }
  }

  /** After `scheduleFollowUp` the session's one pending follow-up is the new one. */
  lemma ScheduleFollowUpSingle(s: State, chat: ChatId, ref: Ref, tok: Token)
    requires Valid(s) && ref in s.heap
    requires var r := ScheduleFollowUp(s, chat, ref); tok in r.pending && r.pending[tok].FollowUp? && r.pending[tok].ref == ref
    ensures tok == s.nextToken && ScheduleFollowUp(s, chat, ref).heap[ref].followUpTimer == Some(tok)
  {
    ScheduleFollowUpValid(s, chat, ref);
  }

  /** `handleUserMessage` does nothing for an unknown chat, a blank message or a chat without a socket. */
  lemma HandleUserMessageIgnored(
    s: State, v: Variant, chat: ChatId, message: String, d: ReplyDraws, fromChroma: seq<String>, now: nat)
    requires Linked(s) && Rephrase.DrawsFit(d.rephrase)
    requires chat !in s.sessions || Trim(message) == [] || chat !in s.chatToSocket || s.chatToSocket[chat] == []
    ensures HandleUserMessage(s, v, chat, message, d, fromChroma, now) == s
  {
  }

  /** The session after `RecordUserText`: no follow-up, the line remembered, the rest as it was. */
  lemma RecordUserTextSession(s: State, v: Variant, ref: Ref, entry: String, now: nat)
    requires ref in s.heap
    ensures var r := RecordUserText(s, v, ref, entry, now); var sess := s.heap[ref];
      r.heap[ref] == sess.(followUpTimer := None, localMemory := PushCapped(sess.localMemory, entry, 2 * MEMORY_WINDOW))
      && r.pending == (if sess.followUpTimer.Some? then s.pending - {sess.followUpTimer.value} else s.pending)
      && r.out == s.out
  {
    var s1 := CancelFollowUp(s, ref);
    assert s1.heap[ref] == s.heap[ref].(followUpTimer := None);
    var s2 := PushLocalMemory(s1, v, ref, entry, now);
    assert s2.heap[ref] == s1.heap[ref].(localMemory := PushCapped(s1.heap[ref].localMemory, entry, 2 * MEMORY_WINDOW));
  }

  /** `scheduleFollowUp` arms the new follow-up at the next token and keeps every other pending timer of a session without one. */
  lemma ScheduleFollowUpEffect(s: State, chat: ChatId, ref: Ref)
    requires ref in s.heap && TokensIssued(s)
    ensures var r := ScheduleFollowUp(s, chat, ref);
      r.sessions == s.sessions && r.heap.Keys == s.heap.Keys
      && r.heap[ref] == s.heap[ref].(followUpTimer := Some(s.nextToken))
      && r.nextToken == s.nextToken + 1 && s.nextToken in r.pending && r.pending[s.nextToken] == FollowUp(chat, ref)
      && (s.heap[ref].followUpTimer.None? ==> forall t :: t in s.pending ==> t in r.pending && r.pending[t] == s.pending[t])
  {
  }

  /** On a chat with a socket, `sendBotMessage` issues one token exactly when `io` is on. */
  lemma SendBotMessageTokens(s: State, chat: ChatId, ref: Ref, message: String)
    requires ref in s.heap && TokensIssued(s) && chat in s.chatToSocket && s.chatToSocket[chat] != []
    ensures var r := SendBotMessage(s, chat, ref, message);
      TokensIssued(r) && r.nextToken == if s.io then s.nextToken + 1 else s.nextToken
  {
  }

  /** The steps `handleUserMessage` takes on a message it does not ignore. */
  lemma HandleUserMessageSteps(
    s: State, v: Variant, chat: ChatId, message: String, d: ReplyDraws, fromChroma: seq<String>, now: nat)
    requires Linked(s) && Rephrase.DrawsFit(d.rephrase) && !Ignored(s, chat, message)
    ensures var ref := s.sessions[chat]; var sess := s.heap[ref];
      var s3 := RecordUserText(s, v, ref, "user:" + Trim(message), now);
      var reply := Reply(v, sess, Trim(message), ContextDocs(v, s3.store, MemoryKey(sess), fromChroma), d);
      HandleUserMessage(s, v, chat, message, d, fromChroma, now) == ScheduleFollowUp(SendBotMessage(s3, chat, ref, reply), chat, ref)
  {
  }

  /**
   * `r` is `s` after the user's message in `chat` was answered: the trimmed text is remembered as
   * `user:<text>`, the message count is left alone, and the new follow-up, armed after the reply's
   * delivery, is the session's recorded one.
   */
  predicate Answered(s: State, r: State, chat: ChatId, message: String)
    requires chat in s.sessions && s.sessions[chat] in s.heap
  {
    var ref := s.sessions[chat];
    var sess := s.heap[ref];
    var f := if s.io then s.nextToken + 1 else s.nextToken;
    r.sessions == s.sessions && ref in r.heap && r.nextToken == f + 1
    && r.heap[ref] == sess.(localMemory := PushCapped(sess.localMemory, "user:" + Trim(message), 2 * MEMORY_WINDOW),
                            followUpTimer := Some(f))
    && f in r.pending && r.pending[f] == FollowUp(chat, ref)
  }

  /** What a non-ignored message does to the state, whatever the reply. */
  lemma AnswerEffect(s: State, v: Variant, chat: ChatId, message: String, reply: String, now: nat)
    requires Linked(s) && TokensIssued(s) && !Ignored(s, chat, message)
    ensures var ref := s.sessions[chat];
      Answered(s, ScheduleFollowUp(SendBotMessage(RecordUserText(s, v, ref, "user:" + Trim(message), now), chat, ref, reply), chat, ref),
               chat, message)
  {
    var ref := s.sessions[chat];
    var sess := s.heap[ref];
    var s3 := RecordUserText(s, v, ref, "user:" + Trim(message), now);
    var s4 := SendBotMessage(s3, chat, ref, reply);
    var f := if s.io then s.nextToken + 1 else s.nextToken;
    RecordUserTextSession(s, v, ref, "user:" + Trim(message), now);
    assert s3.pending.Keys <= s.pending.Keys;
    assert TokensIssued(s3);
    SendBotMessageTokens(s3, chat, ref, reply);
    assert s4.nextToken == f && s4.heap[ref] == s3.heap[ref];
    ScheduleFollowUpEffect(s4, chat, ref);
  }

  /** A message `handleUserMessage` does not ignore is answered. */
  lemma HandleUserMessageRecords(
    s: State, v: Variant, chat: ChatId, message: String, d: ReplyDraws, fromChroma: seq<String>, now: nat)
    requires Linked(s) && TokensIssued(s) && Rephrase.DrawsFit(d.rephrase) && !Ignored(s, chat, message)
    ensures Answered(s, HandleUserMessage(s, v, chat, message, d, fromChroma, now), chat, message)
  {
    var ref := s.sessions[chat];
    var sess := s.heap[ref];
    var s3 := RecordUserText(s, v, ref, "user:" + Trim(message), now);
    var reply := Reply(v, sess, Trim(message), ContextDocs(v, s3.store, MemoryKey(sess), fromChroma), d);
    AnswerEffect(s, v, chat, message, reply, now);
    HandleUserMessageSteps(s, v, chat, message, d, fromChroma, now);
  }

  /**
   * With `io` the reply's delivery is armed on the chat's socket before the follow-up, and the
   * new follow-up is then the only one of the session left pending.
   */
  lemma HandleUserMessageTimers(
    s: State, v: Variant, chat: ChatId, message: String, d: ReplyDraws, fromChroma: seq<String>, now: nat)
    requires Valid(s) && Rephrase.DrawsFit(d.rephrase) && !Ignored(s, chat, message)
    ensures var r := HandleUserMessage(s, v, chat, message, d, fromChroma, now); var ref := s.sessions[chat];
      var f := if s.io then s.nextToken + 1 else s.nextToken;
      (s.io ==> s.nextToken in r.pending && r.pending[s.nextToken].Deliver?
                && r.pending[s.nextToken].ref == ref && r.pending[s.nextToken].socket == s.chatToSocket[chat])
      && (forall t :: t in r.pending && r.pending[t].FollowUp? && r.pending[t].ref == ref ==> t == f)
  {
    var ref := s.sessions[chat];
    var sess := s.heap[ref];
    var s3 := RecordUserText(s, v, ref, "user:" + Trim(message), now);
    var reply := Reply(v, sess, Trim(message), ContextDocs(v, s3.store, MemoryKey(sess), fromChroma), d);
    HandleUserMessageSteps(s, v, chat, message, d, fromChroma, now);
    AnswerTimers(s, v, chat, message, reply, now);
  }

  /** `HandleUserMessageTimers` for any reply text. */
  lemma AnswerTimers(s: State, v: Variant, chat: ChatId, message: String, reply: String, now: nat)
    requires Valid(s) && !Ignored(s, chat, message)
    ensures var ref := s.sessions[chat];
      var r := ScheduleFollowUp(SendBotMessage(RecordUserText(s, v, ref, "user:" + Trim(message), now), chat, ref, reply), chat, ref);
      var f := if s.io then s.nextToken + 1 else s.nextToken;
      (s.io ==> s.nextToken in r.pending && r.pending[s.nextToken].Deliver?
                && r.pending[s.nextToken].ref == ref && r.pending[s.nextToken].socket == s.chatToSocket[chat])
      && (forall t :: t in r.pending && r.pending[t].FollowUp? && r.pending[t].ref == ref ==> t == f)
  {
    var ref := s.sessions[chat];
    var f := if s.io then s.nextToken + 1 else s.nextToken;
    var entry := "user:" + Trim(message);
    RecordUserTextValid(s, v, ref, entry, now);
    RecordUserTextSession(s, v, ref, entry, now);
    var s3 := RecordUserText(s, v, ref, entry, now);
    SendBotMessageValid(s3, chat, ref, reply);
    var s4 := SendBotMessage(s3, chat, ref, reply);
    ScheduleFollowUpValid(s4, chat, ref);
    var r := ScheduleFollowUp(s4, chat, ref);
    AnswerEffect(s, v, chat, message, reply, now);
    if s.io {
      assert SocketFor(s3, chat, s3.heap[ref]) == s.chatToSocket[chat];
      SendBotMessageArms(s3, chat, ref, reply);
      ScheduleFollowUpEffect(s4, chat, ref);
    }
    forall t | t in r.pending && r.pending[t].FollowUp? && r.pending[t].ref == ref
      ensures t == f
    {
      OneFollowUpPerSession(r, t, f);
    }
  }

  /** Each greeting is already trimmed and short. */
  lemma GreetingsTrimmed(v: Variant, g: String)
    requires g in Greetings(v)
    ensures Trim(g) == g && |g| <= 240
  {
    var gs := Greetings(v);
    var k :| 0 <= k < 5 && gs[k] == g;
    assert !IsSpace(g[0]) && !IsSpace(g[|g| - 1]);
    TrimUnspaced(g);
  }

  /** The greeting step: the opening line is armed unchanged and is the session's first memory. */
  lemma GreetEffect(s: State, v: Variant, chat: ChatId, ref: Ref, greet: String, now: nat)
    requires ref in s.heap && Trim(greet) == greet && |greet| <= 240
    ensures var r := Greet(s, v, chat, ref, greet, now); var socket := SocketFor(s, chat, s.heap[ref]);
      r.sessions == s.sessions && r.chatToSocket == s.chatToSocket && r.heap.Keys == s.heap.Keys
      && r.heap[ref] == s.heap[ref].(localMemory := PushCapped(s.heap[ref].localMemory, "intro:" + greet, 2 * MEMORY_WINDOW))
      && (s.io && socket != [] ==> s.nextToken in r.pending && r.pending[s.nextToken] == Deliver(chat, ref, socket, greet, TypingDelay(greet)))
  {
    var s2 := SendBotMessage(s, chat, ref, greet);
    if s.io && SocketFor(s, chat, s.heap[ref]) != [] {
      SendBotMessageArms(s, chat, ref, greet);
    }
    var s3 := PushLocalMemory(s2, v, ref, "intro:" + greet, now);
    assert Greet(s, v, chat, ref, greet, now) == AddMemory(s3, v, MemoryKey(s.heap[ref]), "intro:" + greet, now);
  }

  /**
   * `createBotSession` registers the chat under a new session object with `messageCount` 0 and
   * the default name and persona, then arms the greeting and remembers it as `intro:<greeting>`.
   */
  lemma CreateBotSessionRegisters(
    s: State, v: Variant, chat: ChatId, provided: Option<BotProfile>, userSocket: SocketId,
    pool: seq<BotProfile>, d: CreateDraws, now: nat)
    requires Linked(s)
    ensures var r := CreateBotSession(s, v, chat, provided, userSocket, pool, d, now); var ref := s.nextRef;
      chat in r.sessions && r.sessions[chat] == ref && ref !in s.heap && ref in r.heap
      && r.chatToSocket[chat] == userSocket
      && var sess := r.heap[ref];
         sess.messageCount == 0 && sess.followUpTimer.None? && sess.profile.hasPartner.Some?
         && (provided.Some? ==> sess.profile.id == provided.value.id && sess.profile.name == provided.value.name)
         && (sess.profile.name == [] ==> sess.displayName == DefaultName(v))
         && (sess.profile.persona == [] ==> sess.persona == "friendly")
         && |sess.localMemory| == 1 && sess.localMemory[0][..6] == "intro:" && sess.localMemory[0][6..] in Greetings(v)
         && MemoryKey(sess) == sess.botId
         && (s.io && userSocket != [] ==>
               s.nextToken in r.pending && r.pending[s.nextToken] == Deliver(chat, ref, userSocket, sess.localMemory[0][6..], TypingDelay(sess.localMemory[0][6..])))
  {
    var profile := AssignPartner(PickProfile(provided, pool, d.poolPick), d.partnerGate, d.partnerPick);
    var sess := NewSession(v, profile, d.idSuffix, userSocket, now);
    var ref := s.nextRef;
    var s1 := Register(s, chat, sess);
    var greet := Pick(Greetings(v), d.greetPick);
    var r := CreateBotSession(s, v, chat, provided, userSocket, pool, d, now);
    assert r == Greet(s1, v, chat, ref, greet, now);
    assert ref !in s.heap;
    GreetingsTrimmed(v, greet);
    GreetEffect(s1, v, chat, ref, greet, now);
    assert SocketFor(s1, chat, sess) == userSocket;
    assert r.heap[ref] == sess.(localMemory := ["intro:" + greet]);
    assert ("intro:" + greet)[6..] == greet && ("intro:" + greet)[..6] == "intro:";
    NewSessionFields(v, profile, d.idSuffix, userSocket, now);
  }

  /** A new session counts from 0, has no follow-up and no memory, and is remembered under its own id. */
  lemma NewSessionFields(v: Variant, profile: BotProfile, idSuffix: String, userSocket: SocketId, now: nat)
    ensures var sess := NewSession(v, profile, idSuffix, userSocket, now);
      sess.messageCount == 0 && sess.followUpTimer.None? && sess.localMemory == [] && sess.profile == profile
      && (profile.name == [] ==> sess.displayName == DefaultName(v))
      && (profile.persona == [] ==> sess.persona == "friendly")
      && MemoryKey(sess) == sess.botId
  {
    assert Lower("friendly") == "friendly";
  }

  /** In the in-memory variant the memory store keeps at most 16 items per profile after any step that writes it. */
  lemma AddMemoryBounded(s: State, key: String, text: String, now: nat)
    ensures |AddMemory(s, InMemory, key, text, now).store[key]| <= 2 * MEMORY_WINDOW
  {
    RememberWindow(Recall(s.store, key), Memory(text, now));
  }
}
