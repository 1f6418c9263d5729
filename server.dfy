/** The Express backend (Backend/server.js): an in-memory table from session
    id to conversation state, and the four endpoints that act on it. The
    Gemini SDK is replaced by `Generation` values the handler receives; the
    requests it would have sent are returned alongside the response. */
module Server {
  import opened Wrappers
  import opened Generator
  import opened JsText

  datatype Role = User | Model

  /** The instructions the server writes for the generator: which template
      literal, and the values it interpolates. `Text` is the string the
      template literal evaluates to. */
  datatype Prompt =
    | CustomTopicPrompt(customTopic: string, level: string)
    | BeginnerPrompt
    | AdvancedPrompt
    | MediumPrompt
    | GrammarPrompt(message: string)
    | ContinuePrompt(message: string)
    | CorrectPrompt(message: string, grammarText: string)
  {
    function Text(): string {
      match this
      case CustomTopicPrompt(customTopic, level) => CustomTopicText(customTopic, level)
      case BeginnerPrompt => BeginnerText
      case AdvancedPrompt => AdvancedText
      case MediumPrompt => MediumText
      case GrammarPrompt(message) => GrammarText(message)
      case ContinuePrompt(message) => ContinueText(message)
      case CorrectPrompt(message, grammarText) => CorrectText(message, grammarText)
    }
  }

  function CustomTopicText(customTopic: string, level: string): string {
    CustomTopicLead(customTopic, level) + CustomTopicClosing
  }

  function CustomTopicLead(customTopic: string, level: string): string {
    "Start a conversation in English about \"" + customTopic
    + "\". \n        Ask one engaging question. Speak like a friendly tutor, adapting to a "
    + level
  }

  const CustomTopicClosing := "-level learner. \n        Keep the reply short and conversational."

  const BeginnerText := "Start a friendly English conversation for a beginner. \n            Ask a short and simple question. Avoid long replies. Speak naturally like a tutor."

  const AdvancedText := "Start an engaging English conversation on a complex topic like culture or technology.\n            Ask a thoughtful question. Speak like a fluent tutor."

  const MediumText := "Start a medium-level English conversation.\n            Ask a clear question related to hobbies, travel, or daily life. Speak simply."

  function GrammarText(message: string): string {
    "The user said: \"" + message
    + "\"\nIs it grammatically correct? If yes, respond with \"perfect\". \nIf not, provide a corrected version and a short 5\U{2013}10 word explanation."
  }

  function ContinueText(message: string): string {
    "Continue the conversation based on: \"" + message
    + "\". \nAsk a relevant question to keep talking naturally."
  }

  function CorrectText(message: string, grammarText: string): string {
    CorrectLead(message, grammarText) + CorrectClosing
  }

  function CorrectLead(message: string, grammarText: string): string {
    "The user said: \"" + message + "\"\nYou corrected it to: \"" + grammarText
  }

  const CorrectClosing := "\".\nNow reply politely with the correction, explain briefly, and continue the conversation naturally with a question."

  /** The second-to-last character of each template: a cheap fingerprint
      that tells the texts apart without unfolding their long prefixes. */
  lemma CustomTopicTextEnding(customTopic: string, level: string)
    ensures var t := CustomTopicText(customTopic, level); |t| >= 2 && t[|t| - 2] == 'l'
  {
    EndsLike(CustomTopicLead(customTopic, level), CustomTopicClosing, 2);
  }

  lemma FixedTopicTextEndings()
    ensures BeginnerText[|BeginnerText| - 2] == 'r' && AdvancedText[|AdvancedText| - 2] == 'r'
    ensures MediumText[|MediumText| - 2] == 'y'
  {
  }

  /** The four /topic templates yield four different texts, so the prompt
      sent tells which branch of the selection was taken. */
  lemma TopicTextsDiffer(customTopic: string, level: string)
    ensures CustomTopicText(customTopic, level) != BeginnerText
    ensures CustomTopicText(customTopic, level) != AdvancedText
    ensures CustomTopicText(customTopic, level) != MediumText
    ensures BeginnerText != AdvancedText && BeginnerText != MediumText && AdvancedText != MediumText
  {
    CustomTopicTextEnding(customTopic, level);
    FixedTopicTextEndings();
  }

  /** The two reply templates never yield the same text. */
  lemma ReplyTextsDiffer(message: string, grammarText: string, message': string)
    ensures ContinueText(message) != CorrectText(message', grammarText)
  {
    ContinueTextEnding(message);
    CorrectTextEnding(message', grammarText);
  }

  lemma ContinueTextEnding(message: string)
    ensures var t := ContinueText(message); |t| >= 2 && t[|t| - 2] == 'y'
  {
  }

  lemma CorrectTextEnding(message: string, grammarText: string)
    ensures var t := CorrectText(message, grammarText); |t| >= 2 && t[|t| - 2] == 'n'
  {
  }

  /** The text of a turn: a template the server wrote, or text taken verbatim
      from the client or the generator. */
  datatype Part = Plain(text: string) | Template(prompt: Prompt)
  {
    function Text(): string {
      match this
      case Plain(text) => text
      case Template(prompt) => prompt.Text()
    }
  }

  /** One `{ role, parts: [{ text }] }` entry of a session's history or of
      the contents of a generation request. */
  datatype Turn = Turn(role: Role, part: Part)

  /** `topic` is `None` when the client sent neither a truthy `customTopic`
      nor any `difficulty` (JavaScript `undefined`). */
  datatype Session = Session(history: seq<Turn>, topic: Option<string>)

  /** What `/start` stores: `{ history: [], topic: '' }`. */
  const NewSession := Session([], Some(""))

  /** The JSON reply of a handler, reduced to its status and value. */
  datatype Response =
    | SessionStarted(sessionId: string)
    | TopicStarted(response: string)
    | Replied(correction: Option<string>, response: string)
    | SessionEnded
    | SessionNotFound
    | TopicFailed
      /** The handler's promise rejects and nothing answers the request. */
    | Unanswered
  {
    function Status(): (code: Option<nat>)
      ensures code == None <==> this == Unanswered
      ensures code == Some(404) <==> this == SessionNotFound
      ensures code == Some(500) <==> this == TopicFailed
      ensures this.SessionStarted? || this.TopicStarted? || this.Replied? || this.SessionEnded? ==>
        code == Some(200)
    {
      match this
      case SessionNotFound => Some(404)
      case TopicFailed => Some(500)
      case Unanswered => None
      case _ => Some(200)
    }
  }

  // ---------------------------------------------------------------------
  // Body fields and JavaScript truthiness

  /** A string field is truthy when present and non-empty. */
  predicate Truthy(v: Option<string>) {
    v.Some? && v.value != ""
  }

  /** `a || b` on two optional string fields: it picks one of its operands,
      is truthy exactly when one of them is, and a truthy left operand wins
      over any right one. */
  function Or(a: Option<string>, b: Option<string>): (r: Option<string>)
    ensures r == a || r == b
    ensures Truthy(r) <==> Truthy(a) || Truthy(b)
    ensures Truthy(a) ==> r == a
  {
    if Truthy(a) then a else b
  }

  /** `customTopic && customTopic.trim() !== ''`. */
  predicate HasCustomTopic(customTopic: Option<string>) {
    Truthy(customTopic) && Trim(customTopic.value) != ""
  }

  // ---------------------------------------------------------------------
  // Prompt selection of /topic

  /** The prompt `/topic` sends: a custom topic wins, otherwise the
      difficulty picks one of three canned prompts. */
  function TopicPrompt(difficulty: Option<string>, customTopic: Option<string>): Prompt {
    if HasCustomTopic(customTopic) then
      CustomTopicPrompt(customTopic.value, Or(difficulty, Some("medium")).value)
    else if difficulty == Some("beginner") then BeginnerPrompt
    else if difficulty == Some("advanced") then AdvancedPrompt
    else MediumPrompt
  }

  /** The decision table of the prompt selection, in both directions: the
      custom template exactly when the custom topic is non-blank, with the
      difficulty defaulting to "medium"; otherwise "beginner" and "advanced"
      select their templates and every other difficulty, absent included,
      selects the medium one. (`TopicTextsDiffer` shows that the four
      templates also differ as text.) */
  lemma TopicPromptChoice(difficulty: Option<string>, customTopic: Option<string>)
    ensures TopicPrompt(difficulty, customTopic).CustomTopicPrompt? <==> HasCustomTopic(customTopic)
    ensures HasCustomTopic(customTopic) ==>
      TopicPrompt(difficulty, customTopic)
        == CustomTopicPrompt(customTopic.value, if Truthy(difficulty) then difficulty.value else "medium")
    ensures TopicPrompt(difficulty, customTopic) == BeginnerPrompt
      <==> !HasCustomTopic(customTopic) && difficulty == Some("beginner")
    ensures TopicPrompt(difficulty, customTopic) == AdvancedPrompt
      <==> !HasCustomTopic(customTopic) && difficulty == Some("advanced")
    ensures TopicPrompt(difficulty, customTopic) == MediumPrompt
      <==> !HasCustomTopic(customTopic) && difficulty != Some("beginner") && difficulty != Some("advanced")
  {
  }

  /** A custom topic made only of whitespace selects a difficulty template,
      yet `customTopic || difficulty` stores it as the session's topic. */
  lemma BlankCustomTopicIsStored(difficulty: Option<string>, customTopic: Option<string>)
    requires customTopic.Some? && customTopic.value != "" && AllWhitespace(customTopic.value)
    ensures !TopicPrompt(difficulty, customTopic).CustomTopicPrompt?
    ensures Or(customTopic, difficulty) == customTopic
  {
    TrimEmptyIff(customTopic.value);
  }

  // ---------------------------------------------------------------------
  // Grammar verdict of /message

  /** `grammarText.toLowerCase() === 'perfect'`. */
  predicate SaysPerfect(grammarText: string) {
    ToLower(grammarText) == "perfect"
  }

  /** The `correction` field of the reply, for the already trimmed grammar
      text: `null` exactly when that text is "perfect" in any mix of case,
      otherwise the text verbatim. */
  function Correction(grammarText: string): (r: Option<string>)
    ensures r == None <==> SpellsIgnoringCase(grammarText, "perfect")
    ensures r != None ==> r == Some(grammarText)
  {
    LowerEqualsWordIff(grammarText, "perfect");
    if SaysPerfect(grammarText) then None else Some(grammarText)
  }

  /** The instruction of the second generation call. One test decides both
      it and the `correction` field. */
  function ReplyPrompt(message: string, grammarText: string): (p: Prompt)
    ensures p == ContinuePrompt(message) <==> Correction(grammarText) == None
    ensures p == CorrectPrompt(message, grammarText) <==> Correction(grammarText) == Some(grammarText)
  {
    if SaysPerfect(grammarText) then ContinuePrompt(message) else CorrectPrompt(message, grammarText)
  }

  /** A grammar reply that spells "perfect" in any mix of case, wrapped in
      any whitespace, yields no correction: the server trims before comparing. */
  lemma PaddedPerfectIsNoCorrection(pre: string, word: string, post: string)
    requires AllWhitespace(pre) && AllWhitespace(post)
    requires SpellsIgnoringCase(word, "perfect")
    ensures Correction(Trim(pre + word + post)) == None
  {
    assert word[0] in "pP" && word[6] in "tT";
    TrimStripsPadding(pre, word, post);
  }

  // ---------------------------------------------------------------------
  // Shape of a session's history

  /** Turns come in (user, model) pairs. */
  predicate Paired(h: seq<Turn>) {
    h == [] || (|h| >= 2 && h[0].role == User && h[1].role == Model && Paired(h[2..]))
  }

  /** `Paired` is: even length, users at even positions, the model at odd ones. */
  lemma {:induction false} PairedIffAlternating(h: seq<Turn>)
    ensures Paired(h) <==>
      |h| % 2 == 0 && forall i | 0 <= i < |h| :: h[i].role == (if i % 2 == 0 then User else Model)
  {
    if |h| >= 2 {
      PairedIffAlternating(h[2..]);
      if forall i | 0 <= i < |h| :: h[i].role == (if i % 2 == 0 then User else Model) {
        forall i | 0 <= i < |h| - 2
          ensures h[2..][i].role == (if i % 2 == 0 then User else Model)
        {
          assert h[2..][i] == h[i + 2];
        }
      }
      if Paired(h) {
        forall i | 0 <= i < |h|
          ensures h[i].role == (if i % 2 == 0 then User else Model)
        {
          if i >= 2 {
            assert h[i] == h[2..][i - 2];
          }
        }
      }
    } else if |h| == 1 {
      assert !Paired(h);
    }
  }

  /** Appending one exchange keeps the pairing. */
  lemma {:induction false} PairedAppendExchange(h: seq<Turn>, user: Part, model: Part)
    requires Paired(h)
    ensures Paired(h + [Turn(User, user), Turn(Model, model)])
  {
    var tail := [Turn(User, user), Turn(Model, model)];
    if h == [] {
      assert h + tail == tail && tail[2..] == [];
    } else {
      assert (h + tail)[2..] == h[2..] + tail;
      PairedAppendExchange(h[2..], user, model);
    }
  }

  // ---------------------------------------------------------------------
  // The session table

  class SessionStore {
    /** The `sessions` Map. */
    var sessions: map<string, Session>

    ghost predicate Valid()
      reads this
    {
      forall id | id in sessions :: Paired(sessions[id].history)
    }

    constructor ()
      ensures Valid() && sessions == map[]
    {
      sessions := map[];
    }

    /** POST /api/conversation/start, at clock reading `now` (`Date.now()`):
        stores a fresh session under `now.toString()`, replacing any session
        already stored under that id. */
    method Start(now: nat) returns (resp: Response)
      requires Valid()
      modifies this
      ensures Valid()
      ensures resp == SessionStarted(DecimalString(now)) && resp.Status() == Some(200)
      ensures sessions == old(sessions)[DecimalString(now) := NewSession]
    {
      var sessionId := DecimalString(now);
      sessions := sessions[sessionId := NewSession];
      resp := SessionStarted(sessionId);
    }

    /** POST /api/conversation/topic. `requests` lists the contents of every
        generation call made, in order; `generated` is what the call gave. */
    method Topic(sessionId: string, difficulty: Option<string>, customTopic: Option<string>,
                 generated: Generation)
      returns (resp: Response, requests: seq<seq<Turn>>)
      requires Valid()
      modifies this
      ensures Valid()
      ensures sessionId !in old(sessions) ==>
        resp == SessionNotFound && sessions == old(sessions) && requests == []
      ensures sessionId in old(sessions) ==>
        requests == [[Turn(User, Template(TopicPrompt(difficulty, customTopic)))]]
      ensures sessionId in old(sessions) && generated.Failed? ==>
        resp == TopicFailed && sessions == old(sessions)
      ensures sessionId in old(sessions) && generated.Generated? ==>
        && resp == TopicStarted(generated.text)
        && sessions == old(sessions)[sessionId := Session(
             [Turn(User, Template(TopicPrompt(difficulty, customTopic))), Turn(Model, Plain(generated.text))],
             Or(customTopic, difficulty))]
    {
      if sessionId !in sessions {
        return SessionNotFound, [];
      }
      var prompt := TopicPrompt(difficulty, customTopic);
      requests := [[Turn(User, Template(prompt))]];
      match generated
      case Failed =>
        resp := TopicFailed;
      case Generated(text) =>
        var session := sessions[sessionId];
        session := session.(history := [Turn(User, Template(prompt)), Turn(Model, Plain(text))]);
        session := session.(topic := Or(customTopic, difficulty));
        sessions := sessions[sessionId := session];
        resp := TopicStarted(text);
    }

    /** POST /api/conversation/message: a grammar check, then a reply with the
        whole history as context. Neither call is guarded, so a failure of
        either leaves the request unanswered and the session untouched. */
    method Message(sessionId: string, message: string, grammar: Generation, reply: Generation)
      returns (resp: Response, requests: seq<seq<Turn>>)
      requires Valid()
      modifies this
      ensures Valid()
      ensures sessionId !in old(sessions) ==>
        resp == SessionNotFound && sessions == old(sessions) && requests == []
      ensures sessionId in old(sessions) ==>
        1 <= |requests| <= 2 && requests[0] == [Turn(User, Template(GrammarPrompt(message)))]
      ensures sessionId in old(sessions) && grammar.Failed? ==>
        resp == Unanswered && sessions == old(sessions) && |requests| == 1
      ensures sessionId in old(sessions) && grammar.Generated? ==>
        |requests| == 2 &&
        requests[1] == old(sessions)[sessionId].history
                       + [Turn(User, Template(ReplyPrompt(message, Trim(grammar.text))))]
      ensures sessionId in old(sessions) && grammar.Generated? && reply.Failed? ==>
        resp == Unanswered && sessions == old(sessions)
      ensures sessionId in old(sessions) && grammar.Generated? && reply.Generated? ==>
        var old_session := old(sessions)[sessionId];
        && resp == Replied(Correction(Trim(grammar.text)), Trim(reply.text))
        && sessions == old(sessions)[sessionId := old_session.(
             history := old_session.history + [Turn(User, Plain(message)), Turn(Model, Plain(Trim(reply.text)))])]
    {
      if sessionId !in sessions {
        return SessionNotFound, [];
      }
      var session := sessions[sessionId];
      requests := [[Turn(User, Template(GrammarPrompt(message)))]];
      if grammar.Failed? {
        return Unanswered, requests;
      }
      var grammarText := Trim(grammar.text);
      var replyPrompt := ReplyPrompt(message, grammarText);
      requests := requests + [session.history + [Turn(User, Template(replyPrompt))]];
      if reply.Failed? {
        return Unanswered, requests;
      }
      var responseText := Trim(reply.text);
      // Both pushes run only after both awaited calls have returned.
      PairedAppendExchange(session.history, Plain(message), Plain(responseText));
      session := session.(history := session.history + [Turn(User, Plain(message)), Turn(Model, Plain(responseText))]);
      sessions := sessions[sessionId := session];
      resp := Replied(Correction(grammarText), responseText);
    }

    /** POST /api/conversation/end: removes the id if present; always 200. */
    method End(sessionId: string) returns (resp: Response)
      requires Valid()
      modifies this
      ensures Valid()
      ensures resp == SessionEnded && resp.Status() == Some(200)
      ensures sessions == old(sessions) - {sessionId}
    {
      sessions := sessions - {sessionId};
      resp := SessionEnded;
    }
  }

  // ---------------------------------------------------------------------
  // Consequences for a client of the store

  /** Ending a session and then messaging it gives 404, and a second end
      changes nothing more than the first. */
  method EndThenMessage(store: SessionStore, sessionId: string, message: string,
                        grammar: Generation, reply: Generation)
    returns (resp: Response)
    requires store.Valid()
    modifies store
    ensures store.Valid()
    ensures resp == SessionNotFound && resp.Status() == Some(404)
    ensures store.sessions == old(store.sessions) - {sessionId}
  {
    var _ := store.End(sessionId);
    var _ := store.End(sessionId);
    var requests;
    resp, requests := store.Message(sessionId, message, grammar, reply);
  }

  /** Two successful topic calls replace the history twice: it ends with two
      turns, not four, whatever it held before. */
  method TopicTwice(store: SessionStore, sessionId: string, difficulty: Option<string>,
                    customTopic: Option<string>, first: string, second: string)
    requires store.Valid() && sessionId in store.sessions
    modifies store
    ensures store.Valid() && sessionId in store.sessions
    ensures store.sessions[sessionId].history
      == [Turn(User, Template(TopicPrompt(difficulty, customTopic))), Turn(Model, Plain(second))]
  {
    var _, _ := store.Topic(sessionId, difficulty, customTopic, Generated(first));
    var _, _ := store.Topic(sessionId, difficulty, customTopic, Generated(second));
  }

  /** Sessions started at different milliseconds do not overwrite each other. */
  method StartTwice(store: SessionStore, first: nat, second: nat)
    returns (a: Response, b: Response)
    requires store.Valid() && first != second
    modifies store
    ensures store.Valid()
    ensures a.SessionStarted? && b.SessionStarted? && a.sessionId != b.sessionId
    ensures a.sessionId in store.sessions && b.sessionId in store.sessions
  {
    a := store.Start(first);
    b := store.Start(second);
    DecimalStringInjective(first, second);
  }
}
