/** The browser-only tutor (English-Tutor/script.js): the page keeps the
    conversation in the module-level array `conversationHistory` of
    `{ role, content }` entries, builds generator requests from it and
    records what comes back. The DOM and speech are absent; each answer of
    the generator is an input, and the request the page would have sent is
    returned. */
module Tutor {
  import opened Wrappers
  import opened Generator
  import opened JsText

  datatype Role = User | Ai | System

  /** The role as the page writes it: `'user'`, `'ai'` or `'system'`. */
  function RoleName(role: Role): string {
    match role
    case User => "user"
    case Ai => "ai"
    case System => "system"
  }

  /** One element of `conversationHistory`. */
  datatype Entry = Entry(role: Role, content: string)

  /** `${msg.role}: ${msg.content}`. */
  function Render(e: Entry): string {
    RoleName(e.role) + ": " + e.content
  }

  /** `history.map(msg => `${msg.role}: ${msg.content}`)`: one rendered line
      per entry, in order. */
  function RenderAll(history: seq<Entry>): (lines: seq<string>)
    ensures |lines| == |history|
    ensures forall i | 0 <= i < |history| :: lines[i] == Render(history[i])
  {
    if history == [] then []
    else RenderAll(history[..|history| - 1]) + [Render(history[|history| - 1])]
  }

  /** Rendering one more entry renders the old ones the same way. */
  lemma RenderAllSnoc(history: seq<Entry>, e: Entry)
    ensures RenderAll(history + [e]) == RenderAll(history) + [Render(e)]
  {
  }

  // ---------------------------------------------------------------------
  // Prompts

  /** The instructions the page writes for the generator: which literal,
      and the values it interpolates. `Text` is the string it evaluates to
      (template literals turn the file's CRLF line ends into `\n`). */
  datatype Prompt =
    | BeginnerTopic
    | AdvancedTopic
    | IntermediateTopic
    | GrammarCheck(message: string)
    | CorrectionReply(message: string, grammarResponse: string)
    | ContinueReply(historyText: string, message: string)
  {
    function Text(): string {
      match this
      case BeginnerTopic => BeginnerTopicText
      case AdvancedTopic => AdvancedTopicText
      case IntermediateTopic => IntermediateTopicText
      case GrammarCheck(message) => GrammarCheckText(message)
      case CorrectionReply(message, grammarResponse) => CorrectionReplyText(message, grammarResponse)
      case ContinueReply(historyText, message) => ContinueReplyText(historyText, message)
    }
  }

  const BeginnerTopicText := "Start a simple English conversation for a beginner. Ask a very basic question about daily life using simple vocabulary (10 words max). Wait for the user's response."

  const AdvancedTopicText := "Start an advanced English conversation. Ask a complex question about current events, technology, or culture that requires thoughtful response."

  const IntermediateTopicText := "Start an intermediate English conversation. Ask a question about common topics like hobbies, travel, or work that requires a few sentences to answer."

  function GrammarCheckText(message: string): string {
    "\n        The user said: \"" + message + GrammarCheckClosing
  }

  const GrammarCheckClosing := "\"\n        \n        Analyze this sentence for:\n        1. Grammar mistakes\n        2. Unnatural phrasing\n        3. Word choice issues\n        \n        If the sentence is perfect, respond only with \"perfect\". \n        If there are mistakes, provide the corrected sentence and a very brief explanation (10 words max) of the main issue.\n        "

  function CorrectionReplyText(message: string, grammarResponse: string): string {
    CorrectionReplyLead(message, grammarResponse) + CorrectionReplyClosing
  }

  function CorrectionReplyLead(message: string, grammarResponse: string): string {
    "\n            The user said: \"" + message + "\"\n            You identified this issue: \"" + grammarResponse
  }

  const CorrectionReplyClosing := "\"\n            \n            Continue the conversation naturally, but first gently correct the user by:\n            1. Repeating the corrected sentence naturally\n            2. Very briefly explaining the improvement (5 words max)\n            3. Then continuing the conversation\n            \n            Speak conversationally and keep your response under 3 sentences total.\n            "

  function ContinueReplyText(historyText: string, message: string): string {
    ContinueReplyLead(historyText, message) + ContinueReplyClosing
  }

  function ContinueReplyLead(historyText: string, message: string): string {
    "\n            Conversation history:\n            " + historyText
    + "\n            \n            User's latest message: \"" + message
  }

  const ContinueReplyClosing := "\"\n            \n            Continue the conversation naturally. Keep your response to 1-2 sentences.\n            "

  /** The three topic prompts are three different texts. */
  lemma TopicTextsDiffer()
    ensures BeginnerTopicText != AdvancedTopicText
    ensures BeginnerTopicText != IntermediateTopicText
    ensures AdvancedTopicText != IntermediateTopicText
  {
  }

  /** The two reply prompts never yield the same text, whatever they
      interpolate: the request tells which branch was taken. */
  lemma ReplyTextsDiffer(message: string, grammarResponse: string, historyText: string, message': string)
    ensures CorrectionReplyText(message, grammarResponse) != ContinueReplyText(historyText, message')
  {
    EndsLike(CorrectionReplyLead(message, grammarResponse), CorrectionReplyClosing, 15);
    EndsLike(ContinueReplyLead(historyText, message'), ContinueReplyClosing, 15);
    assert CorrectionReplyClosing[|CorrectionReplyClosing| - 15] == 'l';
    assert ContinueReplyClosing[|ContinueReplyClosing| - 15] == 's';
  }

  /** The `difficulty` switch of `startNewTopic`. */
  function TopicPrompt(difficulty: string): Prompt {
    match difficulty
    case "beginner" => BeginnerTopic
    case "advanced" => AdvancedTopic
    case _ => IntermediateTopic
  }

  /** "beginner" and "advanced" pick their prompts; every other value,
      "intermediate" or not, picks the intermediate one. */
  lemma TopicPromptChoice(difficulty: string)
    ensures TopicPrompt(difficulty) == BeginnerTopic <==> difficulty == "beginner"
    ensures TopicPrompt(difficulty) == AdvancedTopic <==> difficulty == "advanced"
    ensures TopicPrompt(difficulty) == IntermediateTopic
      <==> difficulty != "beginner" && difficulty != "advanced"
  {
  }

  // ---------------------------------------------------------------------
  // The grammar verdict

  /** `grammarResponse.toLowerCase() !== 'perfect'`, on the untrimmed answer. */
  predicate NeedsCorrection(grammarResponse: string) {
    ToLower(grammarResponse) != "perfect"
  }

  /** Only the bare word "perfect", in any mix of case, passes the check. */
  lemma NeedsCorrectionIff(grammarResponse: string)
    ensures NeedsCorrection(grammarResponse) <==> !SpellsIgnoringCase(grammarResponse, "perfect")
  {
  }

  /** Nothing trims the answer first: "perfect" with any whitespace around
      it, such as a trailing newline, is shown as a correction. */
  lemma PaddedPerfectNeedsCorrection(pre: string, word: string, post: string)
    requires AllWhitespace(pre) && AllWhitespace(post) && pre + post != []
    requires SpellsIgnoringCase(word, "perfect")
    ensures NeedsCorrection(pre + word + post)
  {
  }

  /** The prompt of the second request of `sendMessage`, given the history
      that already holds the user's message: the correcting template when
      the verdict is not "perfect", else the continuing one, which embeds
      the rendered history. */
  function ReplyPrompt(history: seq<Entry>, message: string, grammarResponse: string): (p: Prompt)
    ensures p.CorrectionReply? <==> !SpellsIgnoringCase(grammarResponse, "perfect")
    ensures p.CorrectionReply? ==> p == CorrectionReply(message, grammarResponse)
    ensures !p.CorrectionReply? ==> p == ContinueReply(JoinLines(RenderAll(history)), message)
  {
    NeedsCorrectionIff(grammarResponse);
    if NeedsCorrection(grammarResponse) then CorrectionReply(message, grammarResponse)
    else ContinueReply(JoinLines(RenderAll(history)), message)
  }

  /** The history text of the continuing prompt ends with the user's own
      message, which the same prompt then quotes again. */
  lemma ContinueHistoryEndsWithMessage(history: seq<Entry>, message: string)
    ensures JoinLines(RenderAll(history + [Entry(User, message)]))
      == (if history == [] then "" else JoinLines(RenderAll(history)) + "\n") + Render(Entry(User, message))
  {
    RenderAllSnoc(history, Entry(User, message));
    JoinLinesSnoc(RenderAll(history), Render(Entry(User, message)));
  }

  // ---------------------------------------------------------------------
  // Requests

  /** The texts of `contents[0].parts` of a request body: the context
      lines, then the text of `prompt` last. */
  datatype Request = Request(context: seq<string>, prompt: Prompt)

  /** The body `generateContent(prompt, addToHistory)` builds from the
      history it sees: the rendered history is unshifted in front of the
      prompt only when asked for, and the `length > 0` guard changes
      nothing, since an empty history adds no parts anyway. */
  function RequestFor(history: seq<Entry>, prompt: Prompt, addToHistory: bool): (r: Request)
    ensures r.prompt == prompt
    ensures addToHistory ==> r.context == RenderAll(history)
    ensures !addToHistory ==> r.context == []
  {
    if addToHistory && |history| > 0 then Request(RenderAll(history), prompt)
    else Request([], prompt)
  }

  // ---------------------------------------------------------------------
  // The page

  const StartingNotice := "Starting a new conversation..."
  const TopicErrorNotice := "Error starting conversation. Please try again."
  const MessageErrorNotice := "Error processing your message. Please try again."

  /** What `sendMessage` lets into the history as a user entry. */
  predicate IsUserMessage(m: string) {
    m != "" && Trim(m) == m
  }

  /** Every user entry of `history` is trimmed and not empty. */
  predicate UserEntriesAccepted(history: seq<Entry>) {
    forall i | 0 <= i < |history| :: history[i].role == User ==> IsUserMessage(history[i].content)
  }

  lemma UserEntriesAcceptedAppend(history: seq<Entry>, more: seq<Entry>)
    requires UserEntriesAccepted(history) && UserEntriesAccepted(more)
    ensures UserEntriesAccepted(history + more)
  {
    forall i | 0 <= i < |history + more| && (history + more)[i].role == User
      ensures IsUserMessage((history + more)[i].content)
    {
      if i < |history| {
        assert (history + more)[i] == history[i];
      } else {
        assert (history + more)[i] == more[i - |history|];
      }
    }
  }

  class TutorPage {
    var conversationHistory: seq<Entry>

    /** Every user entry is a message `sendMessage` accepted. */
    ghost predicate Valid()
      reads this
    {
      UserEntriesAccepted(conversationHistory)
    }

    constructor ()
      ensures Valid() && conversationHistory == []
    {
      conversationHistory := [];
    }

    /** The history push of `addMessage`; the rest of it draws on the page. */
    method AddMessage(role: Role, content: string)
      modifies this
      ensures conversationHistory == old(conversationHistory) + [Entry(role, content)]
    {
      conversationHistory := conversationHistory + [Entry(role, content)];
    }

    /** `generateContent`: the request is built from the history as it is
        before the call; an answer is pushed as an ai entry only when
        `addToHistory` holds, and a failure pushes nothing. */
    method GenerateContent(prompt: Prompt, addToHistory: bool, result: Generation)
      returns (response: Generation, request: Request)
      requires Valid()
      modifies this
      ensures Valid()
      ensures request == RequestFor(old(conversationHistory), prompt, addToHistory)
      ensures response == result
      ensures conversationHistory == old(conversationHistory)
        + (if addToHistory && result.Generated? then [Entry(Ai, result.text)] else [])
    {
      request := RequestFor(conversationHistory, prompt, addToHistory);
      response := result;
      if response.Generated? && addToHistory {
        UserEntriesAcceptedAppend(conversationHistory, [Entry(Ai, response.text)]);
        conversationHistory := conversationHistory + [Entry(Ai, response.text)];
      }
    }

    /** `startNewTopic`: the history is emptied and the notice added before
        the request is built, so the notice is its only context; an answer
        is then recorded twice, by `generateContent` and by `addMessage`. */
    method StartNewTopic(difficulty: string, result: Generation) returns (request: Request)
      modifies this
      ensures Valid()
      ensures request == Request([Render(Entry(Ai, StartingNotice))], TopicPrompt(difficulty))
      ensures result.Generated? ==>
        conversationHistory == [Entry(Ai, StartingNotice), Entry(Ai, result.text), Entry(Ai, result.text)]
      ensures result.Failed? ==>
        conversationHistory == [Entry(Ai, StartingNotice), Entry(System, TopicErrorNotice)]
    {
      conversationHistory := [];
      var prompt := TopicPrompt(difficulty);
      AddMessage(Ai, StartingNotice);
      var response;
      response, request := GenerateContent(prompt, true, result);
      if response.Generated? {
        AddMessage(Ai, response.text);
      } else {
        AddMessage(System, TopicErrorNotice);
      }
    }

    /** `sendMessage`. Blank input does nothing. Otherwise the trimmed
        message is recorded, and the grammar check is sent without history
        and records nothing; a failed check records one system entry after
        the message. */
    method SendMessage(input: string, grammar: Generation, reply: Generation)
      returns (shown: Option<string>, requests: seq<Request>)
      requires Valid()
      modifies this
      ensures Valid()
      ensures Trim(input) == "" ==>
        shown == None && requests == [] && conversationHistory == old(conversationHistory)
      ensures Trim(input) != "" ==>
        |requests| >= 1 && requests[0] == Request([], GrammarCheck(Trim(input)))
      ensures var h := old(conversationHistory) + [Entry(User, Trim(input))];
        Trim(input) != "" && grammar.Failed? ==>
          shown == None && |requests| == 1
          && conversationHistory == h + [Entry(System, MessageErrorNotice)]
      ensures var h := old(conversationHistory) + [Entry(User, Trim(input))];
        Trim(input) != "" && grammar.Generated? ==>
          shown == (if NeedsCorrection(grammar.text) then Some(grammar.text) else None)
          && |requests| == 2
          && requests[1] == Request(RenderAll(h), ReplyPrompt(h, Trim(input), grammar.text))
      ensures var h := old(conversationHistory) + [Entry(User, Trim(input))];
        Trim(input) != "" && grammar.Generated? && reply.Failed? ==>
          conversationHistory == h + [Entry(System, MessageErrorNotice)]
      ensures var h := old(conversationHistory) + [Entry(User, Trim(input))];
        Trim(input) != "" && grammar.Generated? && reply.Generated? ==>
          conversationHistory == h + [Entry(Ai, reply.text), Entry(Ai, reply.text)]
    {
      var message := Trim(input);
      if message == "" {
        return None, [];
      }
      TrimIdempotent(input);
      UserEntriesAcceptedAppend(conversationHistory, [Entry(User, message)]);
      AddMessage(User, message);
      ghost var h := conversationHistory;
      var grammarResponse, grammarRequest := GenerateContent(GrammarCheck(message), false, grammar);
      assert conversationHistory == h;
      requests := [grammarRequest];
      if grammarResponse.Failed? {
        UserEntriesAcceptedAppend(conversationHistory, [Entry(System, MessageErrorNotice)]);
        AddMessage(System, MessageErrorNotice);
        return None, requests;
      }
      var replyRequest;
      shown, replyRequest := ReplyToMessage(message, grammarResponse.text, reply);
      assert replyRequest == Request(RenderAll(h), ReplyPrompt(h, message, grammarResponse.text));
      requests := [grammarRequest, replyRequest];
    }

    /** The rest of `sendMessage`, once the grammar verdict is in and the
        message is the last entry. The same test picks the correction shown
        (never recorded) and the reply template; the reply request carries
        the whole history, and a reply is recorded twice, by
        `generateContent` and by `addMessage`. A failure records one system
        entry. */
    method ReplyToMessage(message: string, grammarResponse: string, reply: Generation)
      returns (shown: Option<string>, request: Request)
      requires Valid()
      modifies this
      ensures Valid()
      ensures shown == (if NeedsCorrection(grammarResponse) then Some(grammarResponse) else None)
      ensures request == Request(RenderAll(old(conversationHistory)),
                                 ReplyPrompt(old(conversationHistory), message, grammarResponse))
      ensures reply.Failed? ==>
        conversationHistory == old(conversationHistory) + [Entry(System, MessageErrorNotice)]
      ensures reply.Generated? ==>
        conversationHistory == old(conversationHistory) + [Entry(Ai, reply.text), Entry(Ai, reply.text)]
    {
      shown := if NeedsCorrection(grammarResponse) then Some(grammarResponse) else None;
      var prompt := ReplyPrompt(conversationHistory, message, grammarResponse);
      var aiResponse;
      aiResponse, request := GenerateContent(prompt, true, reply);
      if aiResponse.Failed? {
        UserEntriesAcceptedAppend(conversationHistory, [Entry(System, MessageErrorNotice)]);
        AddMessage(System, MessageErrorNotice);
        return;
      }
      ghost var h := old(conversationHistory);
      UserEntriesAcceptedAppend(h, [Entry(Ai, aiResponse.text), Entry(Ai, aiResponse.text)]);
      AddMessage(Ai, aiResponse.text);
      assert conversationHistory == h + [Entry(Ai, aiResponse.text), Entry(Ai, aiResponse.text)];
    }
  }
}
