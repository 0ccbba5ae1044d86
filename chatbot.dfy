/** The voice assistant's decisions: when to stop, what to say for an API reply or
    error, which audio player plays a reply, and the listen-answer loop with its cap. */
module Chatbot {
  import opened Wrappers
  import opened Text
  import opened Shell

  /** Words whose appearance anywhere in the lower-cased input ends the conversation. */
  const ExitWords: seq<string> := ["goodbye", "exit", "quit", "bye", "stop"]

  /** The optional cap on answered questions. */
  const MaxConversations: nat := 20

  const Greeting: string := "Hello! I am your Gemini AI assistant. Ask me anything!"
  const RepeatPrompt: string := "Sorry, I didn't catch that. Could you repeat?"
  const Farewell: string := "Goodbye! Have a great day!"
  const LimitReached: string := "We've had a nice long chat! Feel free to start again anytime."

  const Rephrase: string := "I'm not sure how to answer that. Could you rephrase?"
  const ModelUnavailable: string :=
    "My AI model isn't available right now. Please check your API key and internet connection."
  const QuotaExceeded: string := "I've reached my usage limit for now. Please try again later."
  const KeyProblem: string := "There's an issue with my API key. Please check the configuration."
  const Trouble: string := "Sorry, I'm having trouble thinking right now."

  /** What `listen` reports as "I heard speech but could not transcribe it". */
  const Unclear: string := "unclear"

  /** `any(word in s for word in words)`. */
  function AnyOccurs(s: string, words: seq<string>): (b: bool)
    ensures b <==> exists k :: 0 <= k < |words| && Contains(s, words[k])
    decreases |words|
  {
    if words == [] then false
    else if Contains(s, words[0]) then true
    else
      var b := AnyOccurs(s, words[1..]);
      assert forall k :: 1 <= k < |words| ==> words[k] == words[1..][k - 1];
      b
  }

  /** The exit test: some exit word is a substring of the lower-cased input. */
  function WantsToLeave(input: string): (b: bool)
    ensures b <==> exists k :: 0 <= k < |ExitWords| && Contains(Lower(input), ExitWords[k])
  {
    AnyOccurs(Lower(input), ExitWords)
  }

  /** The exit test ignores letter case. */
  lemma WantsToLeaveIgnoresCase(input: string)
    ensures WantsToLeave(Lower(input)) == WantsToLeave(input)
  {
    LowerIdempotent(input);
  }

  /** The test is on substrings, not words: "quite" contains "quit". */
  lemma WantsToLeaveInsideWord()
    ensures WantsToLeave("Is it quite far?")
  {
    var s := Lower("Is it quite far?");
    assert s[6] == 'q' && s[7] == 'u' && s[8] == 'i' && s[9] == 't';
    assert s[6..10] == "quit";
    ContainsAt(s, "quit", 6);
    assert Contains(s, ExitWords[2]);
  }

  /** What the Gemini call yields: a reply whose text may be empty, or an exception's message. */
  datatype ApiReply = Answered(text: string) | Failed(message: string)

  /** The exception branch of `get_ai_response`: the first matching test wins, in the order
      "404", "quota" in any case, "API key" in exactly that case. */
  function ErrorReply(message: string): (r: string)
    ensures r in [ModelUnavailable, QuotaExceeded, KeyProblem, Trouble]
  {
    if Contains(message, "404") then ModelUnavailable
    else if Contains(Lower(message), "quota") then QuotaExceeded
    else if Contains(message, "API key") then KeyProblem
    else Trouble
  }

  /** Each fixed message is given for exactly its own condition, so the reply tells the
      cause apart, and an earlier test always beats a later one. */
  lemma ErrorReplyCases(message: string)
    ensures ErrorReply(message) == ModelUnavailable <==> Contains(message, "404")
    ensures ErrorReply(message) == QuotaExceeded <==>
              !Contains(message, "404") && Contains(Lower(message), "quota")
    ensures ErrorReply(message) == KeyProblem <==>
              !Contains(message, "404") && !Contains(Lower(message), "quota") && Contains(message, "API key")
    ensures ErrorReply(message) == Trouble <==>
              !Contains(message, "404") && !Contains(Lower(message), "quota") && !Contains(message, "API key")
  {
  }

  /** `get_ai_response`: the reply text unchanged when it is non-empty, the rephrase
      request when it is empty, and the mapped message on an error. The assistant
      therefore always has something to say. */
  function AiResponse(reply: ApiReply): (r: string)
    ensures r != []
    ensures reply.Answered? && reply.text != [] ==> r == reply.text
    ensures reply.Answered? && reply.text == [] ==> r == Rephrase
    ensures reply.Failed? ==> r == ErrorReply(reply.message)
  {
    match reply
    case Answered(text) => if text != [] then text else Rephrase
    case Failed(message) => ErrorReply(message)
  }

  const PromptPrefix: string :=
    "You are a helpful AI assistant on a Raspberry Pi. Keep responses brief and conversational (2-3 sentences max). User question: "

  /** The prompt sent for a question: a fixed instruction followed by the question itself. */
  function Prompt(question: string): (p: string)
    ensures |p| == |PromptPrefix| + |question|
    ensures p[..|PromptPrefix|] == PromptPrefix && p[|PromptPrefix|..] == question
  {
    PromptPrefix + question
  }

  /** The players `speak` tries, in order. */
  const Players: seq<string> := ["mpg321 -q", "play -q", "mpg123 -q"]

  function PlayCommand(player: string): string
  {
    player + " /tmp/response.mp3 2>/dev/null"
  }

  /** The player loop of `speak`, given the exit status each command line would return:
      it tries the players in order and stops at the first that exits with 0. */
  method PlayResponse(status: string -> int) returns (tried: seq<string>)
    ensures 0 < |tried| <= |Players| && tried == Players[..|tried|]
    ensures forall k :: 0 <= k < |tried| - 1 ==> status(PlayCommand(tried[k])) != 0
    ensures |tried| < |Players| ==> status(PlayCommand(tried[|tried| - 1])) == 0
  {
    tried := [];
    var i := 0;
    while i < |Players|
      invariant 0 <= i <= |Players| && tried == Players[..i]
      invariant forall k :: 0 <= k < i ==> status(PlayCommand(tried[k])) != 0
    {
      var player := Players[i];
      tried := tried + [player];
      if status(PlayCommand(player)) == 0 {
        return;
      }
      i := i + 1;
    }
  }

  /** `speak`, given whether synthesis and saving succeeded (`saved`), whether removing the
      file afterwards succeeded (`removed`), and the exit status of each command line.
      With the file saved, the player loop runs; if saving failed, or the removal failed
      after the players ran, the handler runs the one `espeak` command. Returns the
      command lines handed to the shell, in order. */
  method Speak(text: string, saved: bool, removed: bool, status: string -> int) returns (commands: seq<string>)
    ensures !saved ==> commands == [EspeakCommand(text)]
    ensures saved ==>
              var n := if removed then |commands| else |commands| - 1;
              0 < n <= |Players| &&
              (forall k :: 0 <= k < n ==> commands[k] == PlayCommand(Players[k])) &&
              (forall k :: 0 <= k < n - 1 ==> status(commands[k]) != 0) &&
              (n < |Players| ==> status(commands[n - 1]) == 0) &&
              (!removed ==> commands[n] == EspeakCommand(text))
  {
    if saved {
      var tried := PlayResponse(status);
      commands := seq(|tried|, k requires 0 <= k < |tried| => PlayCommand(tried[k]));
      if !removed {
        commands := commands + [EspeakCommand(text)];
      }
    } else {
      commands := [EspeakCommand(text)];
    }
  }

  /** How a conversation stands: still listening, ended by an exit word, or ended by the cap. */
  datatype Ending = Listening | SaidGoodbye | ReachedLimit

  /** Everything spoken (greeting, prompts, answers, farewells) and every question sent to
      the AI, in order. `conversation_count` is the number of questions. */
  datatype Chat = Chat(spoken: seq<string>, asked: seq<string>, ending: Ending)

  /** The `while True` loop of `main` over what `listen` returns (None for silence or
      failure), given `ask(n, prompt)`, the API's reply to the n-th question. */
  function Converse(heard: seq<Option<string>>, ask: (nat, string) -> ApiReply, c: Chat): (r: Chat)
    requires c.ending == Listening && |c.asked| < MaxConversations
    ensures c.spoken <= r.spoken && c.asked <= r.asked
    ensures |r.asked| <= MaxConversations
    ensures r.ending == ReachedLimit <==> |r.asked| == MaxConversations
    decreases |heard|
  {
    if heard == [] then c
    else match heard[0]
      case None => Converse(heard[1..], ask, c)
      case Some(input) =>
        if input == Unclear then
          Converse(heard[1..], ask, c.(spoken := c.spoken + [RepeatPrompt]))
        else if WantsToLeave(input) then
          c.(spoken := c.spoken + [Farewell], ending := SaidGoodbye)
        else
          var answer := AiResponse(ask(|c.asked|, Prompt(input)));
          var next := Chat(c.spoken + [answer], c.asked + [input], Listening);
          if |next.asked| >= MaxConversations then
            next.(spoken := next.spoken + [LimitReached], ending := ReachedLimit)
          else
            Converse(heard[1..], ask, next)
  }

  /** The inputs that reach the AI: neither silence, nor "unclear", nor containing an exit word. */
  predicate IsQuestion(input: string)
  {
    input != Unclear && !WantsToLeave(input)
  }

  /** Every entry of `asked` from index `n` on is a question. */
  ghost predicate QuestionsFrom(asked: seq<string>, n: nat)
  {
    forall k :: n <= k < |asked| ==> IsQuestion(asked[k])
  }

  /** Every question sent to the AI is a genuine question: an exit word never reaches it. */
  lemma {:induction false} AskedAreQuestions(heard: seq<Option<string>>, ask: (nat, string) -> ApiReply, c: Chat)
    requires c.ending == Listening && |c.asked| < MaxConversations
    ensures QuestionsFrom(Converse(heard, ask, c).asked, |c.asked|)
    decreases |heard|
  {
    if heard != [] {
      match heard[0]
      case None =>
        assert Converse(heard, ask, c) == Converse(heard[1..], ask, c);
        AskedAreQuestions(heard[1..], ask, c);
      case Some(input) =>
        if input == Unclear {
          AskedAreQuestions(heard[1..], ask, c.(spoken := c.spoken + [RepeatPrompt]));
        } else if !WantsToLeave(input) {
          var answer := AiResponse(ask(|c.asked|, Prompt(input)));
          var next := Chat(c.spoken + [answer], c.asked + [input], Listening);
          if |next.asked| < MaxConversations {
            AskedAreQuestions(heard[1..], ask, next);
            var r := Converse(heard[1..], ask, next);
            assert r.asked[|c.asked|] == input by {
              assert next.asked <= r.asked;
            }
          }
        }
    }
  }

  /** An exit word is answered with the farewell and ends the conversation at once,
      without a question being sent to the AI. */
  lemma ExitSaysGoodbye(input: string, after: seq<Option<string>>, ask: (nat, string) -> ApiReply, c: Chat)
    requires c.ending == Listening && |c.asked| < MaxConversations
    requires input != Unclear && WantsToLeave(input)
    ensures Converse([Some(input)] + after, ask, c) == Chat(c.spoken + [Farewell], c.asked, SaidGoodbye)
  {
    assert ([Some(input)] + after)[0] == Some(input);
  }

  /** Nothing heard after an exit word matters: the loop has already ended. */
  lemma {:induction false} ExitEndsConversation(before: seq<Option<string>>, input: string,
                                                after: seq<Option<string>>,
                                                ask: (nat, string) -> ApiReply, c: Chat)
    requires c.ending == Listening && |c.asked| < MaxConversations
    requires input != Unclear && WantsToLeave(input)
    ensures Converse(before + [Some(input)] + after, ask, c) == Converse(before + [Some(input)], ask, c)
    decreases |before|
  {
    if before == [] {
      assert ([Some(input)] + after)[0] == Some(input);
    } else {
      assert (before + [Some(input)] + after)[1..] == before[1..] + [Some(input)] + after;
      assert (before + [Some(input)])[1..] == before[1..] + [Some(input)];
      match before[0]
      case None => ExitEndsConversation(before[1..], input, after, ask, c);
      case Some(said) =>
        if said == Unclear {
          ExitEndsConversation(before[1..], input, after, ask, c.(spoken := c.spoken + [RepeatPrompt]));
        } else if !WantsToLeave(said) {
          var answer := AiResponse(ask(|c.asked|, Prompt(said)));
          var next := Chat(c.spoken + [answer], c.asked + [said], Listening);
          if |next.asked| < MaxConversations {
            ExitEndsConversation(before[1..], input, after, ask, next);
          }
        }
    }
  }

  /** The inputs with the silences (None) removed. */
  function Heard(heard: seq<Option<string>>): seq<Option<string>>
    decreases |heard|
  {
    if heard == [] then []
    else if heard[0].None? then Heard(heard[1..])
    else [heard[0]] + Heard(heard[1..])
  }

  /** Silence is skipped without a word and without counting: dropping every None changes nothing. */
  lemma {:induction false} SilenceIgnored(heard: seq<Option<string>>, ask: (nat, string) -> ApiReply, c: Chat)
    requires c.ending == Listening && |c.asked| < MaxConversations
    ensures Converse(Heard(heard), ask, c) == Converse(heard, ask, c)
    decreases |heard|
  {
    if heard != [] {
      var rest := Heard(heard[1..]);
      if heard[0].None? {
        SilenceIgnored(heard[1..], ask, c);
      } else {
        assert ([heard[0]] + rest)[0] == heard[0] && ([heard[0]] + rest)[1..] == rest;
        var input := heard[0].value;
        if input == Unclear {
          SilenceIgnored(heard[1..], ask, c.(spoken := c.spoken + [RepeatPrompt]));
        } else if !WantsToLeave(input) {
          var answer := AiResponse(ask(|c.asked|, Prompt(input)));
          var next := Chat(c.spoken + [answer], c.asked + [input], Listening);
          if |next.asked| < MaxConversations {
            SilenceIgnored(heard[1..], ask, next);
          }
        }
      }
    }
  }

  /** An ordinary question is sent once, as question number |asked|; its answer is spoken
      and the count grows by one. At the twentieth question the closing remark follows
      and the loop ends; before that, listening goes on. */
  lemma QuestionAnswered(q: string, rest: seq<Option<string>>, ask: (nat, string) -> ApiReply, c: Chat)
    requires c.ending == Listening && |c.asked| < MaxConversations
    requires IsQuestion(q)
    ensures var answer := AiResponse(ask(|c.asked|, Prompt(q)));
            Converse([Some(q)] + rest, ask, c) ==
              if |c.asked| + 1 >= MaxConversations then
                Chat(c.spoken + [answer, LimitReached], c.asked + [q], ReachedLimit)
              else
                Converse(rest, ask, Chat(c.spoken + [answer], c.asked + [q], Listening))
  {
    assert ([Some(q)] + rest)[0] == Some(q);
    assert ([Some(q)] + rest)[1..] == rest;
  }

  /** "unclear" is answered with one repeat prompt, and the count does not change. */
  lemma UnclearRepeats(heard: seq<Option<string>>, ask: (nat, string) -> ApiReply, c: Chat)
    requires c.ending == Listening && |c.asked| < MaxConversations
    ensures Converse([Some(Unclear)] + heard, ask, c) ==
            Converse(heard, ask, c.(spoken := c.spoken + [RepeatPrompt]))
  {
    assert ([Some(Unclear)] + heard)[1..] == heard;
  }

  /** The conversation as `main` starts it: greeting spoken, nothing asked. */
  const Start: Chat := Chat([Greeting], [], Listening)

  /** `main`'s loop, over the results of `listen` until it is interrupted. */
  method ChatLoop(heard: seq<Option<string>>, ask: (nat, string) -> ApiReply) returns (chat: Chat)
    ensures chat == Converse(heard, ask, Start)
    ensures |chat.asked| <= MaxConversations
  {
    var spoken := [Greeting];
    var asked: seq<string> := [];
    var conversationCount := 0;
    var i := 0;
    while i < |heard|
      invariant 0 <= i <= |heard|
      invariant conversationCount == |asked| < MaxConversations
      invariant Converse(heard[i..], ask, Chat(spoken, asked, Listening)) == Converse(heard, ask, Start)
    {
      var userInput := heard[i];
      assert heard[i..][1..] == heard[i + 1..];
      i := i + 1;
      if userInput.None? {
        continue;
      }
      var input := userInput.value;
      if input == Unclear {
        spoken := spoken + [RepeatPrompt];
        continue;
      }
      if WantsToLeave(input) {
        chat := Chat(spoken + [Farewell], asked, SaidGoodbye);
        return;
      }
      var response := AiResponse(ask(conversationCount, Prompt(input)));
      spoken := spoken + [response];
      asked := asked + [input];
      conversationCount := conversationCount + 1;
      if conversationCount >= MaxConversations {
        chat := Chat(spoken + [LimitReached], asked, ReachedLimit);
        return;
      }
    }
    chat := Chat(spoken, asked, Listening);
  }
}
