/** The assistant panel (`AIAssistantModal`): its conversation log, the
    question being typed, the typing indicator, and the replies still waiting
    on their timer. */
module Assistant {
  import opened Wrappers
  import opened Text
  import opened Navigation
  import opened KnowledgeBase

  /** `'user'` and `'ai'` in the source. */
  datatype Sender = Learner | Ai

  datatype Message = Message(sender: Sender, text: string)

  const Fallback := "I'm not sure how to answer that. Try asking about a specific term or for an 'example'."

  // ------------------------------------------------------------ rule search

  /** The position of the first rule, in declaration order, whose key occurs in
      `lowerInput`; `|rules|` when none does. */
  function MatchIndex(rules: seq<(string, string)>, lowerInput: string): (k: nat)
    ensures k <= |rules|
    ensures k < |rules| ==> Contains(lowerInput, rules[k].0)
    ensures forall j :: 0 <= j < k ==> !Contains(lowerInput, rules[j].0)
    decreases |rules|
  {
    if |rules| == 0 then 0
    else if Contains(lowerInput, rules[0].0) then 0
    else 1 + MatchIndex(rules[1..], lowerInput)
  }

  /** The answer to an (already lower-cased) question: always one of the
      rules' answers or the fallback, and the answer of a rule whose key
      occurs in the question whenever some key does. */
  function Reply(rules: seq<(string, string)>, lowerInput: string): (r: string)
    ensures r == Fallback || exists k :: 0 <= k < |rules| && r == rules[k].1
    ensures (exists j :: 0 <= j < |rules| && Contains(lowerInput, rules[j].0)) ==>
      exists k :: 0 <= k < |rules| && Contains(lowerInput, rules[k].0) && r == rules[k].1
  {
    var k := MatchIndex(rules, lowerInput);
    if k < |rules| then rules[k].1 else Fallback
  }

  /** The reply is the answer of the first rule whose key occurs in the input,
      however many later keys occur as well. */
  lemma ReplyIsFirstMatch(rules: seq<(string, string)>, lowerInput: string, k: nat)
    requires k < |rules| && Contains(lowerInput, rules[k].0)
    requires forall j :: 0 <= j < k ==> !Contains(lowerInput, rules[j].0)
    ensures Reply(rules, lowerInput) == rules[k].1
  {
  }

  /** With no key in the input the reply is the fixed fallback. */
  lemma ReplyWithoutMatch(rules: seq<(string, string)>, lowerInput: string)
    requires forall j :: 0 <= j < |rules| ==> !Contains(lowerInput, rules[j].0)
    ensures Reply(rules, lowerInput) == Fallback
  {
  }

  /** The `for…in` scan over the rule keys, left at the first key that occurs. */
  method SelectResponse(rules: seq<(string, string)>, lowerInput: string) returns (response: string)
    ensures response == Reply(rules, lowerInput)
  {
    response := Fallback;
    var i := 0;
    while i < |rules|
      invariant 0 <= i <= |rules|
      invariant forall j :: 0 <= j < i ==> !Contains(lowerInput, rules[j].0)
      invariant response == Fallback
    {
      if Contains(lowerInput, rules[i].0) {
        response := rules[i].1;
        ReplyIsFirstMatch(rules, lowerInput, i);
        return;
      }
      i := i + 1;
    }
    ReplyWithoutMatch(rules, lowerInput);
  }

  /** In the HTML topic a question naming both `div` and `example` gets the
      `div` answer, because that rule is declared first. */
  lemma HtmlDivWins(lowerInput: string)
    requires Contains(lowerInput, "div")
    ensures Reply(HtmlConfig.rules, lowerInput) == DivAnswer
  {
    ReplyIsFirstMatch(HtmlConfig.rules, lowerInput, 0);
  }

  /** The example answer comes exactly when `example` occurs and `div` does not. */
  lemma HtmlExampleOnlyWithoutDiv(lowerInput: string)
    ensures Reply(HtmlConfig.rules, lowerInput) == ExampleAnswer
        <==> !Contains(lowerInput, "div") && Contains(lowerInput, "example")
  {
    assert |DivAnswer| != |ExampleAnswer| && |Fallback| != |ExampleAnswer|;
    if Contains(lowerInput, "div") {
      HtmlDivWins(lowerInput);
    } else if Contains(lowerInput, "example") {
      ReplyIsFirstMatch(HtmlConfig.rules, lowerInput, 1);
    } else {
      HtmlFallback(lowerInput);
    }
  }

  lemma HtmlFallback(lowerInput: string)
    requires !Contains(lowerInput, "div") && !Contains(lowerInput, "example")
    ensures Reply(HtmlConfig.rules, lowerInput) == Fallback
  {
    ReplyWithoutMatch(HtmlConfig.rules, lowerInput);
  }

  /** Only the key `python` is known outside the HTML tutorial. */
  lemma DefaultReply(lowerInput: string)
    ensures Reply(DefaultConfig.rules, lowerInput)
         == if Contains(lowerInput, "python") then PythonAnswer else Fallback
  {
    if Contains(lowerInput, "python") {
      ReplyIsFirstMatch(DefaultConfig.rules, lowerInput, 0);
    } else {
      ReplyWithoutMatch(DefaultConfig.rules, lowerInput);
    }
  }

  /** Keys are matched against the lower-cased question but are not
      lower-cased themselves, so a key with a capital letter never matches. */
  lemma CapitalisedKeyNeverMatches(key: string, answer: string, question: string, rules: seq<(string, string)>)
    requires exists i :: 0 <= i < |key| && 'A' <= key[i] <= 'Z'
    ensures Reply([(key, answer)] + rules, Lower(question)) == Reply(rules, Lower(question))
  {
    var lowerInput := Lower(question);
    UpperKeyAbsent(key, lowerInput);
    var extended := [(key, answer)] + rules;
    assert extended[1..] == rules;
    assert MatchIndex(extended, lowerInput) == 1 + MatchIndex(rules, lowerInput);
  }

  /** A key with an upper-case letter occurs in no string free of them. */
  lemma UpperKeyAbsent(key: string, lowerInput: string)
    requires exists i :: 0 <= i < |key| && 'A' <= key[i] <= 'Z'
    requires forall j :: 0 <= j < |lowerInput| ==> !('A' <= lowerInput[j] <= 'Z')
    ensures !Contains(lowerInput, key)
  {
    var i :| 0 <= i < |key| && 'A' <= key[i] <= 'Z';
    forall k | 0 <= k && k + |key| <= |lowerInput|
      ensures !OccursAt(key, lowerInput, k)
    {
      assert lowerInput[k..k + |key|][i] == lowerInput[k + i];
    }
  }

  // ------------------------------------------------------------ seeding

  /** `user?.name || 'there'`: an absent or empty name reads as "there". */
  function DisplayName(userName: Option<string>): (r: string)
    ensures r != ""
    ensures userName.Some? && userName.value != "" ==> r == userName.value
    ensures !(userName.Some? && userName.value != "") ==> r == "there"
  {
    if userName.Some? && userName.value != "" then userName.value else "there"
  }

  /** The two assistant messages a freshly opened panel starts with: the
      personal greeting, then all tips in one message. */
  function SeedLog(userName: Option<string>, config: TopicConfig): (log: seq<Message>)
    ensures |log| == 2 && log[0].sender == Ai && log[1].sender == Ai
    ensures log[0].text == "Hello " + DisplayName(userName) + "! " + config.greeting
    ensures log[1].text == Join(config.tips, "\n\n")
  {
    [ Message(Ai, "Hello " + DisplayName(userName) + "! " + config.greeting),
      Message(Ai, Join(config.tips, "\n\n")) ]
  }

  /** No tip is lost: each appears verbatim in the second seed message. */
  lemma SeedLogHasEveryTip(userName: Option<string>, config: TopicConfig, i: nat)
    requires i < |config.tips|
    ensures Occurs(config.tips[i], SeedLog(userName, config)[1].text)
  {
    JoinContainsEach(config.tips, "\n\n", i);
  }

  /** The HTML topic's tips message is its two tips, one blank line apart. */
  lemma HtmlTipsMessage(userName: Option<string>)
    ensures SeedLog(userName, HtmlConfig)[1].text
         == HtmlConfig.tips[0] + "\n\n" + HtmlConfig.tips[1]
  {
    assert HtmlConfig.tips[1..] == [HtmlConfig.tips[1]];
  }

  // ------------------------------------------------------------ the panel

  /** A reply whose timer is running: the question as it was when sent, and
      the configuration of the page it was sent from. */
  datatype PendingReply = PendingReply(input: string, config: TopicConfig)

  class AssistantModal {
    var messages: seq<Message>
    var input: string
    var isTyping: bool
    /** The reply timers not yet fired, oldest first; they all have the same
        delay, so they fire in this order. */
    var timers: seq<PendingReply>

    /** The typing indicator is never shown without a reply on its way. */
    ghost predicate Valid()
      reads this
    {
      isTyping ==> timers != []
    }

    constructor ()
      ensures Valid()
      ensures messages == [] && input == "" && !isTyping && timers == []
    {
      messages, input, isTyping, timers := [], "", false, [];
    }

    /** The input box's `onChange`. */
    method SetInput(text: string)
      requires Valid()
      modifies this
      ensures Valid()
      ensures input == text
      ensures messages == old(messages) && isTyping == old(isTyping) && timers == old(timers)
    {
      input := text;
    }

    /** The seeding effect's body: an open panel starts over with the two
        seed messages of the page's topic; a closed one is left alone. */
    method Seed(isOpen: bool, userName: Option<string>, page: Page)
      requires Valid()
      modifies this
      ensures Valid()
      ensures messages == if isOpen then SeedLog(userName, ResolveConfig(TopicId(page))) else old(messages)
      ensures input == old(input) && isTyping == old(isTyping) && timers == old(timers)
    {
      if isOpen {
        var config := ResolveConfig(TopicId(page));
        messages := SeedLog(userName, config);
      }
    }

    /** `handleSend`, under the configuration `config` of the page it is sent
        from: a blank question is ignored; otherwise it is logged as typed, the
        box is cleared, the indicator comes on and a reply timer starts. */
    method Send(config: TopicConfig)
      requires Valid()
      modifies this
      ensures Valid()
      ensures AllWhitespace(old(input)) ==>
        messages == old(messages) && input == old(input)
        && isTyping == old(isTyping) && timers == old(timers)
      ensures !AllWhitespace(old(input)) ==>
        && messages == old(messages) + [Message(Learner, old(input))]
        && input == ""
        && isTyping
        && timers == old(timers) + [PendingReply(old(input), config)]
    {
      var blank := BlankInput();
      if blank {
        return;
      }
      messages := messages + [Message(Learner, input)];
      timers := timers + [PendingReply(input, config)];
      input := "";
      isTyping := true;
    }

    /** `!input.trim()`. */
    method BlankInput() returns (blank: bool)
      ensures blank <==> AllWhitespace(input)
    {
      blank := IsBlank(input);
    }

    /** The body of the oldest reply timer: the answer to the question it
        captured is appended, and the indicator goes off. */
    method Deliver()
      requires Valid() && timers != []
      modifies this
      ensures Valid()
      ensures messages == old(messages) + [Message(Ai, Reply(old(timers[0]).config.rules, Lower(old(timers[0]).input)))]
      ensures !isTyping && timers == old(timers[1..]) && input == old(input)
    {
      var pending := timers[0];
      timers := timers[1..];
      var lowerInput := Lower(pending.input);
      var response := SelectResponse(pending.config.rules, lowerInput);
      messages := messages + [Message(Ai, response)];
      isTyping := false;
    }
  }
}
