/** The assistant chat window: the message list, the send guard, and the reply
    typed out one character per tick. */
module Chat {
  import opened Text
  import opened Seqs

  datatype Sender = Bot | Person

  /** A message as shown; ids and timestamps are left out. */
  datatype Message = Message(sender: Sender, content: string)

  const Greeting := "👋 Olá! Eu sou sua Assistente IA Jurídica. Posso ajudá-lo a:\n\n📖 Explicar conceitos jurídicos complexos\n📝 Resumir legislações e artigos\n🔍 Esclarecer dúvidas sobre direito\n📚 Orientar sobre estudos\n\nComo posso ajudá-lo hoje?"

  const Reply := "Obrigada pela sua pergunta! 😊 Esta é uma versão demonstrativa. Em breve terei acesso completo para te ajudar com suas dúvidas jurídicas. Continue estudando! 📚✨"

  /** A message the guard lets through: not blank after trimming, that is,
      holding a character that is not whitespace. */
  predicate Sendable(text: string)
    ensures Sendable(text) <==> !AllWhitespace(text)
  {
    BlankIffAllWhitespace(text);
    !IsBlank(text)
  }

  /** The send button's `disabled`. */
  predicate SendDisabled(isTyping: bool, input: string) {
    isTyping || !Sendable(input)
  }

  /** The conversation after the person has submitted `inputs` in turn, each
      reply completing before the next submission: the opening message, then
      for each sendable input that input and the reply. */
  function Conversation(opening: string, reply: string, inputs: seq<string>): (c: seq<Message>)
    ensures |c| % 2 == 1
    decreases |inputs|
  {
    if inputs == [] then [Message(Bot, opening)]
    else
      var last := inputs[|inputs| - 1];
      Conversation(opening, reply, inputs[..|inputs| - 1])
      + (if Sendable(last) then [Message(Person, last), Message(Bot, reply)] else [])
  }

  /** The window's own conversation: the greeting, then the sent inputs each
      followed by the fixed reply. */
  function Transcript(inputs: seq<string>): (t: seq<Message>)
    ensures PersonTexts(t) == Filter(inputs, Sendable)
    ensures |t| % 2 == 1 && t[0] == Message(Bot, Greeting)
    ensures forall k | 0 <= k && 2 * k + 2 < |t| ::
      t[2 * k + 1].sender == Person && t[2 * k + 2] == Message(Bot, Reply)
  {
    var c := Conversation(Greeting, Reply, inputs);
    ConversationKeepsSentInputs(Greeting, Reply, inputs);
    ConversationAlternates(Greeting, Reply, inputs);
    assert PersonTexts(c) == Filter(inputs, Sendable);
    c
  }

  /** The contents of the person's messages, in order. */
  function PersonTexts(ms: seq<Message>): seq<string>
    decreases |ms|
  {
    if ms == [] then []
    else PersonTexts(ms[..|ms| - 1]) + (if ms[|ms| - 1].sender == Person then [ms[|ms| - 1].content] else [])
  }

  lemma {:induction false} PersonTextsAppend(a: seq<Message>, b: seq<Message>)
    ensures PersonTexts(a + b) == PersonTexts(a) + PersonTexts(b)
    decreases |b|
  {
    if b == [] {
      assert a + b == a;
    } else {
      var init := b[..|b| - 1];
      assert (a + b)[..|a + b| - 1] == a + init;
      assert (a + b)[|a + b| - 1] == b[|b| - 1];
      PersonTextsAppend(a, init);
    }
  }

  /** The person's messages in the two messages a sendable input adds. */
  lemma PersonTextsOfExchange(text: string, reply: string)
    ensures PersonTexts([Message(Person, text), Message(Bot, reply)]) == [text]
  {
    var pair := [Message(Person, text), Message(Bot, reply)];
    assert pair[..1] == [Message(Person, text)];
    assert [Message(Person, text)][..0] == [];
    assert PersonTexts([Message(Person, text)]) == [text];
  }

  /** What the person sees as their own messages are exactly the inputs the
      guard let through, in the order they were sent. */
  lemma {:induction false} ConversationKeepsSentInputs(opening: string, reply: string, inputs: seq<string>)
    ensures PersonTexts(Conversation(opening, reply, inputs)) == Filter(inputs, Sendable)
    decreases |inputs|
  {
    if inputs == [] {
      assert [Message(Bot, opening)][..0] == [];
    } else {
      var init, last := inputs[..|inputs| - 1], inputs[|inputs| - 1];
      ConversationKeepsSentInputs(opening, reply, init);
      var tail := if Sendable(last) then [Message(Person, last), Message(Bot, reply)] else [];
      PersonTextsAppend(Conversation(opening, reply, init), tail);
      if Sendable(last) {
        PersonTextsOfExchange(last, reply);
      }
      assert inputs == init + [last];
      FilterAppend(init, [last], Sendable);
      assert [last][1..] == [];
    }
  }

  /** The opening message comes first, and after it the person and the
      assistant alternate, every answer being the reply. */
  lemma {:induction false} ConversationAlternates(opening: string, reply: string, inputs: seq<string>)
    ensures Conversation(opening, reply, inputs)[0] == Message(Bot, opening)
    ensures forall k | 0 <= k && 2 * k + 2 < |Conversation(opening, reply, inputs)| ::
      && Conversation(opening, reply, inputs)[2 * k + 1].sender == Person
      && Conversation(opening, reply, inputs)[2 * k + 2] == Message(Bot, reply)
    decreases |inputs|
  {
    if inputs != [] {
      var init, last := inputs[..|inputs| - 1], inputs[|inputs| - 1];
      ConversationAlternates(opening, reply, init);
      var before := Conversation(opening, reply, init);
      var c := Conversation(opening, reply, inputs);
      var n := |before| / 2;
      assert |before| == 2 * n + 1;
      forall k | 0 <= k && 2 * k + 2 < |c|
        ensures c[2 * k + 1].sender == Person && c[2 * k + 2] == Message(Bot, reply)
      {
        if k < n {
          assert c[2 * k + 1] == before[2 * k + 1] && c[2 * k + 2] == before[2 * k + 2];
        } else {
          assert k == n && Sendable(last);
          assert c[2 * k + 1] == Message(Person, last);
        }
      }
    }
  }

  /** The window's state. */
  class ChatState {
    var messages: seq<Message>
    var input: string
    var isTyping: bool
    var typingMessage: string

    constructor ()
      ensures messages == [Message(Bot, Greeting)] && input == "" && !isTyping && typingMessage == ""
    {
      messages := [Message(Bot, Greeting)];
      input := "";
      isTyping := false;
      typingMessage := "";
    }

    /** The input's `onChange`. */
    method SetInput(text: string)
      modifies this
      ensures input == text && messages == old(messages) && isTyping == old(isTyping)
      ensures typingMessage == old(typingMessage)
    {
      input := text;
    }

    /** `handleSendMessage`: a blank input changes nothing; otherwise the input
        is appended as the person's message and cleared. */
    method Send() returns (sent: bool)
      modifies this
      ensures sent <==> Sendable(old(input))
      ensures !sent ==> messages == old(messages) && input == old(input)
      ensures sent ==> messages == old(messages) + [Message(Person, old(input))] && input == ""
      ensures isTyping == old(isTyping) && typingMessage == old(typingMessage)
    {
      if !Sendable(input) {
        return false;
      }
      messages := messages + [Message(Person, input)];
      input := "";
      return true;
    }

    /** `typeMessage(content)`: the typing text grows by one character per
        tick until it is the whole content, then typing stops. */
    method TypeMessage(content: string)
      modifies this
      ensures typingMessage == content && !isTyping
      ensures messages == old(messages) && input == old(input)
    {
      isTyping := true;
      typingMessage := "";
      var index := 0;
      while index < |content|
        invariant 0 <= index <= |content|
        invariant typingMessage == content[..index]
        invariant isTyping && messages == old(messages) && input == old(input)
      {
        typingMessage := typingMessage + [content[index]];
        index := index + 1;
      }
      isTyping := false;
    }

    /** The timed reply: type the fixed text, then append it as the
        assistant's message and clear the typing text. */
    method Answer()
      modifies this
      ensures messages == old(messages) + [Message(Bot, Reply)]
      ensures typingMessage == "" && !isTyping && input == old(input)
    {
      TypeMessage(Reply);
      messages := messages + [Message(Bot, Reply)];
      typingMessage := "";
    }
  }

  /** A whole session: each input is typed and sent, and every sent message is
      answered before the next input. The window then shows `Transcript`. */
  method Converse(inputs: seq<string>) returns (chat: ChatState)
    ensures chat.messages == Transcript(inputs)
    ensures chat.input == "" || (|inputs| > 0 && !Sendable(inputs[|inputs| - 1]) && chat.input == inputs[|inputs| - 1])
    ensures !chat.isTyping && chat.typingMessage == ""
  {
    chat := new ChatState();
    var k := 0;
    while k < |inputs|
      invariant 0 <= k <= |inputs|
      invariant chat.messages == Transcript(inputs[..k])
      invariant chat.input == "" || (k > 0 && !Sendable(inputs[k - 1]) && chat.input == inputs[k - 1])
      invariant !chat.isTyping && chat.typingMessage == ""
    {
      chat.SetInput(inputs[k]);
      var sent := chat.Send();
      if sent {
        chat.Answer();
      }
      assert inputs[..k + 1][..k] == inputs[..k];
      k := k + 1;
    }
    assert inputs[..k] == inputs;
  }

  /** A closed window renders nothing; an open one shows the messages and,
      while typing, the typing bubble. */
  datatype ChatView = Closed | Open(messages: seq<Message>, typingBubble: bool, typingText: string, sendDisabled: bool)

  function Render(isOpen: bool, chat: ChatState): (v: ChatView)
    reads chat
    ensures !isOpen <==> v == Closed
  {
    if !isOpen then Closed
    else Open(chat.messages, chat.isTyping, chat.typingMessage, SendDisabled(chat.isTyping, chat.input))
  }

  /** The send button is live exactly when no reply is being typed and the
      input is not blank. */
  lemma SendEnabledIff(isTyping: bool, input: string)
    ensures !SendDisabled(isTyping, input) <==> !isTyping && exists i | 0 <= i < |input| :: !IsWhitespace(input[i])
  {
    BlankIffAllWhitespace(input);
  }
}
