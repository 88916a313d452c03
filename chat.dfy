/**
  The safety-assistant chat: a log of numbered messages that starts with the
  bot's greeting, a fixed answer for each of four quick questions and a
  default answer for anything else, and the two ways of asking — typing a
  message, which is ignored when it is blank, and picking a quick question.
*/
module Chat {
  import opened Text

  datatype Sender = User | Bot

  /** One message of the log; the time it was sent is not modelled. */
  datatype Message = Message(id: nat, sender: Sender, content: string)

  const Greeting := "Hello! I'm your AI Coastal Safety Assistant. Ask me about current threats, evacuation centers, or safety recommendations."

  /** The questions offered as buttons. */
  const QuickQuestions: seq<string> := [
    "Am I safe to fish today?",
    "Where is the nearest evacuation center?",
    "What's the current cyclone risk?",
    "Show me safe swimming areas"
  ]

  /** The bot's answers, one per quick question and a default one. */
  datatype Answer = SafeToFish | NearestShelter | NoCycloneRisk | SwimmingAreas | StillLearning

  function AnswerText(a: Answer): string
  {
    match a
    case SafeToFish => "Fishing conditions are safe today. No warnings reported."
    case NearestShelter => "The nearest evacuation center is at 5th Avenue, Coastal Shelter, 24/7 operation."
    case NoCycloneRisk => "Currently, there is no cyclone risk in your area. Conditions are calm."
    case SwimmingAreas => "Safe swimming areas today: North Beach and South Bay. No rip currents detected."
    case StillLearning => "I'm still learning, but I can help with safety-related questions! Try asking about coastal conditions or evacuation centers."
  }

  /** `getBotResponse`: an exact match on the quick questions, otherwise the default answer. */
  function BotResponse(question: string): Answer
  {
    if question == QuickQuestions[0] then SafeToFish
    else if question == QuickQuestions[1] then NearestShelter
    else if question == QuickQuestions[2] then NoCycloneRisk
    else if question == QuickQuestions[3] then SwimmingAreas
    else StillLearning
  }

  /**
    The quick questions get the four specific answers, in order, and a
    question gets a specific answer exactly when it is one of them.
  */
  lemma QuickQuestionsAnswered(question: string)
    ensures BotResponse(QuickQuestions[0]) == SafeToFish
    ensures BotResponse(QuickQuestions[1]) == NearestShelter
    ensures BotResponse(QuickQuestions[2]) == NoCycloneRisk
    ensures BotResponse(QuickQuestions[3]) == SwimmingAreas
    ensures BotResponse(question) != StillLearning <==> question in QuickQuestions
  {
    assert QuickQuestions[0][0] == 'A' && QuickQuestions[1][0] == 'W' && QuickQuestions[2][0] == 'W' && QuickQuestions[3][0] == 'S';
    assert QuickQuestions[1][1] == 'h' && QuickQuestions[2][1] == 'h' && QuickQuestions[1][2] != QuickQuestions[2][2];
    if question in QuickQuestions {
      var i :| 0 <= i < |QuickQuestions| && QuickQuestions[i] == question;
      assert i in {0, 1, 2, 3};
    }
  }

  /** A question and its answer, numbered after the `n` messages already in the log. */
  function Exchange(n: nat, question: string): seq<Message>
  {
    [Message(n + 1, User, question), Message(n + 2, Bot, AnswerText(BotResponse(question)))]
  }

  /** Message `i` of the log has id `i + 1`. */
  predicate Numbered(messages: seq<Message>)
  {
    forall i :: 0 <= i < |messages| ==> messages[i].id == i + 1
  }

  /** Appending an exchange keeps the log numbered one by one. */
  lemma ExchangeKeepsNumbering(messages: seq<Message>, question: string)
    requires Numbered(messages)
    ensures Numbered(messages + Exchange(|messages|, question))
    ensures |messages + Exchange(|messages|, question)| == |messages| + 2
  {
  }

  /** `!message.trim()`: the message is empty or only white space. */
  predicate Blank(message: string)
  {
    forall i :: 0 <= i < |message| ==> IsJsWhitespace(message[i])
  }

  class ChatWidget {
    var isOpen: bool
    /** The text in the input field. */
    var message: string
    var messages: seq<Message>

    ghost predicate Valid()
      reads this`messages
    {
      Numbered(messages)
    }

    /** Closed, with an empty input and the greeting as message 1. */
    constructor()
      ensures Valid()
      ensures messages == [Message(1, Bot, Greeting)] && message == "" && !isOpen
    {
      isOpen := false;
      message := "";
      messages := [Message(1, Bot, Greeting)];
    }

    /** The chat button opens a closed panel and closes an open one. */
    method Toggle()
      modifies this`isOpen
      ensures isOpen == !old(isOpen)
    {
      isOpen := !isOpen;
    }

    /** Typing into the input field. */
    method Type(text: string)
      modifies this`message
      ensures message == text
    {
      message := text;
    }

    /**
      `handleSendMessage`: a blank message changes nothing; otherwise the
      typed text and the bot's answer to it are appended with the next two
      ids, and the input is cleared.
    */
    method SendMessage()
      requires Valid()
      modifies this`messages, this`message
      ensures Valid()
      ensures Blank(old(message)) ==> messages == old(messages) && message == old(message)
      ensures !Blank(old(message)) ==>
        && messages == old(messages) + Exchange(|old(messages)|, old(message))
        && message == ""
    {
      TrimEmptyIffAllWhitespace(message);
      if Trim(message) == "" {
        return;
      }
      var n := |messages|;
      var question := Message(n + 1, User, message);
      var reply := Message(n + 2, Bot, AnswerText(BotResponse(message)));
      ExchangeKeepsNumbering(messages, message);
      messages := messages + [question, reply];
      message := "";
    }

    /**
      `handleQuickQuestion`: the question goes into the input field and,
      with no blank check, the question and its answer are appended with
      the next two ids.
    */
    method QuickQuestion(question: string)
      requires Valid()
      modifies this`messages, this`message
      ensures Valid()
      ensures messages == old(messages) + Exchange(|old(messages)|, question)
      ensures message == question
    {
      message := question;
      var n := |messages|;
      ExchangeKeepsNumbering(messages, question);
      messages := messages + [Message(n + 1, User, question), Message(n + 2, Bot, AnswerText(BotResponse(question)))];
    }
  }

  /** The ids of a numbered log are distinct. */
  lemma NumberedIdsDistinct(messages: seq<Message>, i: int, j: int)
    requires Numbered(messages) && 0 <= i < j < |messages|
    ensures messages[i].id != messages[j].id
  {
  }
}
