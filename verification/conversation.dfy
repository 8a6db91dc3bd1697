/** The per-session state of the support chat: the transcript, the feedback log and the
    latest ticket, and what one run of the page does to them. */
module Conversation {
  import opened Wrappers
  import opened Catalog
  import opened Text
  import opened Document
  import opened Context

  datatype Vote = Up | Down

  /** One thumbs-up or thumbs-down on a reply. */
  datatype FeedbackEntry = FeedbackEntry(message: string, vote: Vote, timestamp: string)

  /** The record derived from the most recent exchange. */
  datatype Ticket = Ticket(intent: string, timestamp: string, userQuery: string, botReply: string, summary: string)

  /** The current time as a run reads it: ISO form for feedback, display form for the ticket. */
  datatype Clock = Clock(iso: string, display: string)

  /** What triggered a run of the page: a submitted chat text, a click on one of the two
      voting buttons, or any other interaction (selecting an intent, uploading a file). */
  datatype Event = Submit(text: string) | ThumbUp | ThumbDown | Other

  /** What a completed turn sent for the reply and what came back. */
  datatype Exchange = Exchange(context: seq<Message>, reply: string)

  const ReplyModel := "llama3-70b-8192"
  const SummaryModel := "llama3-8b-8192"
  const SummaryInstruction := "Summarize the user's question and the assistant's answer in 1-2 lines."

  /** The transcript right after the intent `name` is selected afresh. */
  function Initial(name: string): seq<Message>
    requires name in Intents
  {
    [Message(System, Intents[name].system), Message(Assistant, Intents[name].defaultReply)]
  }

  /** The transcript after the reset check for the selected intent: replaced by the
      initial transcript exactly when its first message is not the intent's prompt. */
  function Reconciled(m: seq<Message>, name: string): (r: seq<Message>)
    requires |m| >= 1 && name in Intents
    ensures |r| >= 1 && r[0].content == Intents[name].system
    ensures r == m || r == Initial(name)
  {
    if m[0].content != Intents[name].system then Initial(name) else m
  }

  /** The check leaves the transcript alone exactly when its first message already holds
      the selected prompt. */
  lemma ReconciledKeepsIff(m: seq<Message>, name: string)
    requires |m| >= 1 && name in Intents
    ensures Reconciled(m, name) == m <==> m[0].content == Intents[name].system
  {
  }

  /** Running the check twice with the same selection changes nothing the second time. */
  lemma ReconciledIdempotent(m: seq<Message>, name: string)
    requires |m| >= 1 && name in Intents
    ensures Reconciled(Reconciled(m, name), name) == Reconciled(m, name)
  {
  }

  /** A transcript started for one intent is reset whenever another intent is selected. */
  lemma SwitchingIntentResets(m: seq<Message>, from: string, to: string)
    requires |m| >= 1 && from in Intents && to in Intents
    requires m[0].content == Intents[from].system && from != to
    ensures Reconciled(m, to) == Initial(to)
  {
    PromptsDistinct();
  }

  /** After the first greeting, user and assistant messages alternate in whole turns. */
  ghost predicate Alternates(m: seq<Message>) {
    |m| % 2 == 0 && forall i :: 2 <= i < |m| ==> m[i].role == (if i % 2 == 0 then User else Assistant)
  }

  /** A completed turn keeps the alternation. */
  lemma AlternatesAfterTurn(m: seq<Message>, query: string, reply: string)
    requires Alternates(m)
    ensures Alternates(m + [Message(User, query), Message(Assistant, reply)])
  {
  }

  /** The two-message request for a ticket summary, built from this turn alone: the
      instruction, then the query and the reply labelled "User: " and "\nAssistant: ". */
  function SummaryPrompt(query: string, reply: string): (p: seq<Message>)
    ensures |p| == 2 && p[0] == Message(System, SummaryInstruction) && p[1].role == User
    ensures |p[1].content| == |query| + |reply| + 18
    ensures p[1].content[..6] == "User: " && p[1].content[6..6 + |query|] == query
    ensures p[1].content[6 + |query|..|query| + 18] == "\nAssistant: "
    ensures p[1].content[|query| + 18..] == reply
  {
    [Message(System, SummaryInstruction), Message(User, "User: " + query + "\nAssistant: " + reply)]
  }

  /** The feedback entries that the two buttons of one reply add, in button order. */
  function Votes(reply: string, up: bool, down: bool, timestamp: string): seq<FeedbackEntry> {
    (if up then [FeedbackEntry(reply, Up, timestamp)] else []) +
    (if down then [FeedbackEntry(reply, Down, timestamp)] else [])
  }

  class Session {
    var messages: seq<Message>
    var feedback: seq<FeedbackEntry>
    var ticket: Option<Ticket>

    /** The transcript opens with a catalog prompt as system message and an assistant greeting. */
    ghost predicate Valid()
      reads this
    {
      |messages| >= 2 && messages[0].role == System && messages[0].content in Prompts()
      && messages[1].role == Assistant
    }

    /** The state a session starts with on its first run, for the intent then selected. */
    constructor (name: string)
      requires name in Intents
      ensures Valid() && Alternates(messages)
      ensures messages == Initial(name) && feedback == [] && ticket == None
    {
      messages := Initial(name);
      feedback := [];
      ticket := None;
    }

    /** The reset check against the selected intent. */
    method SelectIntent(name: string)
      requires Valid() && name in Intents
      modifies this
      ensures Valid()
      ensures messages == Reconciled(old(messages), name)
      ensures messages[0] == Message(System, Intents[name].system)
      ensures feedback == old(feedback) && ticket == old(ticket)
    {
      if messages[0].content != Intents[name].system {
        messages := Initial(name);
      }
    }

    method AppendUser(text: string)
      requires Valid()
      modifies this
      ensures Valid()
      ensures messages == old(messages) + [Message(User, text)]
      ensures feedback == old(feedback) && ticket == old(ticket)
    {
      messages := messages + [Message(User, text)];
    }

    method AppendAssistant(text: string)
      requires Valid()
      modifies this
      ensures Valid()
      ensures messages == old(messages) + [Message(Assistant, text)]
      ensures feedback == old(feedback) && ticket == old(ticket)
    {
      messages := messages + [Message(Assistant, text)];
    }

    /** Copies the transcript and inserts at index 1 the language directive, then (for a
        non-empty document) the document message; the stored transcript is not touched. */
    method BuildContext(lang: string, text: string) returns (ctx: seq<Message>)
      requires Valid()
      ensures ctx == Assembled(messages, lang, text)
    {
      ctx := messages;
      ctx := Insert(ctx, 1, LanguageDirective(lang));
      if text != "" {
        ctx := Insert(ctx, 1, DocumentMessage(text));
      }
    }

    /** Records one vote; repeated votes on the same reply are all kept. */
    method RecordVote(message: string, vote: Vote, timestamp: string)
      requires Valid()
      modifies this
      ensures Valid()
      ensures feedback == old(feedback) + [FeedbackEntry(message, vote, timestamp)]
      ensures messages == old(messages) && ticket == old(ticket)
    {
      feedback := feedback + [FeedbackEntry(message, vote, timestamp)];
    }

    /** Replaces whatever ticket was there. */
    method RecordTicket(t: Ticket)
      modifies this
      ensures ticket == Some(t)
      ensures messages == old(messages) && feedback == old(feedback)
    {
      ticket := Some(t);
    }

    /** One turn on a submitted text: detect its language, store it, send the assembled
        context for a reply, record the votes clicked, store the reply and overwrite the
        ticket with this turn's summary. `detect` and `llm` are the external language
        detector and completion service. */
    method Turn(name: string, input: string, detect: string -> Option<string>, text: string,
                llm: (string, seq<Message>) -> string, up: bool, down: bool, clock: Clock)
      returns (ctx: seq<Message>, reply: string)
      requires Valid()
      modifies this
      ensures Valid()
      ensures messages == old(messages) + [Message(User, input), Message(Assistant, reply)]
      ensures Alternates(old(messages)) ==> Alternates(messages)
      ensures ctx == Assembled(old(messages) + [Message(User, input)], ReplyLanguage(detect(input)), text)
      ensures reply == llm(ReplyModel, ctx)
      ensures feedback == old(feedback) + Votes(reply, up, down, clock.iso)
      ensures ticket == Some(Ticket(name, clock.display, input, reply,
                                    Strip(llm(SummaryModel, SummaryPrompt(input, reply)))))
    {
      var lang := ReplyLanguage(detect(input));
      AppendUser(input);
      ctx := BuildContext(lang, text);
      reply := llm(ReplyModel, ctx);
      if up {
        RecordVote(reply, Up, clock.iso);
      }
      if down {
        RecordVote(reply, Down, clock.iso);
      }
      AppendAssistant(reply);
      var summary := Strip(llm(SummaryModel, SummaryPrompt(input, reply)));
      RecordTicket(Ticket(name, clock.display, input, reply, summary));
      if Alternates(old(messages)) {
        AlternatesAfterTurn(old(messages), input, reply);
      }
    }

    /** One run of the page as written: the voting buttons are read only inside the branch
        for a submitted text, and a button reads as clicked only in the run its own click
        triggers, so no vote is ever recorded. `name` is the selector's value; the selector
        offers only `IntentNames`, which `SelectorOffersCatalog` shows are the catalog's keys. */
    method RunAsWritten(event: Event, name: string, upload: Option<seq<string>>,
                        detect: string -> Option<string>, llm: (string, seq<Message>) -> string,
                        clock: Clock)
      returns (turn: Option<Exchange>)
      requires Valid() && name in Intents
      modifies this
      ensures Valid() && messages[0] == Message(System, Intents[name].system)
      ensures Alternates(old(messages)) ==> Alternates(messages)
      ensures feedback == old(feedback)
      ensures turn.Some? <==> event.Submit? && event.text != ""
      ensures turn.None? ==> messages == Reconciled(old(messages), name) && ticket == old(ticket)
      ensures turn.Some? ==>
        var stored := Reconciled(old(messages), name) + [Message(User, event.text)];
        && messages == stored + [Message(Assistant, turn.value.reply)]
        && turn.value.context == Assembled(stored, ReplyLanguage(detect(event.text)), DocumentText(upload))
        && turn.value.reply == llm(ReplyModel, turn.value.context)
        && ticket == Some(Ticket(name, clock.display, event.text, turn.value.reply,
                                 Strip(llm(SummaryModel, SummaryPrompt(event.text, turn.value.reply)))))
    {
      var text := ExtractText(upload);
      SelectIntent(name);
      if event.Submit? && event.text != "" {
        var ctx, reply := Turn(name, event.text, detect, text, llm, event.ThumbUp?, event.ThumbDown?, clock);
        turn := Some(Exchange(ctx, reply));
      } else {
        turn := None;
      }
    }

    /** One run of the page with the voting buttons read on every run: a click records one
        vote on the latest message; a submitted text makes one turn. As in `RunAsWritten`,
        `name` is one of `IntentNames`, hence a key of the catalog. */
    method Run(event: Event, name: string, upload: Option<seq<string>>,
               detect: string -> Option<string>, llm: (string, seq<Message>) -> string,
               clock: Clock)
      returns (turn: Option<Exchange>)
      requires Valid() && name in Intents
      modifies this
      ensures Valid() && messages[0] == Message(System, Intents[name].system)
      ensures Alternates(old(messages)) ==> Alternates(messages)
      ensures turn.Some? <==> event.Submit? && event.text != ""
      ensures turn.None? ==> messages == Reconciled(old(messages), name)
      ensures turn.Some? ==>
        var stored := Reconciled(old(messages), name) + [Message(User, event.text)];
        && messages == stored + [Message(Assistant, turn.value.reply)]
        && turn.value.context == Assembled(stored, ReplyLanguage(detect(event.text)), DocumentText(upload))
        && turn.value.reply == llm(ReplyModel, turn.value.context)
        && feedback == old(feedback)
        && ticket == Some(Ticket(name, clock.display, event.text, turn.value.reply,
                                 Strip(llm(SummaryModel, SummaryPrompt(event.text, turn.value.reply)))))
      ensures event.ThumbUp? ==> feedback == old(feedback) + [FeedbackEntry(messages[|messages| - 1].content, Up, clock.iso)]
      ensures event.ThumbDown? ==> feedback == old(feedback) + [FeedbackEntry(messages[|messages| - 1].content, Down, clock.iso)]
      ensures !event.ThumbUp? && !event.ThumbDown? && turn.None? ==> feedback == old(feedback) && ticket == old(ticket)
      ensures event.ThumbUp? || event.ThumbDown? ==> ticket == old(ticket)
    {
      var text := ExtractText(upload);
      SelectIntent(name);
      match event
      case Submit(input) =>
        if input != "" {
          var ctx, reply := Turn(name, input, detect, text, llm, false, false, clock);
          turn := Some(Exchange(ctx, reply));
        } else {
          turn := None;
        }
      case ThumbUp =>
        RecordVote(messages[|messages| - 1].content, Up, clock.iso);
        turn := None;
      case ThumbDown =>
        RecordVote(messages[|messages| - 1].content, Down, clock.iso);
        turn := None;
      case Other =>
        turn := None;
    }
  }

  /** A turn followed by two thumbs-up clicks leaves two up votes on that turn's reply, not one. */
  method TwoVotesAreBothKept(s: Session, name: string, upload: Option<seq<string>>,
                             detect: string -> Option<string>, llm: (string, seq<Message>) -> string,
                             clock: Clock)
    returns (reply: string)
    requires s.Valid() && name in Intents
    modifies s
    ensures reply == llm(ReplyModel, Assembled(Reconciled(old(s.messages), name) + [Message(User, "my payment failed")],
                                               ReplyLanguage(detect("my payment failed")), DocumentText(upload)))
    ensures s.feedback == old(s.feedback) + [FeedbackEntry(reply, Up, clock.iso), FeedbackEntry(reply, Up, clock.iso)]
  {
    var t0 := s.Run(Submit("my payment failed"), name, upload, detect, llm, clock);
    reply := t0.value.reply;
    var t1 := s.Run(ThumbUp, name, upload, detect, llm, clock);
    var t2 := s.Run(ThumbUp, name, upload, detect, llm, clock);
  }

  /** As written, the same two clicks after a turn leave the feedback log unchanged. */
  method TwoVotesAreLostAsWritten(s: Session, name: string, upload: Option<seq<string>>,
                                  detect: string -> Option<string>, llm: (string, seq<Message>) -> string,
                                  clock: Clock)
    requires s.Valid() && name in Intents
    modifies s
    ensures s.feedback == old(s.feedback)
  {
    var t0 := s.RunAsWritten(Submit("my payment failed"), name, upload, detect, llm, clock);
    var t1 := s.RunAsWritten(ThumbUp, name, upload, detect, llm, clock);
    var t2 := s.RunAsWritten(ThumbUp, name, upload, detect, llm, clock);
  }
}
