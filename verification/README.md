# Customer-support chat: session bookkeeping

A Dafny model of the conversation bookkeeping of a single-page customer-support chat
(`app.py`). The page offers six support intents, each with a persona prompt and a greeting.
It keeps one transcript of role-tagged messages per session. Each turn, it sends a copy of
that transcript to a hosted completion service, decorated with a language directive and,
when the uploaded PDF yields non-empty text, an excerpt of that text: its first 4000
characters, or all of it when shorter. An upload whose text is empty adds nothing. It also keeps a log of
thumbs-up/down votes and a ticket summarising the latest exchange.

Modules:

- `Catalog` (catalog.dfy): the `Message` type and the fixed six-entry intent catalog.
- `Document` (document.dfy): the document text, joined page by page from the page texts the
  PDF library yields.
- `Context` (context.dfy): the language fallback, the language directive, the document
  excerpt and message, and `Assembled`, the order in which the reply request is laid out.
- `Text` (text.dfy): Python's `str.strip()`, applied to the returned summary.
- `Conversation` (conversation.dfy): the reset check and the summary prompt as functions,
  and the class `Session`. Its fields `messages`, `feedback` and `ticket` are the session
  state the page updates in place. Its methods model one run of the page.

The external collaborators are parameters. `detect: string -> Option<string>` is the
language detector; `None` is its "cannot detect" exception. `llm: (string, seq<Message>) ->
string` is the completion service, given the model name and the messages. The uploaded
document is the sequence of its page texts, or `None` when nothing is uploaded. `Clock`
holds the current time in its two printed forms.

`Session.BuildContext` performs the source's steps: copy the transcript, insert the
directive at index 1, then insert the document message at index 1. It is proved equal to
`Assembled`, which states the intended layout directly: system prompt, document excerpt,
directive, then the rest of the transcript. `BuildContext` has no `modifies` clause, so
the stored transcript cannot change.

## Model

| member | source | states |
|---|---|---|
| Catalog.SelectorOffersCatalog | app.py:15-68 | the selector offers exactly the six catalog names, each once |
| Catalog.PromptsDistinct | app.py:16-67 | no two intents share a system prompt |
| Document.ConcatAppend | app.py:75-76 | adding a page's text to the accumulated text gives the text of the longer page list |
| Document.ConcatSplit | app.py:75-76 | the document text is the text of any leading pages followed by the text of the rest, so pages stay in order |
| Document.ExtractText | app.py:72-76 | the loop yields the empty string without an upload, else all page texts joined in page order; each page's text occurs in it in full, right after the text of the pages before it |
| Context.Excerpt | app.py:131 | the excerpt is a prefix of the document of length min(4000, its length) |
| Context.DocumentMessageContent | app.py:128-132 | the document message is a user message: the fixed header, then the first min(4000, length of the document) characters of the document |
| Context.AssembledLength | app.py:119-132 | the request is one message longer than the transcript without a document, two with a non-empty one |
| Context.AssembledOrder | app.py:119-132 | index 0 is the stored system message; with a document, index 1 is the document message and index 2 the directive; without one, index 1 is the directive; the other stored messages follow in order |
| Context.DirectiveLanguage | app.py:109-112 | the directive names "en" when detection fails and the detected code otherwise |
| Conversation.Reconciled | app.py:89-94 | after the check, the first message holds the selected prompt; the transcript is either unchanged or the two-message initial transcript |
| Conversation.ReconciledKeepsIff | app.py:90 | the check leaves the transcript alone exactly when its first message already holds the selected prompt |
| Conversation.ReconciledIdempotent | app.py:90-94 | a second check with the same selection changes nothing |
| Conversation.SwitchingIntentResets | app.py:90-94 | a transcript started for one intent is replaced by the initial transcript of any other intent selected |
| Conversation.AlternatesAfterTurn | app.py:114 | a turn adding a user message and then an assistant message keeps user and assistant messages alternating |
| Conversation.SummaryPrompt | app.py:172-175 | the summary request has two messages: the fixed instruction, then "User: " + query + "\nAssistant: " + reply, with nothing from earlier turns |
| Text.Strip | app.py:182 | the stripped summary is the slice of the text left after its leading whitespace; the text after it is whitespace; it neither starts nor ends with whitespace |
| Conversation.Session.constructor | app.py:82-98 | the first run starts the transcript as [system(prompt), assistant(greeting)] of the selected intent, with an empty feedback log and no ticket |
| Conversation.Session.SelectIntent | app.py:89-94 | the transcript becomes `Reconciled` of the old one and starts with the selected system prompt; feedback and ticket are unchanged |
| Conversation.Session.AppendUser | app.py:114 | appends exactly one user message; the earlier messages are unchanged |
| Conversation.Session.AppendAssistant | app.py:169 | appends exactly one assistant message; the earlier messages are unchanged |
| Conversation.Session.BuildContext | app.py:119-132 | copying the transcript and inserting at index 1 twice yields `Assembled`; the stored transcript is not modified |
| Conversation.Session.RecordVote | app.py:152-165 | each vote appends exactly one entry with no deduplication; transcript and ticket are unchanged |
| Conversation.Session.RecordTicket | app.py:183-189 | the ticket is replaced, not accumulated |
| Conversation.Session.Turn | app.py:108-189 | the transcript gains exactly the user input and then the reply. The request is `Assembled` from the transcript after the user message, using the language detected on the input. Votes clicked are appended. The ticket holds only this turn's intent, query, reply and stripped summary |
| Conversation.Session.RunAsWritten | app.py:70-189 | one run as written: the reset check, then a turn for a non-empty submitted text; the feedback log never changes |
| Conversation.Session.Run | app.py:70-189 | one run with the buttons read on every run: each click appends one vote on the latest message; a submitted text makes one turn as in `Turn`; other runs only run the reset check |
| Conversation.TwoVotesAreBothKept | app.py:152-165 | a turn on "my payment failed" followed by two thumbs-up runs adds exactly two up votes on that turn's reply |
| Conversation.TwoVotesAreLostAsWritten | app.py:149-166 | as written, a turn followed by two thumbs-up runs leaves the feedback log unchanged |

## Findings

| source | as written | input that shows it | evidently intended | confidence | as-written member | corrected member |
|---|---|---|---|---|---|---|
| app.py:149-166 | The vote buttons are read only inside `if user_input:`. A click starts a new run in which the chat input returns nothing, so the branch is skipped and the append never runs. | Submit "my payment failed", then click the thumbs-up button: the feedback log stays empty. | Each click records one vote on the latest reply. | not executed; follows from the page framework's rerun semantics: a button reads as clicked only in the run its click triggers, and the chat input returns text only in the run its submission triggers | Conversation.Session.RunAsWritten, Conversation.TwoVotesAreLostAsWritten | Conversation.Session.Run, Conversation.TwoVotesAreBothKept |

## Left out

- PDF parsing (app.py:74-76) is a foreign library. The model takes the page texts it yields as given. A malformed upload, which raises in the source, is not modelled.
- Language detection (app.py:110) is the parameter `detect`. Exceptions other than the detector's own are not modelled.
- The two completion calls (app.py:134-138, 177-182) are the parameter `llm`. Network and API failures are not modelled, so `Turn` always completes. The source can leave a user message without a reply when the reply call raises.
- All page rendering is left out: page configuration, title, uploader, selector, history display, chat input, spinner, buttons, success and warning notes, and the ticket panel.
- The character-by-character redisplay of the reply (app.py:142-147) changes no state, so it is left out.
- The API key (app.py:12) is left out.
- Conversation.Session.Turn: the source reads the clock separately for each vote and for the ticket. The model takes one `Clock` reading per run.
- Conversation.Reconciled: requires a non-empty transcript. The source would raise on an empty one, but the transcript is never empty at that point.
- Text.Strip: Python strings index code points, while Dafny's `char` excludes lone surrogates. Texts containing lone surrogates are therefore outside the model.
- The six-entry catalog is fixed, as in the source; extending it is not modelled.
