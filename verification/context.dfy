/** The one-off context added to a copy of the transcript before each reply request:
    a language directive and, when a document was uploaded, an excerpt of it. */
module Context {
  import opened Wrappers
  import opened Catalog

  /** The language named when detection fails on the user's text. */
  const DefaultLanguage := "en"
  const DirectivePrefix := "Always reply in the user's language. The detected language is: "
  const DocumentHeader := "The following document is uploaded by the user:\n"
  /** How many characters of the document text the excerpt keeps at most. */
  const ExcerptLimit := 4000

  /** The language the reply should use; `None` stands for a detection failure. */
  function ReplyLanguage(detected: Option<string>): string {
    match detected
    case None => DefaultLanguage
    case Some(code) => code
  }

  function LanguageDirective(lang: string): Message {
    Message(System, DirectivePrefix + lang)
  }

  /** The document's leading characters, cut without regard to word boundaries. */
  function Excerpt(text: string): (e: string)
    ensures e <= text
    ensures |e| == if |text| < ExcerptLimit then |text| else ExcerptLimit
  {
    if |text| <= ExcerptLimit then text else text[..ExcerptLimit]
  }

  function DocumentMessage(text: string): Message {
    Message(User, DocumentHeader + Excerpt(text))
  }

  /** Python's list.insert for a non-negative index: past the end it appends. */
  function Insert<T>(s: seq<T>, i: nat, x: T): seq<T> {
    if i <= |s| then s[..i] + [x] + s[i..] else s + [x]
  }

  /** The messages placed right after the stored system prompt: the document excerpt
      (only for a non-empty document), then the language directive. */
  function Injected(lang: string, text: string): seq<Message> {
    (if text == "" then [] else [DocumentMessage(text)]) + [LanguageDirective(lang)]
  }

  /** The sequence sent for a reply: the stored system prompt, the injected messages,
      then the rest of the stored transcript in its order. */
  function Assembled(stored: seq<Message>, lang: string, text: string): seq<Message>
    requires |stored| >= 1
  {
    [stored[0]] + Injected(lang, text) + stored[1..]
  }

  /** One message more than stored without a document, two with one. */
  lemma AssembledLength(stored: seq<Message>, lang: string, text: string)
    requires |stored| >= 1
    ensures |Assembled(stored, lang, text)| == |stored| + (if text == "" then 1 else 2)
  {
  }

  /** Where each message of the assembled sequence comes from. */
  lemma AssembledOrder(stored: seq<Message>, lang: string, text: string)
    requires |stored| >= 1
    ensures var ctx := Assembled(stored, lang, text);
      var shift := if text == "" then 1 else 2;
      && |ctx| == |stored| + shift
      && ctx[0] == stored[0]
      && (text != "" ==> ctx[1] == DocumentMessage(text) && ctx[2] == LanguageDirective(lang))
      && (text == "" ==> ctx[1] == LanguageDirective(lang))
      && (forall i :: 1 <= i < |stored| ==> ctx[i + shift] == stored[i])
  {
  }

  /** The document message carries the header followed by the first min(4000, |text|)
      characters of the document: the whole document when it is shorter. */
  lemma DocumentMessageContent(text: string)
    ensures var m := DocumentMessage(text);
      && m.role == User
      && DocumentHeader <= m.content
      && m.content[|DocumentHeader|..] <= text
      && |m.content| - |DocumentHeader| <= ExcerptLimit
      && (|text| <= ExcerptLimit ==> m.content == DocumentHeader + text)
      && m.content == DocumentHeader + text[..if |text| < ExcerptLimit then |text| else ExcerptLimit]
  {
    var e := Excerpt(text);
    assert DocumentMessage(text).content[|DocumentHeader|..] == e;
  }

  /** The directive names the detected code, or "en" when detection failed. */
  lemma DirectiveLanguage(stored: seq<Message>, detected: Option<string>, text: string)
    requires |stored| >= 1
    ensures var ctx := Assembled(stored, ReplyLanguage(detected), text);
      var at := if text == "" then 1 else 2;
      && (detected.None? ==> ctx[at].content == DirectivePrefix + "en")
      && (detected.Some? ==> ctx[at].content == DirectivePrefix + detected.value)
  {
    AssembledOrder(stored, ReplyLanguage(detected), text);
  }
}
