/**
 * The three kinds of query (one billable request/response event each), the
 * `Query` sum over them, and the cache-key derivation of each kind.
 */
module Queries {
  import opened GptModels
  import opened Responses

  datatype ChatQuery = ChatQuery(
    prompt: string,
    cost: real,
    response: Response,
    processTime: nat,
    model: GptModel,
    temperature: real,
    fromCache: bool)
  {
    /** The instance key: the static key of the query's own prompt. */
    function Key(): string { ChatKey(prompt) }
  }

  /** A query about a document; `documentTitle` names the PDF it was asked of. */
  datatype TextQuery = TextQuery(
    prompt: string,
    cost: real,
    response: Response,
    processTime: nat,
    model: GptModel,
    documentTitle: string,
    temperature: real,
    fromCache: bool)
  {
    function Key(): string { TextKey(prompt, documentTitle) }
  }

  /** A query run over the outputs of earlier text queries. */
  datatype MetaQuery = MetaQuery(
    prompt: string,
    cost: real,
    response: Response,
    processTime: nat,
    model: GptModel,
    temperature: real,
    fromCache: bool)
  {
    function Key(): string { MetaKey(prompt) }
  }

  const ChatPrefix: string := "Chat: "
  const MetaPrefix: string := "Meta: "

  /** `ChatQuery::key`. */
  function ChatKey(prompt: string): string { ChatPrefix + prompt }

  /** `TextQuery::key(prompt, title)`: the title comes first despite the parameter order. */
  function TextKey(prompt: string, documentTitle: string): string { documentTitle + ": " + prompt }

  /** `MetaQuery::key`. */
  function MetaKey(prompt: string): string { MetaPrefix + prompt }

  datatype Query = Chat(chat: ChatQuery) | Text(text: TextQuery) | Meta(meta: MetaQuery)
  {
    /** `Cacheable::key`, dispatched to the wrapped variant. */
    function Key(): string
    {
      match this
      case Chat(q) => q.Key()
      case Text(q) => q.Key()
      case Meta(q) => q.Key()
    }

    /** `Query::response`. */
    function ResponseOf(): Response
    {
      match this
      case Chat(q) => q.response
      case Text(q) => q.response
      case Meta(q) => q.response
    }

    /** `Query::model`. */
    function ModelOf(): GptModel
    {
      match this
      case Chat(q) => q.model
      case Text(q) => q.model
      case Meta(q) => q.model
    }

    function PromptOf(): string
    {
      match this
      case Chat(q) => q.prompt
      case Text(q) => q.prompt
      case Meta(q) => q.prompt
    }

    function FromCache(): bool
    {
      match this
      case Chat(q) => q.fromCache
      case Text(q) => q.fromCache
      case Meta(q) => q.fromCache
    }

    /** `expect_as_chat`: the source panics unless this is a chat query. */
    function ExpectAsChat(): (q: ChatQuery)
      requires Chat?
      ensures Chat(q) == this
    {
      chat
    }

    /** `expect_as_text`: the source panics unless this is a text query. */
    function ExpectAsText(): (q: TextQuery)
      requires Text?
      ensures Text(q) == this
    {
      text
    }

    /** `expect_as_meta`: the source panics unless this is a meta query. */
    function ExpectAsMeta(): (q: MetaQuery)
      requires Meta?
      ensures Meta(q) == this
    {
      meta
    }
  }

  /** The key, response and model of a `Query` are those of the variant it wraps. */
  lemma QueryDelegatesToVariant(c: ChatQuery, t: TextQuery, m: MetaQuery)
    ensures Chat(c).Key() == ChatKey(c.prompt) && Chat(c).ResponseOf() == c.response && Chat(c).ModelOf() == c.model
    ensures Text(t).Key() == TextKey(t.prompt, t.documentTitle) && Text(t).ResponseOf() == t.response
    ensures Text(t).ModelOf() == t.model
    ensures Meta(m).Key() == MetaKey(m.prompt) && Meta(m).ResponseOf() == m.response && Meta(m).ModelOf() == m.model
  {
  }

  /** Every chat key starts with "Chat: ", and what follows is the prompt. */
  lemma ChatKeyShape(prompt: string)
    ensures |ChatKey(prompt)| == |ChatPrefix| + |prompt|
    ensures ChatKey(prompt)[..|ChatPrefix|] == "Chat: "
    ensures ChatKey(prompt)[|ChatPrefix|..] == prompt
  {
  }

  /** Distinct prompts have distinct chat keys. */
  lemma ChatKeyInjective(p1: string, p2: string)
    ensures ChatKey(p1) == ChatKey(p2) ==> p1 == p2
  {
    ChatKeyShape(p1);
    ChatKeyShape(p2);
  }

  /** Every meta key starts with "Meta: ", and what follows is the prompt. */
  lemma MetaKeyShape(prompt: string)
    ensures |MetaKey(prompt)| == |MetaPrefix| + |prompt|
    ensures MetaKey(prompt)[..|MetaPrefix|] == "Meta: "
    ensures MetaKey(prompt)[|MetaPrefix|..] == prompt
  {
  }

  /** Distinct prompts have distinct meta keys. */
  lemma MetaKeyInjective(p1: string, p2: string)
    ensures MetaKey(p1) == MetaKey(p2) ==> p1 == p2
  {
    MetaKeyShape(p1);
    MetaKeyShape(p2);
  }

  /** No meta key is a chat key: the prefixes differ in their first letter. */
  lemma MetaKeyNeverChatKey(p1: string, p2: string)
    ensures MetaKey(p1) != ChatKey(p2)
  {
    assert MetaKey(p1)[0] == 'M';
    assert ChatKey(p2)[0] == 'C';
  }

  /**
   * Text keys are not namespaced by variant: a document titled "Chat" (or
   * "Meta") gets the key of the chat (or meta) query with the same prompt.
   */
  lemma TextKeyCollidesWithChatAndMeta(prompt: string)
    ensures TextKey(prompt, "Chat") == ChatKey(prompt)
    ensures TextKey(prompt, "Meta") == MetaKey(prompt)
  {
    assert "Chat" + ": " == ChatPrefix;
    assert "Meta" + ": " == MetaPrefix;
  }

  /** Text keys are not injective over (title, prompt). */
  lemma TextKeyNotInjective()
    ensures TextKey("a: b", "c") == TextKey("b", "c: a")
    ensures ("a: b", "c") != ("b", "c: a")
  {
    assert TextKey("a: b", "c") == "c: a: b";
    assert TextKey("b", "c: a") == "c: a: b";
  }
}
