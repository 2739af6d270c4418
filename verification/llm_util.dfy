/** tools/llm_util.py: the model-to-provider table, the normalisation of an LLM
    response's `content` into one string, and the plain-text rendering of a
    message list. */
module LlmUtil {
  import opened Wrappers
  import opened Text

  /** Every model the application can call, with the provider that serves it. */
  const ModelProviderMap: map<string, string> := map[
    "gemini-3-pro-preview" := "google_genai",
    "gemini-3-flash-preview" := "google_genai",
    "gemini-2.5-pro" := "google_genai",
    "gemini-2.5-flash" := "google_genai",
    "gemini-2.5-flash-lite" := "google_genai",
    "gpt-4.1" := "openai",
    "gpt-5" := "openai"
  ]

  /** The keys of the table in the order they are written, which is the order
      `list(MODEL_PROVIDER_MAP.keys())` gives (the strategy page's model
      selector indexes into it). */
  const ModelKeys: seq<string> := [
    "gemini-3-pro-preview", "gemini-3-flash-preview", "gemini-2.5-pro",
    "gemini-2.5-flash", "gemini-2.5-flash-lite", "gpt-4.1", "gpt-5"
  ]

  /** How many models the selector offers. */
  const ModelCount: nat := 7

  lemma ModelKeysCount()
    ensures |ModelKeys| == ModelCount
  {
  }

  /** The ordered keys are exactly the table's keys, each once. */
  lemma ModelKeysListTable()
    ensures forall k :: k in ModelKeys <==> k in ModelProviderMap
    ensures forall i, j :: 0 <= i < j < |ModelKeys| ==> ModelKeys[i] != ModelKeys[j]
  {
  }

  predicate IsPrefix(p: string, s: string) {
    |p| <= |s| && s[..|p|] == p
  }

  /** `get_provider_for_model`: the provider of a listed model; any other name
      is the ValueError "지원하지 않는 모델입니다: <name>". Gemini models go to
      google_genai and the GPT models to openai. */
  function GetProviderForModel(model: string): (r: Result<string, string>)
    ensures r.Success? <==> model in ModelProviderMap
    ensures r.Success? ==> r.value in {"google_genai", "openai"}
    ensures r.Failure? ==> r.error == "지원하지 않는 모델입니다: " + model
  {
    if model !in ModelProviderMap then Failure("지원하지 않는 모델입니다: " + model)
    else Success(ModelProviderMap[model])
  }

  /** The provider follows the model family: a listed model is served by
      google_genai exactly when its name starts with "gemini-". */
  lemma ProviderFollowsModelFamily(model: string)
    requires model in ModelProviderMap
    ensures GetProviderForModel(model).value == "google_genai" <==> IsPrefix("gemini-", model)
  {
    if model == "gpt-4.1" || model == "gpt-5" {
      assert model[1] == 'p';
    } else {
      assert || model == "gemini-3-pro-preview" || model == "gemini-3-flash-preview"
             || model == "gemini-2.5-pro" || model == "gemini-2.5-flash"
             || model == "gemini-2.5-flash-lite";
      assert model[..7] == "gemini-";
    }
  }

  /** One element of a list-shaped response. `shown` is what `str(item)` gives. */
  datatype ContentItem =
    | DictItem(entries: map<string, string>, shown: string)
    | TextObject(text: string)      // an object with a `.text` attribute
    | StrItem(s: string)
    | OtherItem(shown: string)

  /** The `content` of an LLM response: a string, a list of parts, a dict, or
      anything else (`shown` is its `str()`). */
  datatype Content =
    | StrContent(s: string)
    | ListContent(items: seq<ContentItem>)
    | DictContent(entries: map<string, string>, shown: string)
    | OtherContent(shown: string)

  /** The text one list element contributes. */
  function ItemText(item: ContentItem): string {
    match item
    case DictItem(entries, shown) => if "text" in entries then entries["text"] else shown
    case TextObject(text) => text
    case StrItem(s) => s
    case OtherItem(shown) => shown
  }

  function ItemTexts(items: seq<ContentItem>): (r: seq<string>)
    ensures |r| == |items|
    ensures forall k :: 0 <= k < |items| ==> r[k] == ItemText(items[k])
  {
    if items == [] then [] else [ItemText(items[0])] + ItemTexts(items[1..])
  }

  /** What `parse_llm_response_content` returns for `content`. */
  function ContentText(content: Content): string {
    match content
    case StrContent(s) => s
    case ListContent(items) => Join(ItemTexts(items), "\n")
    case DictContent(entries, shown) => if "text" in entries then entries["text"] else shown
    case OtherContent(shown) => shown
  }

  /** `parse_llm_response_content`: the list case collects one part per element
      in a loop and joins them with newlines. */
  method ParseLlmResponseContent(content: Content) returns (r: string)
    ensures r == ContentText(content)
  {
    if content.StrContent? {
      return content.s;
    }
    if content.ListContent? {
      var textParts: seq<string> := [];
      var i := 0;
      while i < |content.items|
        invariant 0 <= i <= |content.items| && |textParts| == i
        invariant forall k :: 0 <= k < i ==> textParts[k] == ItemText(content.items[k])
      {
        var part: string;
        match content.items[i] {
          case DictItem(entries, shown) =>
            if "text" in entries {
              part := entries["text"];
            } else {
              part := shown;
            }
          case TextObject(text) => part := text;
          case StrItem(s) => part := s;
          case OtherItem(shown) => part := shown;
        }
        textParts := textParts + [part];
        i := i + 1;
      }
      assert textParts == ItemTexts(content.items);
      return Join(textParts, "\n");
    }
    if content.DictContent? && "text" in content.entries {
      return content.entries["text"];
    }
    r := content.shown;
  }

  /** A list response gives one line per element, in list order, provided no
      element's text has a newline of its own; an empty list gives "". */
  lemma {:induction false} ListContentLines(items: seq<ContentItem>)
    requires forall k :: 0 <= k < |items| ==> '\n' !in ItemText(items[k])
    ensures items == [] ==> ContentText(ListContent(items)) == ""
    ensures items != [] ==> Split(ContentText(ListContent(items)), '\n') == ItemTexts(items)
  {
    if items != [] {
      SplitJoin(ItemTexts(items), '\n');
    }
  }

  /** The kind of a chat message; `OtherRole` carries the message's `type`. */
  datatype Role = System | Human | Ai | OtherRole(typeName: string)

  /** A chat message. The content is generic so that prompts can carry the
      named arguments of their template. */
  datatype Message<C> = Message(role: Role, content: C)

  function TypeName(role: Role): string {
    match role
    case System => "system"
    case Human => "human"
    case Ai => "ai"
    case OtherRole(t) => t
  }

  function HeaderName(role: Role): string {
    match role
    case System => "SYSTEM PROMPT"
    case Human => "USER PROMPT"
    case _ => TypeName(role)
  }

  function Header(m: Message<string>): string {
    "=== [" + HeaderName(m.role) + "] ==="
  }

  /** A header is non-empty and begins and ends with '='. */
  lemma HeaderEnds(m: Message<string>)
    ensures var h := Header(m); |h| > 0 && h[0] == '=' && h[|h| - 1] == '='
  {
  }

  /** The block `format_messages_to_text` appends for one message. */
  function Block(m: Message<string>): string {
    Header(m) + "\n" + m.content + "\n\n"
  }

  /** The blocks of all messages, in message order. */
  function BlockList(messages: seq<Message<string>>): (r: seq<string>)
    ensures |r| == |messages|
    ensures forall k :: 0 <= k < |messages| ==> r[k] == Block(messages[k])
  {
    if messages == [] then [] else [Block(messages[0])] + BlockList(messages[1..])
  }

  function Blocks(messages: seq<Message<string>>): string {
    Concat(BlockList(messages))
  }

  /** Right-stripping never reaches into a prefix that ends in a non-space. */
  lemma StripRightKeepsPrefix(p: string, q: string)
    requires p != [] && !IsSpace(p[|p| - 1])
    ensures IsPrefix(p, StripRight(p + q))
  {
    var t := p + q;
    var r := StripRight(t);
    assert t[|p| - 1] == p[|p| - 1];
    assert |r| >= |p|;
    assert r[..|p|] == t[..|p|] == p;
  }

  /** The stripped text of a non-empty message list begins with the first
      message's header. */
  lemma StartsWithFirstHeader(messages: seq<Message<string>>)
    requires messages != []
    ensures IsPrefix(Header(messages[0]), Strip(Blocks(messages)))
  {
    var bs := BlockList(messages);
    var formatted := Concat(bs);
    var h := Header(messages[0]);
    var rest := "\n" + messages[0].content + "\n\n" + Concat(bs[1..]);
    assert formatted == h + rest by {
      assert bs[0] == h + ("\n" + messages[0].content + "\n\n");
    }
    HeaderEnds(messages[0]);
    assert StripLeft(formatted) == formatted by {
      assert formatted[0] == h[0];
    }
    StripRightKeepsPrefix(h, rest);
    assert Strip(formatted) == StripRight(formatted);
  }

  lemma BlocksStep(messages: seq<Message<string>>, i: nat)
    requires i < |messages|
    ensures Concat(BlockList(messages[..i + 1])) == Concat(BlockList(messages[..i])) + Block(messages[i])
  {
    var b := Block(messages[i]);
    assert BlockList(messages[..i + 1]) == BlockList(messages[..i]) + [b];
    ConcatAppend(BlockList(messages[..i]), [b]);
    assert Concat([b]) == b + Concat([]);
  }

  /** The formatted text never begins or ends with whitespace, is empty for
      no messages, and otherwise begins with the first message's header. */
  lemma FormattedTextShape(messages: seq<Message<string>>)
    ensures var r := Strip(Blocks(messages));
      && (r == [] || (!IsSpace(r[0]) && !IsSpace(r[|r| - 1])))
      && (messages == [] ==> r == "")
      && (messages != [] ==> IsPrefix(Header(messages[0]), r))
  {
    if messages == [] {
      assert Blocks(messages) == "";
      StripTrimmed("");
    } else {
      StartsWithFirstHeader(messages);
    }
  }

  /** `format_messages_to_text`: the blocks are appended in a loop and the whole
      text is stripped (see `FormattedTextShape` for what that text looks
      like). */
  method FormatMessagesToText(messages: seq<Message<string>>) returns (r: string)
    ensures r == Strip(Blocks(messages))
  {
    var formatted := "";
    var i := 0;
    while i < |messages|
      invariant 0 <= i <= |messages|
      invariant formatted == Concat(BlockList(messages[..i]))
    {
      var block := Block(messages[i]);
      BlocksStep(messages, i);
      formatted := formatted + block;
      i := i + 1;
    }
    assert messages[..i] == messages;
    r := Strip(formatted);
  }
}
