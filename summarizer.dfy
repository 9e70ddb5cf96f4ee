/** src/summarizer/summarizer.py: one model call per article, with fixed
    placeholders when the client is missing or the call fails. The OpenAI
    chat-completion call itself is an oracle passed in with the client. */
module Summarizer {
  import opened Text
  import opened Values

  /** The chat-completion request `summarize` sends. */
  datatype Request = Request(model: string, systemPrompt: string, userPrompt: string, maxTokens: nat)

  /** What the call produced: the first choice's message content, or the text
      of the exception it raised. */
  datatype Reply = Completed(content: string) | Raised(error: string)

  /** A configured OpenAI client, reduced to its chat-completion call. */
  datatype Client = Client(complete: Request -> Reply)

  const NotConfigured := "Summary unavailable: API not configured"
  const FailurePrefix := "Summary unavailable: "

  /** The request for `text`: model "gpt-4o", a fixed system prompt, the text
      after a fixed instruction, at most 150 tokens. */
  function ChatRequest(text: string): (q: Request)
    ensures q.model == "gpt-4o" && q.maxTokens == 150
    ensures q.userPrompt == "Summarize the following text:\n\n" + text
  {
    Request("gpt-4o", "You are a helpful assistant that summarizes text concisely.",
            "Summarize the following text:\n\n" + text, 150)
  }

  /** `Summarizer.summarize`: never raises. Without a client the model is not
      consulted; a raised call becomes a visible placeholder carrying the
      error; a completion is returned stripped. */
  function Summarize(client: Option<Client>, text: string): (r: string)
    ensures client.None? ==> r == NotConfigured
    ensures client.Some? && client.value.complete(ChatRequest(text)).Raised? ==>
              r == FailurePrefix + client.value.complete(ChatRequest(text)).error
    ensures client.Some? && client.value.complete(ChatRequest(text)).Completed? ==>
              r == Strip(client.value.complete(ChatRequest(text)).content) && NoOuterSpace(r)
  {
    match client
    case None => NotConfigured
    case Some(c) =>
      match c.complete(ChatRequest(text))
      case Completed(content) => Strip(content)
      case Raised(error) => FailurePrefix + error
  }

  /** What `summarize_articles` reads from an article: a title the prompt can
      render, which must be text, like the summary, whenever a truthy summary
      is appended to it. */
  predicate Summarizable(a: Record) {
    "title" in a && Displayable(a["title"])
    && ("summary" in a && Truthy(a["summary"]) ==> a["title"].Str? && a["summary"].Str?)
  }

  /** `text_to_summarize`, as the prompt renders it: the title, followed by a
      blank line and the summary exactly when the article has a non-empty
      summary. */
  function PromptText(a: Record): (t: string)
    requires Summarizable(a)
    ensures Show(a["title"]) <= t
    ensures |t| == |Show(a["title"])| <==> !("summary" in a && Truthy(a["summary"]))
    ensures "summary" in a && Truthy(a["summary"]) ==> t[|Show(a["title"])|..] == "\n\n" + a["summary"].s
  {
    if "summary" in a && Truthy(a["summary"]) then a["title"].s + "\n\n" + a["summary"].s
    else Show(a["title"])
  }

  /** The entry `summarize_articles` emits for `a`: its title, the generated
      summary, and link, source and date with their defaults. */
  function DigestEntry(a: Record, summary: string): (e: Record)
    requires Summarizable(a)
    ensures e.Keys == {"title", "summary", "link", "source", "date"}
    ensures e["title"] == a["title"] && e["summary"] == Str(summary)
    ensures e["link"] == Get(a, "link", Str(""))
    ensures e["source"] == Get(a, "source", Str("Unknown"))
    ensures e["date"] == Get(a, "date", Str(""))
  {
    map["title" := a["title"], "summary" := Str(summary),
        "link" := Get(a, "link", Str("")), "source" := Get(a, "source", Str("Unknown")),
        "date" := Get(a, "date", Str(""))]
  }

  /** The text of one article as the loop assembles it. */
  method TextToSummarize(article: Record) returns (text: string)
    requires Summarizable(article)
    ensures text == PromptText(article)
  {
    text := Show(article["title"]);
    if "summary" in article && Truthy(article["summary"]) {
      text := text + "\n\n" + article["summary"].s;
    }
  }

  /** `Summarizer.summarize_articles`: exactly one entry per article, in input
      order, each carrying what `summarize` returned for that article's text. */
  method SummarizeArticles(client: Option<Client>, articles: seq<Record>) returns (summaries: seq<Record>)
    requires forall i | 0 <= i < |articles| :: Summarizable(articles[i])
    ensures articles == [] ==> summaries == []
    ensures |summaries| == |articles|
    ensures forall i | 0 <= i < |articles| ::
              summaries[i] == DigestEntry(articles[i], Summarize(client, PromptText(articles[i])))
  {
    if articles == [] {
      return [];
    }
    summaries := [];
    for i := 0 to |articles|
      invariant |summaries| == i
      invariant forall j | 0 <= j < i ::
                  summaries[j] == DigestEntry(articles[j], Summarize(client, PromptText(articles[j])))
    {
      var article := articles[i];
      var textToSummarize := TextToSummarize(article);
      var summary := Summarize(client, textToSummarize);
      var entry := DigestEntry(article, summary);
      forall j | 0 <= j < i + 1
        ensures (summaries + [entry])[j] == DigestEntry(articles[j], Summarize(client, PromptText(articles[j])))
      {
        if j < i {
          assert (summaries + [entry])[j] == summaries[j];
        }
      }
      summaries := summaries + [entry];
    }
  }
}
