/** `get_news`: formatting the newest headlines on a topic. The HTTP request,
    the API key and the JSON decoding are the fetch outcome passed in. */
module News {
  import opened Strings

  /** One entry of the response's "articles" list; `Untitled` has no "title"
      key, so reading its title raises `KeyError`. */
  datatype Article = Titled(title: string) | Untitled

  /** How the request went: the decoded articles (`[]` when the key is
      absent), a `requests` failure, or any other exception. */
  datatype Fetch = Articles(articles: seq<Article>) | RequestFailed | OtherFailure

  const ConnectionTrouble := "Sorry, I'm having trouble connecting to the news service right now."
  const UnexpectedError := "An unexpected error occurred while fetching the news."

  function NoNews(topic: string): string
  {
    "Sorry, I couldn't find any recent news headlines about " + topic + "."
  }

  function Intro(topic: string): string
  {
    "Here are the top headlines on " + topic + ": "
  }

  /** "{i+1}. {title}" */
  function Headline(i: nat, title: string): string
  {
    Decimal(i + 1) + ". " + title
  }

  /** The headlines of the first `|arts|` articles, numbered from 1 in their
      order, when all of them carry a title. */
  function Headlines(arts: seq<Article>): (hs: seq<string>)
    requires forall i :: 0 <= i < |arts| ==> arts[i].Titled?
    ensures |hs| == |arts|
    ensures forall i :: 0 <= i < |arts| ==> hs[i] == Headline(i, arts[i].title)
  {
    if arts == [] then []
    else Headlines(arts[..|arts| - 1]) + [Headline(|arts| - 1, arts[|arts| - 1].title)]
  }

  function Top3(arts: seq<Article>): (top: seq<Article>)
    ensures |top| <= 3 && |top| <= |arts| && top == arts[..|top|]
    ensures |top| == 3 || top == arts
  {
    if |arts| <= 3 then arts else arts[..3]
  }

  /** `get_news(topic)`, never raising: a failed request or any other
      exception (a missing title among the first three articles included)
      gives its fixed message, no articles the "couldn't find" message, and
      otherwise the intro followed by at most three numbered headlines
      joined by single spaces. */
  function GetNews(topic: string, fetch: Fetch): (r: string)
    ensures fetch.RequestFailed? ==> r == ConnectionTrouble
    ensures fetch.OtherFailure? ==> r == UnexpectedError
    ensures fetch.Articles? && fetch.articles == [] ==> r == NoNews(topic)
    // `article['title']` raises KeyError for an untitled article among the
    // first three, and the catch-all handler answers.
    ensures fetch.Articles? && (exists i :: 0 <= i < |fetch.articles| && i < 3 && fetch.articles[i].Untitled?) ==>
              r == UnexpectedError
  {
    match fetch
    case RequestFailed => ConnectionTrouble
    case OtherFailure => UnexpectedError
    case Articles(arts) =>
      if arts == [] then NoNews(topic)
      else
        var top := Top3(arts);
        if exists i :: 0 <= i < |top| && top[i].Untitled? then UnexpectedError
        else Intro(topic) + Join(Headlines(top), " ")
  }

  /** With titled leading articles, the reply is the intro and the first
      min(3, n) titles, numbered in order; later articles are never read. */
  lemma GetNewsHeadlines(topic: string, arts: seq<Article>)
    requires arts != []
    requires forall i :: 0 <= i < |arts| && i < 3 ==> arts[i].Titled?
    ensures var hs := Headlines(Top3(arts));
            && |hs| == (if |arts| < 3 then |arts| else 3)
            && (forall i :: 0 <= i < |hs| ==> hs[i] == Headline(i, arts[i].title))
            && GetNews(topic, Articles(arts)) == Intro(topic) + Join(hs, " ")
  {
  }
}
