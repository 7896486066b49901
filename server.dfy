/** The application shell of the backend (`main.py`): the middleware that counts at
    most one crawler visit per request before forwarding it, the health endpoint,
    and the handler that turns any unhandled exception into a 500. */
module Server {
  import opened Common
  import Text

  /** `BOT_PATTERNS`, in the order they are tried. */
  const BotPatterns: seq<string> :=
    ["Googlebot", "bingbot", "Baiduspider", "YandexBot", "DuckDuckBot", "Slurp", "facebookexternalhit"]

  /** `bot.lower() in ua.lower()`. */
  predicate Matches(bot: string, userAgent: string) {
    Text.Contains(Text.Lower(userAgent), Text.Lower(bot))
  }

  /** The index of the first pattern at or after `from` that matches, or `|BotPatterns|` if none does. */
  function FirstMatchFrom(userAgent: string, from: nat): (k: nat)
    requires from <= |BotPatterns|
    ensures from <= k <= |BotPatterns|
    ensures k < |BotPatterns| ==> Matches(BotPatterns[k], userAgent)
    ensures forall j :: from <= j < k ==> !Matches(BotPatterns[j], userAgent)
    decreases |BotPatterns| - from
  {
    if from == |BotPatterns| then from
    else if Matches(BotPatterns[from], userAgent) then from
    else FirstMatchFrom(userAgent, from + 1)
  }

  /** The crawler a request is counted as: the first pattern, in `BOT_PATTERNS` order,
      that occurs in the user agent ignoring case; None when no pattern occurs. */
  function Crawler(userAgent: string): (r: Option<string>)
    ensures r.None? <==> forall j :: 0 <= j < |BotPatterns| ==> !Matches(BotPatterns[j], userAgent)
    ensures r.Some? ==>
      exists k :: (0 <= k < |BotPatterns| && BotPatterns[k] == r.value
                   && Matches(BotPatterns[k], userAgent)
                   && forall j :: 0 <= j < k ==> !Matches(BotPatterns[j], userAgent))
  {
    var k := FirstMatchFrom(userAgent, 0);
    if k < |BotPatterns| then Some(BotPatterns[k]) else None
  }

  /** Matching ignores case: a user agent and its lower-cased form count as the same crawler. */
  lemma {:induction false} CrawlerIgnoresCase(userAgent: string)
    ensures Crawler(Text.Lower(userAgent)) == Crawler(userAgent)
  {
    var lo := Text.Lower(userAgent);
    assert Text.Lower(lo) == lo by {
      forall i | 0 <= i < |lo| ensures Text.Lower(lo)[i] == lo[i] {
        assert !('A' <= lo[i] <= 'Z');
      }
    }
    forall j | 0 <= j < |BotPatterns| ensures Matches(BotPatterns[j], lo) == Matches(BotPatterns[j], userAgent) {
    }
    assert FirstMatchFrom(lo, 0) == FirstMatchFrom(userAgent, 0) by {
      SameMatchesSameIndex(lo, userAgent, 0);
    }
  }

  lemma {:induction false} SameMatchesSameIndex(a: string, b: string, from: nat)
    requires from <= |BotPatterns|
    requires forall j :: 0 <= j < |BotPatterns| ==> Matches(BotPatterns[j], a) == Matches(BotPatterns[j], b)
    ensures FirstMatchFrom(a, from) == FirstMatchFrom(b, from)
    decreases |BotPatterns| - from
  {
    if from < |BotPatterns| && !Matches(BotPatterns[from], a) {
      SameMatchesSameIndex(a, b, from + 1);
    }
  }

  /** The `crawler_visits` counter, one count per crawler pattern. */
  class CrawlerVisits {
    var visits: map<string, nat>

    constructor ()
      ensures visits == map[]
    {
      visits := map[];
    }

    function Count(bot: string): nat
      reads this
    {
      if bot in visits then visits[bot] else 0
    }

    /** `metrics_middleware`: counts the first crawler pattern that matches the user
        agent (a missing header reads as ""), then forwards the request; the response
        is the downstream handler's, whether or not a crawler matched. */
    method MetricsMiddleware<Request, Response>(request: Request, userAgent: Option<string>,
                                                callNext: Request -> Response)
      returns (response: Response)
      modifies this
      ensures response == callNext(request)
      ensures var ua := if userAgent.Some? then userAgent.value else "";
        match Crawler(ua)
        case None => visits == old(visits)
        case Some(bot) => visits == old(visits)[bot := old(Count(bot)) + 1]
    {
      var ua := if userAgent.Some? then userAgent.value else "";
      var i := 0;
      while i < |BotPatterns|
        invariant 0 <= i <= |BotPatterns|
        invariant forall j :: 0 <= j < i ==> !Matches(BotPatterns[j], ua)
        invariant visits == old(visits)
      {
        var bot := BotPatterns[i];
        if Matches(bot, ua) {
          CrawlerIsFirstMatch(ua, i);
          visits := visits[bot := Count(bot) + 1];
          break;
        }
        i := i + 1;
      }
      if i == |BotPatterns| {
        NoMatchNoCrawler(ua);
      }
      response := callNext(request);
    }
  }

  lemma CrawlerIsFirstMatch(ua: string, i: nat)
    requires i < |BotPatterns| && Matches(BotPatterns[i], ua)
    requires forall j :: 0 <= j < i ==> !Matches(BotPatterns[j], ua)
    ensures Crawler(ua) == Some(BotPatterns[i])
  {
    FirstMatchIsFirst(ua, i);
  }

  lemma NoMatchNoCrawler(ua: string)
    requires forall j :: 0 <= j < |BotPatterns| ==> !Matches(BotPatterns[j], ua)
    ensures Crawler(ua) == None
  {
  }

  /** The first match is the smallest matching index. */
  lemma FirstMatchIsFirst(ua: string, i: nat)
    requires i < |BotPatterns| && Matches(BotPatterns[i], ua)
    requires forall j :: 0 <= j < i ==> !Matches(BotPatterns[j], ua)
    ensures FirstMatchFrom(ua, 0) == i
  {
  }

  datatype HealthPayload = HealthPayload(status: string, service: string)

  /** `health`. */
  function Health(): (h: HealthPayload)
    ensures h.status == "healthy" && h.service == "textbook-ocr"
  {
    HealthPayload("healthy", "textbook-ocr")
  }

  /** `global_exception_handler`: any unhandled exception becomes a 500 whose detail is the exception's text. */
  function ExceptionResponse(exceptionText: string): (e: HttpError)
    ensures e.status == 500 && e.detail == exceptionText
  {
    HttpError(500, exceptionText)
  }
}
