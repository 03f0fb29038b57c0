/**
 * `fetchUrlContent` (src/ai/tools/get-url-content.ts): one GET of a page,
 * reduced to a string that never signals failure by throwing. The network's
 * answer is an input.
 */
module UrlContent {
  import opened Wrappers
  import opened Strings

  /** What the GET produced: a body, a response that is not ok, or a thrown error. */
  datatype FetchOutcome =
    | Fetched(body: string)
    | NotOk(status: int, statusText: string)
    | FetchThrew(message: Option<string>, asString: string)

  const DefaultMaxChars: nat := 4000

  /** `text.slice(0, maxChars)` for a non-negative `maxChars`. */
  function Truncate(text: string, maxChars: nat): (r: string)
    ensures |r| <= maxChars && |r| <= |text| && r == text[..|r|]
    ensures |text| <= maxChars ==> r == text
    ensures |text| > maxChars ==> |r| == maxChars
  {
    if |text| <= maxChars then text else text[..maxChars]
  }

  /** The error text shown for a thrown value: its message, or `String(e)` when the message is missing or empty. */
  function ThrownText(message: Option<string>, asString: string): (r: string)
    ensures message.Some? && message.value != "" ==> r == message.value
    ensures message.None? || message.value == "" ==> r == asString
  {
    if message.Some? && message.value != "" then message.value else asString
  }

  /**
   * The page text for `url`: the first `maxChars` characters of the body, or a
   * message naming the URL and the failure.
   */
  function FetchUrlContent(url: string, maxChars: nat, outcome: FetchOutcome): (r: string)
    ensures outcome.Fetched? ==> |r| <= maxChars && |r| <= |outcome.body| && r == outcome.body[..|r|]
                                 && (|outcome.body| <= maxChars ==> r == outcome.body)
    ensures outcome.NotOk? ==>
              r == "Failed to fetch URL " + url + ": " + IntToString(outcome.status) + " " + outcome.statusText
    ensures outcome.FetchThrew? ==>
              r == "Error fetching " + url + ": " + ThrownText(outcome.message, outcome.asString)
  {
    match outcome
    case Fetched(body) => Truncate(body, maxChars)
    case NotOk(status, statusText) => "Failed to fetch URL " + url + ": " + IntToString(status) + " " + statusText
    case FetchThrew(message, asString) => "Error fetching " + url + ": " + ThrownText(message, asString)
  }

  /**
   * `Promise.all(urls.map(u => fetchUrlContent(u, maxChars)))`, the network
   * answering `net`: one page per URL, in the URLs' order, none of them failing
   * the whole batch.
   */
  function Pages(urls: seq<string>, maxChars: nat, net: string -> FetchOutcome): (r: seq<string>)
    ensures |r| == |urls|
    ensures forall i :: 0 <= i < |urls| && net(urls[i]).Fetched? ==> |r[i]| <= maxChars
  {
    seq(|urls|, i requires 0 <= i < |urls| => FetchUrlContent(urls[i], maxChars, net(urls[i])))
  }

  /** Each URL's page depends on that URL alone: fetching two lists together is fetching them one after the other. */
  lemma PagesAppend(a: seq<string>, b: seq<string>, maxChars: nat, net: string -> FetchOutcome)
    ensures Pages(a + b, maxChars, net) == Pages(a, maxChars, net) + Pages(b, maxChars, net)
  {
    var l, r := Pages(a + b, maxChars, net), Pages(a, maxChars, net) + Pages(b, maxChars, net);
    forall i | 0 <= i < |l|
      ensures l[i] == r[i]
    {
      if i < |a| {
        assert (a + b)[i] == a[i];
      } else {
        assert (a + b)[i] == b[i - |a|];
      }
    }
  }

  /** Pages joined by any separator contain the page of each address. */
  lemma JoinedPagesContain(urls: seq<string>, maxChars: nat, net: string -> FetchOutcome, sep: string)
    ensures var joined := Join(Pages(urls, maxChars, net), sep);
            forall i :: 0 <= i < |urls| ==> Contains(joined, FetchUrlContent(urls[i], maxChars, net(urls[i])))
  {
    var pages := Pages(urls, maxChars, net);
    JoinContainsAll(pages, sep);
    assert forall i :: 0 <= i < |urls| ==> pages[i] == FetchUrlContent(urls[i], maxChars, net(urls[i]));
  }

  /** The rule the flows put between the pages of a context. */
  const PageSeparator := "\n\n---\n\n"
}
