/** The mailbox step: the reporting window, header lookup, the search for
    the HTML body in a message's part tree, and the loop that keeps the
    messages whose details could be fetched. The mailbox calls and the
    base64url/UTF-8 decoding are parameters. */
module Gmail {
  import opened Wrappers
  import opened Records
  import opened Seqs

  // ---------------------------------------------------------------------
  // The reporting window
  // ---------------------------------------------------------------------

  /** A local date and time. `day` is the proleptic Gregorian ordinal of the
      date (day 1 is 1 January of year 1, a Monday), as `date.toordinal()`. */
  datatype Moment = Moment(day: int, hour: nat, minute: nat, second: nat, microsecond: nat)

  /** `date.weekday()`: Monday is 0, Friday is 4, Sunday is 6. */
  function Weekday(day: int): int {
    (day + 6) % 7
  }

  const Friday: int := 4

  /** The query window: from `after` to `before`. */
  datatype Window = Window(after: Moment, before: Moment)

  /** Days since the most recent Friday (0 on a Friday). Python's `%` by a
      positive number is never negative, like Dafny's. */
  function DaysSinceFriday(now: Moment): (d: int)
    ensures 0 <= d <= 6
    ensures Weekday(now.day - d) == Friday
  {
    (Weekday(now.day) - Friday) % 7
  }

  /** The window for the week before `now`: it starts at 08:00 on the Friday
      `DaysSinceFriday + 7` days back and ends at 08:00 today. */
  function LastWeekWindow(now: Moment): (w: Window)
    ensures Weekday(w.after.day) == Friday && 7 <= now.day - w.after.day <= 13
    ensures w.after == Moment(w.after.day, 8, 0, 0, 0)
    ensures w.before == Moment(now.day, 8, 0, 0, 0)
  {
    var lastFriday := now.day - (DaysSinceFriday(now) + 7);
    Window(Moment(lastFriday, 8, 0, 0, 0), Moment(now.day, 8, 0, 0, 0))
  }

  /** The window's Friday is 7 days back exactly when today is a Friday, and
      it is the latest Friday at least 7 days back. */
  lemma LastWeekWindowBounds(now: Moment)
    ensures var w := LastWeekWindow(now);
            && (Weekday(now.day) == Friday <==> now.day - w.after.day == 7)
            && (forall d :: w.after.day < d <= now.day - 7 ==> Weekday(d) != Friday)
  {
    var w := LastWeekWindow(now);
    forall d | w.after.day < d <= now.day - 7
      ensures Weekday(d) != Friday
    {
      assert 0 < d - w.after.day < 7;
    }
  }

  // ---------------------------------------------------------------------
  // Header lookup
  // ---------------------------------------------------------------------

  datatype Header = Header(name: string, value: string)

  /** `next((h['value'] for h in headers if h['name'] == name), default)`:
      the value of the first header with exactly this name, or the default
      when there is none. */
  function HeaderValue(headers: seq<Header>, name: string, default: string): (v: string)
    ensures forall k :: 0 <= k < |headers| && headers[k].name == name
              && (forall j :: 0 <= j < k ==> headers[j].name != name)
              ==> v == headers[k].value
    ensures (forall k :: 0 <= k < |headers| ==> headers[k].name != name) ==> v == default
  {
    if headers == [] then default
    else if headers[0].name == name then headers[0].value
    else HeaderValue(headers[1..], name, default)
  }

  // ---------------------------------------------------------------------
  // The HTML body
  // ---------------------------------------------------------------------

  /** A MIME part: its type, the encoded `body.data` if present, and its
      sub-parts. */
  datatype Part = Part(mimeType: string, data: Option<string>, parts: SubParts)

  /** The `parts` key: absent, or present with a (possibly empty) list. */
  datatype SubParts = NoParts | Parts(items: seq<Part>)

  const HtmlType: string := "text/html"

  /** Decoding of a part's data (base64url, then UTF-8); `Raised` when either
      step fails. */
  type Decoder = string -> Outcome<string>

  /** How a scan over sub-parts ends: it returns (a value or an exception),
      or it runs past the last sub-part. */
  datatype Scan = Returned(result: Outcome<string>) | Exhausted

  function Children(p: Part): seq<Part> {
    if p.parts.Parts? then p.parts.items else []
  }

  /** `_get_html_body(payload)`: scan the sub-parts; if the scan runs out,
      fall back to the payload's own data, or "" without data. */
  function HtmlBody(decode: Decoder, p: Part): Outcome<string>
    decreases p, 1, 0
  {
    match ScanParts(decode, p, 0)
    case Returned(r) => r
    case Exhausted => if p.data.Some? then decode(p.data.value) else Ok("")
  }

  /** The loop of `_get_html_body` from sub-part `i` on: a `text/html` part
      with data returns its decoded data; a `text/html` part without data is
      passed over (its sub-parts are not searched); any other part with
      sub-parts is searched recursively and returns what that search found
      unless it is ""; a part with neither is passed over. */
  function ScanParts(decode: Decoder, p: Part, i: nat): Scan
    decreases p, 0, if p.parts.Parts? then |p.parts.items| - i else 0
  {
    if p.parts.NoParts? || i >= |p.parts.items| then Exhausted
    else
      var c := p.parts.items[i];
      if c.mimeType == HtmlType then
        if c.data.Some? then Returned(decode(c.data.value)) else ScanParts(decode, p, i + 1)
      else if c.parts.Parts? then
        var html := HtmlBody(decode, c);
        if html.Raised? || html.value != "" then Returned(html) else ScanParts(decode, p, i + 1)
      else ScanParts(decode, p, i + 1)
  }

  /** A sub-part the scan moves past. */
  predicate PassedOver(decode: Decoder, c: Part) {
    if c.mimeType == HtmlType then c.data.None?
    else c.parts.NoParts? || HtmlBody(decode, c) == Ok("")
  }

  /** What a sub-part that stops the scan makes the scan return. */
  function Verdict(decode: Decoder, c: Part): Outcome<string> {
    if c.mimeType == HtmlType && c.data.Some? then decode(c.data.value) else HtmlBody(decode, c)
  }

  /** The scan returns the verdict of the first sub-part from `i` on that it
      does not pass over. */
  lemma {:induction false} ScanStopsAtFirst(decode: Decoder, p: Part, i: nat, k: nat)
    requires i <= k < |Children(p)|
    requires forall j :: i <= j < k ==> PassedOver(decode, Children(p)[j])
    requires !PassedOver(decode, Children(p)[k])
    ensures ScanParts(decode, p, i) == Returned(Verdict(decode, Children(p)[k]))
    decreases k - i
  {
    if i < k {
      ScanStopsAtFirst(decode, p, i + 1, k);
    }
  }

  /** The scan runs out exactly when it passes over every sub-part from `i` on. */
  lemma {:induction false} ScanExhausted(decode: Decoder, p: Part, i: nat)
    requires i <= |Children(p)|
    ensures ScanParts(decode, p, i) == Exhausted
        <==> forall j :: i <= j < |Children(p)| ==> PassedOver(decode, Children(p)[j])
    decreases |Children(p)| - i
  {
    if i < |Children(p)| {
      ScanExhausted(decode, p, i + 1);
    }
  }

  /** The first sub-part, in order, that is not passed over decides the
      result: a `text/html` part's decoded data (even if it is ""), or a
      nested part's non-empty result. */
  lemma HtmlBodyFirstMatch(decode: Decoder, p: Part, k: nat)
    requires k < |Children(p)|
    requires forall j :: 0 <= j < k ==> PassedOver(decode, Children(p)[j])
    requires !PassedOver(decode, Children(p)[k])
    ensures HtmlBody(decode, p) == Verdict(decode, Children(p)[k])
  {
    ScanStopsAtFirst(decode, p, 0, k);
  }

  /** When every sub-part is passed over (or there are none), the result is
      the payload's own decoded data whatever its type, or "" without data. */
  lemma HtmlBodyFallback(decode: Decoder, p: Part)
    requires forall j :: 0 <= j < |Children(p)| ==> PassedOver(decode, Children(p)[j])
    ensures HtmlBody(decode, p) == if p.data.Some? then decode(p.data.value) else Ok("")
  {
    ScanExhausted(decode, p, 0);
  }

  /** The sub-parts of a `text/html` part without data are never searched:
      replacing them leaves the result unchanged. */
  lemma {:induction false} HtmlPartWithoutDataHidesSubparts(decode: Decoder, p: Part, k: nat, nested: SubParts, i: nat)
    requires p.parts.Parts? && k < |p.parts.items|
    requires p.parts.items[k].mimeType == HtmlType && p.parts.items[k].data.None?
    ensures ScanParts(decode, p, i)
         == ScanParts(decode, p.(parts := Parts(p.parts.items[k := p.parts.items[k].(parts := nested)])), i)
    decreases |p.parts.items| - i
  {
    if i < |p.parts.items| {
      HtmlPartWithoutDataHidesSubparts(decode, p, k, nested, i + 1);
    }
  }

  // ---------------------------------------------------------------------
  // Message details and the fetch loop
  // ---------------------------------------------------------------------

  /** A message as `messages.get(format='full')` returns it. */
  datatype RawMessage = RawMessage(headers: seq<Header>, payload: Part, snippet: Option<string>)

  /** `_get_message_details`: `None` when fetching the message raised or its
      HTML body could not be decoded; otherwise the record, with subject,
      sender and date looked up as first-match-or-default. */
  function MessageDetails(decode: Decoder, id: string, fetched: Outcome<RawMessage>): (r: Option<Newsletter>)
    ensures r.Some? <==> fetched.Ok? && HtmlBody(decode, fetched.value.payload).Ok?
    ensures r.Some? ==> r.value.id == id
    ensures r.Some? ==> r.value.htmlBody == HtmlBody(decode, fetched.value.payload).value
    ensures r.Some? ==> && r.value.subject == HeaderValue(fetched.value.headers, "Subject", "Ingen titel")
                        && r.value.sender == HeaderValue(fetched.value.headers, "From", "Okänd")
                        && r.value.date == HeaderValue(fetched.value.headers, "Date", "")
    ensures r.Some? ==> r.value.snippet == if fetched.value.snippet.Some? then fetched.value.snippet.value else ""
  {
    match fetched
    case Raised => None
    case Ok(message) =>
      var headers := message.headers;
      var subject := HeaderValue(headers, "Subject", "Ingen titel");
      var fromEmail := HeaderValue(headers, "From", "Okänd");
      var date := HeaderValue(headers, "Date", "");
      match HtmlBody(decode, message.payload)
      case Raised => None
      case Ok(htmlBody) =>
        var snippet := if message.snippet.Some? then message.snippet.value else "";
        Some(Newsletter(id, subject, fromEmail, date, htmlBody, snippet))
  }

  /** The listing call's page size (`maxResults`). */
  const MaxResults: nat := 100

  /** The mailbox as the run sees it: `list` answers the query for a window
      with the ids of all matching unread messages, or raises; `get` fetches
      one message by id, or raises. */
  datatype Mailbox = Mailbox(list: Window -> Outcome<seq<string>>, get: string -> Outcome<RawMessage>)

  /** The ids the listing call returns: the first page of at most 100. */
  function Listed(mailbox: Mailbox, now: Moment): seq<string> {
    match mailbox.list(LastWeekWindow(now))
    case Raised => []
    case Ok(ids) => Take(ids, MaxResults)
  }

  /** The outcome of `_get_message_details` for each listed id, in order. */
  function DetailOutcomes(mailbox: Mailbox, decode: Decoder, ids: seq<string>): (os: seq<Option<Newsletter>>)
    ensures |os| == |ids|
    ensures forall k :: 0 <= k < |ids| ==> os[k] == MessageDetails(decode, ids[k], mailbox.get(ids[k]))
  {
    if ids == [] then []
    else DetailOutcomes(mailbox, decode, ids[..|ids| - 1])
         + [MessageDetails(decode, ids[|ids| - 1], mailbox.get(ids[|ids| - 1]))]
  }

  /** What `get_newsletters_last_week` returns. */
  function LastWeekNewsletters(mailbox: Mailbox, decode: Decoder, now: Moment): seq<Newsletter> {
    Successes(DetailOutcomes(mailbox, decode, Listed(mailbox, now)))
  }

  /** The fetched list holds exactly the listed messages whose details could
      be fetched, in listing order, each under its own id; it has at most
      100 entries, and it is empty when the listing call raised. */
  lemma LastWeekNewslettersSelect(mailbox: Mailbox, decode: Decoder, now: Moment)
    ensures var ids := Listed(mailbox, now);
            var os := DetailOutcomes(mailbox, decode, ids);
            var ks := SuccessIndices(os);
            var result := LastWeekNewsletters(mailbox, decode, now);
            && |result| == |ks| <= |ids| <= MaxResults
            && (forall j :: 0 <= j < |ks| ==> result[j] == os[ks[j]].value && result[j].id == ids[ks[j]])
            && (forall k :: 0 <= k < |ids| && MessageDetails(decode, ids[k], mailbox.get(ids[k])).Some? ==> k in ks)
            && (forall i, j :: 0 <= i < j < |ks| ==> ks[i] < ks[j])
            && (mailbox.list(LastWeekWindow(now)).Raised? ==> result == [])
  {
    var ids := Listed(mailbox, now);
    var os := DetailOutcomes(mailbox, decode, ids);
    SuccessesSelect(os);
  }

  /** `get_newsletters_last_week`: list the window's unread messages, fetch
      each one's details and append those that came back. */
  method NewslettersLastWeek(mailbox: Mailbox, decode: Decoder, now: Moment) returns (newsletters: seq<Newsletter>)
    ensures newsletters == LastWeekNewsletters(mailbox, decode, now)
    ensures |newsletters| <= MaxResults
  {
    var window := LastWeekWindow(now);
    var results := mailbox.list(window);
    if results.Raised? {
      return [];
    }
    var messages := Take(results.value, MaxResults);
    newsletters := [];
    for k := 0 to |messages|
      invariant newsletters == Successes(DetailOutcomes(mailbox, decode, messages[..k]))
    {
      assert messages[..k + 1][..k] == messages[..k];
      var newsletter := MessageDetails(decode, messages[k], mailbox.get(messages[k]));
      assert DetailOutcomes(mailbox, decode, messages[..k + 1])
          == DetailOutcomes(mailbox, decode, messages[..k]) + [newsletter];
      if newsletter.Some? {
        newsletters := newsletters + [newsletter.value];
      }
    }
    assert messages[..|messages|] == messages;
  }
}
