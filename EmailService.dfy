/**
 * The e-mail service: HTML composition with open and click tracking
 * (`sendEmail`, `injectClickTracking`), the template override and batched
 * sending of `sendBulkEmails`, the query of `listTemplates`, and the record
 * `parseIncomingEmail` builds. The transport, the database and the event bus
 * are collaborators: their answers are inputs.
 */
module EmailService {
  import opened Wrappers
  import opened Json

  // ------------------------------------------------------ encodeURIComponent

  /** The characters `encodeURIComponent` leaves as they are. */
  predicate Unreserved(c: char) {
    ('A' <= c <= 'Z') || ('a' <= c <= 'z') || ('0' <= c <= '9')
    || c == '-' || c == '_' || c == '.' || c == '!' || c == '~' || c == '*' || c == '\'' || c == '(' || c == ')'
  }

  function HexDigit(d: nat): (c: char)
    requires d < 16
    ensures Unreserved(c) && c != '\''
  {
    if d < 10 then (('0' as int) + d) as char else (('A' as int) + d - 10) as char
  }

  /** `%XX` with upper-case hexadecimal digits. */
  function PercentByte(b: nat): (r: string)
    requires b < 256
    ensures |r| == 3 && r[0] == '%' && Unreserved(r[1]) && Unreserved(r[2]) && r[1] != '\'' && r[2] != '\''
  {
    ['%', HexDigit(b / 16), HexDigit(b % 16)]
  }

  /** The UTF-8 encoding of a Unicode scalar value. */
  function Utf8Bytes(c: char): (bytes: seq<nat>)
    ensures 1 <= |bytes| <= 4 && forall i :: 0 <= i < |bytes| ==> bytes[i] < 256
  {
    var n := c as int;
    if n < 0x80 then [n]
    else if n < 0x800 then [0xC0 + n / 0x40, 0x80 + n % 0x40]
    else if n < 0x1_0000 then [0xE0 + n / 0x1000, 0x80 + (n / 0x40) % 0x40, 0x80 + n % 0x40]
    else [0xF0 + n / 0x4_0000, 0x80 + (n / 0x1000) % 0x40, 0x80 + (n / 0x40) % 0x40, 0x80 + n % 0x40]
  }

  function PercentBytes(bytes: seq<nat>): (r: string)
    requires forall i :: 0 <= i < |bytes| ==> bytes[i] < 256
    ensures forall i :: 0 <= i < |r| ==> (r[i] == '%' || Unreserved(r[i])) && r[i] != '\''
    ensures |r| == 3 * |bytes|
  {
    if bytes == [] then [] else PercentByte(bytes[0]) + PercentBytes(bytes[1..])
  }

  function EncodeChar(c: char): (r: string)
    ensures forall i :: 0 <= i < |r| ==> r[i] == '%' || Unreserved(r[i])
    ensures forall i :: 0 <= i < |r| ==> r[i] == '\'' ==> c == '\''
    ensures Unreserved(c) ==> r == [c]
  {
    if Unreserved(c) then [c] else PercentBytes(Utf8Bytes(c))
  }

  /** `encodeURIComponent`: unreserved characters stay, every other one becomes its UTF-8 bytes as `%XX`. */
  function EncodeUriComponent(s: string): (r: string)
    ensures forall i :: 0 <= i < |r| ==> r[i] == '%' || Unreserved(r[i])
    decreases |s|
  {
    if s == [] then "" else EncodeChar(s[0]) + EncodeUriComponent(s[1..])
  }

  /** A string of unreserved characters is its own encoding. */
  lemma {:induction false} EncodeUnreservedIsIdentity(s: string)
    requires forall i :: 0 <= i < |s| ==> Unreserved(s[i])
    ensures EncodeUriComponent(s) == s
    decreases |s|
  {
    if s != [] {
      EncodeUnreservedIsIdentity(s[1..]);
    }
  }

  /** The encoding never holds a double quote, and holds a single quote only where the input does. */
  lemma {:induction false} EncodingKeepsQuotesOut(s: string)
    ensures '"' !in EncodeUriComponent(s)
    ensures '\'' in EncodeUriComponent(s) ==> '\'' in s
    decreases |s|
  {
    if s != [] {
      EncodingKeepsQuotesOut(s[1..]);
      var head := EncodeChar(s[0]);
      var tail := EncodeUriComponent(s[1..]);
      assert EncodeUriComponent(s) == head + tail;
      assert forall c :: c in head + tail <==> c in head || c in tail;
      assert '"' !in head;
      assert '\'' in head ==> s[0] == '\'';
      assert '\'' in tail ==> '\'' in s[1..];
      assert s == [s[0]] + s[1..];
    }
  }

  // ---------------------------------------------------------- click tracking

  /** The line terminators JavaScript's `.` does not match. */
  predicate LineTerminator(c: char) {
    c == '\n' || c == '\r' || c == '\U{2028}' || c == '\U{2029}'
  }

  /**
   * The HTML body as the link pattern splits it: text between matches, and
   * matches `<a … href=` quote url quote, where `opening` is everything
   * before the attribute name and `attribute` is the `href=` as the body
   * spells it (the pattern ignores case).
   */
  datatype Segment = Plain(text: string) | Anchor(opening: string, attribute: string, quote: char, url: string)

  /** The ASCII lower case of a character, as the `i` flag compares letters. */
  function AsciiLower(c: char): char {
    if 'A' <= c <= 'Z' then (c as int + 32) as char else c
  }

  /** `href=` in any mix of upper and lower case. */
  predicate IsHrefIgnoringCase(a: string) {
    |a| == 5 && forall k :: 0 <= k < 5 ==> AsciiLower(a[k]) == "href="[k]
  }

  /**
   * A match of the lazy pattern: the attribute is `href=` ignoring case, the
   * quote is `"` or `'`, and the url holds neither it nor a line break.
   */
  predicate WellFormed(segments: seq<Segment>) {
    forall i :: 0 <= i < |segments| && segments[i].Anchor? ==>
      IsHrefIgnoringCase(segments[i].attribute)
      && (segments[i].quote == '"' || segments[i].quote == '\'')
      && segments[i].quote !in segments[i].url
      && forall j :: 0 <= j < |segments[i].url| ==> !LineTerminator(segments[i].url[j])
  }

  function SegmentText(s: Segment): string {
    match s
    case Plain(t) => t
    case Anchor(opening, attribute, q, url) => opening + attribute + [q] + url + [q]
  }

  /** The body the segments spell. */
  function Original(segments: seq<Segment>): string
    decreases |segments|
  {
    if segments == [] then "" else SegmentText(segments[0]) + Original(segments[1..])
  }

  /** The tracking redirect for one link. */
  function ClickUrl(apiUrl: string, emailId: string, url: string): string {
    apiUrl + "/api/v1/emails/" + emailId + "/track/click?url=" + EncodeUriComponent(url)
  }

  function Tracked(s: Segment, apiUrl: string, emailId: string): (r: string)
    ensures s.Anchor? ==> r != []
  {
    match s
    case Plain(t) => t
    case Anchor(_, _, q, url) => "<a href=" + [q] + ClickUrl(apiUrl, emailId, url) + [q]
  }

  /** `injectClickTracking`: every match is replaced by a tag whose only attribute is the tracking link. */
  function InjectClickTracking(segments: seq<Segment>, apiUrl: string, emailId: string): (r: string)
    ensures segments != [] && segments[0].Plain? ==> segments[0].text <= r
    decreases |segments|
  {
    if segments == [] then "" else Tracked(segments[0], apiUrl, emailId) + InjectClickTracking(segments[1..], apiUrl, emailId)
  }

  /** Rewriting works segment by segment: text around a match is copied unchanged. */
  lemma {:induction false} InjectAppend(a: seq<Segment>, b: seq<Segment>, apiUrl: string, emailId: string)
    ensures InjectClickTracking(a + b, apiUrl, emailId) == InjectClickTracking(a, apiUrl, emailId) + InjectClickTracking(b, apiUrl, emailId)
    decreases |a|
  {
    if a == [] {
      assert a + b == b;
    } else {
      assert (a + b)[0] == a[0] && (a + b)[1..] == a[1..] + b;
      InjectAppend(a[1..], b, apiUrl, emailId);
    }
  }

  /** The segments of two pieces of body spell the two pieces one after the other. */
  lemma {:induction false} OriginalAppend(a: seq<Segment>, b: seq<Segment>)
    ensures Original(a + b) == Original(a) + Original(b)
    decreases |a|
  {
    if a == [] {
      assert a + b == b;
    } else {
      assert (a + b)[0] == a[0] && (a + b)[1..] == a[1..] + b;
      OriginalAppend(a[1..], b);
    }
  }

  /** Text between links is copied as it is, and the rewriting around it is that of the pieces on either side. */
  lemma TextAroundLinksUnchanged(before: seq<Segment>, text: string, after: seq<Segment>, apiUrl: string, emailId: string)
    ensures InjectClickTracking(before + [Plain(text)] + after, apiUrl, emailId)
      == InjectClickTracking(before, apiUrl, emailId) + text + InjectClickTracking(after, apiUrl, emailId)
  {
    var middle := [Plain(text)];
    InjectAppend(before + middle, after, apiUrl, emailId);
    InjectAppend(before, middle, apiUrl, emailId);
    assert middle[1..] == [];
    assert InjectClickTracking(middle, apiUrl, emailId) == text;
  }

  /** Without links the body is unchanged. */
  lemma {:induction false} InjectWithoutLinks(segments: seq<Segment>, apiUrl: string, emailId: string)
    requires forall i :: 0 <= i < |segments| ==> segments[i].Plain?
    ensures InjectClickTracking(segments, apiUrl, emailId) == Original(segments)
    decreases |segments|
  {
    if segments != [] {
      InjectWithoutLinks(segments[1..], apiUrl, emailId);
    }
  }

  /** A non-empty body stays non-empty. */
  lemma {:induction false} InjectKeepsNonEmpty(segments: seq<Segment>, apiUrl: string, emailId: string)
    requires Original(segments) != ""
    ensures InjectClickTracking(segments, apiUrl, emailId) != ""
    decreases |segments|
  {
    if SegmentText(segments[0]) == "" {
      InjectKeepsNonEmpty(segments[1..], apiUrl, emailId);
    }
  }

  /**
   * The rewritten tag keeps the match's quote character, and the tracking
   * link inside it cannot close the attribute early when neither the API
   * address nor the e-mail id holds that quote.
   */
  lemma TrackedLinkIsOneAttribute(opening: string, attribute: string, q: char, url: string, apiUrl: string, emailId: string)
    requires WellFormed([Anchor(opening, attribute, q, url)])
    requires q !in apiUrl && q !in emailId
    ensures var t := Tracked(Anchor(opening, attribute, q, url), apiUrl, emailId);
      t == "<a href=" + [q] + ClickUrl(apiUrl, emailId, url) + [q]
      && q !in ClickUrl(apiUrl, emailId, url)
  {
    assert [Anchor(opening, attribute, q, url)][0].Anchor?;
    assert q == '"' || q == '\'';
    EncodingKeepsQuotesOut(url);
    var enc := EncodeUriComponent(url);
    assert q !in enc;
    assert q !in "/api/v1/emails/" && q !in "/track/click?url=";
    var c := ClickUrl(apiUrl, emailId, url);
    assert c == apiUrl + "/api/v1/emails/" + emailId + "/track/click?url=" + enc;
  }

  /**
   * The pattern ignores case: `<A HREF="x">` is one match, and its tag is
   * rewritten to the lower-case `<a href="…">` of the tracking link.
   */
  lemma UppercaseHrefRewritten(apiUrl: string, emailId: string)
    ensures var segments := [Anchor("<A ", "HREF=", '"', "x"), Plain(">")];
      && WellFormed(segments)
      && Original(segments) == "<A HREF=\"x\">"
      && InjectClickTracking(segments, apiUrl, emailId)
         == "<a href=\"" + apiUrl + "/api/v1/emails/" + emailId + "/track/click?url=x\">"
  {
    var segments := [Anchor("<A ", "HREF=", '"', "x"), Plain(">")];
    assert IsHrefIgnoringCase("HREF=");
    assert segments[1..] == [Plain(">")] && segments[1..][1..] == [];
    assert EncodeUriComponent("x") == "x" by {
      EncodeUnreservedIsIdentity("x");
    }
  }

  // ------------------------------------------------------------ composition

  /** The open-tracking pixel; `apiUrl` is the `API_URL` setting as the template literal prints it. */
  function TrackingPixel(apiUrl: string, emailId: string): (r: string)
    ensures r != ""
  {
    "<img src=\"" + apiUrl + "/api/v1/emails/" + emailId + "/track/open\" width=\"1\" height=\"1\" />"
  }

  /** `body_html || ''`. */
  function BodyOrEmpty(body: Option<string>): string {
    if body.Some? then body.value else ""
  }

  /**
   * The HTML `sendEmail` hands to the transport. `segments` is the body as
   * the link pattern splits it.
   */
  method ComposeHtml(body: Option<string>, segments: seq<Segment>, trackOpens: bool, trackClicks: bool,
                     apiUrl: string, emailId: string) returns (html: string)
    requires Original(segments) == BodyOrEmpty(body)
    ensures BodyOrEmpty(body) == "" ==> html == ""
    ensures BodyOrEmpty(body) != "" ==>
      html == (if trackClicks then InjectClickTracking(segments, apiUrl, emailId) else BodyOrEmpty(body))
        + (if trackOpens then TrackingPixel(apiUrl, emailId) else "")
    ensures !trackOpens && !trackClicks ==> html == BodyOrEmpty(body)
  {
    var trackingPixel := if trackOpens then TrackingPixel(apiUrl, emailId) else "";
    html := BodyOrEmpty(body);
    if trackClicks && html != "" {
      InjectKeepsNonEmpty(segments, apiUrl, emailId);
      html := InjectClickTracking(segments, apiUrl, emailId);
    }
    if trackingPixel != "" && html != "" {
      html := html + trackingPixel;
    }
  }

  // --------------------------------------------------------------- templates

  datatype EmailTemplate = EmailTemplate(id: string, organizationId: string, name: string, subject: string, bodyHtml: string)

  /** `getTemplate`: the first stored template with that id in that organization, or `null`. */
  function GetTemplate(templates: seq<EmailTemplate>, id: string, organizationId: string): (r: Option<EmailTemplate>)
    ensures r.Some? ==> r.value in templates && r.value.id == id && r.value.organizationId == organizationId
    ensures r.None? <==> forall i :: 0 <= i < |templates| ==> !(templates[i].id == id && templates[i].organizationId == organizationId)
    decreases |templates|
  {
    if templates == [] then None
    else if templates[0].id == id && templates[0].organizationId == organizationId then Some(templates[0])
    else GetTemplate(templates[1..], id, organizationId)
  }

  /** The body `sendBulkEmails` sends: the template's when a non-empty id is given and found, else `body`. */
  function BulkBody(body: string, templateId: Option<string>, templates: seq<EmailTemplate>, organizationId: string): (r: string)
    ensures (templateId.Some? && templateId.value != "" && GetTemplate(templates, templateId.value, organizationId).Some?)
      ==> r == GetTemplate(templates, templateId.value, organizationId).value.bodyHtml
    ensures !(templateId.Some? && templateId.value != "" && GetTemplate(templates, templateId.value, organizationId).Some?)
      ==> r == body
  {
    if templateId.Some? && templateId.value != "" then
      match GetTemplate(templates, templateId.value, organizationId)
      case Some(t) => t.bodyHtml
      case None => body
    else body
  }

  /** A template of another organization is never used. */
  lemma ForeignTemplateIgnored(body: string, id: string, templates: seq<EmailTemplate>, organizationId: string)
    requires forall i :: 0 <= i < |templates| ==> templates[i].organizationId != organizationId
    ensures BulkBody(body, Some(id), templates, organizationId) == body
  {
  }

  // -------------------------------------------------------------- bulk send

  const BatchSize: nat := 50
  const DefaultSender := "noreply@crm.local"

  /** The `EmailMessage` `sendBulkEmails` passes to `sendEmail`. */
  datatype OutgoingEmail = OutgoingEmail(
    from: string, to: seq<string>, subject: string, bodyHtml: string, organizationId: string,
    trackOpens: bool, trackClicks: bool)

  /** `EMAIL_FROM || 'noreply@crm.local'`. */
  function Sender(emailFrom: Option<string>): string {
    if emailFrom.Some? && emailFrom.value != "" then emailFrom.value else DefaultSender
  }

  function BulkMessage(sender: string, recipient: string, subject: string, body: string, organizationId: string): OutgoingEmail {
    OutgoingEmail(sender, [recipient], subject, body, organizationId, true, true)
  }

  /** Whether the transport accepted message `k`; messages past the end of the script are accepted. */
  predicate DeliveredAt(delivered: seq<bool>, k: nat) {
    k >= |delivered| || delivered[k]
  }

  /** How many of the first `m` messages were accepted. */
  function SentCount(delivered: seq<bool>, m: nat): (n: nat)
    ensures n <= m
  {
    if m == 0 then 0 else SentCount(delivered, m - 1) + (if DeliveredAt(delivered, m - 1) then 1 else 0)
  }

  function Min(a: int, b: int): int {
    if a <= b then a else b
  }

  /** Consecutive slices of `size`, the last one possibly shorter. */
  function Batches(r: seq<string>, size: nat): (bs: seq<seq<string>>)
    requires size > 0
    ensures forall i :: 0 <= i < |bs| ==> 1 <= |bs[i]| <= size
    decreases |r|
  {
    if r == [] then [] else if |r| <= size then [r] else [r[..size]] + Batches(r[size..], size)
  }

  function Flatten(bs: seq<seq<string>>): seq<string>
    decreases |bs|
  {
    if bs == [] then [] else bs[0] + Flatten(bs[1..])
  }

  /** The batches put back together are the recipient list. */
  lemma {:induction false} BatchesConcatenate(r: seq<string>, size: nat)
    requires size > 0
    ensures Flatten(Batches(r, size)) == r
    decreases |r|
  {
    if |r| > size {
      BatchesConcatenate(r[size..], size);
      assert r == r[..size] + r[size..];
    } else if r != [] {
      assert Flatten([r]) == r + Flatten([]);
    }
  }

  /** Batch `j` of 50 is the slice starting at `j * 50`: the one `recipients.slice(i, i + 50)` takes. */
  lemma {:induction false} BatchesAreSlices(r: seq<string>, j: nat)
    requires j < |Batches(r, BatchSize)|
    ensures j * 50 < |r| && Batches(r, BatchSize)[j] == r[j * 50 .. Min(j * 50 + 50, |r|)]
    decreases |r|
  {
    if j > 0 {
      var rest := r[50..];
      assert Batches(r, BatchSize) == [r[..50]] + Batches(rest, BatchSize);
      BatchesAreSlices(rest, j - 1);
      var lo, hi := (j - 1) * 50, Min((j - 1) * 50 + 50, |rest|);
      assert lo + 50 == j * 50 && hi + 50 == Min(j * 50 + 50, |r|);
      assert rest[lo..hi] == r[lo + 50 .. hi + 50];
    }
  }

  /** There are `ceil(n / 50)` batches of 50. */
  lemma {:induction false} BatchCount(r: seq<string>)
    ensures |Batches(r, BatchSize)| == (|r| + 49) / 50
    decreases |r|
  {
    if |r| > BatchSize {
      BatchCount(r[BatchSize..]);
    }
  }

  /** `ceil(n / 50)` pins down the first multiple of 50 that reaches `n`. */
  lemma RoundUp(i: nat, n: nat)
    requires i % 50 == 0 && n <= i < n + 50
    ensures i / 50 == (n + 49) / 50
  {
  }

  /**
   * `sendBulkEmails`: every recipient, in order and in slices of 50, gets
   * one `sendEmail` call, whose failure is counted and not propagated; a
   * pause follows every slice. Returns the counters, the calls made and the
   * number of pauses.
   */
  method SendBulkEmails(organizationId: string, recipients: seq<string>, subject: string, body: string,
                        templateId: Option<string>, templates: seq<EmailTemplate>, emailFrom: Option<string>,
                        delivered: seq<bool>)
    returns (sent: nat, failed: nat, calls: seq<OutgoingEmail>, pauses: nat)
    ensures sent + failed == |recipients|
    ensures sent == SentCount(delivered, |recipients|)
    ensures |calls| == |recipients|
    ensures forall k :: 0 <= k < |recipients| ==>
      calls[k] == BulkMessage(Sender(emailFrom), recipients[k], subject, BulkBody(body, templateId, templates, organizationId), organizationId)
    ensures pauses == |Batches(recipients, BatchSize)|
  {
    sent, failed, calls, pauses := 0, 0, [], 0;
    var emailBody := body;
    if templateId.Some? && templateId.value != "" {
      var template := GetTemplate(templates, templateId.value, organizationId);
      if template.Some? {
        emailBody := template.value.bodyHtml;
      }
    }
    var sender := Sender(emailFrom);
    var n := |recipients|;
    var i := 0;
    while i < n
      invariant i % 50 == 0 && i < n + 50
      invariant sent + failed == |calls| == Min(i, n)
      invariant sent == SentCount(delivered, |calls|)
      invariant forall k :: 0 <= k < |calls| ==> calls[k] == BulkMessage(sender, recipients[k], subject, emailBody, organizationId)
      invariant pauses == i / 50
    {
      var batch := recipients[i..Min(i + BatchSize, n)];
      for j := 0 to |batch|
        invariant sent + failed == |calls| == i + j
        invariant sent == SentCount(delivered, |calls|)
        invariant forall k :: 0 <= k < |calls| ==> calls[k] == BulkMessage(sender, recipients[k], subject, emailBody, organizationId)
      {
        calls := calls + [BulkMessage(sender, batch[j], subject, emailBody, organizationId)];
        if DeliveredAt(delivered, i + j) {
          sent := sent + 1;
        } else {
          failed := failed + 1;
        }
      }
      pauses := pauses + 1;
      i := i + BatchSize;
    }
    RoundUp(i, n);
    BatchCount(recipients);
  }

  // ---------------------------------------------------------- listTemplates

  const TemplatesQuery := "SELECT * FROM email_templates WHERE organization_id = $1"
  const CategoryFilter := " AND category = $2"
  const TemplatesOrder := " ORDER BY created_at DESC"

  /** The query and parameters `listTemplates` sends. */
  method ListTemplates(organizationId: string, category: Option<string>) returns (query: string, params: seq<string>)
    ensures |params| >= 1 && params[0] == organizationId
    ensures |query| >= |TemplatesQuery| && query[..|TemplatesQuery|] == TemplatesQuery
    ensures |query| >= |TemplatesOrder| && query[|query| - |TemplatesOrder|..] == TemplatesOrder
    ensures category.Some? && category.value != "" ==>
      params == [organizationId, category.value] && query == TemplatesQuery + CategoryFilter + TemplatesOrder
    ensures !(category.Some? && category.value != "") ==>
      params == [organizationId] && query == TemplatesQuery + TemplatesOrder
  {
    query := TemplatesQuery;
    params := [organizationId];
    if category.Some? && category.value != "" {
      query := query + CategoryFilter;
      params := params + [category.value];
    }
    query := query + TemplatesOrder;
  }

  // ----------------------------------------------------- parseIncomingEmail

  /** The row `parseIncomingEmail` stores. */
  datatype IncomingEmail = IncomingEmail(
    from: Json, to: seq<Json>, subject: Json, bodyText: Json, bodyHtml: Json,
    relatedToType: Json, relatedToId: Json, organizationId: Json)

  /** `a || b`. */
  function Or(a: Json, b: Json): Json {
    if Truthy(a) then a else b
  }

  /**
   * `parseIncomingEmail` up to the insert; `contacts` are the rows of the
   * contact lookup by sender address.
   */
  function ParseIncomingEmail(raw: Json, contacts: seq<Json>): (r: Result<IncomingEmail, string>)
    ensures r.Failure? <==> IsNullish(raw)
    ensures r.Failure? ==> r.error == ReadError(raw, "from")
    ensures r.Success? ==> r.value.to == (if GetField(raw, "to").Arr? then GetField(raw, "to").items else [GetField(raw, "to")])
    ensures r.Success? ==> (r.value.subject == Str("") <==> !Truthy(GetField(raw, "subject")) || GetField(raw, "subject") == Str(""))
    ensures r.Success? ==> Truthy(r.value.from) || r.value.from == GetField(raw, "sender")
    ensures r.Success? ==> (contacts != [] <==> r.value.relatedToType == Str("contact"))
    ensures r.Success? && contacts == [] ==> r.value.relatedToId == Null && r.value.organizationId == Null
  {
    if IsNullish(raw) then Failure(ReadError(raw, "from"))
    else
      var to := GetField(raw, "to");
      var related := if contacts != [] then contacts[0] else Undefined;
      Success(IncomingEmail(
        Or(GetField(raw, "from"), GetField(raw, "sender")),
        if to.Arr? then to.items else [to],
        Or(GetField(raw, "subject"), Str("")),
        Or(GetField(raw, "text"), Str("")),
        Or(GetField(raw, "html"), Str("")),
        if contacts != [] then Str("contact") else Null,
        if contacts != [] then GetField(related, "id") else Null,
        if contacts != [] then GetField(related, "organization_id") else Null))
  }

  /** A message without a subject, text or html gets empty strings, never `undefined`. */
  lemma MissingPartsDefaultToEmpty(raw: Json, contacts: seq<Json>)
    requires raw.Obj? && "subject" !in raw.fields && "text" !in raw.fields && "html" !in raw.fields
    ensures var r := ParseIncomingEmail(raw, contacts);
      r.Success? && r.value.subject == Str("") && r.value.bodyText == Str("") && r.value.bodyHtml == Str("")
  {
  }
}
