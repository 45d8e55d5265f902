/**
 * The submission route (pages/api/submit-to-notion.js): the two formatting
 * helpers, the Notion create-page payload, and the handler's decision flow with
 * the single `fetch` replaced by its outcome.
 */
module NotionRoute {
  import opened Wrappers
  import opened Seqs
  import opened Text

  /** A selection as it arrives in the JSON request body. */
  datatype Entry = Null | Undefined | Str(text: string) | Product(productName: Option<string>)

  /**
   * An entry the tag filter keeps: neither null nor undefined, and either an
   * object with a non-empty `productName` or a non-empty string.
   */
  predicate IsTaggable(e: Entry)
  {
    match e
    case Null => false
    case Undefined => false
    case Str(t) => t != ""
    case Product(n) => n.Some? && n.value != ""
  }

  function Taggable(): Entry -> bool
  {
    (e: Entry) => IsTaggable(e)
  }

  /** The name a kept entry contributes: its `productName`, or the string itself. */
  function TagSource(e: Entry): (r: string)
    requires IsTaggable(e)
    ensures r != ""
  {
    match e
    case Str(t) => t
    case Product(n) => n.value
  }

  /** Notion limits a multi-select option's name to 100 characters. */
  const MaxTagLength: nat := 100

  datatype MultiSelectOption = MultiSelectOption(name: string)

  /**
   * One tag per valid entry, in order, each the first (at most) 100
   * characters of the entry's name.
   */
  function FormatMultiSelect(items: seq<Entry>): (r: seq<MultiSelectOption>)
    ensures var valid := Filter(items, Taggable());
      |r| == |valid| &&
      forall k :: 0 <= k < |r| ==>
        var source := TagSource(valid[k]);
        r[k].name <= source && |r[k].name| == (if |source| < MaxTagLength then |source| else MaxTagLength)
  {
    var valid := Filter(items, Taggable());
    if |valid| == 0 then []
    else seq(|valid|, k requires 0 <= k < |valid| => MultiSelectOption(Truncate(TagSource(valid[k]), MaxTagLength)))
  }

  /** Missing selections, empty strings and nameless objects give no tags at all. */
  lemma FormatMultiSelectEmpty(items: seq<Entry>)
    requires forall k :: 0 <= k < |items| ==> !IsTaggable(items[k])
    ensures FormatMultiSelect(items) == []
  {
    FilterNone(items, Taggable());
  }

  /** The bag field gets at most one tag, and none when no bag was sent. */
  lemma {:induction false} BackpackTags(pick1: Entry)
    ensures |FormatMultiSelect([pick1])| <= 1
    ensures !IsTaggable(pick1) ==> FormatMultiSelect([pick1]) == []
  {
    if !IsTaggable(pick1) {
      FormatMultiSelectEmpty([pick1]);
    }
  }

  /** Reading `productName` of null or undefined throws, so only these entries can be listed. */
  predicate Renderable(e: Entry)
  {
    !e.Null? && !e.Undefined?
  }

  /** How an entry reads in the list: its non-empty `productName`, the string itself, or "[object Object]". */
  function Display(e: Entry): string
    requires Renderable(e)
  {
    match e
    case Str(t) => t
    case Product(n) => if n.Some? && n.value != "" then n.value else "[object Object]"
  }

  const NoneText := "None"

  /** A "- name" line per item joined by newlines, or "None" for a missing or empty list. */
  function FormatRichTextList(items: Option<seq<Entry>>): (r: string)
    requires items.Some? ==> forall k :: 0 <= k < |items.value| ==> Renderable(items.value[k])
    ensures items.None? || items.value == [] ==> r == NoneText
    ensures items.Some? && items.value != [] ==> "- " + Display(items.value[0]) <= r
  {
    if items.None? || |items.value| == 0 then NoneText
    else
      var entries := items.value;
      Join(seq(|entries|, k requires 0 <= k < |entries| => "- " + Display(entries[k])), '\n')
  }

  /**
   * For a non-empty list whose names hold no newline, the text splits back
   * into exactly one "- name" line per item, in order, with no trailing
   * empty line; a missing or empty list reads "None".
   */
  lemma RichTextLines(items: Option<seq<Entry>>)
    requires items.Some? ==> forall k :: 0 <= k < |items.value| ==> Renderable(items.value[k])
    requires items.Some? ==> forall k :: 0 <= k < |items.value| ==> '\n' !in Display(items.value[k])
    ensures items.None? || items.value == [] ==> FormatRichTextList(items) == NoneText
    ensures items.Some? && items.value != [] ==>
      var lines := Split(FormatRichTextList(items), '\n');
      |lines| == |items.value| &&
      forall k :: 0 <= k < |lines| ==> lines[k] == "- " + Display(items.value[k])
  {
    if items.Some? && items.value != [] {
      var entries := items.value;
      var lines := seq(|entries|, k requires 0 <= k < |entries| => "- " + Display(entries[k]));
      forall k | 0 <= k < |lines|
        ensures '\n' !in lines[k]
      {
        assert lines[k] == "- " + Display(items.value[k]);
      }
      SplitJoin(lines, '\n');
    }
  }

  // ---- The request, the payload and the handler ----

  datatype Address = Address(street: string, apt: Option<string>, city: string, state: string, zip: string)

  /** The fields of the JSON body the handler reads (and `selectedPick3`, which it only logs). */
  datatype Body = Body(
    firstName: string, lastName: string, email: string,
    shippingAddress: Option<Address>,
    selectedPick1: Entry, selectedPick2: seq<Entry>, selectedPick3: seq<Entry>,
    includedItems: Option<seq<Entry>>)

  datatype Request = Request(httpMethod: string, body: Body)

  /** `process.env.NOTION_API_KEY` and `process.env.NOTION_DATABASE_ID`. */
  datatype Env = Env(notionApiKey: Option<string>, databaseId: Option<string>)

  /** The `properties` of the create-page call, one field per Notion column. */
  datatype Properties = Properties(
    firstName: string, lastName: string, email: string,
    streetAddress: string, aptSuite: string, city: string, state: string, zipCode: string,
    backpackSelection: seq<MultiSelectOption>, otherPatches: seq<MultiSelectOption>,
    includedItems: string, campaign: string, submissionTime: string)

  datatype Payload = Payload(databaseId: string, properties: Properties)

  /** What one `fetch` to Notion carries. */
  datatype FetchRequest = FetchRequest(url: string, authorization: string, notionVersion: string, payload: Payload)

  /**
   * How the `fetch` ends: an ok response; a non-ok response whose body is a
   * JSON object, with its `message` property if it has one; or an exception.
   * `Throws` also covers a non-ok response whose body is not JSON or is JSON
   * `null`, since reading it throws inside the same `try`.
   */
  datatype FetchOutcome = Ok | NotOk(errorMessage: Option<string>) | Throws

  datatype Response = Response(status: nat, message: string)

  const CampaignLabel := "Florida State University NIL 2025"
  const NotionPagesUrl := "https://api.notion.com/v1/pages"
  const NotionVersion := "2022-06-28"
  const MethodNotAllowedMessage := "Method Not Allowed"
  const ConfigErrorMessage := "Server configuration error: Missing Notion credentials."
  const NotionErrorPrefix := "Notion API Error: "
  const SuccessMessage := "Success"
  const UnexpectedErrorMessage := "An unexpected error occurred on the server."

  /** JavaScript truthiness of an environment variable: set and non-empty. */
  predicate Present(v: Option<string>)
  {
    v.Some? && v.value != ""
  }

  /** The body can be mapped without throwing: it has an address and no null included item. */
  predicate Processable(body: Body)
  {
    body.shippingAddress.Some? &&
    (body.includedItems.Some? ==>
      forall k :: 0 <= k < |body.includedItems.value| ==> Renderable(body.includedItems.value[k]))
  }

  /** How Notion's error message reads in the response; an absent message reads "undefined". */
  function ShowMessage(m: Option<string>): string
  {
    if m.Some? then m.value else "undefined"
  }

  /** The create-page payload the handler builds; `now` is the submission timestamp. */
  function BuildPayload(body: Body, databaseId: string, now: string): (p: Payload)
    requires Processable(body)
    ensures p.databaseId == databaseId
    ensures p.properties.firstName == body.firstName && p.properties.lastName == body.lastName
    ensures p.properties.email == body.email
    ensures var address := body.shippingAddress.value;
      p.properties.streetAddress == address.street && p.properties.city == address.city &&
      p.properties.state == address.state && p.properties.zipCode == address.zip
    ensures p.properties.backpackSelection == FormatMultiSelect([body.selectedPick1])
    ensures p.properties.otherPatches == FormatMultiSelect(body.selectedPick2)
    ensures p.properties.includedItems == FormatRichTextList(body.includedItems)
    ensures p.properties.submissionTime == now
    ensures p.properties.campaign == CampaignLabel
    ensures var apt := body.shippingAddress.value.apt;
      (apt.None? ==> p.properties.aptSuite == "") && (apt.Some? ==> p.properties.aptSuite == apt.value)
    ensures |p.properties.backpackSelection| <= 1
    ensures !IsTaggable(body.selectedPick1) ==> p.properties.backpackSelection == []
    ensures |p.properties.otherPatches| <= |body.selectedPick2|
  {
    var address := body.shippingAddress.value;
    BackpackTags(body.selectedPick1);
    Payload(databaseId, Properties(
      body.firstName, body.lastName, body.email,
      address.street,
      if address.apt.Some? && address.apt.value != "" then address.apt.value else "",
      address.city, address.state, address.zip,
      FormatMultiSelect([body.selectedPick1]),
      FormatMultiSelect(body.selectedPick2),
      FormatRichTextList(body.includedItems),
      CampaignLabel,
      now))
  }

  /** "Other Patches" comes from `selectedPick2` alone: `selectedPick3` never reaches Notion. */
  lemma PayloadIgnoresPick3(body: Body, pick3: seq<Entry>, databaseId: string, now: string)
    requires Processable(body)
    ensures BuildPayload(body.(selectedPick3 := pick3), databaseId, now) == BuildPayload(body, databaseId, now)
    ensures BuildPayload(body, databaseId, now).properties.otherPatches == FormatMultiSelect(body.selectedPick2)
  {
  }

  /**
   * The route handler. `calls` lists the `fetch` calls it makes: a non-POST
   * request and missing credentials are answered before any call; otherwise
   * exactly one call is made and its outcome decides the response.
   */
  method Handle(req: Request, env: Env, outcome: FetchOutcome, now: string)
    returns (res: Response, ghost calls: seq<FetchRequest>)
    requires req.httpMethod == "POST" && Present(env.notionApiKey) && Present(env.databaseId) ==>
      Processable(req.body)
    ensures req.httpMethod != "POST" ==> res == Response(405, MethodNotAllowedMessage) && calls == []
    ensures req.httpMethod == "POST" && !(Present(env.notionApiKey) && Present(env.databaseId)) ==>
      res == Response(500, ConfigErrorMessage) && calls == []
    ensures req.httpMethod == "POST" && Present(env.notionApiKey) && Present(env.databaseId) ==>
      calls == [FetchRequest(NotionPagesUrl, "Bearer " + env.notionApiKey.value, NotionVersion,
                             BuildPayload(req.body, env.databaseId.value, now))] &&
      (outcome.Ok? ==> res == Response(200, SuccessMessage)) &&
      (outcome.NotOk? ==> res == Response(500, NotionErrorPrefix + ShowMessage(outcome.errorMessage))) &&
      (outcome.Throws? ==> res == Response(500, UnexpectedErrorMessage))
    ensures res.status == 200 <==>
      req.httpMethod == "POST" && Present(env.notionApiKey) && Present(env.databaseId) && outcome.Ok?
    ensures res.status == 405 || res.status == 500 || res.status == 200
    ensures |calls| <= 1
  {
    calls := [];
    if req.httpMethod != "POST" {
      res := Response(405, MethodNotAllowedMessage);
      return;
    }
    if !Present(env.notionApiKey) || !Present(env.databaseId) {
      res := Response(500, ConfigErrorMessage);
      return;
    }
    var payload := BuildPayload(req.body, env.databaseId.value, now);
    var request := FetchRequest(NotionPagesUrl, "Bearer " + env.notionApiKey.value, NotionVersion, payload);
    calls := calls + [request];
    match outcome {
      case NotOk(message) =>
        res := Response(500, NotionErrorPrefix + ShowMessage(message));
      case Throws =>
        res := Response(500, UnexpectedErrorMessage);
      case Ok =>
        res := Response(200, SuccessMessage);
    }
  }
}
