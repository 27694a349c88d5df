/**
 * The automation-platform helpers with logic of their own
 * (domain/actions/activecampaign.ts): choosing a template's HTML and the
 * offset/limit listing of an automation's contacts.
 */
module ActiveCampaign {
  import opened Common
  import opened Types

  /**
   * JSON.parse applied to a template's content, reduced to what is read
   * from it: None when parsing throws, Some(None) when the document has no
   * string `html` member, Some(Some(h)) when it has one.
   */
  type JsonHtml = string -> Option<Option<string>>

  /** The HTML embedded in the content, when present and truthy (non-empty). */
  function EmbeddedHtml(template: Template, parseJson: JsonHtml): Option<string>
  {
    var parsed := parseJson(template.content);
    if parsed.Some? && parsed.value.Some? && parsed.value.value != "" then Some(parsed.value.value) else None
  }

  /**
   * parseTemplateContent: the embedded HTML when the content parses and
   * carries one, otherwise the preview content. It never throws.
   */
  function ParseTemplateContent(template: Template, parseJson: JsonHtml): (html: string)
    ensures EmbeddedHtml(template, parseJson).Some? ==> html == EmbeddedHtml(template, parseJson).value && html != ""
    ensures parseJson(template.content).None? ==> html == template.previewContent
    ensures parseJson(template.content).Some? && (parseJson(template.content).value.None? || parseJson(template.content).value.value == "")
            ==> html == template.previewContent
  {
    match EmbeddedHtml(template, parseJson)
    case Some(h) => h
    case None => template.previewContent
  }

  const CONTACTS_PAGE_LIMIT: nat := 50

  /** One contacts response: the page's contact emails and meta.total. */
  datatype ContactsPage = ContactsPage(emails: seq<string>, total: int)

  /** The query of one contacts request. */
  datatype ContactsQuery = ContactsQuery(offset: nat, limit: nat, seriesId: string)

  /**
   * After response k (0-based) the next offset is 50 * (k + 1); the
   * do-while stops unless that is below the total this response reported.
   */
  predicate LastContactsResponse(responses: seq<Attempt<ContactsPage>>, k: nat)
    requires k < |responses|
  {
    responses[k].Threw? || !(CONTACTS_PAGE_LIMIT * (k + 1) < responses[k].value.total)
  }

  /** The platform's answers to successive requests, up to one after which the loop stops. */
  predicate ContactsEnd(responses: seq<Attempt<ContactsPage>>)
  {
    |responses| > 0 && LastContactsResponse(responses, |responses| - 1)
  }

  /** The first response, from index `from` on, after which the loop stops. */
  function ContactsStopFrom(responses: seq<Attempt<ContactsPage>>, from: nat): (k: nat)
    requires ContactsEnd(responses) && from < |responses|
    ensures from <= k < |responses| && LastContactsResponse(responses, k)
    ensures forall j :: from <= j < k ==> !LastContactsResponse(responses, j)
    decreases |responses| - from
  {
    if LastContactsResponse(responses, from) then from else ContactsStopFrom(responses, from + 1)
  }

  /** Another page is requested after response j exactly when j comes before this index. */
  function ContactsStop(responses: seq<Attempt<ContactsPage>>): (k: nat)
    requires ContactsEnd(responses)
    ensures k < |responses| && LastContactsResponse(responses, k)
    ensures forall j :: 0 <= j < k ==> !LastContactsResponse(responses, j)
  {
    ContactsStopFrom(responses, 0)
  }

  function EmailsOf(response: Attempt<ContactsPage>): seq<string>
  {
    if response.Returned? then response.value.emails else []
  }

  /** The contact emails of the given responses, concatenated in arrival order. */
  function AllEmails(responses: seq<Attempt<ContactsPage>>): seq<string>
  {
    if responses == [] then []
    else AllEmails(responses[..|responses| - 1]) + EmailsOf(responses[|responses| - 1])
  }

  function ContactsResult(responses: seq<Attempt<ContactsPage>>): Attempt<seq<string>>
    requires ContactsEnd(responses)
  {
    var k := ContactsStop(responses);
    if responses[k].Threw? then Threw(responses[k].message)
    else Returned(AllEmails(responses[..k + 1]))
  }

  /** The number of responses that arrived (and were each followed by a throttle pause). */
  function ReceivedPages(responses: seq<Attempt<ContactsPage>>): nat
    requires ContactsEnd(responses)
  {
    var k := ContactsStop(responses);
    if responses[k].Threw? then k else k + 1
  }

  /**
   * getContactsForAutomation over the platform's `responses`: `queries`
   * are the requests made, `pauses` the throttle sleeps in seconds.
   */
  method GetContactsForAutomation(automationId: string, responses: seq<Attempt<ContactsPage>>)
    returns (result: Attempt<seq<string>>, queries: seq<ContactsQuery>, pauses: seq<nat>)
    requires ContactsEnd(responses)
    ensures |queries| == ContactsStop(responses) + 1
    ensures forall k :: 0 <= k < |queries| ==>
              queries[k] == ContactsQuery(CONTACTS_PAGE_LIMIT * k, CONTACTS_PAGE_LIMIT, automationId)
    ensures result == ContactsResult(responses)
    ensures |pauses| == ReceivedPages(responses)
    ensures forall i :: 0 <= i < |pauses| ==> pauses[i] == FETCH_DELAY_SEC
  {
    var emails: seq<string> := [];
    var nextOffset: nat := 0;
    var total: int := 0;
    var limit: nat := CONTACTS_PAGE_LIMIT;
    var k := 0;
    queries, pauses := [], [];
    ghost var stop := ContactsStop(responses);
    while true
      invariant k <= stop && |queries| == k && |pauses| == k
      invariant nextOffset == CONTACTS_PAGE_LIMIT * k
      invariant forall j :: 0 <= j < k ==> !LastContactsResponse(responses, j)
      invariant forall j :: 0 <= j < k ==>
                  queries[j] == ContactsQuery(CONTACTS_PAGE_LIMIT * j, CONTACTS_PAGE_LIMIT, automationId)
      invariant forall i :: 0 <= i < k ==> pauses[i] == FETCH_DELAY_SEC
      invariant emails == AllEmails(responses[..k])
      decreases |responses| - k
    {
      queries := queries + [ContactsQuery(nextOffset, limit, automationId)];
      var response := responses[k];
      if response.Threw? {
        assert LastContactsResponse(responses, k);
        result := Threw(response.message);
        return;
      }
      assert responses[..k + 1][..k] == responses[..k];
      emails := emails + response.value.emails;
      total := response.value.total;
      nextOffset := nextOffset + limit;
      pauses := pauses + [FETCH_DELAY_SEC];
      k := k + 1;
      if !(nextOffset < total) {
        assert LastContactsResponse(responses, k - 1);
        break;
      }
    }
    result := Returned(emails);
  }

  /** max(1, ceil(total / 50)). */
  function RequestsForTotal(total: int): (n: nat)
    ensures n >= 1
  {
    if total <= CONTACTS_PAGE_LIMIT then 1 else (total + CONTACTS_PAGE_LIMIT - 1) / CONTACTS_PAGE_LIMIT
  }

  /** A page index reaches the total exactly from RequestsForTotal(total) - 1 on. */
  lemma RequestsForTotalIsFirstCovering(total: int, k: nat)
    ensures CONTACTS_PAGE_LIMIT * (k + 1) >= total <==> k + 1 >= RequestsForTotal(total)
  {
  }

  /** With a constant reported total, the listing makes max(1, ceil(total / 50)) requests. */
  lemma {:induction false} ConstantTotalRequests(responses: seq<Attempt<ContactsPage>>, total: int)
    requires ContactsEnd(responses)
    requires forall k :: 0 <= k < |responses| ==> responses[k].Returned? && responses[k].value.total == total
    ensures ContactsStop(responses) + 1 == RequestsForTotal(total)
  {
    var s := ContactsStop(responses);
    RequestsForTotalIsFirstCovering(total, s);
    if s > 0 {
      RequestsForTotalIsFirstCovering(total, s - 1);
      assert !LastContactsResponse(responses, s - 1);
    }
  }
}
