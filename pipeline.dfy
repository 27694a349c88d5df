/**
 * What the four route pipelines share: the collaborators they call, the
 * library functions they use, what one record of a per-record loop comes
 * to, and the split of batch results into successes and errors.
 */
module Pipeline {
  import opened Common
  import opened Types
  import opened Events
  import opened Retry
  import opened ActiveCampaign
  import opened Postmark

  /**
   * The remote collaborators. Each oracle answers the attempt numbered k
   * of the tryAction (or the single bare call) that starts at trace
   * position `at`; positions are distinct within one route's trace, so
   * any pattern of answers can be expressed. `clock(at)` is the time in
   * milliseconds read at trace position `at`.
   */
  datatype World = World(
    testEmails: (nat, nat) -> Attempt<seq<Email>>,
    scheduledEmails: (nat, nat) -> Attempt<seq<Email>>,
    metadataCandidates: (nat, nat) -> Attempt<seq<Email>>,
    reviewOverdue: (nat, nat) -> Attempt<seq<Email>>,
    sendOverdue: (nat, nat) -> Attempt<seq<Email>>,
    fields: (nat, nat) -> Attempt<seq<Field>>,
    automation: (nat, nat) -> Attempt<Automation>,
    contacts: (nat, nat) -> Attempt<seq<Contact>>,
    template: (nat, nat) -> Attempt<Template>,
    variables: (nat, nat) -> Attempt<seq<ContactVariables>>,
    sendBatch: (nat, nat) -> Attempt<seq<SendResponse>>,
    update: (nat, nat) -> Attempt<()>,
    clearWarnings: nat -> Attempt<()>,
    clock: nat -> int)

  /**
   * Library functions the routes use and this model leaves uninterpreted:
   * `new Date(s)` (None for an invalid date), the month-day-hour rendering
   * in the America/New_York time zone, `parseInt` (None for NaN),
   * `JSON.parse` of template content, and fillContentVariables.
   */
  datatype Foreign = Foreign(
    parseDate: string -> Option<int>,
    formatSendDate: int -> string,
    parseInt: string -> Option<int>,
    parseJson: JsonHtml,
    fill: Filler)

  /** What a GET handler comes to: a JSON response with a status, or a rejected promise. */
  datatype Response = Status(code: nat) | Rejected(error: string)

  const OK: nat := 200
  const TOO_MANY_REQUESTS: nat := 429

  /** One run of a route body: everything it emitted, and the error it threw, if any. */
  datatype Run = Run(events: seq<Event>, crash: Option<string>)

  /** The stage of a per-record body at which an exception was thrown. */
  datatype Step =
    | ScheduleDateStep
    | AutomationStep
    | AudienceStep
    | TemplateStep
    | VariablesStep
    | SendStep
    | MarkStep
    | SaveStep

  datatype Stop = Completed | EmptyAudience | Failed(step: Step, error: string)

  /**
   * One record of a per-record loop: its events, how it ended, the email
   * as the body left it, and what each stage it reached obtained.
   */
  datatype RecordRun = RecordRun(
    events: seq<Event>,
    stop: Stop,
    email: Email,
    automation: Option<Automation>,
    audience: Option<seq<Contact>>,
    template: Option<Template>,
    results: Option<seq<SendResponse>>)

  const AUTOMATION_ACTION: string := "Getting automation details"
  const CONTACTS_ACTION: string := "Getting active contacts for automation"
  const TEMPLATE_ACTION: string := "Getting template details"
  const VARIABLES_ACTION: string := "Getting all contact variables"
  const SEND_ACTION: string := "Sending email with Postmark"
  const FIELDS_ACTION: string := "Listing ActiveCampaign fields"

  function NoContactsMessage(automationName: string): string
  {
    "No active contacts found in automation '" + automationName + "'."
  }

  /** The events of consecutive records, in order. */
  function Flatten(runs: seq<RecordRun>): seq<Event>
  {
    if runs == [] then [] else Flatten(runs[..|runs| - 1]) + runs[|runs| - 1].events
  }

  lemma FlattenSnoc(runs: seq<RecordRun>, r: RecordRun)
    ensures Flatten(runs + [r]) == Flatten(runs) + r.events
  {
    assert (runs + [r])[..|runs|] == runs;
  }

  /** Every call of a concatenation is a call of one of its parts. */
  lemma CallsOfBoth(a: seq<Event>, b: seq<Event>)
    ensures forall c :: c in Calls(a + b) <==> c in Calls(a) || c in Calls(b)
  {
    CallsAppend(a, b);
  }

  /**
   * A per-record loop: `body(email, at)` is what the loop body does for
   * one email starting at trace position `at`; each email starts where the
   * previous one ended (RecordsEach), whatever that one came to.
   */
  function Records(body: (Email, nat) -> RecordRun, emails: seq<Email>, at: nat): (runs: seq<RecordRun>)
    ensures |runs| == |emails|
  {
    if emails == [] then []
    else
      var prev := Records(body, emails[..|emails| - 1], at);
      prev + [body(emails[|emails| - 1], at + |Flatten(prev)|)]
  }

  /** The i-th email is processed by the loop body, starting right after the emails before it. */
  lemma {:induction false} RecordsEach(body: (Email, nat) -> RecordRun, emails: seq<Email>, at: nat, i: nat)
    requires i < |emails|
    ensures Records(body, emails, at)[i] == body(emails[i], at + |Flatten(Records(body, emails, at)[..i])|)
  {
    var n := |emails|;
    var runs := Records(body, emails, at);
    var prev := Records(body, emails[..n - 1], at);
    assert runs == prev + [body(emails[n - 1], at + |Flatten(prev)|)];
    if i < n - 1 {
      RecordsEach(body, emails[..n - 1], at, i);
      assert runs[..i] == prev[..i];
      assert emails[..n - 1][i] == emails[i];
    } else {
      assert runs[..i] == prev;
    }
  }

  /** The events of a per-record loop over `emails` that starts at trace position `at`. */
  function RecordsEvents(body: (Email, nat) -> RecordRun, emails: seq<Email>, at: nat): seq<Event>
  {
    if emails == [] then []
    else
      var prev := RecordsEvents(body, emails[..|emails| - 1], at);
      prev + body(emails[|emails| - 1], at + |prev|).events
  }

  /** The loop's events are those of its records, one after the other. */
  lemma {:induction false} RecordsEventsAreFlatten(body: (Email, nat) -> RecordRun, emails: seq<Email>, at: nat)
    ensures RecordsEvents(body, emails, at) == Flatten(Records(body, emails, at))
  {
    if emails != [] {
      var n := |emails|;
      RecordsEventsAreFlatten(body, emails[..n - 1], at);
      var prev := Records(body, emails[..n - 1], at);
      FlattenSnoc(prev, body(emails[n - 1], at + |Flatten(prev)|));
    }
  }

  /** A loop whose body keeps to `allowed` for every email and start keeps to `allowed`. */
  lemma {:induction false} RecordsCallsWithin(body: (Email, nat) -> RecordRun, emails: seq<Email>, at: nat,
                                              allowed: Call -> bool)
    requires forall e: Email, a: nat :: CallsWithin(body(e, a).events, allowed)
    ensures CallsWithin(RecordsEvents(body, emails, at), allowed)
  {
    if emails != [] {
      var n := |emails|;
      var prev := RecordsEvents(body, emails[..n - 1], at);
      RecordsCallsWithin(body, emails[..n - 1], at, allowed);
      CallsWithinAppend(prev, body(emails[n - 1], at + |prev|).events, allowed);
    }
  }

  /** One more email of a per-record loop. */
  lemma RecordsEventsSnoc(body: (Email, nat) -> RecordRun, emails: seq<Email>, i: nat, at: nat, pos: nat, r: RecordRun)
    requires i < |emails|
    requires pos == at + |RecordsEvents(body, emails[..i], at)|
    requires r == body(emails[i], pos)
    ensures RecordsEvents(body, emails[..i + 1], at) == RecordsEvents(body, emails[..i], at) + r.events
  {
    assert emails[..i + 1][..i] == emails[..i];
  }

  /** A trace that grows by what the loop's events grow by stays the loop's events after the old trace. */
  lemma TraceStep(start: seq<Event>, before: seq<Event>, after: seq<Event>, done: seq<Event>, next: seq<Event>,
                  added: seq<Event>)
    requires before == start + done && after == before + added && next == done + added
    ensures after == start + next
  {
  }

  /**
   * What a send route's loop body works with once the email's subject and
   * automation are final: the collaborators, the delay table and the slot
   * every tryAction starts in, the listed fields, the email, and the call
   * (with its action description) that marks the email at the end.
   */
  datatype Delivery = Delivery(
    w: World,
    delays: seq<nat>,
    slot: nat,
    f: Foreign,
    fields: seq<Field>,
    email: Email,
    mark: Call,
    markAction: string)

  /** The remote steps of a send route's loop body, each with what the steps before it obtained. */
  datatype Stage =
    | LookUpAutomation
    | LookUpAudience(automation: Automation)
    | FetchTemplate(automation: Automation, audience: seq<Contact>)
    | FetchVariables(automation: Automation, audience: seq<Contact>, template: Template)
    | SendAndMark(automation: Automation, audience: seq<Contact>, template: Template, messages: seq<Message>)

  function StagesLeft(stage: Stage): nat
  {
    match stage
    case LookUpAutomation => 4
    case LookUpAudience(_) => 3
    case FetchTemplate(_, _) => 2
    case FetchVariables(_, _, _) => 1
    case SendAndMark(_, _, _, _) => 0
  }

  /**
   * The loop body of both send routes from `stage` on, with `events`
   * emitted so far and the next step starting at trace position `at`:
   * look up the automation and its active contacts, skip an empty audience
   * with an alert, fetch the template, fetch the contact variables, send
   * the batch built from the parsed template, then mark the email. An
   * exception from any step ends the body at that step.
   */
  function DeliverFrom(d: Delivery, stage: Stage, events: seq<Event>, at: nat): RecordRun
    decreases StagesLeft(stage), 1
  {
    match stage
    case LookUpAutomation => AutomationStage(d, events, at)
    case LookUpAudience(automation) => AudienceStage(d, automation, events, at)
    case FetchTemplate(automation, audience) => TemplateStage(d, automation, audience, events, at)
    case FetchVariables(automation, audience, template) => VariablesStage(d, automation, audience, template, events, at)
    case SendAndMark(automation, audience, template, messages) =>
      SendStage(d, automation, audience, template, messages, events, at)
  }

  function AutomationStage(d: Delivery, events: seq<Event>, at: nat): RecordRun
    decreases 4, 0
  {
    var e := d.email;
    var a := TryAction(d.w.automation, at, GetAutomation(e.automationId), AUTOMATION_ACTION, d.delays, d.slot);
    if a.result.Threw? then RecordRun(events + a.events, Failed(AutomationStep, a.result.message), e, None, None, None, None)
    else DeliverFrom(d, LookUpAudience(a.result.value), events + a.events, at + |a.events|)
  }

  function AudienceStage(d: Delivery, automation: Automation, events: seq<Event>, at: nat): RecordRun
    decreases 3, 0
  {
    var e := d.email;
    var c := TryAction(d.w.contacts, at, GetActiveContacts(e.automationId), CONTACTS_ACTION, d.delays, d.slot);
    if c.result.Threw? then
      RecordRun(events + c.events, Failed(AudienceStep, c.result.message), e, Some(automation), None, None, None)
    else if |c.result.value| == 0 then
      RecordRun(events + c.events + [ErrorAlert(NoContactsMessage(automation.name))], EmptyAudience, e,
                Some(automation), Some(c.result.value), None, None)
    else DeliverFrom(d, FetchTemplate(automation, c.result.value), events + c.events, at + |c.events|)
  }

  function TemplateStage(d: Delivery, automation: Automation, audience: seq<Contact>, events: seq<Event>, at: nat)
    : RecordRun
    decreases 2, 0
  {
    var e := d.email;
    var t := TryAction(d.w.template, at, GetTemplate(e.templateId), TEMPLATE_ACTION, d.delays, d.slot);
    if t.result.Threw? then
      RecordRun(events + t.events, Failed(TemplateStep, t.result.message), e, Some(automation), Some(audience), None, None)
    else DeliverFrom(d, FetchVariables(automation, audience, t.result.value), events + t.events, at + |t.events|)
  }

  function VariablesStage(d: Delivery, automation: Automation, audience: seq<Contact>, template: Template,
                          events: seq<Event>, at: nat): RecordRun
    decreases 1, 0
  {
    var e := d.email;
    var v := TryAction(d.w.variables, at, GetContactVariables(audience, d.fields), VARIABLES_ACTION, d.delays, d.slot);
    if v.result.Threw? then
      RecordRun(events + v.events, Failed(VariablesStep, v.result.message), e, Some(automation), Some(audience),
                Some(template), None)
    else
      var content := ParseTemplateContent(template, d.f.parseJson);
      var messages := CreateBatchEmailArray(audience, e, content, v.result.value, d.f.fill);
      DeliverFrom(d, SendAndMark(automation, audience, template, messages), events + v.events, at + |v.events|)
  }

  function SendStage(d: Delivery, automation: Automation, audience: seq<Contact>, template: Template,
                     messages: seq<Message>, events: seq<Event>, at: nat): RecordRun
    decreases 0, 0
  {
    var e := d.email;
    var s := TryAction(d.w.sendBatch, at, SendBatch(messages), SEND_ACTION, d.delays, d.slot);
    if s.result.Threw? then
      RecordRun(events + s.events, Failed(SendStep, s.result.message), e, Some(automation), Some(audience),
                Some(template), None)
    else
      var m := TryAction(d.w.update, at + |s.events|, d.mark, d.markAction, d.delays, d.slot);
      RecordRun(events + s.events + m.events, if m.result.Threw? then Failed(MarkStep, m.result.message) else Completed,
                e, Some(automation), Some(audience), Some(template), Some(s.result.value))
  }

  /** The whole delivery of one email, from the automation lookup, starting at trace position `at`. */
  function DeliverRecord(d: Delivery, at: nat): RecordRun
  {
    DeliverFrom(d, LookUpAutomation, [], at)
  }

  /** The loop body of both send routes from the automation lookup on; an exception ends it early. */
  method Deliver(d: Delivery, at: nat) returns (r: RecordRun)
    ensures r == DeliverRecord(d, at)
  {
    var e := d.email;
    var automation := TryAction(d.w.automation, at, GetAutomation(e.automationId), AUTOMATION_ACTION, d.delays, d.slot);
    var events := [] + automation.events;
    var pos := at + |automation.events|;
    if automation.result.Threw? {
      return RecordRun(events, Failed(AutomationStep, automation.result.message), e, None, None, None, None);
    }
    var found := automation.result.value;
    assert DeliverRecord(d, at) == DeliverFrom(d, LookUpAudience(found), events, pos);

    var contacts := TryAction(d.w.contacts, pos, GetActiveContacts(e.automationId), CONTACTS_ACTION, d.delays, d.slot);
    ghost var stage: Stage := LookUpAudience(found);
    ghost var before := events;
    ghost var from := pos;
    events := events + contacts.events;
    pos := pos + |contacts.events|;
    if contacts.result.Threw? {
      return RecordRun(events, Failed(AudienceStep, contacts.result.message), e, Some(found), None, None, None);
    }
    var audience := contacts.result.value;
    if |audience| == 0 {
      events := events + [ErrorAlert(NoContactsMessage(found.name))];
      return RecordRun(events, EmptyAudience, e, Some(found), Some(audience), None, None);
    }
    assert DeliverFrom(d, stage, before, from) == DeliverFrom(d, FetchTemplate(found, audience), events, pos);

    var template := TryAction(d.w.template, pos, GetTemplate(e.templateId), TEMPLATE_ACTION, d.delays, d.slot);
    stage, before, from := FetchTemplate(found, audience), events, pos;
    events := events + template.events;
    pos := pos + |template.events|;
    if template.result.Threw? {
      return RecordRun(events, Failed(TemplateStep, template.result.message), e, Some(found), Some(audience), None, None);
    }
    assert DeliverFrom(d, stage, before, from)
        == DeliverFrom(d, FetchVariables(found, audience, template.result.value), events, pos);

    r := DeliverContent(d, found, audience, template.result.value, events, pos);
  }

  /** The rest of the loop body once the template is fetched: variables, batch send, mark. */
  method DeliverContent(d: Delivery, automation: Automation, audience: seq<Contact>, template: Template,
                        events: seq<Event>, at: nat) returns (r: RecordRun)
    ensures r == DeliverFrom(d, FetchVariables(automation, audience, template), events, at)
  {
    var e := d.email;
    var content := ParseTemplateContent(template, d.f.parseJson);
    var variables := TryAction(d.w.variables, at, GetContactVariables(audience, d.fields), VARIABLES_ACTION,
                               d.delays, d.slot);
    var trail := events + variables.events;
    var pos := at + |variables.events|;
    if variables.result.Threw? {
      return RecordRun(trail, Failed(VariablesStep, variables.result.message), e, Some(automation), Some(audience),
                       Some(template), None);
    }
    var messages := CreateBatchEmailArray(audience, e, content, variables.result.value, d.f.fill);
    assert DeliverFrom(d, FetchVariables(automation, audience, template), events, at)
        == DeliverFrom(d, SendAndMark(automation, audience, template, messages), trail, pos);

    var sent := TryAction(d.w.sendBatch, pos, SendBatch(messages), SEND_ACTION, d.delays, d.slot);
    trail := trail + sent.events;
    pos := pos + |sent.events|;
    if sent.result.Threw? {
      return RecordRun(trail, Failed(SendStep, sent.result.message), e, Some(automation), Some(audience),
                       Some(template), None);
    }
    var marked := TryAction(d.w.update, pos, d.mark, d.markAction, d.delays, d.slot);
    trail := trail + marked.events;
    var stop := if marked.result.Threw? then Failed(MarkStep, marked.result.message) else Completed;
    return RecordRun(trail, stop, e, Some(automation), Some(audience), Some(template), Some(sent.result.value));
  }

  /** `sendResult.filter(result => result.ErrorCode === 0)`. */
  function Successes(results: seq<SendResponse>): (s: seq<SendResponse>)
    ensures forall x :: x in s <==> x in results && x.errorCode == 0
  {
    if results == [] then []
    else (if results[0].errorCode == 0 then [results[0]] else []) + Successes(results[1..])
  }

  /** `sendResult.filter(result => result.ErrorCode !== 0)`. */
  function Errored(results: seq<SendResponse>): (s: seq<SendResponse>)
    ensures forall x :: x in s <==> x in results && x.errorCode != 0
  {
    if results == [] then []
    else (if results[0].errorCode != 0 then [results[0]] else []) + Errored(results[1..])
  }

  /** Successes and errors partition the results: every result lands in exactly one of them. */
  lemma {:induction false} PartitionOfResults(results: seq<SendResponse>)
    ensures |Successes(results)| + |Errored(results)| == |results|
    ensures multiset(Successes(results)) + multiset(Errored(results)) == multiset(results)
  {
    if results != [] {
      PartitionOfResults(results[1..]);
      assert results == [results[0]] + results[1..];
    }
  }

  /** Both filters keep the order of the results. */
  lemma {:induction false} SuccessesKeepOrder(a: seq<SendResponse>, b: seq<SendResponse>)
    ensures Successes(a + b) == Successes(a) + Successes(b)
  {
    if a == [] {
      assert a + b == b;
    } else {
      var head := if a[0].errorCode == 0 then [a[0]] else [];
      assert (a + b)[0] == a[0] && (a + b)[1..] == a[1..] + b;
      assert Successes(a + b) == head + Successes(a[1..] + b);
      SuccessesKeepOrder(a[1..], b);
      assert Successes(a) == head + Successes(a[1..]);
      assert head + (Successes(a[1..]) + Successes(b)) == (head + Successes(a[1..])) + Successes(b);
    }
  }

  lemma {:induction false} ErroredKeepOrder(a: seq<SendResponse>, b: seq<SendResponse>)
    ensures Errored(a + b) == Errored(a) + Errored(b)
  {
    if a == [] {
      assert a + b == b;
    } else {
      assert (a + b)[1..] == a[1..] + b;
      ErroredKeepOrder(a[1..], b);
    }
  }
}
