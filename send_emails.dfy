/**
 * The send route (app/sendEmails/route.ts): list the emails scheduled to
 * go out and send each one to the active contacts of its own automation,
 * then mark it as sent and post a summary; a failing email is reported
 * and the loop goes on.
 */
module SendEmails {
  import opened Common
  import opened Types
  import opened Events
  import opened Retry
  import opened ActiveCampaign
  import opened Postmark
  import opened Pipeline
  import opened DeliveryFacts

  /** The route passes `true` as tryNumber, which counts as slot 1. */
  const SEND_SLOT: nat := 1

  const LIST_ACTION: string := "Getting the list of ready-to-send emails"

  function MarkAction(emailId: string): string
  {
    "Marking email '" + emailId + "' as sent in Airtable"
  }

  /** The chat summary of a completed send. */
  function SentNotice(emailId: string, sent: nat, recipients: nat, automationName: string, errors: nat): string
  {
    "Email '" + emailId + "' successfully sent to " + NatText(sent) + "/" + NatText(recipients)
    + " recipients in '" + automationName + "'."
    + (if errors > 0 then "\n" + NatText(errors) + ERRORS_SUFFIX else "")
  }

  const ERRORS_SUFFIX: string := " sends had errors."

  /** The operator alert of the catch block. */
  function FailureAlert(emailId: string, error: string): string
  {
    "Failed to send email '" + emailId + "': `" + error + "`"
  }

  function SendDelivery(w: World, cfg: Config, f: Foreign, fields: seq<Field>, e: Email): Delivery
  {
    Delivery(w, cfg.delays, SEND_SLOT, f, fields, e, MarkSent(e.airtableId), MarkAction(e.emailId))
  }

  /**
   * What the body posts after the shared delivery: the summary once the
   * email is marked, the failure alert when a step threw, and nothing
   * after an empty audience (whose alert the delivery already raised).
   */
  function SendOutcome(email: Email, r: RecordRun): seq<Event>
  {
    match r.stop
    case EmptyAudience => []
    case Failed(_, error) => [ErrorAlert(FailureAlert(email.emailId, error))]
    case Completed =>
      if r.automation.Some? && r.audience.Some? && r.results.Some? then
        [Notice(SentNotice(email.emailId, |r.results.value|, |r.audience.value|, r.automation.value.name,
                           |Errored(r.results.value)|))]
      else []
  }

  /** The loop body for one email that starts at trace position `at`. */
  function SendRecord(w: World, cfg: Config, f: Foreign, fields: seq<Field>, email: Email, at: nat): RecordRun
  {
    var r := DeliverRecord(SendDelivery(w, cfg, f, fields, email), at);
    r.(events := r.events + SendOutcome(email, r))
  }

  function SendBody(w: World, cfg: Config, f: Foreign, fields: seq<Field>): (Email, nat) -> RecordRun
  {
    (email: Email, at: nat) => SendRecord(w, cfg, f, fields, email, at)
  }

  /** sendEmails(): list, stop on an empty list, then go on with the listed emails. */
  function SendRun(w: World, cfg: Config, f: Foreign, at: nat): (run: Run)
    ensures |run.events| > 0 && run.events[0] == Invoked(ListScheduledEmails)
    ensures run.crash.Some? ==> run.crash.value in {MaxRetriesMessage(LIST_ACTION), MaxRetriesMessage(FIELDS_ACTION)}
  {
    var l := TryAction(w.scheduledEmails, at, ListScheduledEmails, LIST_ACTION, cfg.delays, SEND_SLOT);
    if l.result.Threw? then Run(l.events, Some(l.result.message))
    else if |l.result.value| == 0 then Run(l.events, None)
    else
      var rest := SendListed(w, cfg, f, l.result.value, Past(at, l.events));
      Run(l.events + rest.events, rest.crash)
  }

  /** The rest of sendEmails() once emails are listed: list the fields, then the loop. */
  function SendListed(w: World, cfg: Config, f: Foreign, emails: seq<Email>, at: nat): Run
  {
    var fl := TryAction(w.fields, at, ListFields, FIELDS_ACTION, cfg.delays, SEND_SLOT);
    if fl.result.Threw? then Run(fl.events, Some(fl.result.message))
    else Run(fl.events + RecordsEvents(SendBody(w, cfg, f, fl.result.value), emails, Past(at, fl.events)), None)
  }

  /** The route module: its busy flag and everything its runs have emitted. */
  class SendEmailsRoute {
    var isPending: bool
    var trace: seq<Event>

    constructor ()
      ensures !isPending && trace == []
    {
      isPending := false;
      trace := [];
    }

    /**
     * GET: refuse with 429 while a run is pending; otherwise set the flag,
     * run, and clear it. There is no `finally`: a run that throws leaves
     * the flag set and the request rejected.
     */
    method Get(w: World, cfg: Config, f: Foreign) returns (response: Response)
      modifies this
      ensures old(isPending) ==> response == Status(TOO_MANY_REQUESTS) && isPending && trace == old(trace)
      ensures !old(isPending) ==>
                var run := SendRun(w, cfg, f, |old(trace)|);
                && trace == old(trace) + run.events
                && (run.crash.None? ==> response == Status(OK) && !isPending)
                && (run.crash.Some? ==> response == Rejected(run.crash.value) && isPending)
    {
      if isPending {
        return Status(TOO_MANY_REQUESTS);
      }
      isPending := true;
      var crash := SendEmails(w, cfg, f);
      if crash.Some? {
        return Rejected(crash.value);
      }
      isPending := false;
      return Status(OK);
    }

    method SendEmails(w: World, cfg: Config, f: Foreign) returns (crash: Option<string>)
      modifies this`trace
      ensures var run := SendRun(w, cfg, f, |old(trace)|);
              trace == old(trace) + run.events && crash == run.crash
    {
      var listed := TryAction(w.scheduledEmails, |trace|, ListScheduledEmails, LIST_ACTION, cfg.delays, SEND_SLOT);
      trace := trace + listed.events;
      if listed.result.Threw? {
        return Some(listed.result.message);
      }
      var emails := listed.result.value;
      if |emails| == 0 {
        return None;
      }
      ghost var before := trace;
      crash := SendListedEmails(w, cfg, f, emails);
      ghost var rest := SendListed(w, cfg, f, emails, |before|);
      TraceStep(old(trace), before, trace, listed.events, listed.events + rest.events, rest.events);
    }

    method SendListedEmails(w: World, cfg: Config, f: Foreign, emails: seq<Email>) returns (crash: Option<string>)
      modifies this`trace
      ensures var run := SendListed(w, cfg, f, emails, |old(trace)|);
              trace == old(trace) + run.events && crash == run.crash
    {
      var listedFields := TryAction(w.fields, |trace|, ListFields, FIELDS_ACTION, cfg.delays, SEND_SLOT);
      ghost var start := trace;
      trace := trace + listedFields.events;
      if listedFields.result.Threw? {
        return Some(listedFields.result.message);
      }
      ghost var before := trace;
      SendEach(w, cfg, f, listedFields.result.value, emails, Past(|start|, listedFields.events));
      ghost var loop := RecordsEvents(SendBody(w, cfg, f, listedFields.result.value), emails,
                                      Past(|start|, listedFields.events));
      TraceStep(start, before, trace, listedFields.events, listedFields.events + loop, loop);
      crash := None;
    }

    /** `for (const email of emails)`: every listed email, in order. */
    method SendEach(w: World, cfg: Config, f: Foreign, fields: seq<Field>, emails: seq<Email>, ghost at: nat)
      requires at == |trace|
      modifies this`trace
      ensures trace == old(trace) + RecordsEvents(SendBody(w, cfg, f, fields), emails, at)
    {
      ghost var body := SendBody(w, cfg, f, fields);
      for i := 0 to |emails|
        invariant trace == old(trace) + RecordsEvents(body, emails[..i], at)
      {
        ghost var before := trace;
        var r := SendEmail(w, cfg, f, fields, emails[i]);
        RecordsEventsSnoc(body, emails, i, at, |before|, r);
        TraceStep(old(trace), before, trace, RecordsEvents(body, emails[..i], at),
                  RecordsEvents(body, emails[..i + 1], at), r.events);
      }
      assert emails[..|emails|] == emails;
    }

    /** One pass of the loop: deliver, then post the summary or, from the catch block, the failure. */
    method SendEmail(w: World, cfg: Config, f: Foreign, fields: seq<Field>, email: Email) returns (r: RecordRun)
      modifies this`trace
      ensures r == SendBody(w, cfg, f, fields)(email, |old(trace)|)
      ensures trace == old(trace) + r.events
    {
      var d := SendDelivery(w, cfg, f, fields, email);
      var delivered := Deliver(d, |trace|);
      RecordSettles(d, |trace|);
      var posted: seq<Event> := [];
      match delivered.stop {
        case EmptyAudience =>
        case Failed(_, error) =>
          posted := [ErrorAlert(FailureAlert(email.emailId, error))];
        case Completed =>
          var results := delivered.results.value;
          var errored := Errored(results);
          posted := [Notice(SentNotice(email.emailId, |results|, |delivered.audience.value|,
                                       delivered.automation.value.name, |errored|))];
      }
      r := delivered.(events := delivered.events + posted);
      trace := trace + r.events;
    }
  }

  /** The posted summary and alerts invoke nothing. */
  lemma OutcomeInvokesNothing(email: Email, r: RecordRun)
    ensures Calls(SendOutcome(email, r)) == []
  {
    var posted := SendOutcome(email, r);
    if posted != [] {
      assert posted[1..] == [];
    }
  }

  /** The body's calls are the delivery's: posting the outcome adds none. */
  lemma SendRecordCallsAreDeliveries(w: World, cfg: Config, f: Foreign, fields: seq<Field>, email: Email, at: nat)
    ensures Calls(SendRecord(w, cfg, f, fields, email, at).events)
         == Calls(DeliverRecord(SendDelivery(w, cfg, f, fields, email), at).events)
  {
    var r := DeliverRecord(SendDelivery(w, cfg, f, fields, email), at);
    CallsAppend(r.events, SendOutcome(email, r));
    OutcomeInvokesNothing(email, r);
  }

  /** The calls the loop body may make for `email`: its own automation's lookups, template, batch and sent mark. */
  predicate SendCall(fields: seq<Field>, email: Email, c: Call)
  {
    || c == GetAutomation(email.automationId)
    || c == GetActiveContacts(email.automationId)
    || c == GetTemplate(email.templateId)
    || (c.GetContactVariables? && c.fields == fields)
    || c.SendBatch?
    || c == MarkSent(email.airtableId)
  }

  /**
   * One send: the email goes out unchanged, to its own automation; it
   * invokes only that automation's lookups and its own template, batch and
   * mark; it is marked as sent exactly when the batch send returned; every
   * batch has one message per active contact with the email's subject.
   */
  lemma SendRecordCalls(w: World, cfg: Config, f: Foreign, fields: seq<Field>, email: Email, at: nat)
    ensures var r := SendRecord(w, cfg, f, fields, email, at);
            && r.email == email
            && (forall c :: c in Calls(r.events) ==> SendCall(fields, email, c))
            && (MarkSent(email.airtableId) in Calls(r.events) <==>
                  r.stop.Completed? || (r.stop.Failed? && r.stop.step == MarkStep))
            && (forall c :: c in Calls(r.events) && c.SendBatch? ==>
                  r.audience.Some? && BatchFor(c.messages, r.audience.value, email.subject))
  {
    var d := SendDelivery(w, cfg, f, fields, email);
    SendRecordCallsAreDeliveries(w, cfg, f, fields, email, at);
    DeliveryCallsOnly(d, at);
    RecordSettles(d, at);
    MarkedOnlyAfterSend(d, at);
    BatchesForAudience(d, at);
  }

  /**
   * How one send ends in the chat: a completed send posts its summary
   * with the result count, the audience size, the automation's name and
   * the error count; a step that threw posts the failure alert with its
   * error; an empty audience ends with the no-contacts alert and invokes
   * nothing past the two lookups. So the last event is a notice exactly
   * when the send completed.
   */
  lemma SendRecordOutcome(w: World, cfg: Config, f: Foreign, fields: seq<Field>, email: Email, at: nat)
    ensures var r := SendRecord(w, cfg, f, fields, email, at);
            && |r.events| > 0
            && (r.stop.Completed? ==>
                  && r.automation.Some? && r.audience.Some? && r.results.Some?
                  && r.events[|r.events| - 1]
                     == Notice(SentNotice(email.emailId, |r.results.value|, |r.audience.value|,
                                          r.automation.value.name, |Errored(r.results.value)|)))
            && (r.stop.Failed? ==> r.events[|r.events| - 1] == ErrorAlert(FailureAlert(email.emailId, r.stop.error)))
            && (r.stop == EmptyAudience ==>
                  && r.audience == Some([]) && r.automation.Some?
                  && r.events[|r.events| - 1] == ErrorAlert(NoContactsMessage(r.automation.value.name))
                  && forall c :: c in Calls(r.events) ==> c.GetAutomation? || c.GetActiveContacts?)
            && (r.events[|r.events| - 1].Notice? <==> r.stop.Completed?)
  {
    var d := SendDelivery(w, cfg, f, fields, email);
    RecordSettles(d, at);
    EmptyAudienceSkips(d, at);
    SendRecordCallsAreDeliveries(w, cfg, f, fields, email, at);
  }

  /** `s` ends with `suffix`. */
  predicate EndsWith(s: string, suffix: string)
  {
    |suffix| <= |s| && s[|s| - |suffix|..] == suffix
  }

  /** The summary carries the "sends had errors" line exactly when some sends had errors. */
  lemma SentNoticeFlagsErrors(emailId: string, sent: nat, recipients: nat, automationName: string, errors: nat)
    ensures EndsWith(SentNotice(emailId, sent, recipients, automationName, errors), ERRORS_SUFFIX) <==> errors > 0
  {
    var t := SentNotice(emailId, sent, recipients, automationName, errors);
    var head := "Email '" + emailId + "' successfully sent to " + NatText(sent) + "/" + NatText(recipients)
                + " recipients in '" + automationName + "'.";
    if errors > 0 {
      assert t == (head + "\n" + NatText(errors)) + ERRORS_SUFFIX;
      assert t[|t| - |ERRORS_SUFFIX|..] == ERRORS_SUFFIX;
    } else {
      assert t == head;
      assert t[|t| - 2] == '\'' != ERRORS_SUFFIX[|ERRORS_SUFFIX| - 2];
    }
  }

  /** The calls a send run may make: its two listings and the sends' calls, never a tested mark. */
  predicate SendRunCall(c: Call)
  {
    || c == ListScheduledEmails
    || c == ListFields
    || c.GetAutomation?
    || c.GetActiveContacts?
    || c.GetTemplate?
    || c.GetContactVariables?
    || c.SendBatch?
    || c.MarkSent?
  }

  /** SendRunCall as a predicate on calls. */
  function SendRunAllowed(): Call -> bool
  {
    c => SendRunCall(c)
  }

  /** Every send invokes only calls a send run may make. */
  lemma SendBodyCalls(w: World, cfg: Config, f: Foreign, fields: seq<Field>)
    ensures forall e: Email, a: nat :: CallsWithin(SendBody(w, cfg, f, fields)(e, a).events, SendRunAllowed())
  {
    forall e: Email, a: nat
      ensures CallsWithin(SendRecord(w, cfg, f, fields, e, a).events, SendRunAllowed())
    {
      SendRecordCalls(w, cfg, f, fields, e, a);
      CallsWithinMeans(SendRecord(w, cfg, f, fields, e, a).events, SendRunAllowed());
    }
  }

  /** Once emails are listed, the rest of the run invokes only calls a send run may make, and only the field listing when it crashes. */
  lemma SendListedCalls(w: World, cfg: Config, f: Foreign, emails: seq<Email>, at: nat)
    ensures var run := SendListed(w, cfg, f, emails, at);
            && CallsWithin(run.events, SendRunAllowed())
            && (run.crash.Some? ==> CallsWithin(run.events, Among([ListFields])))
  {
    var fl := TryAction(w.fields, at, ListFields, FIELDS_ACTION, cfg.delays, SEND_SLOT);
    OwnCallWithin(w.fields, at, ListFields, FIELDS_ACTION, cfg.delays, SEND_SLOT, SendRunAllowed());
    if fl.result.Returned? {
      var body := SendBody(w, cfg, f, fl.result.value);
      var loop := RecordsEvents(body, emails, Past(at, fl.events));
      SendBodyCalls(w, cfg, f, fl.result.value);
      RecordsCallsWithin(body, emails, Past(at, fl.events), SendRunAllowed());
      CallsWithinAppend(fl.events, loop, SendRunAllowed());
    } else {
      OwnCallWithin(w.fields, at, ListFields, FIELDS_ACTION, cfg.delays, SEND_SLOT, Among([ListFields]));
    }
  }

  /** A send run invokes only its listings and the sends, and never marks an email as tested. */
  lemma SendRunCalls(w: World, cfg: Config, f: Foreign, at: nat)
    ensures CallsWithin(SendRun(w, cfg, f, at).events, SendRunAllowed())
  {
    var l := TryAction(w.scheduledEmails, at, ListScheduledEmails, LIST_ACTION, cfg.delays, SEND_SLOT);
    OwnCallWithin(w.scheduledEmails, at, ListScheduledEmails, LIST_ACTION, cfg.delays, SEND_SLOT, SendRunAllowed());
    if l.result.Returned? && |l.result.value| > 0 {
      var rest := SendListed(w, cfg, f, l.result.value, Past(at, l.events));
      SendListedCalls(w, cfg, f, l.result.value, Past(at, l.events));
      CallsWithinAppend(l.events, rest.events, SendRunAllowed());
    }
  }

  /** An empty listing ends the run after the listing, with no other call and no crash. */
  lemma SendRunEmptyListing(w: World, cfg: Config, f: Foreign, at: nat)
    ensures var l := TryAction(w.scheduledEmails, at, ListScheduledEmails, LIST_ACTION, cfg.delays, SEND_SLOT);
            var run := SendRun(w, cfg, f, at);
            l.result.Returned? && |l.result.value| == 0 ==>
              run.crash.None? && CallsWithin(run.events, Among([ListScheduledEmails]))
  {
    OwnCallWithin(w.scheduledEmails, at, ListScheduledEmails, LIST_ACTION, cfg.delays, SEND_SLOT,
                  Among([ListScheduledEmails]));
  }

  /** A run crashes only in one of its two listings, before any email was sent. */
  lemma SendRunCrashCalls(w: World, cfg: Config, f: Foreign, at: nat)
    ensures var run := SendRun(w, cfg, f, at);
            run.crash.Some? ==> CallsWithin(run.events, Among([ListScheduledEmails, ListFields]))
  {
    var l := TryAction(w.scheduledEmails, at, ListScheduledEmails, LIST_ACTION, cfg.delays, SEND_SLOT);
    var allowed := Among([ListScheduledEmails, ListFields]);
    OwnCallWithin(w.scheduledEmails, at, ListScheduledEmails, LIST_ACTION, cfg.delays, SEND_SLOT, allowed);
    if l.result.Returned? && |l.result.value| > 0 {
      var at' := Past(at, l.events);
      var fl := TryAction(w.fields, at', ListFields, FIELDS_ACTION, cfg.delays, SEND_SLOT);
      if fl.result.Threw? {
        OwnCallWithin(w.fields, at', ListFields, FIELDS_ACTION, cfg.delays, SEND_SLOT, allowed);
        CallsWithinAppend(l.events, fl.events, allowed);
      }
    }
  }
}
