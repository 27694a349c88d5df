/**
 * The test-send route (app/testEmails/route.ts): list the emails ready to
 * test and send each one, retargeted to the test automation and with a
 * "TEST #n: [date]" subject, then mark it as tested.
 */
module TestEmails {
  import opened Common
  import opened Types
  import opened Events
  import opened Retry
  import opened ActiveCampaign
  import opened Postmark
  import opened Pipeline
  import opened DeliveryFacts

  /** The routes pass `false` as tryNumber, which counts as slot 0. */
  const FIRST_SLOT: nat := 0

  const LIST_ACTION: string := "Getting the list of ready-to-test emails"

  /** The RangeError message formatToParts throws for an invalid date. */
  const INVALID_TIME_VALUE: string := "Invalid time value"

  function MarkAction(emailId: string): string
  {
    "Marking email '" + emailId + "' as tested in Airtable"
  }

  /** The date part of a test subject: the rendered send date, or ASAP for one already past. */
  function SendDateText(f: Foreign, sendDate: int, now: int): string
  {
    if sendDate < now then "ASAP" else f.formatSendDate(sendDate)
  }

  function TestSubject(testNumber: Option<int>, dateText: string, subject: string): string
  {
    "TEST #" + NumberText(testNumber) + ": [" + dateText + "] " + subject
  }

  /** The loop body for one email that starts at trace position `at`. */
  function TestRecord(w: World, cfg: Config, f: Foreign, fields: seq<Field>, email: Email, at: nat): RecordRun
  {
    var retargeted := email.(automationId := cfg.testAutomation);
    match f.parseDate(email.scheduleDate)
    case None => RecordRun([], Failed(ScheduleDateStep, INVALID_TIME_VALUE), retargeted, None, None, None, None)
    case Some(sendDate) =>
      var e := retargeted.(subject := TestSubject(f.parseInt(email.testNumber),
                                                  SendDateText(f, sendDate, w.clock(at)), email.subject));
      DeliverRecord(TestDelivery(w, cfg, f, fields, e), at)
  }

  /** What the shared part of the loop body works with for a test send. */
  function TestDelivery(w: World, cfg: Config, f: Foreign, fields: seq<Field>, e: Email): Delivery
  {
    Delivery(w, cfg.delays, FIRST_SLOT, f, fields, e, MarkTested(e.airtableId), MarkAction(e.emailId))
  }

  function TestBody(w: World, cfg: Config, f: Foreign, fields: seq<Field>): (Email, nat) -> RecordRun
  {
    (email: Email, at: nat) => TestRecord(w, cfg, f, fields, email, at)
  }

  /** testEmails(): list, stop on an empty list, then go on with the listed emails. */
  function TestRun(w: World, cfg: Config, f: Foreign, at: nat): (run: Run)
    ensures |run.events| > 0 && run.events[0] == Invoked(ListTestEmails)
    ensures run.crash.Some? ==> run.crash.value in {MaxRetriesMessage(LIST_ACTION), MaxRetriesMessage(FIELDS_ACTION)}
  {
    var l := TryAction(w.testEmails, at, ListTestEmails, LIST_ACTION, cfg.delays, FIRST_SLOT);
    if l.result.Threw? then Run(l.events, Some(l.result.message))
    else if |l.result.value| == 0 then Run(l.events, None)
    else
      var rest := TestListed(w, cfg, f, l.result.value, Past(at, l.events));
      Run(l.events + rest.events, rest.crash)
  }

  /** The three ways a test run ends, each after the listing's events. */
  lemma TestRunCases(w: World, cfg: Config, f: Foreign, at: nat)
    ensures var l := TryAction(w.testEmails, at, ListTestEmails, LIST_ACTION, cfg.delays, FIRST_SLOT);
            var run := TestRun(w, cfg, f, at);
            && (l.result.Threw? ==> run == Run(l.events, Some(l.result.message)))
            && (l.result.Returned? && |l.result.value| == 0 ==> run == Run(l.events, None))
            && (l.result.Returned? && |l.result.value| > 0 ==>
                  var rest := TestListed(w, cfg, f, l.result.value, Past(at, l.events));
                  run == Run(l.events + rest.events, rest.crash))
  {
  }

  /** The rest of testEmails() once emails are listed: list the fields, then the loop. */
  function TestListed(w: World, cfg: Config, f: Foreign, emails: seq<Email>, at: nat): Run
  {
    var fl := TryAction(w.fields, at, ListFields, FIELDS_ACTION, cfg.delays, FIRST_SLOT);
    if fl.result.Threw? then Run(fl.events, Some(fl.result.message))
    else Run(fl.events + RecordsEvents(TestBody(w, cfg, f, fl.result.value), emails, Past(at, fl.events)), None)
  }

  /** The route module: its busy flag and everything its runs have emitted. */
  class TestEmailsRoute {
    var isPending: bool
    var trace: seq<Event>

    constructor ()
      ensures !isPending && trace == []
    {
      isPending := false;
      trace := [];
    }

    /**
     * GET: refuse with 429 while a run is pending; otherwise set the flag,
     * run, and clear it. There is no `finally`: a run that throws leaves
     * the flag set and the request rejected.
     */
    method Get(w: World, cfg: Config, f: Foreign) returns (response: Response)
      modifies this
      ensures old(isPending) ==> response == Status(TOO_MANY_REQUESTS) && isPending && trace == old(trace)
      ensures !old(isPending) ==>
                var run := TestRun(w, cfg, f, |old(trace)|);
                && trace == old(trace) + run.events
                && (run.crash.None? ==> response == Status(OK) && !isPending)
                && (run.crash.Some? ==> response == Rejected(run.crash.value) && isPending)
    {
      if isPending {
        return Status(TOO_MANY_REQUESTS);
      }
      isPending := true;
      var crash := TestEmails(w, cfg, f);
      if crash.Some? {
        return Rejected(crash.value);
      }
      isPending := false;
      return Status(OK);
    }

    method TestEmails(w: World, cfg: Config, f: Foreign) returns (crash: Option<string>)
      modifies this`trace
      ensures var run := TestRun(w, cfg, f, |old(trace)|);
              trace == old(trace) + run.events && crash == run.crash
    {
      TestRunCases(w, cfg, f, |trace|);
      var listed := TryAction(w.testEmails, |trace|, ListTestEmails, LIST_ACTION, cfg.delays, FIRST_SLOT);
      trace := trace + listed.events;
      if listed.result.Threw? {
        return Some(listed.result.message);
      }
      var emails := listed.result.value;
      if |emails| == 0 {
        return None;
      }
      ghost var before := trace;
      crash := TestListedEmails(w, cfg, f, emails);
      ghost var rest := TestListed(w, cfg, f, emails, |before|);
      TraceStep(old(trace), before, trace, listed.events, listed.events + rest.events, rest.events);
    }

    method TestListedEmails(w: World, cfg: Config, f: Foreign, emails: seq<Email>) returns (crash: Option<string>)
      modifies this`trace
      ensures var run := TestListed(w, cfg, f, emails, |old(trace)|);
              trace == old(trace) + run.events && crash == run.crash
    {
      var listedFields := TryAction(w.fields, |trace|, ListFields, FIELDS_ACTION, cfg.delays, FIRST_SLOT);
      ghost var start := trace;
      trace := trace + listedFields.events;
      if listedFields.result.Threw? {
        return Some(listedFields.result.message);
      }
      ghost var before := trace;
      TestEach(w, cfg, f, listedFields.result.value, emails, Past(|start|, listedFields.events));
      ghost var loop := RecordsEvents(TestBody(w, cfg, f, listedFields.result.value), emails,
                                      Past(|start|, listedFields.events));
      TraceStep(start, before, trace, listedFields.events, listedFields.events + loop, loop);
      crash := None;
    }

    /** `for (const email of emails)`: every listed email, in order. */
    method TestEach(w: World, cfg: Config, f: Foreign, fields: seq<Field>, emails: seq<Email>, ghost at: nat)
      requires at == |trace|
      modifies this`trace
      ensures trace == old(trace) + RecordsEvents(TestBody(w, cfg, f, fields), emails, at)
    {
      ghost var body := TestBody(w, cfg, f, fields);
      for i := 0 to |emails|
        invariant trace == old(trace) + RecordsEvents(body, emails[..i], at)
      {
        ghost var before := trace;
        var r := TestEmail(w, cfg, f, fields, emails[i]);
        RecordsEventsSnoc(body, emails, i, at, |before|, r);
        TraceStep(old(trace), before, trace, RecordsEvents(body, emails[..i], at),
                  RecordsEvents(body, emails[..i + 1], at), r.events);
      }
      assert emails[..|emails|] == emails;
    }

    /** One pass of the loop; every exception is caught and only logged. */
    method TestEmail(w: World, cfg: Config, f: Foreign, fields: seq<Field>, email: Email) returns (r: RecordRun)
      modifies this`trace
      ensures r == TestBody(w, cfg, f, fields)(email, |old(trace)|)
      ensures trace == old(trace) + r.events
    {
      var e := email.(automationId := cfg.testAutomation);
      var sendDate := f.parseDate(e.scheduleDate);
      if sendDate.None? {
        return RecordRun([], Failed(ScheduleDateStep, INVALID_TIME_VALUE), e, None, None, None, None);
      }
      var testNumber := f.parseInt(e.testNumber);
      var dateText := f.formatSendDate(sendDate.value);
      if sendDate.value < w.clock(|trace|) {
        dateText := "ASAP";
      }
      e := e.(subject := TestSubject(testNumber, dateText, e.subject));
      r := Deliver(TestDelivery(w, cfg, f, fields, e), |trace|);
      trace := trace + r.events;
    }
  }

  /** The subject of a test send ends with the original subject and starts with the test tag. */
  lemma TestSubjectKeepsSubject(testNumber: Option<int>, dateText: string, subject: string)
    ensures var t := TestSubject(testNumber, dateText, subject);
            && "TEST #" <= t
            && |subject| <= |t| && t[|t| - |subject|..] == subject
  {
    var t := TestSubject(testNumber, dateText, subject);
    var head := "TEST #" + NumberText(testNumber) + ": [" + dateText + "] ";
    assert t == head + subject;
    assert t[..6] == "TEST #";
    assert t[|head|..] == subject;
  }

  /** Two test subjects for the same number and subject agree only when their dates do. */
  lemma TestSubjectDate(testNumber: Option<int>, x: string, y: string, subject: string)
    ensures TestSubject(testNumber, x, subject) == TestSubject(testNumber, y, subject) <==> x == y
  {
    var p := "TEST #" + NumberText(testNumber) + ": [";
    var q := "] " + subject;
    assert TestSubject(testNumber, x, subject) == p + x + q;
    assert TestSubject(testNumber, y, subject) == p + y + q;
    if TestSubject(testNumber, x, subject) == TestSubject(testNumber, y, subject) {
      MiddleCancels(p, x, y, q);
    }
  }

  /**
   * The date of a test subject reads ASAP exactly when the send date is
   * already past, as long as the formatter itself never renders a date as
   * ASAP.
   */
  lemma PastDatesReadAsap(f: Foreign, testNumber: Option<int>, sendDate: int, now: int, subject: string)
    requires f.formatSendDate(sendDate) != "ASAP"
    ensures TestSubject(testNumber, SendDateText(f, sendDate, now), subject) == TestSubject(testNumber, "ASAP", subject)
            <==> sendDate < now
  {
    TestSubjectDate(testNumber, SendDateText(f, sendDate, now), "ASAP", subject);
  }

  /** The calls the loop body may make for `email`: the test automation's lookups, never the email's own. */
  predicate TestCall(cfg: Config, fields: seq<Field>, email: Email, c: Call)
  {
    || c == GetAutomation(cfg.testAutomation)
    || c == GetActiveContacts(cfg.testAutomation)
    || c == GetTemplate(email.templateId)
    || (c.GetContactVariables? && c.fields == fields)
    || c.SendBatch?
    || c == MarkTested(email.airtableId)
  }

  /**
   * One test send: the email is retargeted to the test automation and
   * given its test subject, and nothing else of it changes; an invalid
   * schedule date stops it before any call; it invokes only the test
   * automation's lookups and its own template, batch and mark; it is
   * marked as tested exactly when the batch send returned; every batch
   * carries the test subject.
   */
  lemma TestRecordFacts(w: World, cfg: Config, f: Foreign, fields: seq<Field>, email: Email, at: nat)
    ensures var r := TestRecord(w, cfg, f, fields, email, at);
            && r.email.automationId == cfg.testAutomation
            && r.email.(automationId := email.automationId, subject := email.subject) == email
            && (f.parseDate(email.scheduleDate).None? ==>
                  r.events == [] && r.stop == Failed(ScheduleDateStep, INVALID_TIME_VALUE))
            && (f.parseDate(email.scheduleDate).Some? ==>
                  r.email.subject == TestSubject(f.parseInt(email.testNumber),
                                                 SendDateText(f, f.parseDate(email.scheduleDate).value, w.clock(at)),
                                                 email.subject))
            && (forall c :: c in Calls(r.events) ==> TestCall(cfg, fields, email, c))
            && (MarkTested(email.airtableId) in Calls(r.events) <==>
                  r.stop.Completed? || (r.stop.Failed? && r.stop.step == MarkStep))
            && (forall c :: c in Calls(r.events) && c.SendBatch? ==>
                  r.audience.Some? && BatchFor(c.messages, r.audience.value, r.email.subject))
  {
    var sendDate := f.parseDate(email.scheduleDate);
    if sendDate.Some? {
      var e := email.(automationId := cfg.testAutomation).(subject := TestSubject(f.parseInt(email.testNumber),
                                                           SendDateText(f, sendDate.value, w.clock(at)), email.subject));
      var d := TestDelivery(w, cfg, f, fields, e);
      DeliveryCallsOnly(d, at);
      EmptyAudienceSkips(d, at);
      MarkedOnlyAfterSend(d, at);
      BatchesForAudience(d, at);
    }
  }

  /** The calls a test run may make: its two listings and the test sends' calls, never a sent mark. */
  predicate TestRunCall(cfg: Config, c: Call)
  {
    || c == ListTestEmails
    || c == ListFields
    || c == GetAutomation(cfg.testAutomation)
    || c == GetActiveContacts(cfg.testAutomation)
    || c.GetTemplate?
    || c.GetContactVariables?
    || c.SendBatch?
    || c.MarkTested?
  }

  /** TestRunCall as a predicate on calls. */
  function TestRunAllowed(cfg: Config): Call -> bool
  {
    c => TestRunCall(cfg, c)
  }

  /** Every test send invokes only calls a test run may make. */
  lemma TestBodyCalls(w: World, cfg: Config, f: Foreign, fields: seq<Field>)
    ensures forall e: Email, a: nat :: CallsWithin(TestBody(w, cfg, f, fields)(e, a).events, TestRunAllowed(cfg))
  {
    forall e: Email, a: nat
      ensures CallsWithin(TestRecord(w, cfg, f, fields, e, a).events, TestRunAllowed(cfg))
    {
      TestRecordFacts(w, cfg, f, fields, e, a);
      CallsWithinMeans(TestRecord(w, cfg, f, fields, e, a).events, TestRunAllowed(cfg));
    }
  }

  /** The loop over the listed emails invokes only calls a test run may make. */
  lemma TestLoopCalls(w: World, cfg: Config, f: Foreign, fields: seq<Field>, emails: seq<Email>, start: nat)
    ensures CallsWithin(RecordsEvents(TestBody(w, cfg, f, fields), emails, start), TestRunAllowed(cfg))
  {
    TestBodyCalls(w, cfg, f, fields);
    RecordsCallsWithin(TestBody(w, cfg, f, fields), emails, start, TestRunAllowed(cfg));
  }

  /** Once emails are listed, the rest of the run invokes only calls a test run may make, and only the field listing when it crashes. */
  lemma TestListedCalls(w: World, cfg: Config, f: Foreign, emails: seq<Email>, at: nat)
    ensures var run := TestListed(w, cfg, f, emails, at);
            && CallsWithin(run.events, TestRunAllowed(cfg))
            && (run.crash.Some? ==> CallsWithin(run.events, Among([ListFields])))
  {
    var fl := TryAction(w.fields, at, ListFields, FIELDS_ACTION, cfg.delays, FIRST_SLOT);
    OwnCallWithin(w.fields, at, ListFields, FIELDS_ACTION, cfg.delays, FIRST_SLOT, TestRunAllowed(cfg));
    if fl.result.Returned? {
      var loop := RecordsEvents(TestBody(w, cfg, f, fl.result.value), emails, Past(at, fl.events));
      TestLoopCalls(w, cfg, f, fl.result.value, emails, Past(at, fl.events));
      CallsWithinAppend(fl.events, loop, TestRunAllowed(cfg));
    } else {
      OwnCallWithin(w.fields, at, ListFields, FIELDS_ACTION, cfg.delays, FIRST_SLOT, Among([ListFields]));
    }
  }

  /** A test run invokes only its listings and test sends, all against the test automation. */
  lemma TestRunCalls(w: World, cfg: Config, f: Foreign, at: nat)
    ensures CallsWithin(TestRun(w, cfg, f, at).events, TestRunAllowed(cfg))
  {
    var l := TryAction(w.testEmails, at, ListTestEmails, LIST_ACTION, cfg.delays, FIRST_SLOT);
    OwnCallWithin(w.testEmails, at, ListTestEmails, LIST_ACTION, cfg.delays, FIRST_SLOT, TestRunAllowed(cfg));
    if l.result.Returned? && |l.result.value| > 0 {
      var rest := TestListed(w, cfg, f, l.result.value, Past(at, l.events));
      TestListedCalls(w, cfg, f, l.result.value, Past(at, l.events));
      CallsWithinAppend(l.events, rest.events, TestRunAllowed(cfg));
    }
  }

  /** An empty listing ends the run after the listing, with no other call and no crash. */
  lemma TestRunEmptyListing(w: World, cfg: Config, f: Foreign, at: nat)
    ensures var l := TryAction(w.testEmails, at, ListTestEmails, LIST_ACTION, cfg.delays, FIRST_SLOT);
            var run := TestRun(w, cfg, f, at);
            l.result.Returned? && |l.result.value| == 0 ==>
              run.crash.None? && CallsWithin(run.events, Among([ListTestEmails]))
  {
    OwnCallWithin(w.testEmails, at, ListTestEmails, LIST_ACTION, cfg.delays, FIRST_SLOT, Among([ListTestEmails]));
  }

  /** A run crashes only in one of its two listings, before any email was handled. */
  lemma TestRunCrashCalls(w: World, cfg: Config, f: Foreign, at: nat)
    ensures var run := TestRun(w, cfg, f, at);
            run.crash.Some? ==> CallsWithin(run.events, Among([ListTestEmails, ListFields]))
  {
    var l := TryAction(w.testEmails, at, ListTestEmails, LIST_ACTION, cfg.delays, FIRST_SLOT);
    var allowed := Among([ListTestEmails, ListFields]);
    OwnCallWithin(w.testEmails, at, ListTestEmails, LIST_ACTION, cfg.delays, FIRST_SLOT, allowed);
    if l.result.Returned? && |l.result.value| > 0 {
      var at' := Past(at, l.events);
      var fl := TryAction(w.fields, at', ListFields, FIELDS_ACTION, cfg.delays, FIRST_SLOT);
      if fl.result.Threw? {
        OwnCallWithin(w.fields, at', ListFields, FIELDS_ACTION, cfg.delays, FIRST_SLOT, allowed);
        CallsWithinAppend(l.events, fl.events, allowed);
      }
    }
  }
}
