/**
 * The metadata route (app/updateMetadata/route.ts): list the emails whose
 * display data is stale and, for each, look up its automation and template
 * and save their names on the email's record; a failing email is logged
 * and the loop goes on.
 */
module UpdateMetadata {
  import opened Common
  import opened Types
  import opened Events
  import opened Retry
  import opened Pipeline

  /** Every tryAction of the route passes `false` as tryNumber, which counts as slot 0. */
  const FIRST_SLOT: nat := 0

  /** saveMetadata is called without tryAction: its one invocation is attempt 0. */
  const SAVE_ATTEMPT: nat := 0

  const LIST_ACTION: string := "Checking for emails that need new display data"

  /** The loop body for one email that starts at trace position `at`. */
  function MetadataRecord(w: World, cfg: Config, email: Email, at: nat): RecordRun
  {
    var a := TryAction(w.automation, at, GetAutomation(email.automationId), AUTOMATION_ACTION, cfg.delays, FIRST_SLOT);
    if a.result.Threw? then
      RecordRun(a.events, Failed(AutomationStep, a.result.message), email, None, None, None, None)
    else
      var t := TryAction(w.template, Past(at, a.events), GetTemplate(email.templateId), TEMPLATE_ACTION, cfg.delays,
                         FIRST_SLOT);
      var fetched := a.events + t.events;
      if t.result.Threw? then
        RecordRun(fetched, Failed(TemplateStep, t.result.message), email, Some(a.result.value), None, None, None)
      else
        var saved := fetched + [Invoked(SaveMetadata(email.airtableId, a.result.value.name, t.result.value.name))];
        var stop := match w.update(Past(at, fetched), SAVE_ATTEMPT)
                    case Threw(e) => Failed(SaveStep, e)
                    case Returned(_) => Completed;
        RecordRun(saved, stop, email, Some(a.result.value), None, Some(t.result.value), None)
  }

  function MetadataBody(w: World, cfg: Config): (Email, nat) -> RecordRun
  {
    (email: Email, at: nat) => MetadataRecord(w, cfg, email, at)
  }

  /** updateDisplayMetadata() started at trace position `at`. */
  function UpdateRun(w: World, cfg: Config, at: nat): (run: Run)
    ensures |run.events| > 0 && run.events[0] == Invoked(ListMetadataCandidates)
    ensures run.crash.Some? ==> run.crash.value == MaxRetriesMessage(LIST_ACTION)
  {
    var l := TryAction(w.metadataCandidates, at, ListMetadataCandidates, LIST_ACTION, cfg.delays, FIRST_SLOT);
    if l.result.Threw? then Run(l.events, Some(l.result.message))
    else if |l.result.value| == 0 then Run(l.events, None)
    else Run(l.events + RecordsEvents(MetadataBody(w, cfg), l.result.value, Past(at, l.events)), None)
  }

  /** The route module: its busy flag and everything its runs have emitted. */
  class UpdateMetadataRoute {
    var isPending: bool
    var trace: seq<Event>

    constructor ()
      ensures !isPending && trace == []
    {
      isPending := false;
      trace := [];
    }

    /** GET: refuse with 429 while a run is pending; otherwise set the flag, run, and clear it. */
    method Get(w: World, cfg: Config) returns (response: Response)
      modifies this
      ensures old(isPending) ==> response == Status(TOO_MANY_REQUESTS) && isPending && trace == old(trace)
      ensures !old(isPending) ==>
                var run := UpdateRun(w, cfg, |old(trace)|);
                && trace == old(trace) + run.events
                && (run.crash.None? ==> response == Status(OK) && !isPending)
                && (run.crash.Some? ==> response == Rejected(run.crash.value) && isPending)
    {
      if isPending {
        return Status(TOO_MANY_REQUESTS);
      }
      isPending := true;
      var crash := UpdateDisplayMetadata(w, cfg);
      if crash.Some? {
        return Rejected(crash.value);
      }
      isPending := false;
      return Status(OK);
    }

    method UpdateDisplayMetadata(w: World, cfg: Config) returns (crash: Option<string>)
      modifies this`trace
      ensures var run := UpdateRun(w, cfg, |old(trace)|);
              trace == old(trace) + run.events && crash == run.crash
    {
      var listed := TryAction(w.metadataCandidates, |trace|, ListMetadataCandidates, LIST_ACTION, cfg.delays,
                              FIRST_SLOT);
      ghost var start := trace;
      trace := trace + listed.events;
      if listed.result.Threw? {
        return Some(listed.result.message);
      }
      var emails := listed.result.value;
      if |emails| == 0 {
        return None;
      }
      ghost var before := trace;
      UpdateEach(w, cfg, emails, Past(|start|, listed.events));
      ghost var loop := RecordsEvents(MetadataBody(w, cfg), emails, Past(|start|, listed.events));
      TraceStep(start, before, trace, listed.events, listed.events + loop, loop);
      crash := None;
    }

    /** `for (const email of emails)`: every listed email, in order. */
    method UpdateEach(w: World, cfg: Config, emails: seq<Email>, ghost at: nat)
      requires at == |trace|
      modifies this`trace
      ensures trace == old(trace) + RecordsEvents(MetadataBody(w, cfg), emails, at)
    {
      ghost var body := MetadataBody(w, cfg);
      for i := 0 to |emails|
        invariant trace == old(trace) + RecordsEvents(body, emails[..i], at)
      {
        ghost var before := trace;
        var r := UpdateEmail(w, cfg, emails[i]);
        RecordsEventsSnoc(body, emails, i, at, |before|, r);
        TraceStep(old(trace), before, trace, RecordsEvents(body, emails[..i], at),
                  RecordsEvents(body, emails[..i + 1], at), r.events);
      }
      assert emails[..|emails|] == emails;
    }

    /** One pass of the loop: both lookups, then the save; the catch block only logs. */
    method UpdateEmail(w: World, cfg: Config, email: Email) returns (r: RecordRun)
      modifies this`trace
      ensures r == MetadataBody(w, cfg)(email, |old(trace)|)
      ensures trace == old(trace) + r.events
    {
      var automation := TryAction(w.automation, |trace|, GetAutomation(email.automationId), AUTOMATION_ACTION,
                                  cfg.delays, FIRST_SLOT);
      ghost var start := trace;
      trace := trace + automation.events;
      if automation.result.Threw? {
        return RecordRun(automation.events, Failed(AutomationStep, automation.result.message), email,
                         None, None, None, None);
      }
      var template := TryAction(w.template, |trace|, GetTemplate(email.templateId), TEMPLATE_ACTION, cfg.delays,
                                FIRST_SLOT);
      trace := trace + template.events;
      var fetched := automation.events + template.events;
      if template.result.Threw? {
        return RecordRun(fetched, Failed(TemplateStep, template.result.message), email,
                         Some(automation.result.value), None, None, None);
      }
      var automationName := automation.result.value.name;
      var templateName := template.result.value.name;
      var saving := w.update(|trace|, SAVE_ATTEMPT);
      trace := trace + [Invoked(SaveMetadata(email.airtableId, automationName, templateName))];
      var stop := Completed;
      if saving.Threw? {
        stop := Failed(SaveStep, saving.message);
      }
      r := RecordRun(fetched + [Invoked(SaveMetadata(email.airtableId, automationName, templateName))], stop, email,
                     Some(automation.result.value), None, Some(template.result.value), None);
    }
  }

  /** The calls one email may make: its own automation and template lookups and the save of its record. */
  predicate MetadataCall(email: Email, c: Call)
  {
    || c == GetAutomation(email.automationId)
    || c == GetTemplate(email.templateId)
    || (c.SaveMetadata? && c.airtableId == email.airtableId)
  }

  /** One email invokes only its own automation and template lookups and the save of its own record. */
  lemma MetadataRecordCalls(w: World, cfg: Config, email: Email, at: nat)
    ensures forall c :: c in Calls(MetadataRecord(w, cfg, email, at).events) ==> MetadataCall(email, c)
  {
    var a := TryAction(w.automation, at, GetAutomation(email.automationId), AUTOMATION_ACTION, cfg.delays, FIRST_SLOT);
    OnlyItsOwnCall(w.automation, at, GetAutomation(email.automationId), AUTOMATION_ACTION, cfg.delays, FIRST_SLOT);
    if a.result.Returned? {
      var t := TryAction(w.template, Past(at, a.events), GetTemplate(email.templateId), TEMPLATE_ACTION, cfg.delays,
                         FIRST_SLOT);
      OnlyItsOwnCall(w.template, Past(at, a.events), GetTemplate(email.templateId), TEMPLATE_ACTION, cfg.delays,
                     FIRST_SLOT);
      CallsOfBoth(a.events, t.events);
      if t.result.Returned? {
        CallsOfBoth(a.events + t.events,
                    [Invoked(SaveMetadata(email.airtableId, a.result.value.name, t.result.value.name))]);
      }
    }
  }

  /**
   * The save is invoked exactly when both lookups returned, once, as the
   * email's last event, with the names those lookups fetched.
   */
  lemma SavesFetchedNames(w: World, cfg: Config, email: Email, at: nat)
    ensures var r := MetadataRecord(w, cfg, email, at);
            var a := TryAction(w.automation, at, GetAutomation(email.automationId), AUTOMATION_ACTION, cfg.delays,
                               FIRST_SLOT);
            && ((exists c :: c in Calls(r.events) && c.SaveMetadata?) <==> r.automation.Some? && r.template.Some?)
            && (r.automation.Some? ==> a.result == Returned(r.automation.value))
            && (r.automation.Some? && r.template.Some? ==>
                  && r.events[|r.events| - 1]
                       == Invoked(SaveMetadata(email.airtableId, r.automation.value.name, r.template.value.name))
                  && (forall c :: c in Calls(r.events[..|r.events| - 1]) ==> !c.SaveMetadata?))
  {
    var r := MetadataRecord(w, cfg, email, at);
    var a := TryAction(w.automation, at, GetAutomation(email.automationId), AUTOMATION_ACTION, cfg.delays, FIRST_SLOT);
    OnlyItsOwnCall(w.automation, at, GetAutomation(email.automationId), AUTOMATION_ACTION, cfg.delays, FIRST_SLOT);
    if a.result.Returned? {
      var t := TryAction(w.template, Past(at, a.events), GetTemplate(email.templateId), TEMPLATE_ACTION, cfg.delays,
                         FIRST_SLOT);
      var fetched := a.events + t.events;
      OnlyItsOwnCall(w.template, Past(at, a.events), GetTemplate(email.templateId), TEMPLATE_ACTION, cfg.delays,
                     FIRST_SLOT);
      CallsOfBoth(a.events, t.events);
      if t.result.Returned? {
        var saved := SaveMetadata(email.airtableId, a.result.value.name, t.result.value.name);
        CallsOfBoth(fetched, [Invoked(saved)]);
        assert r.events[..|r.events| - 1] == fetched;
        assert saved in Calls(r.events);
      }
    }
  }

  /** The template lookup carries on from the automation lookup's end and is what the record keeps. */
  lemma MetadataTemplateFetched(w: World, cfg: Config, email: Email, at: nat)
    ensures var r := MetadataRecord(w, cfg, email, at);
            var a := TryAction(w.automation, at, GetAutomation(email.automationId), AUTOMATION_ACTION, cfg.delays,
                               FIRST_SLOT);
            r.template.Some? ==>
              a.result.Returned?
              && TryAction(w.template, Past(at, a.events), GetTemplate(email.templateId), TEMPLATE_ACTION, cfg.delays,
                           FIRST_SLOT).result == Returned(r.template.value)
  {
  }

  /**
   * A failing save is not retried and does not end the loop: the email's
   * record says so and the run goes on with the next email.
   */
  lemma SaveFailureIsRecorded(w: World, cfg: Config, email: Email, at: nat)
    ensures var r := MetadataRecord(w, cfg, email, at);
            && (r.stop.Failed? && r.stop.step == SaveStep ==>
                  r.automation.Some? && r.template.Some?
                  && w.update(Past(at, r.events[..|r.events| - 1]), SAVE_ATTEMPT) == Threw(r.stop.error))
            && (r.stop.Completed? <==> r.automation.Some? && r.template.Some?
                                       && w.update(Past(at, r.events[..|r.events| - 1]), SAVE_ATTEMPT).Returned?)
  {
    var r := MetadataRecord(w, cfg, email, at);
    var a := TryAction(w.automation, at, GetAutomation(email.automationId), AUTOMATION_ACTION, cfg.delays, FIRST_SLOT);
    if a.result.Returned? {
      var t := TryAction(w.template, Past(at, a.events), GetTemplate(email.templateId), TEMPLATE_ACTION, cfg.delays,
                         FIRST_SLOT);
      if t.result.Returned? {
        assert r.events[..|r.events| - 1] == a.events + t.events;
      }
    }
  }

  /** The calls a metadata run may make. */
  predicate UpdateRunCall(c: Call)
  {
    c == ListMetadataCandidates || c.GetAutomation? || c.GetTemplate? || c.SaveMetadata?
  }

  function UpdateRunAllowed(): Call -> bool
  {
    c => UpdateRunCall(c)
  }

  lemma MetadataBodyCalls(w: World, cfg: Config)
    ensures forall e: Email, a: nat :: CallsWithin(MetadataBody(w, cfg)(e, a).events, UpdateRunAllowed())
  {
    forall e: Email, a: nat
      ensures CallsWithin(MetadataRecord(w, cfg, e, a).events, UpdateRunAllowed())
    {
      MetadataRecordCalls(w, cfg, e, a);
      CallsWithinMeans(MetadataRecord(w, cfg, e, a).events, UpdateRunAllowed());
    }
  }

  /**
   * A run invokes only the listing, lookups and saves; an empty (or failed)
   * listing ends it with no other call; and it crashes only when the
   * listing gives up.
   */
  lemma UpdateRunCalls(w: World, cfg: Config, at: nat)
    ensures var l := TryAction(w.metadataCandidates, at, ListMetadataCandidates, LIST_ACTION, cfg.delays, FIRST_SLOT);
            var run := UpdateRun(w, cfg, at);
            && CallsWithin(run.events, UpdateRunAllowed())
            && (l.result.Threw? || |l.result.value| == 0 ==> CallsWithin(run.events, Among([ListMetadataCandidates])))
            && (run.crash.Some? <==> l.result.Threw?)
  {
    var l := TryAction(w.metadataCandidates, at, ListMetadataCandidates, LIST_ACTION, cfg.delays, FIRST_SLOT);
    OwnCallWithin(w.metadataCandidates, at, ListMetadataCandidates, LIST_ACTION, cfg.delays, FIRST_SLOT,
                  UpdateRunAllowed());
    OwnCallWithin(w.metadataCandidates, at, ListMetadataCandidates, LIST_ACTION, cfg.delays, FIRST_SLOT,
                  Among([ListMetadataCandidates]));
    if l.result.Returned? && |l.result.value| > 0 {
      var loop := RecordsEvents(MetadataBody(w, cfg), l.result.value, Past(at, l.events));
      MetadataBodyCalls(w, cfg);
      RecordsCallsWithin(MetadataBody(w, cfg), l.result.value, Past(at, l.events), UpdateRunAllowed());
      CallsWithinAppend(l.events, loop, UpdateRunAllowed());
    }
  }

  /**
   * After a non-empty listing every listed email gets its own pass of the
   * loop body, in order, each starting where the one before it ended,
   * however that one ended.
   */
  lemma EveryCandidateVisited(w: World, cfg: Config, at: nat)
    ensures var l := TryAction(w.metadataCandidates, at, ListMetadataCandidates, LIST_ACTION, cfg.delays, FIRST_SLOT);
            l.result.Returned? && |l.result.value| > 0 ==>
              var runs := Records(MetadataBody(w, cfg), l.result.value, Past(at, l.events));
              && UpdateRun(w, cfg, at) == Run(l.events + Flatten(runs), None)
              && |runs| == |l.result.value|
              && (forall i :: 0 <= i < |runs| ==> runs[i].email == l.result.value[i])
  {
    var l := TryAction(w.metadataCandidates, at, ListMetadataCandidates, LIST_ACTION, cfg.delays, FIRST_SLOT);
    if l.result.Returned? && |l.result.value| > 0 {
      var emails := l.result.value;
      var p := Past(at, l.events);
      var runs := Records(MetadataBody(w, cfg), emails, p);
      RecordsEventsAreFlatten(MetadataBody(w, cfg), emails, p);
      VisitsInOrder(w, cfg, emails, p);
    }
  }

  /** The i-th record of the loop is that of the i-th email. */
  lemma {:induction false} VisitsInOrder(w: World, cfg: Config, emails: seq<Email>, at: nat)
    ensures forall i :: 0 <= i < |emails| ==> Records(MetadataBody(w, cfg), emails, at)[i].email == emails[i]
  {
    if emails != [] {
      var n := |emails|;
      var prev := Records(MetadataBody(w, cfg), emails[..n - 1], at);
      var pos := at + |Flatten(prev)|;
      VisitsInOrder(w, cfg, emails[..n - 1], at);
      KeepsEmail(w, cfg, emails[n - 1], pos);
      SnocKeepsEmails(prev, MetadataRecord(w, cfg, emails[n - 1], pos), emails[..n - 1], emails[n - 1]);
      assert emails == emails[..n - 1] + [emails[n - 1]];
    }
  }

  lemma KeepsEmail(w: World, cfg: Config, email: Email, at: nat)
    ensures MetadataRecord(w, cfg, email, at).email == email
  {
  }

  lemma SnocKeepsEmails(prev: seq<RecordRun>, last: RecordRun, init: seq<Email>, email: Email)
    requires |prev| == |init| && forall i :: 0 <= i < |init| ==> prev[i].email == init[i]
    requires last.email == email
    ensures forall i :: 0 <= i < |init| + 1 ==> (prev + [last])[i].email == (init + [email])[i]
  {
  }
}
