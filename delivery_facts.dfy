/**
 * What the shared loop body of the two send routes guarantees, whatever
 * the collaborators answer: which calls it makes, that an empty audience
 * stops it before the template, that the email is marked only once the
 * batch send has returned, and what the batch holds.
 */
module DeliveryFacts {
  import opened Common
  import opened Types
  import opened Events
  import opened Retry
  import opened ActiveCampaign
  import opened Postmark
  import opened Pipeline

  /** The calls the body may make for the email of `d`. */
  predicate DeliveryCall(d: Delivery, c: Call)
  {
    || c == GetAutomation(d.email.automationId)
    || c == GetActiveContacts(d.email.automationId)
    || c == GetTemplate(d.email.templateId)
    || (c.GetContactVariables? && c.fields == d.fields)
    || c.SendBatch?
    || c == d.mark
  }

  /** The call that marks the email is an Airtable update, not one of the lookups or the send. */
  predicate IsMark(c: Call)
  {
    c.MarkTested? || c.MarkSent?
  }

  /** `r` keeps what was emitted before it and adds only calls for the email of `d`. */
  predicate ExtendsWithDeliveryCalls(d: Delivery, events: seq<Event>, r: RecordRun)
  {
    && events <= r.events
    && forall c :: c in Calls(r.events) ==> c in Calls(events) || DeliveryCall(d, c)
  }

  /** Events that invoke nothing but `call`. */
  predicate OnlyCalls(added: seq<Event>, call: Call)
  {
    forall c :: c in Calls(added) ==> c == call
  }

  /** A record that ends with events invoking only one call of its email stays within its calls. */
  lemma Grows(d: Delivery, events: seq<Event>, added: seq<Event>, call: Call, r: RecordRun)
    requires OnlyCalls(added, call) && DeliveryCall(d, call)
    requires r.events == events + added
    ensures ExtendsWithDeliveryCalls(d, events, r)
  {
    CallsOfBoth(events, added);
  }

  /** A step that invokes only one call of the email, followed by a record within its calls. */
  lemma Chains(d: Delivery, events: seq<Event>, added: seq<Event>, call: Call, r: RecordRun)
    requires OnlyCalls(added, call) && DeliveryCall(d, call)
    requires ExtendsWithDeliveryCalls(d, events + added, r)
    ensures ExtendsWithDeliveryCalls(d, events, r)
  {
    CallsOfBoth(events, added);
    assert events <= events + added;
  }

  /** The body keeps what was emitted before and adds only calls for its own email. */
  lemma {:induction false} DeliveryCallsFrom(d: Delivery, stage: Stage, events: seq<Event>, at: nat)
    ensures ExtendsWithDeliveryCalls(d, events, DeliverFrom(d, stage, events, at))
    decreases StagesLeft(stage), 1
  {
    match stage
    case LookUpAutomation => CallsAtAutomation(d, events, at);
    case LookUpAudience(automation) => CallsAtAudience(d, automation, events, at);
    case FetchTemplate(automation, audience) => CallsAtTemplate(d, automation, audience, events, at);
    case FetchVariables(automation, audience, template) =>
      CallsAtVariables(d, automation, audience, template, events, at);
    case SendAndMark(automation, audience, template, messages) =>
      CallsAtSend(d, automation, audience, template, messages, events, at);
  }

  lemma CallsAtAutomation(d: Delivery, events: seq<Event>, at: nat)
    ensures ExtendsWithDeliveryCalls(d, events, AutomationStage(d, events, at))
    decreases 4, 0
  {
    var r := AutomationStage(d, events, at);
    var call := GetAutomation(d.email.automationId);
    var a := TryAction(d.w.automation, at, call, AUTOMATION_ACTION, d.delays, d.slot);
    OnlyItsOwnCall(d.w.automation, at, call, AUTOMATION_ACTION, d.delays, d.slot);
    if a.result.Returned? {
      assert r == DeliverFrom(d, LookUpAudience(a.result.value), events + a.events, at + |a.events|);
      DeliveryCallsFrom(d, LookUpAudience(a.result.value), events + a.events, at + |a.events|);
      Chains(d, events, a.events, call, r);
    } else {
      Grows(d, events, a.events, call, r);
    }
  }

  lemma CallsAtAudience(d: Delivery, automation: Automation, events: seq<Event>, at: nat)
    ensures ExtendsWithDeliveryCalls(d, events, AudienceStage(d, automation, events, at))
    decreases 3, 0
  {
    var r := AudienceStage(d, automation, events, at);
    var call := GetActiveContacts(d.email.automationId);
    var c := TryAction(d.w.contacts, at, call, CONTACTS_ACTION, d.delays, d.slot);
    OnlyItsOwnCall(d.w.contacts, at, call, CONTACTS_ACTION, d.delays, d.slot);
    if c.result.Threw? {
      Grows(d, events, c.events, call, r);
    } else if |c.result.value| == 0 {
      var alert := [ErrorAlert(NoContactsMessage(automation.name))];
      CallsOfBoth(c.events, alert);
      assert r.events == events + (c.events + alert);
      Grows(d, events, c.events + alert, call, r);
    } else {
      assert r == DeliverFrom(d, FetchTemplate(automation, c.result.value), events + c.events, at + |c.events|);
      DeliveryCallsFrom(d, FetchTemplate(automation, c.result.value), events + c.events, at + |c.events|);
      Chains(d, events, c.events, call, r);
    }
  }

  lemma CallsAtTemplate(d: Delivery, automation: Automation, audience: seq<Contact>, events: seq<Event>, at: nat)
    ensures ExtendsWithDeliveryCalls(d, events, TemplateStage(d, automation, audience, events, at))
    decreases 2, 0
  {
    var r := TemplateStage(d, automation, audience, events, at);
    var call := GetTemplate(d.email.templateId);
    var t := TryAction(d.w.template, at, call, TEMPLATE_ACTION, d.delays, d.slot);
    OnlyItsOwnCall(d.w.template, at, call, TEMPLATE_ACTION, d.delays, d.slot);
    if t.result.Returned? {
      var next := FetchVariables(automation, audience, t.result.value);
      assert r == DeliverFrom(d, next, events + t.events, at + |t.events|);
      DeliveryCallsFrom(d, next, events + t.events, at + |t.events|);
      Chains(d, events, t.events, call, r);
    } else {
      Grows(d, events, t.events, call, r);
    }
  }

  lemma CallsAtVariables(d: Delivery, automation: Automation, audience: seq<Contact>, template: Template,
                         events: seq<Event>, at: nat)
    ensures ExtendsWithDeliveryCalls(d, events, VariablesStage(d, automation, audience, template, events, at))
    decreases 1, 0
  {
    var r := VariablesStage(d, automation, audience, template, events, at);
    var call := GetContactVariables(audience, d.fields);
    var v := TryAction(d.w.variables, at, call, VARIABLES_ACTION, d.delays, d.slot);
    OnlyItsOwnCall(d.w.variables, at, call, VARIABLES_ACTION, d.delays, d.slot);
    if v.result.Returned? {
      var messages := CreateBatchEmailArray(audience, d.email, ParseTemplateContent(template, d.f.parseJson),
                                            v.result.value, d.f.fill);
      var next := SendAndMark(automation, audience, template, messages);
      assert r == DeliverFrom(d, next, events + v.events, at + |v.events|);
      DeliveryCallsFrom(d, next, events + v.events, at + |v.events|);
      Chains(d, events, v.events, call, r);
    } else {
      Grows(d, events, v.events, call, r);
    }
  }

  lemma CallsAtSend(d: Delivery, automation: Automation, audience: seq<Contact>, template: Template,
                    messages: seq<Message>, events: seq<Event>, at: nat)
    ensures ExtendsWithDeliveryCalls(d, events, SendStage(d, automation, audience, template, messages, events, at))
    decreases 0, 0
  {
    var r := SendStage(d, automation, audience, template, messages, events, at);
    var call := SendBatch(messages);
    var s := TryAction(d.w.sendBatch, at, call, SEND_ACTION, d.delays, d.slot);
    OnlyItsOwnCall(d.w.sendBatch, at, call, SEND_ACTION, d.delays, d.slot);
    if s.result.Returned? {
      var m := TryAction(d.w.update, at + |s.events|, d.mark, d.markAction, d.delays, d.slot);
      OnlyItsOwnCall(d.w.update, at + |s.events|, d.mark, d.markAction, d.delays, d.slot);
      Grows(d, events + s.events, m.events, d.mark, r);
      Chains(d, events, s.events, call, r);
    } else {
      Grows(d, events, s.events, call, r);
    }
  }

  /** A batch for `audience`: one message per contact, in order, from the sender, with `subject`. */
  predicate BatchFor(messages: seq<Message>, audience: seq<Contact>, subject: string)
  {
    && |messages| == |audience|
    && forall k :: 0 <= k < |messages| ==>
         && messages[k].from == FROM_EMAIL
         && messages[k].to == audience[k].email
         && messages[k].subject == subject
         && messages[k].textBody == ""
         && messages[k].messageStream == MESSAGE_STREAM
  }

  /** createBatchEmailArray builds a batch for its recipients with the email's subject. */
  lemma BatchIsFor(audience: seq<Contact>, email: Email, content: string, variables: seq<ContactVariables>,
                   fill: Filler)
    ensures BatchFor(CreateBatchEmailArray(audience, email, content, variables, fill), audience, email.subject)
  {
    BatchMessages(audience, email, content, variables, fill);
  }

  /** What the steps before a stage guarantee: a non-empty audience, and a batch built for it. */
  predicate StageOk(d: Delivery, stage: Stage)
  {
    match stage
    case LookUpAutomation => true
    case LookUpAudience(_) => true
    case FetchTemplate(_, audience) => |audience| > 0
    case FetchVariables(_, audience, _) => |audience| > 0
    case SendAndMark(_, audience, _, messages) => |audience| > 0 && BatchFor(messages, audience, d.email.subject)
  }

  /**
   * How a record ended and what it obtained agree: the email is the one
   * delivered, an empty audience is exactly the skip and ends with its
   * alert, and there are send results exactly when the body got past the
   * send (to the end, or to a failing mark).
   */
  predicate Settled(d: Delivery, r: RecordRun)
  {
    && r.email == d.email
    && (r.stop == EmptyAudience <==> r.audience == Some([]))
    && (r.stop == EmptyAudience ==>
          r.automation.Some? && |r.events| > 0
          && r.events[|r.events| - 1] == ErrorAlert(NoContactsMessage(r.automation.value.name)))
    && (r.results.Some? <==> r.stop.Completed? || (r.stop.Failed? && r.stop.step == MarkStep))
    && (r.results.Some? ==> r.template.Some?)
    && (r.template.Some? ==> r.audience.Some? && |r.audience.value| > 0)
    && (r.audience.Some? ==> r.automation.Some?)
  }

  lemma {:induction false} SettledFrom(d: Delivery, stage: Stage, events: seq<Event>, at: nat)
    requires StageOk(d, stage)
    ensures Settled(d, DeliverFrom(d, stage, events, at))
    decreases StagesLeft(stage), 1
  {
    match stage
    case LookUpAutomation => SettledAtAutomation(d, events, at);
    case LookUpAudience(automation) => SettledAtAudience(d, automation, events, at);
    case FetchTemplate(automation, audience) => SettledAtTemplate(d, automation, audience, events, at);
    case FetchVariables(automation, audience, template) =>
      SettledAtVariables(d, automation, audience, template, events, at);
    case SendAndMark(automation, audience, template, messages) =>
      SettledAtSend(d, automation, audience, template, messages, events, at);
  }

  lemma SettledAtAutomation(d: Delivery, events: seq<Event>, at: nat)
    ensures Settled(d, AutomationStage(d, events, at))
    decreases 4, 0
  {
    var a := TryAction(d.w.automation, at, GetAutomation(d.email.automationId), AUTOMATION_ACTION, d.delays, d.slot);
    if a.result.Returned? {
      SettledFrom(d, LookUpAudience(a.result.value), events + a.events, at + |a.events|);
    }
  }

  lemma SettledAtAudience(d: Delivery, automation: Automation, events: seq<Event>, at: nat)
    ensures Settled(d, AudienceStage(d, automation, events, at))
    decreases 3, 0
  {
    var c := TryAction(d.w.contacts, at, GetActiveContacts(d.email.automationId), CONTACTS_ACTION, d.delays, d.slot);
    if c.result.Returned? && |c.result.value| > 0 {
      SettledFrom(d, FetchTemplate(automation, c.result.value), events + c.events, at + |c.events|);
    }
  }

  lemma SettledAtTemplate(d: Delivery, automation: Automation, audience: seq<Contact>, events: seq<Event>, at: nat)
    requires |audience| > 0
    ensures Settled(d, TemplateStage(d, automation, audience, events, at))
    decreases 2, 0
  {
    var t := TryAction(d.w.template, at, GetTemplate(d.email.templateId), TEMPLATE_ACTION, d.delays, d.slot);
    if t.result.Returned? {
      SettledFrom(d, FetchVariables(automation, audience, t.result.value), events + t.events, at + |t.events|);
    }
  }

  lemma SettledAtVariables(d: Delivery, automation: Automation, audience: seq<Contact>, template: Template,
                           events: seq<Event>, at: nat)
    requires |audience| > 0
    ensures Settled(d, VariablesStage(d, automation, audience, template, events, at))
    decreases 1, 0
  {
    var r := VariablesStage(d, automation, audience, template, events, at);
    var v := TryAction(d.w.variables, at, GetContactVariables(audience, d.fields), VARIABLES_ACTION, d.delays, d.slot);
    if v.result.Returned? {
      var content := ParseTemplateContent(template, d.f.parseJson);
      var messages := CreateBatchEmailArray(audience, d.email, content, v.result.value, d.f.fill);
      BatchIsFor(audience, d.email, content, v.result.value, d.f.fill);
      var next := SendAndMark(automation, audience, template, messages);
      assert r == DeliverFrom(d, next, events + v.events, at + |v.events|);
      SettledFrom(d, next, events + v.events, at + |v.events|);
    }
  }

  lemma SettledAtSend(d: Delivery, automation: Automation, audience: seq<Contact>, template: Template,
                      messages: seq<Message>, events: seq<Event>, at: nat)
    requires |audience| > 0
    ensures Settled(d, SendStage(d, automation, audience, template, messages, events, at))
    decreases 0, 0
  {
  }

  /** Some call of the events is a batch send. */
  predicate SentIn(events: seq<Event>)
  {
    exists c :: c in Calls(events) && c.SendBatch?
  }

  /**
   * The order of a record's calls: an empty audience stops it after the
   * lookups; the email is marked exactly when the batch send returned, and
   * its first mark comes after a send; every batch it sends is built for
   * the audience it found, with the email's subject.
   */
  predicate InOrder(d: Delivery, events: seq<Event>, r: RecordRun)
  {
    && (r.stop == EmptyAudience ==>
          forall c :: c in Calls(r.events) ==> c in Calls(events) || c.GetAutomation? || c.GetActiveContacts?)
    && (d.mark in Calls(r.events) <==> r.results.Some?)
    && (r.results.Some? ==>
          exists k :: 0 <= k < |r.events| && r.events[k] == Invoked(d.mark)
                      && d.mark !in Calls(r.events[..k]) && SentIn(r.events[..k]))
    && (forall c :: c in Calls(r.events) && c.SendBatch? ==>
          c in Calls(events) || (r.audience.Some? && BatchFor(c.messages, r.audience.value, d.email.subject)))
  }

  /** A lookup step before a record in order leaves the record in order. */
  lemma LookupStep(d: Delivery, events: seq<Event>, added: seq<Event>, call: Call, r: RecordRun)
    requires OnlyCalls(added, call) && call != d.mark && !call.SendBatch?
    requires r.stop == EmptyAudience ==> call.GetAutomation? || call.GetActiveContacts?
    requires InOrder(d, events + added, r)
    ensures InOrder(d, events, r)
  {
    CallsOfBoth(events, added);
  }

  /** A step that invokes only a lookup and then stops leaves the record in order. */
  lemma LookupFails(d: Delivery, events: seq<Event>, added: seq<Event>, call: Call, r: RecordRun)
    requires OnlyCalls(added, call) && call != d.mark && !call.SendBatch?
    requires d.mark !in Calls(events)
    requires r.events == events + added && r.stop != EmptyAudience && r.results.None?
    ensures InOrder(d, events, r)
  {
    CallsOfBoth(events, added);
  }

  /** The alert after an empty audience, following lookups only, leaves the record in order. */
  lemma SkipsAfterLookups(d: Delivery, events: seq<Event>, added: seq<Event>, call: Call, r: RecordRun)
    requires OnlyCalls(added, call) && call.GetActiveContacts?
    requires IsMark(d.mark) && d.mark !in Calls(events)
    requires r.events == events + added && r.stop == EmptyAudience && r.results.None?
    ensures InOrder(d, events, r)
  {
    CallsOfBoth(events, added);
  }

  /** A batch send that throws ends the record in order. */
  lemma SendFails(d: Delivery, events: seq<Event>, sent: seq<Event>, messages: seq<Message>,
                  audience: seq<Contact>, r: RecordRun)
    requires IsMark(d.mark) && d.mark !in Calls(events) && OnlyCalls(sent, SendBatch(messages))
    requires BatchFor(messages, audience, d.email.subject)
    requires r.events == events + sent && r.stop != EmptyAudience && r.results.None? && r.audience == Some(audience)
    ensures InOrder(d, events, r)
  {
    CallsOfBoth(events, sent);
  }

  /** A batch send that returns, followed by the mark, ends the record in order. */
  lemma MarksAfterSend(d: Delivery, events: seq<Event>, sent: seq<Event>, marked: seq<Event>, messages: seq<Message>,
                       audience: seq<Contact>, r: RecordRun)
    requires IsMark(d.mark) && d.mark !in Calls(events)
    requires OnlyCalls(sent, SendBatch(messages)) && |sent| > 0 && sent[0] == Invoked(SendBatch(messages))
    requires OnlyCalls(marked, d.mark) && |marked| > 0 && marked[0] == Invoked(d.mark)
    requires BatchFor(messages, audience, d.email.subject)
    requires r.events == events + sent + marked && r.stop != EmptyAudience && r.results.Some?
    requires r.audience == Some(audience)
    ensures InOrder(d, events, r)
  {
    var before := events + sent;
    CallsOfBoth(events, sent);
    CallsOfBoth(before, marked);
    CallsMembership(sent);
    assert SendBatch(messages) in Calls(before);
    assert r.events[..|before|] == before;
    assert r.events[|before|] == Invoked(d.mark);
  }

  lemma {:induction false} InOrderFrom(d: Delivery, stage: Stage, events: seq<Event>, at: nat, r: RecordRun)
    requires IsMark(d.mark) && d.mark !in Calls(events) && StageOk(d, stage)
    requires r == DeliverFrom(d, stage, events, at)
    ensures InOrder(d, events, r) && (StagesLeft(stage) <= 2 ==> r.stop != EmptyAudience)
    decreases StagesLeft(stage), 1
  {
    match stage
    case LookUpAutomation => InOrderAtAutomation(d, events, at, r);
    case LookUpAudience(automation) => InOrderAtAudience(d, automation, events, at, r);
    case FetchTemplate(automation, audience) => InOrderAtTemplate(d, automation, audience, events, at, r);
    case FetchVariables(automation, audience, template) =>
      InOrderAtVariables(d, automation, audience, template, events, at, r);
    case SendAndMark(automation, audience, template, messages) =>
      InOrderAtSend(d, automation, audience, template, messages, events, at, r);
  }

  lemma InOrderAtAutomation(d: Delivery, events: seq<Event>, at: nat, r: RecordRun)
    requires IsMark(d.mark) && d.mark !in Calls(events)
    requires r == AutomationStage(d, events, at)
    ensures InOrder(d, events, r)
    decreases 4, 0
  {
    var call := GetAutomation(d.email.automationId);
    var a := TryAction(d.w.automation, at, call, AUTOMATION_ACTION, d.delays, d.slot);
    OnlyItsOwnCall(d.w.automation, at, call, AUTOMATION_ACTION, d.delays, d.slot);
    CallsOfBoth(events, a.events);
    if a.result.Returned? {
      InOrderFrom(d, LookUpAudience(a.result.value), events + a.events, at + |a.events|, r);
      LookupStep(d, events, a.events, call, r);
    } else {
      LookupFails(d, events, a.events, call, r);
    }
  }

  lemma InOrderAtAudience(d: Delivery, automation: Automation, events: seq<Event>, at: nat, r: RecordRun)
    requires IsMark(d.mark) && d.mark !in Calls(events)
    requires r == AudienceStage(d, automation, events, at)
    ensures InOrder(d, events, r)
    decreases 3, 0
  {
    var call := GetActiveContacts(d.email.automationId);
    var c := TryAction(d.w.contacts, at, call, CONTACTS_ACTION, d.delays, d.slot);
    OnlyItsOwnCall(d.w.contacts, at, call, CONTACTS_ACTION, d.delays, d.slot);
    CallsOfBoth(events, c.events);
    if c.result.Threw? {
      LookupFails(d, events, c.events, call, r);
    } else if |c.result.value| == 0 {
      var alert := [ErrorAlert(NoContactsMessage(automation.name))];
      CallsOfBoth(c.events, alert);
      assert r.events == events + (c.events + alert);
      SkipsAfterLookups(d, events, c.events + alert, call, r);
    } else {
      InOrderFrom(d, FetchTemplate(automation, c.result.value), events + c.events, at + |c.events|, r);
      LookupStep(d, events, c.events, call, r);
    }
  }

  lemma InOrderAtTemplate(d: Delivery, automation: Automation, audience: seq<Contact>, events: seq<Event>, at: nat,
                          r: RecordRun)
    requires IsMark(d.mark) && d.mark !in Calls(events) && |audience| > 0
    requires r == TemplateStage(d, automation, audience, events, at)
    ensures InOrder(d, events, r) && r.stop != EmptyAudience
    decreases 2, 0
  {
    var call := GetTemplate(d.email.templateId);
    var t := TryAction(d.w.template, at, call, TEMPLATE_ACTION, d.delays, d.slot);
    OnlyItsOwnCall(d.w.template, at, call, TEMPLATE_ACTION, d.delays, d.slot);
    CallsOfBoth(events, t.events);
    if t.result.Returned? {
      InOrderFrom(d, FetchVariables(automation, audience, t.result.value), events + t.events, at + |t.events|, r);
      LookupStep(d, events, t.events, call, r);
    } else {
      LookupFails(d, events, t.events, call, r);
    }
  }

  lemma InOrderAtVariables(d: Delivery, automation: Automation, audience: seq<Contact>, template: Template,
                           events: seq<Event>, at: nat, r: RecordRun)
    requires IsMark(d.mark) && d.mark !in Calls(events) && |audience| > 0
    requires r == VariablesStage(d, automation, audience, template, events, at)
    ensures InOrder(d, events, r) && r.stop != EmptyAudience
    decreases 1, 0
  {
    var call := GetContactVariables(audience, d.fields);
    var v := TryAction(d.w.variables, at, call, VARIABLES_ACTION, d.delays, d.slot);
    OnlyItsOwnCall(d.w.variables, at, call, VARIABLES_ACTION, d.delays, d.slot);
    CallsOfBoth(events, v.events);
    if v.result.Returned? {
      var content := ParseTemplateContent(template, d.f.parseJson);
      var messages := CreateBatchEmailArray(audience, d.email, content, v.result.value, d.f.fill);
      BatchIsFor(audience, d.email, content, v.result.value, d.f.fill);
      InOrderFrom(d, SendAndMark(automation, audience, template, messages), events + v.events, at + |v.events|, r);
      LookupStep(d, events, v.events, call, r);
    } else {
      LookupFails(d, events, v.events, call, r);
    }
  }

  lemma InOrderAtSend(d: Delivery, automation: Automation, audience: seq<Contact>, template: Template,
                      messages: seq<Message>, events: seq<Event>, at: nat, r: RecordRun)
    requires IsMark(d.mark) && d.mark !in Calls(events) && |audience| > 0
    requires BatchFor(messages, audience, d.email.subject)
    requires r == SendStage(d, automation, audience, template, messages, events, at)
    ensures InOrder(d, events, r) && r.stop != EmptyAudience
    decreases 0, 0
  {
    var call := SendBatch(messages);
    var s := TryAction(d.w.sendBatch, at, call, SEND_ACTION, d.delays, d.slot);
    OnlyItsOwnCall(d.w.sendBatch, at, call, SEND_ACTION, d.delays, d.slot);
    if s.result.Returned? {
      var m := TryAction(d.w.update, at + |s.events|, d.mark, d.markAction, d.delays, d.slot);
      OnlyItsOwnCall(d.w.update, at + |s.events|, d.mark, d.markAction, d.delays, d.slot);
      MarksAfterSend(d, events, s.events, m.events, messages, audience, r);
    } else {
      SendFails(d, events, s.events, messages, audience, r);
    }
  }

  /** The body invokes only the lookups, the send and the mark for its own email. */
  lemma DeliveryCallsOnly(d: Delivery, at: nat)
    ensures forall c :: c in Calls(DeliverRecord(d, at).events) ==> DeliveryCall(d, c)
  {
    DeliveryCallsFrom(d, LookUpAutomation, [], at);
  }

  /** The whole delivery ends in agreement with what it obtained. */
  lemma RecordSettles(d: Delivery, at: nat)
    ensures Settled(d, DeliverRecord(d, at))
  {
    SettledFrom(d, LookUpAutomation, [], at);
  }

  /**
   * The record keeps the delivered email; an empty active-contact list is
   * exactly the skip, which invokes nothing past the two lookups and ends
   * with the no-contacts alert.
   */
  lemma EmptyAudienceSkips(d: Delivery, at: nat)
    requires IsMark(d.mark)
    ensures var r := DeliverRecord(d, at);
            && r.email == d.email
            && (r.stop == EmptyAudience <==> r.audience == Some([]))
            && (r.stop == EmptyAudience ==>
                  && r.automation.Some? && |r.events| > 0
                  && r.events[|r.events| - 1] == ErrorAlert(NoContactsMessage(r.automation.value.name))
                  && forall c :: c in Calls(r.events) ==> c.GetAutomation? || c.GetActiveContacts?)
  {
    var r := DeliverRecord(d, at);
    SettledFrom(d, LookUpAutomation, [], at);
    InOrderFrom(d, LookUpAutomation, [], at, r);
  }

  /**
   * The email is marked exactly when the batch send returned (the body ran
   * to the end or only the mark failed), and its first mark comes after a
   * batch send.
   */
  lemma MarkedOnlyAfterSend(d: Delivery, at: nat)
    requires IsMark(d.mark)
    ensures var r := DeliverRecord(d, at);
            && (d.mark in Calls(r.events) <==> r.stop.Completed? || (r.stop.Failed? && r.stop.step == MarkStep))
            && (d.mark in Calls(r.events) ==>
                  exists k :: 0 <= k < |r.events| && r.events[k] == Invoked(d.mark)
                              && d.mark !in Calls(r.events[..k]) && SentIn(r.events[..k]))
  {
    var r := DeliverRecord(d, at);
    SettledFrom(d, LookUpAutomation, [], at);
    InOrderFrom(d, LookUpAutomation, [], at, r);
  }

  /** Every batch sent has one message per active contact, in order, with the email's subject. */
  lemma BatchesForAudience(d: Delivery, at: nat)
    requires IsMark(d.mark)
    ensures var r := DeliverRecord(d, at);
            forall c :: c in Calls(r.events) && c.SendBatch? ==>
              r.audience.Some? && BatchFor(c.messages, r.audience.value, d.email.subject)
  {
    var r := DeliverRecord(d, at);
    InOrderFrom(d, LookUpAutomation, [], at, r);
  }
}
