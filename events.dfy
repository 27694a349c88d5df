/**
 * The observable behaviour of a route: the remote calls it makes and the
 * operator notifications, sleeps and alerts it emits, in order.
 */
module Events {
  import opened Types

  /** A call to a remote collaborator (one invocation, one attempt). */
  datatype Call =
    | ListTestEmails
    | ListScheduledEmails
    | ListMetadataCandidates
    | ListReviewOverdue
    | ListSendOverdue
    | ListFields
    | ClearWarnings
    | GetAutomation(automationId: string)
    | GetActiveContacts(automationId: string)
    | GetTemplate(templateId: string)
    | GetContactVariables(contacts: seq<Contact>, fields: seq<Field>)
    | SendBatch(messages: seq<Message>)
    | MarkTested(airtableId: string)
    | MarkSent(airtableId: string)
    | SaveMetadata(airtableId: string, automationName: string, templateName: string)

  datatype Event =
    | Invoked(call: Call)
      /** sendError(description): an operator alert. */
    | ErrorAlert(description: string)
      /** The chat message tryAction posts before it waits `delay` seconds. */
    | RetryNotice(action: string, error: string, delay: nat)
    | Slept(seconds: nat)
      /** Any other chat message, by its text. */
    | Notice(text: string)

  /** The trace position reached once `events` are emitted from position `at`. */
  function Past(at: nat, events: seq<Event>): nat
  {
    at + |events|
  }

  predicate IsInvocationOf(e: Event, c: Call) { e.Invoked? && e.call == c }

  /** The number of remote invocations in a trace. */
  function Invocations(events: seq<Event>): nat
  {
    if events == [] then 0
    else (if events[0].Invoked? then 1 else 0) + Invocations(events[1..])
  }

  /** The sleep durations in a trace, in order. */
  function Sleeps(events: seq<Event>): seq<nat>
  {
    if events == [] then []
    else (if events[0].Slept? then [events[0].seconds] else []) + Sleeps(events[1..])
  }

  lemma {:induction false} InvocationsAppend(a: seq<Event>, b: seq<Event>)
    ensures Invocations(a + b) == Invocations(a) + Invocations(b)
  {
    if a != [] {
      assert (a + b)[1..] == a[1..] + b;
      InvocationsAppend(a[1..], b);
    } else {
      assert a + b == b;
    }
  }

  lemma {:induction false} SleepsAppend(a: seq<Event>, b: seq<Event>)
    ensures Sleeps(a + b) == Sleeps(a) + Sleeps(b)
  {
    if a != [] {
      assert (a + b)[1..] == a[1..] + b;
      SleepsAppend(a[1..], b);
    } else {
      assert a + b == b;
    }
  }
  /** The remote calls of a trace, in order. */
  function Calls(events: seq<Event>): (calls: seq<Call>)
    ensures |calls| == Invocations(events)
  {
    if events == [] then []
    else (if events[0].Invoked? then [events[0].call] else []) + Calls(events[1..])
  }

  /** A call is among the calls of a trace exactly when the trace has an invocation of it. */
  lemma {:induction false} CallsMembership(events: seq<Event>)
    ensures forall c :: c in Calls(events) <==> Invoked(c) in events
  {
    if events != [] {
      CallsMembership(events[1..]);
      assert events == [events[0]] + events[1..];
    }
  }

  lemma {:induction false} CallsAppend(a: seq<Event>, b: seq<Event>)
    ensures Calls(a + b) == Calls(a) + Calls(b)
  {
    if a != [] {
      assert (a + b)[1..] == a[1..] + b;
      CallsAppend(a[1..], b);
    } else {
      assert a + b == b;
    }
  }

  /** Every call of a trace satisfies `allowed`, checked event by event. */
  predicate CallsWithin(events: seq<Event>, allowed: Call -> bool)
  {
    events == [] || ((events[0].Invoked? ==> allowed(events[0].call)) && CallsWithin(events[1..], allowed))
  }

  /** CallsWithin says that every call of the trace is allowed. */
  lemma {:induction false} CallsWithinMeans(events: seq<Event>, allowed: Call -> bool)
    ensures CallsWithin(events, allowed) <==> forall c :: c in Calls(events) ==> allowed(c)
  {
    if events != [] {
      CallsWithinMeans(events[1..], allowed);
    }
  }

  /** A concatenation keeps to `allowed` exactly when both parts do. */
  lemma {:induction false} CallsWithinAppend(a: seq<Event>, b: seq<Event>, allowed: Call -> bool)
    ensures CallsWithin(a + b, allowed) <==> CallsWithin(a, allowed) && CallsWithin(b, allowed)
  {
    if a != [] {
      assert (a + b)[1..] == a[1..] + b;
      assert (a + b)[0] == a[0];
      CallsWithinAppend(a[1..], b, allowed);
    } else {
      assert a + b == b;
    }
  }

  /** The texts of the chat messages of a trace other than tryAction's, in order. */
  function Posted(events: seq<Event>): seq<string>
  {
    if events == [] then []
    else (if events[0].Notice? then [events[0].text] else []) + Posted(events[1..])
  }

  lemma {:induction false} PostedAppend(a: seq<Event>, b: seq<Event>)
    ensures Posted(a + b) == Posted(a) + Posted(b)
  {
    if a != [] {
      assert (a + b)[1..] == a[1..] + b;
      PostedAppend(a[1..], b);
    } else {
      assert a + b == b;
    }
  }

  /** A trace without a Notice posts nothing. */
  lemma {:induction false} NothingPosted(events: seq<Event>)
    requires forall e :: e in events ==> !e.Notice?
    ensures Posted(events) == []
  {
    if events != [] {
      assert events[0] in events;
      assert forall e :: e in events[1..] ==> e in events;
      NothingPosted(events[1..]);
    }
  }

  /** The calls listed in `calls`. */
  function Among(calls: seq<Call>): Call -> bool
  {
    c => c in calls
  }
}
