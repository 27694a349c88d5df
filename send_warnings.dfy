/**
 * The warning route (app/sendWarnings/route.ts): at most every two hours
 * clear the posted warnings, then post one warning per email that is
 * behind on review and, if there was any, one per email that is behind on
 * sending.
 */
module SendWarnings {
  import opened Common
  import opened Types
  import opened Events
  import opened Retry
  import opened Pipeline

  /** Both listings pass `false` as tryNumber, which counts as slot 0. */
  const FIRST_SLOT: nat := 0

  /** Two hours, in milliseconds: how long posted warnings stand before they are cleared. */
  const CLEAR_INTERVAL_MS: int := 2 * 60 * 60 * 1000

  const REVIEW_ACTION: string := "Getting emails that are behind on review"

  /** The second listing reuses the review listing's description, as written. */
  const OVERDUE_SEND_ACTION: string := "Getting emails that are behind on review"

  const WARNING_SIGN: string := "\U{26A0}\U{FE0F}"

  /** Whether the warnings are due to be cleared at time `now`. */
  predicate ClearDue(lastWarned: Option<int>, now: int)
  {
    lastWarned.None? || now - lastWarned.value >= CLEAR_INTERVAL_MS
  }

  function ReviewWarning(email: Email): string
  {
    WARNING_SIGN + " Email '" + email.emailId + "' is behind on review. \nSubject: " + email.subject
      + " \nSchedule Date: " + email.scheduleDate
  }

  function SendWarning(email: Email): string
  {
    WARNING_SIGN + " Email '" + email.emailId + "' should have been send. \nSubject: " + email.subject
      + " \nSchedule Date: " + email.scheduleDate
  }

  /** What one loop over `emails` posts, built from the back as the loop runs. */
  function Warnings(emails: seq<Email>, warning: Email -> string): seq<Event>
  {
    if emails == [] then []
    else Warnings(emails[..|emails| - 1], warning) + [Notice(warning(emails[|emails| - 1]))]
  }

  /** The texts `warning` gives the emails, in order. */
  function Texts(emails: seq<Email>, warning: Email -> string): seq<string>
  {
    seq(|emails|, i requires 0 <= i < |emails| => warning(emails[i]))
  }

  /** A run of the warning route: its events, how it ended and the new `lastWarned`. */
  datatype Sweep = Sweep(events: seq<Event>, crash: Option<string>, lastWarned: Option<int>)

  /** sendWarnings() started at trace position `at`. */
  function WarnRun(w: World, cfg: Config, lastWarned: Option<int>, at: nat): (sweep: Sweep)
    ensures |sweep.events| > 0
    ensures sweep.events[0] == if ClearDue(lastWarned, w.clock(at)) then Invoked(ClearWarnings) else Invoked(ListReviewOverdue)
  {
    if ClearDue(lastWarned, w.clock(at)) then
      var cleared := [Invoked(ClearWarnings)];
      match w.clearWarnings(at)
      case Threw(e) => Sweep(cleared, Some(e), lastWarned)
      case Returned(_) =>
        var rest := WarnLists(w, cfg, Past(at, cleared));
        Sweep(cleared + rest.events, rest.crash, Some(w.clock(Past(at, cleared))))
    else
      var rest := WarnLists(w, cfg, at);
      Sweep(rest.events, rest.crash, lastWarned)
  }

  /** The review listing and its warnings, then the rest. */
  function WarnLists(w: World, cfg: Config, at: nat): Run
  {
    var review := TryAction(w.reviewOverdue, at, ListReviewOverdue, REVIEW_ACTION, cfg.delays, FIRST_SLOT);
    if review.result.Threw? then Run(review.events, Some(review.result.message))
    else if |review.result.value| == 0 then Run(review.events, None)
    else
      var reviewed := review.events + Warnings(review.result.value, ReviewWarning);
      var rest := WarnSends(w, cfg, Past(at, reviewed));
      Run(reviewed + rest.events, rest.crash)
  }

  /** The send-overdue listing and its warnings. */
  function WarnSends(w: World, cfg: Config, at: nat): Run
  {
    var overdue := TryAction(w.sendOverdue, at, ListSendOverdue, OVERDUE_SEND_ACTION, cfg.delays, FIRST_SLOT);
    if overdue.result.Threw? then Run(overdue.events, Some(overdue.result.message))
    else if |overdue.result.value| == 0 then Run(overdue.events, None)
    else Run(overdue.events + Warnings(overdue.result.value, SendWarning), None)
  }

  /** The route module: its busy flag, when it last cleared the warnings, and what it emitted. */
  class SendWarningsRoute {
    var isPending: bool
    var lastWarned: Option<int>
    var trace: seq<Event>

    constructor ()
      ensures !isPending && lastWarned.None? && trace == []
    {
      isPending := false;
      lastWarned := None;
      trace := [];
    }

    /** GET: refuse with 429 while a run is pending; otherwise set the flag, run, and clear it. */
    method Get(w: World, cfg: Config) returns (response: Response)
      modifies this
      ensures old(isPending) ==>
                response == Status(TOO_MANY_REQUESTS) && isPending && trace == old(trace)
                && lastWarned == old(lastWarned)
      ensures !old(isPending) ==>
                var run := WarnRun(w, cfg, old(lastWarned), |old(trace)|);
                && trace == old(trace) + run.events
                && lastWarned == run.lastWarned
                && (run.crash.None? ==> response == Status(OK) && !isPending)
                && (run.crash.Some? ==> response == Rejected(run.crash.value) && isPending)
    {
      if isPending {
        return Status(TOO_MANY_REQUESTS);
      }
      isPending := true;
      var crash := SendWarnings(w, cfg);
      if crash.Some? {
        return Rejected(crash.value);
      }
      isPending := false;
      return Status(OK);
    }

    method SendWarnings(w: World, cfg: Config) returns (crash: Option<string>)
      modifies this`trace, this`lastWarned
      ensures var run := WarnRun(w, cfg, old(lastWarned), |old(trace)|);
              trace == old(trace) + run.events && crash == run.crash && lastWarned == run.lastWarned
    {
      var now := w.clock(|trace|);
      if lastWarned.None? || now - lastWarned.value >= CLEAR_INTERVAL_MS {
        var cleared := w.clearWarnings(|trace|);
        trace := trace + [Invoked(ClearWarnings)];
        if cleared.Threw? {
          return Some(cleared.message);
        }
        lastWarned := Some(w.clock(|trace|));
      }
      ghost var before := trace;
      crash := WarnOverdue(w, cfg);
      ghost var rest := WarnLists(w, cfg, |before|);
      TraceStep(old(trace), before, trace, before[|old(trace)|..], before[|old(trace)|..] + rest.events,
                rest.events);
    }

    /** The review listing and its loop; an empty list returns before the second listing. */
    method WarnOverdue(w: World, cfg: Config) returns (crash: Option<string>)
      modifies this`trace
      ensures var run := WarnLists(w, cfg, |old(trace)|);
              trace == old(trace) + run.events && crash == run.crash
    {
      var review := TryAction(w.reviewOverdue, |trace|, ListReviewOverdue, REVIEW_ACTION, cfg.delays, FIRST_SLOT);
      trace := trace + review.events;
      if review.result.Threw? {
        return Some(review.result.message);
      }
      var emails := review.result.value;
      if |emails| == 0 {
        return None;
      }
      Warn(emails, ReviewWarning);
      ghost var before := trace;
      ghost var reviewed := review.events + Warnings(emails, ReviewWarning);
      crash := WarnSendOverdue(w, cfg);
      assert before == old(trace) + reviewed;
      ghost var rest := WarnSends(w, cfg, |before|);
      TraceStep(old(trace), before, trace, reviewed, reviewed + rest.events, rest.events);
    }

    /** The send-overdue listing and its loop. */
    method WarnSendOverdue(w: World, cfg: Config) returns (crash: Option<string>)
      modifies this`trace
      ensures var run := WarnSends(w, cfg, |old(trace)|);
              trace == old(trace) + run.events && crash == run.crash
    {
      var overdue := TryAction(w.sendOverdue, |trace|, ListSendOverdue, OVERDUE_SEND_ACTION, cfg.delays,
                               FIRST_SLOT);
      trace := trace + overdue.events;
      if overdue.result.Threw? {
        return Some(overdue.result.message);
      }
      var emails := overdue.result.value;
      if |emails| == 0 {
        return None;
      }
      Warn(emails, SendWarning);
      crash := None;
    }

    /** `for (const email of emails)`: post the email's warning. */
    method Warn(emails: seq<Email>, warning: Email -> string)
      modifies this`trace
      ensures trace == old(trace) + Warnings(emails, warning)
    {
      for i := 0 to |emails|
        invariant trace == old(trace) + Warnings(emails[..i], warning)
      {
        assert emails[..i + 1][..i] == emails[..i];
        trace := trace + [Notice(warning(emails[i]))];
      }
      assert emails[..|emails|] == emails;
    }
  }

  /** A loop posts exactly one warning per email, in list order, and calls nothing. */
  lemma {:induction false} WarningsPerEmail(emails: seq<Email>, warning: Email -> string)
    ensures |Warnings(emails, warning)| == |emails|
    ensures forall i :: 0 <= i < |emails| ==> Warnings(emails, warning)[i] == Notice(warning(emails[i]))
    ensures Posted(Warnings(emails, warning)) == Texts(emails, warning)
    ensures Calls(Warnings(emails, warning)) == []
  {
    if emails != [] {
      var init := emails[..|emails| - 1];
      var last := [Notice(warning(emails[|emails| - 1]))];
      WarningsPerEmail(init, warning);
      PostedAppend(Warnings(init, warning), last);
      CallsAppend(Warnings(init, warning), last);
      assert Texts(emails, warning) == Texts(init, warning) + [warning(emails[|emails| - 1])];
    }
  }

  /** Who may be called once the clearing is behind: the two listings. */
  function ListingsOnly(): Call -> bool
  {
    Among([ListReviewOverdue, ListSendOverdue])
  }

  lemma WarnSendsCalls(w: World, cfg: Config, at: nat)
    ensures CallsWithin(WarnSends(w, cfg, at).events, Among([ListSendOverdue]))
  {
    var overdue := TryAction(w.sendOverdue, at, ListSendOverdue, OVERDUE_SEND_ACTION, cfg.delays, FIRST_SLOT);
    OwnCallWithin(w.sendOverdue, at, ListSendOverdue, OVERDUE_SEND_ACTION, cfg.delays, FIRST_SLOT,
                  Among([ListSendOverdue]));
    if overdue.result.Returned? {
      WarningsPerEmail(overdue.result.value, SendWarning);
      CallsWithinMeans(Warnings(overdue.result.value, SendWarning), Among([ListSendOverdue]));
      CallsWithinAppend(overdue.events, Warnings(overdue.result.value, SendWarning), Among([ListSendOverdue]));
    }
  }

  /**
   * The listings are the only calls after the clearing, and an empty (or
   * failed) review listing returns before the send-overdue list is fetched.
   */
  lemma WarnListsCalls(w: World, cfg: Config, at: nat)
    ensures CallsWithin(WarnLists(w, cfg, at).events, ListingsOnly())
    ensures var review := TryAction(w.reviewOverdue, at, ListReviewOverdue, REVIEW_ACTION, cfg.delays, FIRST_SLOT);
            (review.result.Threw? || |review.result.value| == 0) ==>
              CallsWithin(WarnLists(w, cfg, at).events, Among([ListReviewOverdue]))
  {
    var review := TryAction(w.reviewOverdue, at, ListReviewOverdue, REVIEW_ACTION, cfg.delays, FIRST_SLOT);
    OwnCallWithin(w.reviewOverdue, at, ListReviewOverdue, REVIEW_ACTION, cfg.delays, FIRST_SLOT, ListingsOnly());
    OwnCallWithin(w.reviewOverdue, at, ListReviewOverdue, REVIEW_ACTION, cfg.delays, FIRST_SLOT,
                  Among([ListReviewOverdue]));
    if review.result.Returned? && |review.result.value| > 0 {
      var posted := Warnings(review.result.value, ReviewWarning);
      var reviewed := review.events + posted;
      var rest := WarnSends(w, cfg, Past(at, reviewed));
      WarningsPerEmail(review.result.value, ReviewWarning);
      CallsWithinMeans(posted, ListingsOnly());
      WarnSendsCalls(w, cfg, Past(at, reviewed));
      CallsWithinMeans(rest.events, Among([ListSendOverdue]));
      CallsWithinMeans(rest.events, ListingsOnly());
      CallsWithinAppend(review.events, posted, ListingsOnly());
      CallsWithinAppend(reviewed, rest.events, ListingsOnly());
    }
  }

  /** The warnings are cleared, by one un-retried call, exactly when they are due. */
  lemma ClearsExactlyWhenDue(w: World, cfg: Config, lastWarned: Option<int>, at: nat)
    ensures var run := WarnRun(w, cfg, lastWarned, at);
            && (ClearWarnings in Calls(run.events) <==> ClearDue(lastWarned, w.clock(at)))
            && (ClearDue(lastWarned, w.clock(at)) ==> run.events[0] == Invoked(ClearWarnings))
  {
    var run := WarnRun(w, cfg, lastWarned, at);
    if ClearDue(lastWarned, w.clock(at)) {
      assert run.events[0] == Invoked(ClearWarnings);
      CallsMembership(run.events);
    } else {
      WarnListsCalls(w, cfg, at);
      CallsWithinMeans(run.events, ListingsOnly());
    }
  }

  /**
   * `lastWarned` becomes the clock reading right after a clearing that
   * returns; it is unchanged otherwise, and it is set on every run that gets
   * past the clearing.
   */
  lemma StampsAfterClearing(w: World, cfg: Config, lastWarned: Option<int>, at: nat)
    ensures var run := WarnRun(w, cfg, lastWarned, at);
            && (ClearDue(lastWarned, w.clock(at)) && w.clearWarnings(at).Returned? ==>
                  run.lastWarned == Some(w.clock(at + 1)))
            && (!ClearDue(lastWarned, w.clock(at)) || w.clearWarnings(at).Threw? ==> run.lastWarned == lastWarned)
            && (run.lastWarned.None? ==> run.crash.Some? && run.events == [Invoked(ClearWarnings)])
  {
  }

  /**
   * The route posts the review warnings, in order, then what the
   * send-overdue part posts (WarnSendsPosts), and nothing else; that part
   * only runs after a non-empty review list.
   */
  lemma PostsEachOverdueEmail(w: World, cfg: Config, at: nat)
    ensures var review := TryAction(w.reviewOverdue, at, ListReviewOverdue, REVIEW_ACTION, cfg.delays, FIRST_SLOT);
            var posted := Posted(WarnLists(w, cfg, at).events);
            && (review.result.Threw? || |review.result.value| == 0 ==> posted == [])
            && (review.result.Returned? && |review.result.value| > 0 ==>
                  var reviewed := review.events + Warnings(review.result.value, ReviewWarning);
                  posted == Texts(review.result.value, ReviewWarning) + Posted(WarnSends(w, cfg, Past(at, reviewed)).events))
  {
    var review := TryAction(w.reviewOverdue, at, ListReviewOverdue, REVIEW_ACTION, cfg.delays, FIRST_SLOT);
    PostsNothing(w.reviewOverdue, at, ListReviewOverdue, REVIEW_ACTION, cfg.delays, FIRST_SLOT);
    if review.result.Returned? && |review.result.value| > 0 {
      var reviewed := review.events + Warnings(review.result.value, ReviewWarning);
      PostedThrough(review.events, review.result.value, ReviewWarning, WarnSends(w, cfg, Past(at, reviewed)).events);
    }
  }

  /** A listing that posts nothing, then its loop, then `rest`, post the loop's texts and then what `rest` posts. */
  lemma PostedThrough(listing: seq<Event>, emails: seq<Email>, warning: Email -> string, rest: seq<Event>)
    requires Posted(listing) == []
    ensures Posted(listing + Warnings(emails, warning) + rest) == Texts(emails, warning) + Posted(rest)
  {
    WarningsPerEmail(emails, warning);
    PostedAppend(listing, Warnings(emails, warning));
    PostedAppend(listing + Warnings(emails, warning), rest);
  }

  /** The send-overdue part posts one warning per listed email, in order, and nothing else. */
  lemma WarnSendsPosts(w: World, cfg: Config, at: nat)
    ensures var overdue := TryAction(w.sendOverdue, at, ListSendOverdue, OVERDUE_SEND_ACTION, cfg.delays, FIRST_SLOT);
            Posted(WarnSends(w, cfg, at).events)
              == if overdue.result.Returned? then Texts(overdue.result.value, SendWarning) else []
  {
    var overdue := TryAction(w.sendOverdue, at, ListSendOverdue, OVERDUE_SEND_ACTION, cfg.delays, FIRST_SLOT);
    PostsNothing(w.sendOverdue, at, ListSendOverdue, OVERDUE_SEND_ACTION, cfg.delays, FIRST_SLOT);
    if overdue.result.Returned? {
      WarningsPerEmail(overdue.result.value, SendWarning);
      PostedAppend(overdue.events, Warnings(overdue.result.value, SendWarning));
    }
  }

  /** A crash comes only from a listing that gave up, or from the clearing call. */
  lemma CrashesOnlyFromListingsOrClearing(w: World, cfg: Config, lastWarned: Option<int>, at: nat)
    ensures var run := WarnRun(w, cfg, lastWarned, at);
            run.crash.Some? ==>
              run.crash.value == MaxRetriesMessage(REVIEW_ACTION)
              || (ClearDue(lastWarned, w.clock(at)) && w.clearWarnings(at) == Threw(run.crash.value))
  {
    var run := WarnRun(w, cfg, lastWarned, at);
    var listAt := if ClearDue(lastWarned, w.clock(at)) then Past(at, [Invoked(ClearWarnings)]) else at;
    if run.crash.Some? && !(ClearDue(lastWarned, w.clock(at)) && w.clearWarnings(at).Threw?) {
      var review := TryAction(w.reviewOverdue, listAt, ListReviewOverdue, REVIEW_ACTION, cfg.delays, FIRST_SLOT);
      SettlesOnLastInvocation(w.reviewOverdue, listAt, ListReviewOverdue, REVIEW_ACTION, cfg.delays, FIRST_SLOT);
      if review.result.Returned? && |review.result.value| > 0 {
        var reviewed := review.events + Warnings(review.result.value, ReviewWarning);
        SettlesOnLastInvocation(w.sendOverdue, Past(listAt, reviewed), ListSendOverdue, OVERDUE_SEND_ACTION,
                                cfg.delays, FIRST_SLOT);
      }
    }
  }
}
