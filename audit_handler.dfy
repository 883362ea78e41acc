/** The audit handler the session publishes through, and the rule that picks
    which captured events become audit records. */
module AuditHandling {
  import opened AuthzTypes

  /** The events in one `logAuthzAudits` argument; a null list logs nothing. */
  function Events(batch: Option<seq<AuthzAuditEvent>>): seq<AuthzAuditEvent> {
    if batch.None? then [] else batch.value
  }

  /** Every event written by a sequence of `logAuthzAudits` calls, in order. */
  function Logged(batches: seq<Option<seq<AuthzAuditEvent>>>): seq<AuthzAuditEvent> {
    if batches == [] then [] else Events(batches[0]) + Logged(batches[1..])
  }

  /** One more `logAuthzAudits` call adds its events at the end of the log. */
  lemma {:induction false} LoggedAppend(batches: seq<Option<seq<AuthzAuditEvent>>>, batch: Option<seq<AuthzAuditEvent>>)
    ensures Logged(batches + [batch]) == Logged(batches) + Events(batch)
  {
    if batches == [] {
      assert [batch][1..] == [];
    } else {
      assert (batches + [batch])[1..] == batches[1..] + [batch];
      LoggedAppend(batches[1..], batch);
    }
  }

  /** The list `publishResults` hands to `logAuthzAudits`: on allow every
      captured event, on deny only the most recent one; an empty list is
      passed as null. */
  function SelectForOutcome(authorized: bool, captured: seq<AuthzAuditEvent>): (batch: Option<seq<AuthzAuditEvent>>)
    ensures batch.None? <==> captured == []
    ensures authorized ==> Events(batch) == captured
    ensures !authorized ==> |Events(batch)| <= 1
    ensures !authorized && captured != [] ==> Events(batch) == [captured[|captured| - 1]]
  {
    if captured == [] then None
    else if authorized then Some(captured)
    else Some([captured[|captured| - 1]])
  }

  /** The captures the handler keeps after `publishResults`: all of them on
      allow, all but the most recent one on deny. */
  function KeptAfterPublish(authorized: bool, captured: seq<AuthzAuditEvent>): (kept: seq<AuthzAuditEvent>)
    ensures authorized ==> kept == captured
    ensures !authorized ==> kept + Events(SelectForOutcome(authorized, captured)) == captured
  {
    if authorized || captured == [] then captured else captured[..|captured| - 1]
  }

  /** One authorization round of a session that is given a fresh handler per
      round: the outcome and the events the engine captured in it. */
  datatype Round = Round(authorized: bool, captured: seq<AuthzAuditEvent>)

  /** The `logAuthzAudits` arguments of a sequence of rounds. */
  function Batches(rounds: seq<Round>): seq<Option<seq<AuthzAuditEvent>>> {
    if rounds == [] then []
    else [SelectForOutcome(rounds[0].authorized, rounds[0].captured)] + Batches(rounds[1..])
  }

  /** All events captured over the rounds, in capture order. */
  function Captures(rounds: seq<Round>): seq<AuthzAuditEvent> {
    if rounds == [] then [] else rounds[0].captured + Captures(rounds[1..])
  }

  /** When every round is allowed, the audit log holds every captured event in
      capture order: nothing is lost and nothing is reordered. */
  lemma {:induction false} AllowedRoundsLogEverything(rounds: seq<Round>)
    requires forall i | 0 <= i < |rounds| :: rounds[i].authorized
    ensures Logged(Batches(rounds)) == Captures(rounds)
  {
    if rounds != [] {
      assert Batches(rounds)[0] == SelectForOutcome(true, rounds[0].captured);
      assert Batches(rounds)[1..] == Batches(rounds[1..]);
      AllowedRoundsLogEverything(rounds[1..]);
    }
  }

  /** The most recent capture of each round, in round order; a round that
      captured nothing contributes nothing. */
  function LastCaptures(rounds: seq<Round>): (lasts: seq<AuthzAuditEvent>)
    ensures |lasts| <= |rounds|
  {
    if rounds == [] then []
    else
      var c := rounds[0].captured;
      (if c == [] then [] else [c[|c| - 1]]) + LastCaptures(rounds[1..])
  }

  /** When every round is denied, the audit log is exactly the most recent
      capture of each round that captured anything, in round order. */
  lemma {:induction false} DeniedRoundsLogLastCaptures(rounds: seq<Round>)
    requires forall i | 0 <= i < |rounds| :: !rounds[i].authorized
    ensures Logged(Batches(rounds)) == LastCaptures(rounds)
  {
    if rounds != [] {
      assert Batches(rounds)[0] == SelectForOutcome(false, rounds[0].captured);
      assert Batches(rounds)[1..] == Batches(rounds[1..]);
      DeniedRoundsLogLastCaptures(rounds[1..]);
    }
  }

  /** When every round is denied, the log holds at most one event per round. */
  lemma DeniedRoundsLogAtMostOneEach(rounds: seq<Round>)
    requires forall i | 0 <= i < |rounds| :: !rounds[i].authorized
    ensures |Logged(Batches(rounds))| <= |rounds|
  {
    DeniedRoundsLogLastCaptures(rounds);
  }

  /** `e` is the most recent capture of one of the rounds. */
  ghost predicate LastOfSomeRound(e: AuthzAuditEvent, rounds: seq<Round>) {
    exists i | 0 <= i < |rounds| :: rounds[i].captured != [] && e == rounds[i].captured[|rounds[i].captured| - 1]
  }

  /** A last capture of a later round is a last capture of the whole run. */
  lemma LastOfSomeRoundTail(e: AuthzAuditEvent, rounds: seq<Round>)
    requires rounds != [] && LastOfSomeRound(e, rounds[1..])
    ensures LastOfSomeRound(e, rounds)
  {
  }

  /** Every event of `LastCaptures` is the most recent capture of some round. */
  lemma {:induction false} LastCapturesAreLastOfSomeRound(rounds: seq<Round>)
    ensures forall e | e in LastCaptures(rounds) :: LastOfSomeRound(e, rounds)
  {
    if rounds != [] {
      var c := rounds[0].captured;
      var head := if c == [] then [] else [c[|c| - 1]];
      assert LastCaptures(rounds) == head + LastCaptures(rounds[1..]);
      LastCapturesAreLastOfSomeRound(rounds[1..]);
      forall e | e in LastCaptures(rounds)
        ensures LastOfSomeRound(e, rounds)
      {
        if e in head {
          assert c != [] && e == c[|c| - 1];
        } else {
          LastOfSomeRoundTail(e, rounds);
        }
      }
    }
  }

  /** When every round is denied, every written event is the most recent
      capture of some round: earlier captures never reach the log. */
  lemma DeniedRoundsLogOnlyLastEvents(rounds: seq<Round>)
    requires forall i | 0 <= i < |rounds| :: !rounds[i].authorized
    ensures forall e | e in Logged(Batches(rounds)) :: LastOfSomeRound(e, rounds)
  {
    DeniedRoundsLogLastCaptures(rounds);
    LastCapturesAreLastOfSomeRound(rounds);
  }

  /** `HbaseAuditHandler` as the session sees it: the events the policy engine
      captured, and the `logAuthzAudits` calls made so far. */
  class AuditHandler {
    var captured: seq<AuthzAuditEvent>
    var batches: seq<Option<seq<AuthzAuditEvent>>>

    constructor ()
      ensures captured == [] && batches == []
    {
      captured := [];
      batches := [];
    }

    /** Every event written to the audit log through this handler. */
    function Written(): seq<AuthzAuditEvent>
      reads this
    {
      Logged(batches)
    }

    /** The policy engine's capture of the events of one evaluation. */
    method Capture(events: seq<AuthzAuditEvent>)
      modifies this`captured
      ensures captured == old(captured) + events
    {
      captured := captured + events;
    }

    method GetCapturedEvents() returns (events: seq<AuthzAuditEvent>)
      ensures events == captured
    {
      events := captured;
    }

    /** Removes the most recently captured event and returns it (null when none). */
    method DiscardMostRecentEvent() returns (event: Option<AuthzAuditEvent>)
      modifies this`captured
      ensures old(captured) == [] ==> event.None? && captured == []
      ensures old(captured) != [] ==>
                event == Some(old(captured)[|old(captured)| - 1]) &&
                captured + [event.value] == old(captured)
    {
      if captured == [] {
        event := None;
      } else {
        event := Some(captured[|captured| - 1]);
        captured := captured[..|captured| - 1];
      }
    }

    method LogAuthzAudits(events: Option<seq<AuthzAuditEvent>>)
      modifies this`batches
      ensures batches == old(batches) + [events]
      ensures Written() == old(Written()) + Events(events)
    {
      LoggedAppend(batches, events);
      batches := batches + [events];
    }
  }
}
