/**
 * The status workflow of the BRD generation panel, as values.
 *
 * The panel keeps a status (pending, in-progress, completed) and a loading
 * flag. A click on the generate button starts a request unless one is
 * already running or the document is already generated; the request then
 * settles when the awaited producer (or the demo delay that stands in for a
 * missing producer) resolves or rejects. The asynchronous handler is split
 * at its `await` into two steps, `Click` and `Settle`, so that the
 * intermediate in-progress state can be observed.
 */
module BRDStatusMachine {

  /** The three status values the panel uses. */
  datatype Status = Pending | InProgress | Completed

  /** How the awaited work of one accepted request finishes. */
  datatype Settlement =
    | FallbackDelay  // no producer was supplied: the demo delay, which always resolves
    | Resolved       // the injected producer resolved
    | Rejected       // the injected producer rejected

  /** The panel's state: its status and whether a request is running. */
  datatype State = State(status: Status, isLoading: bool)

  /** The result of a click: whether the handler went past its guard, and the new state. */
  datatype Begun = Begun(accepted: bool, next: State)

  /** What can happen to the panel: a click on the button, or the settling of the running request. */
  datatype Event = Clicked | Settled(settlement: Settlement)

  datatype Option<T> = None | Some(value: T)

  /**
   * The state the panel starts in: the configured status, not loading. The
   * button starts disabled exactly when the panel is configured as completed.
   */
  function Initial(initialStatus: Status): (s: State)
    ensures s.status == initialStatus && !s.isLoading && Valid(s)
    ensures Disabled(s) <==> initialStatus == Completed
  {
    State(initialStatus, false)
  }

  /** The default configuration starts the panel as pending, so the first click is accepted. */
  function DefaultInitial(): (s: State)
    ensures s.status == Pending && !s.isLoading
    ensures Click(s).accepted
  {
    Initial(Pending)
  }

  /** A running request always shows as in progress. */
  predicate Valid(s: State)
  {
    s.isLoading ==> s.status == InProgress
  }

  /** Whether the awaited work counts as a success: only a rejection does not. */
  predicate Succeeds(st: Settlement)
  {
    st != Rejected
  }

  /**
   * The button's disabled flag: it is enabled exactly when no request is
   * running and the label still offers to generate the document.
   */
  function Disabled(s: State): (d: bool)
    ensures !d <==> !s.isLoading && Label(s) == "Generate BRD"
  {
    s.isLoading || s.status == Completed
  }

  /** The button's label. */
  function Label(s: State): (l: string)
    ensures l == "BRD Generated" <==> s.status == Completed
    ensures l == "Generate BRD" <==> s.status != Completed
  {
    if s.status == Completed then "BRD Generated" else "Generate BRD"
  }

  /**
   * The handler up to its `await`: ignored while a request runs or once the
   * document is generated; otherwise the request starts and shows as in
   * progress. A click goes past the guard exactly when the button is enabled.
   */
  function Click(s: State): (r: Begun)
    ensures r.accepted <==> !Disabled(s)
    ensures r.accepted ==> r.next.isLoading && r.next.status == InProgress
    ensures !r.accepted ==> r.next == s
    ensures Valid(s) ==> Valid(r.next)
  {
    if s.isLoading || s.status == Completed then Begun(false, s)
    else Begun(true, State(InProgress, true))
  }

  /**
   * The handler after its `await`: a success generates the document, a
   * failure reverts to pending so that the user may retry, and in both cases
   * the request stops running.
   */
  function Settle(s: State, st: Settlement): (t: State)
    requires s.isLoading
    ensures !t.isLoading && Valid(t)
    ensures t.status != InProgress
    ensures t.status == Completed <==> Succeeds(st)
    ensures Disabled(t) <==> Succeeds(st)
  {
    State(if Succeeds(st) then Completed else Pending, false)
  }

  /** One event; a settlement with no request running cannot happen. */
  function Apply(s: State, e: Event): Option<State>
  {
    match e
    case Clicked => Some(Click(s).next)
    case Settled(st) => if s.isLoading then Some(Settle(s, st)) else None
  }

  /** A sequence of events, from the first; None when one of them cannot happen. */
  function Run(s: State, es: seq<Event>): Option<State>
    decreases |es|
  {
    if es == [] then Some(s)
    else match Apply(s, es[0])
      case None => None
      case Some(t) => Run(t, es[1..])
  }

  /**
   * How many times the awaited work (the injected producer, or the demo
   * delay when none is supplied) is started along a sequence of events.
   */
  function Invocations(s: State, es: seq<Event>): nat
    decreases |es|
  {
    if es == [] then 0
    else match Apply(s, es[0])
      case None => 0
      case Some(t) => (if es[0].Clicked? && Click(s).accepted then 1 else 0) + Invocations(t, es[1..])
  }

  /** How many settlements a sequence of events holds. */
  function Settlements(es: seq<Event>): nat
    decreases |es|
  {
    if es == [] then 0
    else (if es[0].Settled? then 1 else 0) + Settlements(es[1..])
  }

  /** One if a request is running, zero otherwise. */
  function Loading(s: State): nat
  {
    if s.isLoading then 1 else 0
  }

  /**
   * The statuses shown along a sequence of events: the current one, then the
   * one after each event, up to the first event that cannot happen.
   */
  function Observed(s: State, es: seq<Event>): (obs: seq<Status>)
    ensures 1 <= |obs| <= |es| + 1
    ensures obs[0] == s.status
    ensures Run(s, es).Some? ==> |obs| == |es| + 1 && obs[|es|] == Run(s, es).value.status
    decreases |es|
  {
    if es == [] then [s.status]
    else match Apply(s, es[0])
      case None => [s.status]
      case Some(t) => [s.status] + Observed(t, es[1..])
  }

  /** The moves the status may make: pending to in progress, in progress to completed or pending. */
  predicate Allowed(a: Status, b: Status)
  {
    a == b || (a != Completed && b == InProgress) || (a == InProgress && b != InProgress)
  }

  /**
   * Each status shown along a possible sequence of events is the status the
   * run of the events up to that point reaches.
   */
  lemma {:induction false} ObservedPrefixes(s: State, es: seq<Event>, i: nat)
    requires Run(s, es).Some? && i <= |es|
    ensures Run(s, es[..i]).Some?
    ensures Observed(s, es)[i] == Run(s, es[..i]).value.status
    decreases |es|
  {
    if i == 0 {
      assert es[..0] == [];
    } else {
      var t := Apply(s, es[0]).value;
      assert es[..i][0] == es[0];
      assert es[..i][1..] == es[1..][..i - 1];
      ObservedPrefixes(t, es[1..], i - 1);
    }
  }

  /** Every possible sequence of events keeps the state valid. */
  lemma {:induction false} RunKeepsValid(s: State, es: seq<Event>)
    requires Valid(s)
    ensures Run(s, es).Some? ==> Valid(Run(s, es).value)
    decreases |es|
  {
    if es != [] {
      match Apply(s, es[0])
      case None =>
      case Some(t) => RunKeepsValid(t, es[1..]);
    }
  }

  /**
   * Completed is absorbing: from a generated document, every possible
   * sequence of events leaves the state as it is, never starts the
   * awaited work, and shows completed throughout.
   */
  lemma {:induction false} CompletedIsAbsorbing(s: State, es: seq<Event>)
    requires Valid(s) && s.status == Completed
    ensures Run(s, es).Some? ==> Run(s, es).value == s
    ensures Invocations(s, es) == 0
    ensures forall i :: 0 <= i < |Observed(s, es)| ==> Observed(s, es)[i] == Completed
    decreases |es|
  {
    if es != [] {
      match Apply(s, es[0])
      case None =>
      case Some(t) =>
        assert t == s;
        CompletedIsAbsorbing(t, es[1..]);
    }
  }

  /**
   * Clicks while the button is disabled change nothing and start nothing.
   */
  lemma {:induction false} DisabledClicksIgnored(s: State, es: seq<Event>)
    requires Disabled(s)
    requires forall i :: 0 <= i < |es| ==> es[i].Clicked?
    ensures Run(s, es) == Some(s)
    ensures Invocations(s, es) == 0
    decreases |es|
  {
    if es != [] {
      DisabledClicksIgnored(s, es[1..]);
    }
  }

  /**
   * Of a burst of clicks, only the first is honoured: it starts the request
   * (when the button is enabled) and every later one is ignored.
   */
  lemma OnlyFirstClickHonoured(s: State, es: seq<Event>)
    requires forall i :: 0 <= i < |es| ==> es[i].Clicked?
    ensures Run(s, [Clicked] + es) == Some(Click(s).next)
    ensures Invocations(s, [Clicked] + es) == if Disabled(s) then 0 else 1
  {
    var t := Click(s).next;
    assert Disabled(t);
    DisabledClicksIgnored(t, es);
    assert ([Clicked] + es)[1..] == es;
  }

  /**
   * The awaited work never runs twice at once: every start is matched by a
   * settlement, except the one still running at the end.
   */
  lemma {:induction false} InvocationsBalance(s: State, es: seq<Event>)
    requires Valid(s)
    requires Run(s, es).Some?
    ensures Invocations(s, es) + Loading(s) == Settlements(es) + Loading(Run(s, es).value)
    decreases |es|
  {
    if es != [] {
      match Apply(s, es[0])
      case None =>
      case Some(t) => InvocationsBalance(t, es[1..]);
    }
  }

  /** From an idle panel, the awaited work is started at most once per settlement cycle. */
  lemma AtMostOneInFlight(s: State, es: seq<Event>)
    requires Valid(s) && !s.isLoading
    requires Run(s, es).Some?
    ensures Settlements(es) <= Invocations(s, es) <= Settlements(es) + 1
  {
    InvocationsBalance(s, es);
  }

  /** After either outcome the button shows whether a retry is possible: only a failure allows one. */
  lemma RetryOnlyAfterFailure(s: State, st: Settlement)
    requires s.isLoading
    ensures Click(Settle(s, st)).accepted <==> st == Rejected
  {
  }

  /** Every status the panel shows follows the allowed path. */
  lemma {:induction false} StatusesFollowPath(s: State, es: seq<Event>)
    requires Valid(s)
    ensures forall i :: 0 <= i < |Observed(s, es)| - 1 ==> Allowed(Observed(s, es)[i], Observed(s, es)[i + 1])
    decreases |es|
  {
    if es != [] {
      match Apply(s, es[0])
      case None =>
      case Some(t) =>
        StatusesFollowPath(t, es[1..]);
        var obs := Observed(s, es);
        assert obs == [s.status] + Observed(t, es[1..]);
        assert Allowed(obs[0], obs[1]);
    }
  }

  /** A successful request from pending shows pending, in progress, completed. */
  lemma ScenarioSuccess()
    ensures Observed(DefaultInitial(), [Clicked, Settled(Resolved)]) == [Pending, InProgress, Completed]
    ensures Run(DefaultInitial(), [Clicked, Settled(Resolved)]) == Some(State(Completed, false))
  {
  }

  /** A failed request from pending shows pending, in progress, pending, and leaves the button enabled. */
  lemma ScenarioFailure()
    ensures Observed(DefaultInitial(), [Clicked, Settled(Rejected)]) == [Pending, InProgress, Pending]
    ensures Run(DefaultInitial(), [Clicked, Settled(Rejected)]) == Some(State(Pending, false))
    ensures !Disabled(State(Pending, false))
  {
  }

  /** Without a producer the demo delay still ends in completed. */
  lemma ScenarioNoProducer()
    ensures Run(DefaultInitial(), [Clicked, Settled(FallbackDelay)]) == Some(State(Completed, false))
  {
  }
}
