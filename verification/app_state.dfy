/**
 * The word-request component as a state machine: its React state
 * (settings, words, fetch status, form) together with the bookkeeping of
 * fetch cycles, one per run of the settings effect.
 *
 * Each effect run creates an abort controller and starts loading words; the
 * effect's cleanup aborts that controller when the settings are replaced.
 * The network and JSON decoding are abstracted into the `Outcome` a cycle
 * resolves with. Every event is atomic, as React runs each update to
 * completion before the next one.
 */
module AppState {
  import opened JsValues
  import opened Settings

  /** The index of a settings-effect run, counted from zero. */
  type CycleId = nat

  /** `FetchState`: whether a request is in flight, and the error to show. */
  datatype FetchState = FetchState(isLoading: bool, error: Option<string>)

  /** The message set when the response status is not ok. */
  const NotOkMessage: string := "Não foi possível buscar as palavras agora."

  /** The message set when something that is not an `Error` is thrown. */
  const UnexpectedMessage: string := "Algo inesperado aconteceu."

  /**
   * How an in-flight `loadWords` finishes: the decoded word list, a
   * response that was not ok, a thrown `Error` with its message, or a
   * thrown value that is not an `Error`.
   */
  datatype Outcome = Ok(words: seq<string>) | NotOk | ThrownError(message: string) | ThrownNonError

  datatype State = State(
    settings: ApiSettings,
    words: seq<string>,
    fetch: FetchState,
    form: FormValues,
    live: Option<CycleId>,    // the cycle whose controller is not aborted
    aborted: set<CycleId>,    // cycles whose controller has been aborted
    nextCycle: CycleId        // the number of cycles started so far
  )

  /** Something that can happen to the component. */
  datatype Event =
    | Edit(field: Field, value: string)   // `handleInputChange`
    | Submit                              // `handleSubmit`
    | Refresh                             // `handleRefresh`
    | Resolve(cycle: CycleId, outcome: Outcome)  // a cycle's `loadWords` finishes

  /** The component's state right after `useState` initialisation, before any effect. */
  function Fresh(t: NumberText): (s: State)
    ensures Valid(s.settings) && Mirrors(t, s.form, s.settings)
    ensures s.settings == Defaults
    ensures s.fetch == FetchState(false, None) && s.words == []
    ensures s.live == None && s.aborted == {} && s.nextCycle == 0
  {
    State(Defaults, [], FetchState(false, None), InitialForm(t), None, {}, 0)
  }

  /** A cycle that has been started and not aborted. */
  predicate IsLive(s: State, c: CycleId) {
    c < s.nextCycle && c !in s.aborted
  }

  /**
   * The invariant of every reachable state: settings are normalised, a
   * loading state carries no error, and exactly the most recently started
   * cycle is live; every earlier one has been aborted.
   */
  predicate Inv(s: State) {
    && Valid(s.settings)
    && (s.fetch.isLoading ==> s.fetch.error == None)
    && s.live == (if s.nextCycle == 0 then None else Some(s.nextCycle - 1))
    && (forall c :: c in s.aborted ==> c + 1 < s.nextCycle)
    && (forall c: CycleId :: c + 1 < s.nextCycle ==> c in s.aborted)
  }

  /**
   * One run of the settings effect: a new controller for a new cycle, and
   * `setFetchState({ isLoading: true, error: null })`.
   */
  function StartCycle(s: State): (r: State)
    ensures r.fetch == FetchState(true, None)
    ensures r.live == Some(s.nextCycle) && r.nextCycle == s.nextCycle + 1
    ensures r.settings == s.settings && r.words == s.words && r.form == s.form
    ensures r.aborted == s.aborted
  {
    s.(fetch := FetchState(true, None), live := Some(s.nextCycle), nextCycle := s.nextCycle + 1)
  }

  /** The state once the component has mounted and its first effect has run. */
  function Initial(t: NumberText): (s: State)
    ensures Inv(s) && Mirrors(t, s.form, s.settings)
    ensures s.settings == Defaults && s.words == []
    ensures s.fetch == FetchState(true, None)
    ensures IsLive(s, 0)
  {
    StartCycle(Fresh(t))
  }

  /**
   * `setSettings(next)` with a fresh object: the effect's dependency has
   * changed, so the cleanup aborts the live cycle's controller and the
   * effect starts a new cycle.
   */
  function Commit(s: State, next: ApiSettings): (r: State)
    requires Inv(s) && Valid(next)
    ensures Inv(r)
    ensures r.settings == next && r.words == s.words && r.form == s.form
    ensures r.fetch == FetchState(true, None)
    ensures r.nextCycle == s.nextCycle + 1 && IsLive(r, s.nextCycle)
    ensures forall c: CycleId :: c < s.nextCycle ==> c in r.aborted && !IsLive(r, c)
  {
    var cleaned := match s.live
      case Some(c) => s.(aborted := s.aborted + {c}, live := None)
      case None => s;
    StartCycle(cleaned.(settings := next))
  }

  /** `handleInputChange`: edits one form field and nothing else. */
  function DoEdit(s: State, f: Field, value: string): (r: State)
    ensures FieldValue(r.form, f) == value
    ensures forall g :: g != f ==> FieldValue(r.form, g) == FieldValue(s.form, g)
    ensures r.settings == s.settings && r.words == s.words && r.fetch == s.fetch
    ensures r.live == s.live && r.aborted == s.aborted && r.nextCycle == s.nextCycle
  {
    s.(form := HandleInputChange(s.form, f, value))
  }

  /**
   * `handleSubmit`: the form is rewritten with the normalised values and the
   * settings replaced by a new object holding them, which restarts the fetch
   * cycle even when the values did not change.
   */
  function DoSubmit(t: NumberText, s: State): (r: State)
    requires Inv(s)
    ensures Inv(r)
    ensures r.settings == Normalize(t, s.form) && Mirrors(t, r.form, r.settings)
    ensures r.words == s.words && r.fetch == FetchState(true, None)
    ensures IsLive(r, s.nextCycle)
    ensures forall c: CycleId :: c < s.nextCycle ==> !IsLive(r, c)
  {
    var submitted := HandleSubmit(t, s.form);
    Commit(s.(form := submitted.form), submitted.settings)
  }

  /**
   * `handleRefresh`: `setSettings(prev => ({ ...prev }))` creates an
   * equal-valued copy, which is a new object, so the old cycle is aborted
   * and a new one starts with the same settings.
   */
  function DoRefresh(s: State): (r: State)
    requires Inv(s)
    ensures Inv(r)
    ensures r.settings == s.settings && r.form == s.form && r.words == s.words
    ensures r.fetch == FetchState(true, None)
    ensures r.nextCycle == s.nextCycle + 1 && IsLive(r, s.nextCycle)
    ensures s.live.Some? ==> IsLive(s, s.live.value) && !IsLive(r, s.live.value)
  {
    Commit(s, s.settings)
  }

  /** The error message the catch block stores for a failed outcome. */
  function FailureMessage(o: Outcome): (m: string)
    requires !o.Ok?
    ensures o.NotOk? ==> m == NotOkMessage
    ensures o.ThrownError? ==> m == o.message
    ensures o.ThrownNonError? ==> m == UnexpectedMessage
  {
    match o
    case NotOk => NotOkMessage                  // the `Error` thrown for `!response.ok`
    case ThrownError(msg) => msg                // `fetchError instanceof Error`
    case ThrownNonError => UnexpectedMessage
  }

  /**
   * Whether a cycle may resolve with an outcome: the cycle has started, and
   * an aborted cycle never delivers a word list, because `fetch` and
   * `response.json()` reject once their signal is aborted.
   */
  predicate CanResolve(s: State, c: CycleId, o: Outcome) {
    c < s.nextCycle && (c in s.aborted ==> !o.Ok?)
  }

  /**
   * A cycle's `loadWords` finishes. Success replaces the word list wholesale
   * and clears loading and error; it does not look at the signal. Failure
   * does nothing when the signal is aborted, and otherwise stops loading
   * with the failure's message and keeps the old words.
   */
  function DoResolve(s: State, c: CycleId, o: Outcome): (r: State)
    requires CanResolve(s, c, o)
    ensures c in s.aborted ==> r == s
    ensures o.Ok? ==> r.words == o.words && r.fetch == FetchState(false, None)
    ensures !o.Ok? && c !in s.aborted ==> r.words == s.words && r.fetch == FetchState(false, Some(FailureMessage(o)))
    ensures r.settings == s.settings && r.form == s.form
    ensures r.live == s.live && r.aborted == s.aborted && r.nextCycle == s.nextCycle
  {
    match o
    case Ok(ws) => s.(words := ws, fetch := FetchState(false, None))
    case _ =>
      if c in s.aborted then s
      else s.(fetch := FetchState(false, Some(FailureMessage(o))))
  }

  /** Whether an event can happen in a state. */
  predicate Enabled(s: State, e: Event) {
    e.Resolve? ==> CanResolve(s, e.cycle, e.outcome)
  }

  /** The component's reaction to one event. */
  function Next(t: NumberText, s: State, e: Event): (r: State)
    requires Inv(s) && Enabled(s, e)
    ensures Inv(r)
  {
    match e
    case Edit(f, v) => DoEdit(s, f, v)
    case Submit => DoSubmit(t, s)
    case Refresh => DoRefresh(s)
    case Resolve(c, o) => DoResolve(s, c, o)
  }

  /** Every event of the trace is enabled in the state it happens in. */
  predicate ValidTrace(t: NumberText, s: State, events: seq<Event>)
    requires Inv(s)
    decreases |events|
  {
    |events| == 0 || (Enabled(s, events[0]) && ValidTrace(t, Next(t, s, events[0]), events[1..]))
  }

  /** The state after a valid trace of events. */
  function Run(t: NumberText, s: State, events: seq<Event>): (r: State)
    requires Inv(s) && ValidTrace(t, s, events)
    ensures Inv(r)
    decreases |events|
  {
    if |events| == 0 then s else Run(t, Next(t, s, events[0]), events[1..])
  }

  /**
   * Every state reachable from the mounted component satisfies the
   * invariant; in particular a loading state never carries an error.
   */
  lemma RunFromInitial(t: NumberText, events: seq<Event>)
    requires ValidTrace(t, Initial(t), events)
    ensures Inv(Run(t, Initial(t), events))
    ensures Run(t, Initial(t), events).fetch.isLoading ==> Run(t, Initial(t), events).fetch.error == None
  {
  }

  /** At most one cycle is live, and it is the one recorded as live. */
  lemma SingleLiveCycle(s: State, c: CycleId, d: CycleId)
    requires Inv(s) && IsLive(s, c) && IsLive(s, d)
    ensures c == d && s.live == Some(c)
  {
  }

  /** Only the live cycle's resolution can change anything. */
  lemma OnlyLiveCycleMutates(s: State, c: CycleId, o: Outcome)
    requires Inv(s) && CanResolve(s, c, o)
    requires DoResolve(s, c, o) != s
    ensures IsLive(s, c) && s.live == Some(c)
  {
  }

  /**
   * Events never un-abort a cycle and never reuse a cycle number: along any
   * valid trace the aborted set and the cycle count only grow.
   */
  lemma {:induction false} AbortedStaysAborted(t: NumberText, s: State, events: seq<Event>)
    requires Inv(s) && ValidTrace(t, s, events)
    ensures s.aborted <= Run(t, s, events).aborted
    ensures s.nextCycle <= Run(t, s, events).nextCycle
    decreases |events|
  {
    if |events| > 0 {
      AbortedStaysAborted(t, Next(t, s, events[0]), events[1..]);
    }
  }

  /**
   * A cycle superseded by a submit or a refresh stays stale: however many
   * events follow, its eventual failure leaves the whole state unchanged.
   */
  lemma StaleCycleChangesNothing(t: NumberText, s: State, superseding: Event, events: seq<Event>, o: Outcome)
    requires Inv(s) && s.live.Some?
    requires superseding == Submit || superseding == Refresh
    requires ValidTrace(t, Next(t, s, superseding), events)
    requires !o.Ok?
    ensures Enabled(Run(t, Next(t, s, superseding), events), Resolve(s.live.value, o))
    ensures var r := Run(t, Next(t, s, superseding), events);
            Next(t, r, Resolve(s.live.value, o)) == r
  {
    AbortedStaysAborted(t, Next(t, s, superseding), events);
  }

  /**
   * Two refreshes in a row start two distinct cycles with unchanged
   * settings; the first of them is aborted by the second.
   */
  lemma TwoRefreshesTwoCycles(s: State)
    requires Inv(s)
    ensures var r := DoRefresh(DoRefresh(s));
            && r.settings == s.settings
            && r.nextCycle == s.nextCycle + 2
            && s.nextCycle in r.aborted
            && IsLive(r, s.nextCycle + 1)
  {
  }
}
