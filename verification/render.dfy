/**
 * What the results section shows for a state: an error truthy as a string
 * takes precedence over the loading indicator, which takes precedence over
 * the word grid.
 */
module Render {
  import opened JsValues
  import opened AppState

  datatype View = ErrorFeedback(message: string) | LoadingFeedback | WordGrid(words: seq<string>)

  /** The results section: `error ? … : isLoading ? … : words.map(…)`. */
  function Render(s: State): (v: View)
    ensures v.ErrorFeedback? <==> s.fetch.error.Some? && s.fetch.error.value != ""
    ensures v.ErrorFeedback? ==> v.message == s.fetch.error.value
    ensures Inv(s) ==> (v.LoadingFeedback? <==> s.fetch.isLoading)
    ensures v.WordGrid? ==> v.words == s.words && !s.fetch.isLoading
  {
    if s.fetch.error.Some? && s.fetch.error.value != "" then ErrorFeedback(s.fetch.error.value)
    else if s.fetch.isLoading then LoadingFeedback
    else WordGrid(s.words)
  }

  /** A live cycle's success shows exactly the delivered words, in order. */
  lemma SuccessShowsWords(s: State, c: CycleId, ws: seq<string>)
    requires Inv(s) && IsLive(s, c)
    ensures Render(DoResolve(s, c, Ok(ws))) == WordGrid(ws)
  {
  }

  /** A live cycle's non-ok response shows the fixed message; the old words stay in the state. */
  lemma NotOkShowsMessage(s: State, c: CycleId)
    requires Inv(s) && IsLive(s, c)
    ensures Render(DoResolve(s, c, NotOk)) == ErrorFeedback(NotOkMessage)
    ensures DoResolve(s, c, NotOk).words == s.words
  {
  }

  /**
   * An `Error` whose message is empty is stored as the error, but the empty
   * string is falsy, so the stale word list is shown with no feedback.
   */
  lemma EmptyMessageShowsStaleWords(s: State, c: CycleId)
    requires Inv(s) && IsLive(s, c)
    ensures DoResolve(s, c, ThrownError("")).fetch.error == Some("")
    ensures Render(DoResolve(s, c, ThrownError(""))) == WordGrid(s.words)
  {
  }
}
