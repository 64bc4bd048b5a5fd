/**
 * Intent resolution: the choice of the search query from the joined history
 * and the new message, and the post-processing of the completion's answer.
 */
module Intent {
  import opened Wrappers
  import opened Text

  /**
   * The chat-completion capability: given the joined history and the new
   * message, the content of its answer, or None when the result has no
   * `content` attribute (no answer at all).
   */
  type Completion = (string, Option<string>) -> Option<string>

  /** A query as `analyze_intent` returns it: stripped and lower-cased. */
  predicate IsNormalQuery(q: string) {
    IsStripped(q) && forall i :: 0 <= i < |q| ==> !IsUpper(q[i])
  }

  /**
   * The return expression of `analyze_intent`: the answer's content stripped
   * and lower-cased, or the new message unchanged when the result has no
   * `content` attribute. An empty content gives the empty query.
   */
  function AnalyzeIntent(content: Option<string>, newMessage: Option<string>): (q: Option<string>)
    ensures content.None? ==> q == newMessage
    ensures content.Some? ==> q.Some? && IsNormalQuery(q.value) && |q.value| <= |content.value|
  {
    if content.Some? then Some(Normalize(content.value)) else newMessage
  }

  /** A resolved query resolved again is unchanged: the post-processing is idempotent. */
  lemma AnalyzeIntentIdempotent(content: string, newMessage: Option<string>)
    ensures AnalyzeIntent(AnalyzeIntent(Some(content), newMessage), newMessage)
         == AnalyzeIntent(Some(content), newMessage)
  {
    NormalizeIdempotent(content);
  }

  /**
   * The search query: the new message verbatim when the joined history is
   * empty, otherwise the resolved intent of the completion's answer.
   */
  function ChooseQuery(history: string, newMessage: Option<string>, complete: Completion): (q: Option<string>)
    ensures history == "" ==> q == newMessage
    ensures history != "" && complete(history, newMessage).Some?
            ==> q.Some? && IsNormalQuery(q.value)
    ensures history != "" && complete(history, newMessage).None? ==> q == newMessage
  {
    if history != "" then AnalyzeIntent(complete(history, newMessage), newMessage) else newMessage
  }
}
