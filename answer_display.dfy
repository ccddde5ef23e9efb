/** The answer panel: a stateless choice, from the three props `answer`,
    `error` and `isLoading`, of which blocks are on screen. JavaScript
    truthiness decides, so an empty string counts as no string at all. */
module AnswerDisplay {
  import opened Common

  const Heading := "Answer"

  /** What the component renders when it renders anything: the heading, the
      busy indicator, the error block with its message and the answer block
      with its text. */
  datatype Panel = Panel(heading: string, busy: bool, errorBlock: Option<string>, answerBlock: Option<string>)

  /** The rendered panel, or None when the component returns null. */
  function Render(answer: Option<string>, error: Option<string>, isLoading: bool): (r: Option<Panel>)
    ensures r.None? <==> !Truthy(answer) && !Truthy(error) && !isLoading
    ensures r.Some? ==> r.value.heading == Heading
    ensures r.Some? ==> (r.value.busy <==> isLoading)
    ensures r.Some? ==> (r.value.errorBlock.Some? <==> Truthy(error))
    ensures r.Some? && r.value.errorBlock.Some? ==> r.value.errorBlock == error
    ensures r.Some? ==> (r.value.answerBlock.Some? <==> Truthy(answer) && !isLoading)
    ensures r.Some? && r.value.answerBlock.Some? ==> r.value.answerBlock == answer
  {
    if !Truthy(answer) && !Truthy(error) && !isLoading then None
    else
      var errorBlock := if Truthy(error) then error else None;
      var answerBlock := if Truthy(answer) && !isLoading then answer else None;
      Some(Panel(Heading, isLoading, errorBlock, answerBlock))
  }

  /** An error is shown whenever there is one, even while loading. */
  lemma ErrorShownWhileLoading(answer: Option<string>, message: string)
    requires message != ""
    ensures var r := Render(answer, Some(message), true);
      r.Some? && r.value.busy && r.value.errorBlock == Some(message)
  {
  }

  /** The busy indicator and the answer block never appear together. */
  lemma BusyHidesAnswer(answer: Option<string>, error: Option<string>, isLoading: bool)
    ensures var r := Render(answer, error, isLoading);
      r.Some? ==> !(r.value.busy && r.value.answerBlock.Some?)
  {
  }

  /** An empty answer renders exactly like a null one. */
  lemma EmptyAnswerIsNoAnswer(error: Option<string>, isLoading: bool)
    ensures Render(Some(""), error, isLoading) == Render(None, error, isLoading)
  {
  }
}
