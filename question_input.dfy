/** The question form: a text field bound to the orchestrator's question,
    a submit button, and a panel of three suggested questions drawn from a
    fixed pool. Its own state is the current suggestions and whether the
    panel is shown. */
module QuestionInput {
  import opened Common
  import opened JsText
  import VQASystem

  /** The pool the suggestions are drawn from. */
  const SampleQuestions: seq<string> := [
    "What objects are visible in this image?",
    "Describe the main subject of this image.",
    "What colors are prominent in this image?",
    "What is happening in this scene?",
    "What is the setting or location shown?",
    "Are there any people in this image?",
    "What is the mood or atmosphere of this image?",
    "What details can you observe in the background?"
  ]

  /** How many suggestions are shown. */
  const SuggestionCount := 3

  const ReadyPlaceholder := "Ask a question about your image..."
  const NoImagePlaceholder := "Upload an image first to ask questions"

  ghost predicate Distinct(s: seq<string>) {
    forall i, j :: 0 <= i < j < |s| ==> s[i] != s[j]
  }

  /** The form's submit handler passes the submit on to the orchestrator
      exactly when the question has a non-whitespace character and an image
      is present; the loading flag plays no part here. */
  function FormSubmitCallsOnSubmit(question: string, hasImage: bool): (r: bool)
    ensures r <==> hasImage && exists k :: 0 <= k < |question| && !IsWhitespace(question[k])
  {
    TrimEmptyIffAllWhitespace(question);
    Trim(question) != "" && hasImage
  }

  /** The submit button is disabled when the question is blank, when there
      is no image, or while a request is in flight. */
  function SubmitDisabled(question: string, hasImage: bool, isLoading: bool): (r: bool)
    ensures r <==> !FormSubmitCallsOnSubmit(question, hasImage) || isLoading
  {
    Trim(question) == "" || !hasImage || isLoading
  }

  /** The text field is disabled exactly when there is no image; its
      placeholder tells which of the two cases holds. */
  function TextareaDisabled(hasImage: bool): (r: bool)
    ensures r <==> !hasImage
  {
    !hasImage
  }

  function Placeholder(hasImage: bool): (r: string)
    ensures r == ReadyPlaceholder <==> hasImage
    ensures r == NoImagePlaceholder <==> !hasImage
  {
    if hasImage then ReadyPlaceholder else NoImagePlaceholder
  }

  /** The form is locked until an image is present: without one the text
      field and the button are disabled, a submit never reaches the
      orchestrator, and the placeholder asks for an upload instead. With an
      image the text field is enabled and, while nothing is loading, the
      button is disabled only for a blank question. */
  lemma NoImageLocksForm(question: string, isLoading: bool)
    ensures TextareaDisabled(false) && SubmitDisabled(question, false, isLoading)
    ensures !FormSubmitCallsOnSubmit(question, false)
    ensures Placeholder(false) == NoImagePlaceholder && Placeholder(false) != Placeholder(true)
    ensures !TextareaDisabled(true)
    ensures SubmitDisabled(question, true, false) <==> AllWhitespace(question)
  {
  }

  /** An enabled button always leads to a call of the orchestrator's
      handler, and that handler's own guard then accepts: the two guards
      agree on the props the orchestrator passes down. */
  lemma EnabledButtonReachesOrchestrator(selectedImage: Option<File>, question: string, isLoading: bool)
    ensures !SubmitDisabled(question, selectedImage.Some?, isLoading) ==>
      FormSubmitCallsOnSubmit(question, selectedImage.Some?)
    ensures FormSubmitCallsOnSubmit(question, selectedImage.Some?) <==> VQASystem.Accepts(selectedImage, question)
  {
  }

  /** No two entries of the pool are equal. */
  lemma SampleQuestionsDistinct()
    ensures |SampleQuestions| == 8 && Distinct(SampleQuestions)
  {
    // The character at index 13 already tells the eight entries apart.
    var keys := seq(8, k requires 0 <= k < 8 => SampleQuestions[k][13]);
    assert keys == "amrne oc";
    forall i, j | 0 <= i < j < 8 ensures SampleQuestions[i] != SampleQuestions[j] {
      assert keys[i] != keys[j];
    }
  }

  /** A sequence without repetitions holds each value at most once. */
  lemma {:induction false} DistinctCountsAtMostOne(s: seq<string>, x: string)
    requires Distinct(s)
    ensures multiset(s)[x] <= 1
  {
    if s != [] {
      DistinctCountsAtMostOne(s[1..], x);
      assert s == [s[0]] + s[1..];
      if s[0] == x {
        assert x !in s[1..];
      }
    }
  }

  /** Rearranging a sequence without repetitions gives one without
      repetitions. */
  lemma PermutationKeepsDistinct(a: seq<string>, b: seq<string>)
    requires Distinct(a) && multiset(a) == multiset(b)
    ensures Distinct(b)
  {
    forall i, j | 0 <= i < j < |b| ensures b[i] != b[j] {
      if b[i] == b[j] {
        assert b == b[..j] + b[j..];
        assert b[i] in multiset(b[..j]) && b[j] in multiset(b[j..]);
        assert multiset(b)[b[i]] >= 2;
        DistinctCountsAtMostOne(a, b[i]);
        assert false;
      }
    }
  }

  /** The first `n` entries of a rearrangement of a sequence without
      repetitions are `n` different entries of the original. */
  lemma PrefixOfRearrangement(a: seq<string>, b: seq<string>, n: nat)
    requires Distinct(a) && multiset(a) == multiset(b) && n <= |a|
    ensures |b| == |a|
    ensures var p := b[..n]; Distinct(p) && forall k :: 0 <= k < |p| ==> p[k] in a
  {
    PermutationKeepsDistinct(a, b);
    assert |b| == |multiset(b)| == |multiset(a)| == |a|;
    forall k | 0 <= k < n ensures b[k] in a {
      assert b[k] in multiset(b);
    }
  }

  /** `shuffled` is some arrangement of the pool: the comparator-shuffle
      `sort` always returns a permutation of its input. */
  ghost predicate IsShuffleOfPool(shuffled: seq<string>) {
    multiset(shuffled) == multiset(SampleQuestions)
  }

  /** `shuffled.slice(0, 3)`: three different questions from the pool. */
  function Suggestions(shuffled: seq<string>): (r: seq<string>)
    requires IsShuffleOfPool(shuffled)
    ensures |r| == SuggestionCount && Distinct(r)
    ensures forall k :: 0 <= k < |r| ==> r[k] in SampleQuestions
    ensures r == shuffled[..SuggestionCount]
  {
    SampleQuestionsDistinct();
    PrefixOfRearrangement(SampleQuestions, shuffled, SuggestionCount);
    shuffled[..SuggestionCount]
  }

  /** The component's own state. */
  class QuestionInput {
    var suggestions: seq<string>
    var showSuggestions: bool

    constructor ()
      ensures suggestions == [] && !showSuggestions
    {
      suggestions, showSuggestions := [], false;
    }

    /** The effect that runs whenever `hasImage` or `question` changes: with
      an image and an empty question it draws fresh suggestions (`shuffled`
      stands for the shuffle's result) and shows them; otherwise it hides
      the panel and keeps the old suggestions. */
    method SuggestionsEffect(hasImage: bool, question: string, shuffled: seq<string>)
      requires hasImage && question == "" ==> IsShuffleOfPool(shuffled)
      modifies this
      ensures showSuggestions <==> hasImage && question == ""
      ensures showSuggestions ==> suggestions == Suggestions(shuffled)
      ensures showSuggestions ==> |suggestions| == SuggestionCount && Distinct(suggestions)
      ensures !showSuggestions ==> suggestions == old(suggestions)
    {
      if hasImage && question == "" {
        suggestions := Suggestions(shuffled);
        showSuggestions := true;
      } else {
        showSuggestions := false;
      }
    }

    /** Clicking a suggestion writes it into the orchestrator's question and
      hides the panel. */
    method HandleSuggestionClick(suggestion: string, app: VQASystem.VQASystem)
      modifies this, app
      ensures app.question == suggestion && !showSuggestions && suggestions == old(suggestions)
      ensures app.selectedImage == old(app.selectedImage) && app.answer == old(app.answer)
      ensures app.error == old(app.error) && app.isLoading == old(app.isLoading)
      ensures app.history == old(app.history)
      ensures old(app.Valid()) ==> app.Valid()
    {
      app.SetQuestion(suggestion);
      showSuggestions := false;
    }
  }
}
