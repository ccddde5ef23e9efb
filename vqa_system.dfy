/** The orchestrator: the one component that owns the page's state (the
    selected image, the question, the answer, the error, the loading flag
    and the history) and performs the request to the backend. Each event
    handler is one atomic transition of that state; the request's result is
    a parameter (`FetchOutcome`), as are the clock readings and the object
    URL minted for the history thumbnail. */
module VQASystem {
  import opened Common
  import opened JsText
  import AnswerDisplay

  const Endpoint := "http://127.0.0.1:5000/predict"
  const NoAnswerText := "No answer received from the backend."
  const FailurePrefix := "Failed to analyze image: "
  const HttpErrorPrefix := "HTTP error! status: "
  const UnknownErrorText := "Unknown error occurred"

  /** A value that reached the `catch` block: an `Error` with its message,
      or any other thrown value. */
  datatype Thrown = ErrorValue(message: string) | NonError

  /** What `response.json()` gives: the parsed body's `answer` field (None
      when missing or null), or a parse failure. */
  datatype Body = Parsed(answer: Option<string>) | Unparseable(reason: Thrown)

  /** How the `fetch` ends: a response with its status and body, or a
      rejection (the network could not be reached). */
  datatype FetchOutcome = Responded(status: nat, body: Body) | Rejected(reason: Thrown)

  /** The multipart POST the submit handler issues. */
  datatype Request = Request(url: string, image: File, question: string)

  /** Where the `try` block ends up: the answer text to show, or the error
      message to show. */
  datatype Settlement = Answered(text: string) | Failed(message: string)

  /** `response.ok`: a status in the 2xx range. */
  predicate IsOk(status: nat) {
    200 <= status <= 299
  }

  /** The orchestrator's own submit guard: an image is selected and the
      question is not blank after trimming. It does not look at the loading
      flag. */
  function Accepts(selectedImage: Option<File>, question: string): (r: bool)
    ensures r <==> selectedImage.Some? && !AllWhitespace(question)
  {
    TrimEmptyIffAllWhitespace(question);
    selectedImage.Some? && Trim(question) != ""
  }

  /** `data.answer || placeholder`: the answer text is never empty. */
  function AnswerText(field: Option<string>): (r: string)
    ensures r != ""
    ensures Truthy(field) ==> r == field.value
    ensures !Truthy(field) ==> r == NoAnswerText
  {
    if Truthy(field) then field.value else NoAnswerText
  }

  /** `err instanceof Error ? err.message : 'Unknown error occurred'`. */
  function ErrorMessage(reason: Thrown): string {
    match reason
    case ErrorValue(m) => m
    case NonError => UnknownErrorText
  }

  /** The outcome of the `try` block for a given fetch outcome. */
  function Settle(outcome: FetchOutcome): (r: Settlement)
    ensures r.Answered? <==> outcome.Responded? && IsOk(outcome.status) && outcome.body.Parsed?
    ensures r.Answered? ==> r.text != "" && r.text == AnswerText(outcome.body.answer)
    ensures r.Failed? ==> FailurePrefix <= r.message
    ensures outcome.Responded? && !IsOk(outcome.status) ==>
      r == Failed(FailurePrefix + HttpErrorPrefix + Decimal(outcome.status))
    ensures outcome.Responded? && IsOk(outcome.status) && outcome.body.Unparseable? ==>
      r == Failed(FailurePrefix + ErrorMessage(outcome.body.reason))
    ensures outcome.Rejected? ==> r == Failed(FailurePrefix + ErrorMessage(outcome.reason))
  {
    match outcome
    case Rejected(reason) => Failed(FailurePrefix + ErrorMessage(reason))
    case Responded(status, body) =>
      if !IsOk(status) then Failed(FailurePrefix + HttpErrorPrefix + Decimal(status))
      else match body
        case Unparseable(reason) => Failed(FailurePrefix + ErrorMessage(reason))
        case Parsed(field) => Answered(AnswerText(field))
  }

  /** The error message for a non-2xx response names the status: the text
      after the two prefixes reads back as that status. */
  lemma HttpErrorNamesStatus(status: nat, body: Body)
    requires !IsOk(status)
    ensures var m := Settle(Responded(status, body)).message;
      var digits := m[|FailurePrefix + HttpErrorPrefix|..];
      m == FailurePrefix + HttpErrorPrefix + digits && AllDigits(digits) && DigitsValue(digits) == status
  {
    var m := Settle(Responded(status, body)).message;
    assert m[|FailurePrefix + HttpErrorPrefix|..] == Decimal(status);
    DecimalRoundTrip(status);
  }

  /** The answer state the orchestrator keeps: at most one of answer and
      error is set, a set one is non-empty, and both are clear while a
      request is in flight. */
  ghost predicate AnswerStateInvariant(answer: Option<string>, error: Option<string>, isLoading: bool) {
    && !(answer.Some? && error.Some?)
    && (answer.Some? ==> answer.value != "")
    && (error.Some? ==> error.value != "")
    && (isLoading ==> answer.None? && error.None?)
  }

  /** How many of the busy indicator, the error block and the answer block
      a panel shows. */
  function BlocksShown(p: AnswerDisplay.Panel): nat {
    (if p.busy then 1 else 0) + (if p.errorBlock.Some? then 1 else 0) + (if p.answerBlock.Some? then 1 else 0)
  }

  /** Under the invariant, the answer panel shows exactly one of the busy
      indicator, the error block and the answer block, or nothing when all
      three are absent. */
  lemma DisplayShowsOneState(answer: Option<string>, error: Option<string>, isLoading: bool)
    requires AnswerStateInvariant(answer, error, isLoading)
    ensures var r := AnswerDisplay.Render(answer, error, isLoading);
      && (r.None? <==> answer.None? && error.None? && !isLoading)
      && (r.Some? ==> BlocksShown(r.value) == 1)
  {
  }

  /** The component's state, one field per `useState`. */
  class VQASystem {
    var selectedImage: Option<File>
    var question: string
    var answer: Option<string>
    var error: Option<string>
    var isLoading: bool
    var history: seq<QAItem>

    ghost predicate Valid()
      reads this
    {
      AnswerStateInvariant(answer, error, isLoading)
    }

    constructor ()
      ensures Valid()
      ensures selectedImage == None && question == "" && answer == None && error == None
      ensures !isLoading && history == []
    {
      selectedImage, question, answer, error := None, "", None, None;
      isLoading, history := false, [];
    }

    /** `onQuestionChange`: the text field writes the question directly. */
    method SetQuestion(q: string)
      modifies this
      ensures question == q
      ensures selectedImage == old(selectedImage) && answer == old(answer) && error == old(error)
      ensures isLoading == old(isLoading) && history == old(history)
      ensures old(Valid()) ==> Valid()
    {
      question := q;
    }

    /** A new image replaces the old one and clears the question, the answer
      and the error; history and the loading flag are untouched. */
    method HandleImageSelect(file: File)
      modifies this
      ensures selectedImage == Some(file) && question == "" && answer == None && error == None
      ensures isLoading == old(isLoading) && history == old(history)
      ensures Valid()
    {
      selectedImage := Some(file);
      answer := None;
      error := None;
      question := "";
    }

    /** Clearing the image clears the question, the answer and the error;
      history and the loading flag are untouched. */
    method HandleClearImage()
      modifies this
      ensures selectedImage == None && question == "" && answer == None && error == None
      ensures isLoading == old(isLoading) && history == old(history)
      ensures Valid()
    {
      selectedImage := None;
      question := "";
      answer := None;
      error := None;
    }

    /** The submit handler up to its `await`: a rejected submit changes
      nothing and issues no request; an accepted one issues the request
      with the current image and question, sets the loading flag and clears
      the answer and the error. */
    method Submit() returns (request: Option<Request>)
      modifies this
      ensures request.Some? <==> Accepts(old(selectedImage), old(question))
      ensures request.None? ==> unchanged(this)
      ensures request.Some? ==>
        && request.value == Request(Endpoint, old(selectedImage).value, old(question))
        && isLoading && answer == None && error == None
        && selectedImage == old(selectedImage) && question == old(question) && history == old(history)
      ensures old(Valid()) ==> Valid()
    {
      if !Accepts(selectedImage, question) {
        return None;
      }
      isLoading := true;
      error := None;
      answer := None;
      request := Some(Request(Endpoint, selectedImage.value, question));
    }

    /** The submit handler after its `await`, for the request it issued. On
      an answer: the answer is shown and a new item (id from the clock
      reading `now`, the thumbnail URL, the submitted question, the answer
      text) goes to the front of the history. On a failure: the error is
      shown and history is untouched. Either way loading ends. The image
      and question fields are left as they are now. */
    method Resolve(request: Request, outcome: FetchOutcome, now: nat, imageUrl: string, timestamp: nat)
      modifies this
      ensures !isLoading
      ensures selectedImage == old(selectedImage) && question == old(question)
      ensures Settle(outcome).Answered? ==>
        && answer == Some(Settle(outcome).text) && error == old(error)
        && history == [QAItem(Decimal(now), imageUrl, request.question, Settle(outcome).text, timestamp)] + old(history)
      ensures Settle(outcome).Failed? ==>
        error == Some(Settle(outcome).message) && answer == old(answer) && history == old(history)
      ensures old(isLoading) && old(Valid()) ==> Valid()
    {
      var settlement := Settle(outcome);
      match settlement {
        case Answered(text) =>
          answer := Some(text);
          var item := QAItem(Decimal(now), imageUrl, request.question, text, timestamp);
          history := [item] + history;
        case Failed(message) =>
          error := Some(message);
      }
      isLoading := false;
    }

    /** The whole submit handler as one transition. */
    method HandleSubmit(outcome: FetchOutcome, now: nat, imageUrl: string, timestamp: nat)
      returns (request: Option<Request>)
      requires Valid()
      modifies this
      ensures Valid()
      ensures request.Some? <==> Accepts(old(selectedImage), old(question))
      ensures request.None? ==> unchanged(this)
      ensures request.Some? ==>
        && request.value == Request(Endpoint, old(selectedImage).value, old(question))
        && !isLoading && selectedImage == old(selectedImage) && question == old(question)
      ensures request.Some? && Settle(outcome).Answered? ==>
        && answer == Some(Settle(outcome).text) && error == None
        && history == [QAItem(Decimal(now), imageUrl, old(question), Settle(outcome).text, timestamp)] + old(history)
      ensures request.Some? && Settle(outcome).Failed? ==>
        error == Some(Settle(outcome).message) && answer == None && history == old(history)
    {
      request := Submit();
      if request.Some? {
        Resolve(request.value, outcome, now, imageUrl, timestamp);
      }
    }

    /** Clearing history empties it and touches nothing else. */
    method HandleClearHistory()
      modifies this
      ensures history == []
      ensures selectedImage == old(selectedImage) && question == old(question)
      ensures answer == old(answer) && error == old(error) && isLoading == old(isLoading)
      ensures old(Valid()) ==> Valid()
    {
      history := [];
    }
  }

  /** On a fresh page with an image but no question, a submit does
      nothing. */
  method BlankQuestionScenario(file: File, outcome: FetchOutcome, now: nat, imageUrl: string, timestamp: nat)
  {
    var app := new VQASystem();
    app.HandleImageSelect(file);
    var r := app.HandleSubmit(outcome, now, imageUrl, timestamp);
    assert r.None? && app.answer == None && app.error == None && app.history == [];
  }

  /** A successful exchange from a fresh page: the answer is shown and the
      history holds exactly that exchange. */
  method AnswerScenario(file: File, question: string, text: string, status: nat,
                        now: nat, imageUrl: string, timestamp: nat)
    requires Accepts(Some(file), question) && text != "" && IsOk(status)
  {
    var app := new VQASystem();
    app.HandleImageSelect(file);
    app.SetQuestion(question);
    var r := app.HandleSubmit(Responded(status, Parsed(Some(text))), now, imageUrl, timestamp);
    assert r.Some? && app.answer == Some(text) && app.error == None;
    assert app.history == [QAItem(Decimal(now), imageUrl, question, text, timestamp)];
  }

  /** After an answer, a failed request replaces the answer by an error and
      leaves the history alone; a later response without an answer field
      shows the fallback text and is recorded. */
  method FailureThenFallbackScenario(file: File, question: string, text: string, okStatus: nat, badStatus: nat,
                                     now: nat, imageUrl: string, timestamp: nat)
    requires Accepts(Some(file), question) && text != "" && IsOk(okStatus) && !IsOk(badStatus)
  {
    var app := new VQASystem();
    app.HandleImageSelect(file);
    app.SetQuestion(question);
    var r1 := app.HandleSubmit(Responded(okStatus, Parsed(Some(text))), now, imageUrl, timestamp);
    assert |app.history| == 1;
    var r2 := app.HandleSubmit(Responded(badStatus, Parsed(None)), now, imageUrl, timestamp);
    assert app.answer == None && app.error.Some? && |app.history| == 1;
    var r3 := app.HandleSubmit(Responded(okStatus, Parsed(None)), now, imageUrl, timestamp);
    assert app.answer == Some(NoAnswerText) && app.error == None && |app.history| == 2;
  }

  /** The orchestrator's guard does not look at the loading flag, so two
      submits may both be in flight (only the disabled button stops this).
      If the first then succeeds and the second fails, the answer and the
      error are both set. */
  method OverlappingSubmitsScenario(file: File, question: string, text: string, status: nat, reason: Thrown,
                                    now: nat, imageUrl: string, timestamp: nat)
    requires Accepts(Some(file), question) && text != "" && IsOk(status)
  {
    var app := new VQASystem();
    app.HandleImageSelect(file);
    app.SetQuestion(question);
    var first := app.Submit();
    var second := app.Submit();
    assert first.Some? && second.Some?;
    app.Resolve(first.value, Responded(status, Parsed(Some(text))), now, imageUrl, timestamp);
    app.Resolve(second.value, Rejected(reason), now, imageUrl, timestamp);
    assert app.answer.Some? && app.error.Some?;
  }
}
