# Visual Q&A front-end: a Dafny model of its state flow

The front-end lets a user pick an image, ask a question about it, and see
the answer that a visual-question-answering backend returns over HTTP. One
orchestrating component, `VQASystem`, owns all of the page's state: the
selected image, the question, the answer, the error, the loading flag and
the history of past exchanges. It also performs the one network request.
Four child components read that state and report user events back:

- the image intake (`ImageUpload`);
- the question form (`QuestionInput`);
- the answer panel (`AnswerDisplay`);
- the history panel (`QAHistory`).

This project models each component in the form its source takes:

- `VQASystem` (vqa_system.dfy) is a class with the six state fields. Each
  event handler is a method with `modifies this`, and its postconditions
  state the whole new state. The network request's result is a parameter,
  a `FetchOutcome`: a response with its status and parsed body, or a
  rejection. `Settle` is the pure function that turns that outcome into the
  answer text or the error message, exactly as the `try`/`catch` does.
  The submit handler exists in two forms:
  - `Submit` (the guard and the start, up to the `await`) and `Resolve`
    (the continuation for the request that was issued);
  - `HandleSubmit`, both as one atomic transition.
  The class invariant `Valid` says:
  - at most one of answer and error is set;
  - a set answer or error is non-empty;
  - both are clear while a request is in flight.
  `DisplayShowsOneState` proves that under this invariant the answer panel
  shows exactly one of busy, error and answer, or nothing.
- `AnswerDisplay` (answer_display.dfy) is one pure selection function,
  `Render`. JavaScript truthiness decides, so `""` counts as absent.
- `QAHistory` (qa_history.dfy) is a class holding the set of expanded item
  ids, with `ToggleExpanded` proved against the pure `Toggled`. The rendering
  decisions are pure functions: `Render` for the panel and `RenderRow` for
  one item.
- `QuestionInput` (question_input.dfy) has three parts:
  - pure predicates for the form's submit guard, the button's and text
    field's disabled state, and the placeholder;
  - a class for the suggestion state (`suggestions`, `showSuggestions`);
  - `Suggestions`, which proves that the three suggestions are distinct
    members of the eight-question pool whatever the shuffle did.
- `ImageUpload` (image_upload.dfy) is a class holding `isDragOver` and
  `imagePreview`. The `onImageSelect` and `onClearImage` callbacks are bound
  to the orchestrator's handlers, so its methods take the `VQASystem`
  object and state what happens to it too. That includes staying unchanged
  when a drop is refused.
- Two pieces of JavaScript that the guards and messages depend on are
  modelled in js_text.dfy:
  - `String.prototype.trim`, over ECMAScript's exact WhiteSpace and
    LineTerminator set. `Trim` is characterised, and `TrimUnique` shows the
    characterisation fixes it.
  - the decimal rendering of integers, used by `${response.status}` and
    `Date.now().toString()`. It is proved to read back (`DecimalRoundTrip`).

Clock readings, the object URL minted for a history thumbnail, the shuffle
and the decoded preview are parameters of the methods that use them.

Behaviours of the code worth knowing when reading the model:

- Submission is not guarded by the loading flag in the orchestrator. Its
  own guard (VQASystem.tsx:43) checks only the image and the trimmed
  question. Only the disabled button (QuestionInput.tsx:75) looks at the
  loading flag. The model keeps the two guards apart:
  - `VQASystem.Accepts` is the orchestrator's guard;
  - `QuestionInput.SubmitDisabled` is the button's;
  - `EnabledButtonReachesOrchestrator` relates them.
  `OverlappingSubmitsScenario` shows what the orchestrator alone allows:
  two requests in flight, one succeeding and one failing, end with both an
  answer and an error set.
- History ids are not guaranteed unique. The code derives them from a
  millisecond clock (VQASystem.tsx:80), so two items can share one.
  Nothing here assumes they are unique, and `ToggleSwitchesOnlyThatId`
  states that all rows sharing an id expand and collapse together.
- Suggestions are redrawn every time the effect runs with an image and an
  empty question (QuestionInput.tsx:35-44), not only the first time the
  form becomes usable. That includes after the user erases the question.
  `SuggestionsEffect` models this.
- The answer panel's states are not mutually exclusive on their own: the
  panel shows an error even while loading (`ErrorShownWhileLoading`).
  Exclusivity holds only through the orchestrator's invariant.

## Model

| member | source | states |
|---|---|---|
| JsText.LeadingWhitespace | src/components/VQASystem.tsx:43 | the count is the length of the whitespace run the input starts with: everything before it is whitespace and the character at it, if any, is not |
| JsText.TrailingWhitespace | src/components/VQASystem.tsx:43 | the count is the length of the whitespace run the input ends with: everything after it is whitespace and the character before it, if any, is not |
| JsText.Trim | src/components/VQASystem.tsx:43 | `trim()` keeps a substring with only whitespace cut from both ends, and the kept part neither starts nor ends with whitespace |
| JsText.TrimUnique | src/components/QuestionInput.tsx:53 | any substring with that characterisation equals `Trim(s)`, so the characterisation determines `trim` |
| JsText.TrimEmptyIffAllWhitespace | src/components/QuestionInput.tsx:75 | `!question.trim()` holds exactly when every character of the question is whitespace |
| JsText.Decimal | src/components/VQASystem.tsx:69 | the rendering of a status or clock value is non-empty, all digits and has no leading zero |
| JsText.DecimalRoundTrip | src/components/VQASystem.tsx:69 | reading the rendered digits back gives the number |
| JsText.DecimalInjective | src/components/VQASystem.tsx:80 | different clock readings give different history ids |
| AnswerDisplay.Render | src/components/AnswerDisplay.tsx:12-45 | renders nothing exactly when answer and error are falsy and not loading; otherwise the heading is present, busy exactly when loading, the error block exactly when the error is truthy, the answer block exactly when the answer is truthy and not loading |
| AnswerDisplay.ErrorShownWhileLoading | src/components/AnswerDisplay.tsx:24-39 | a non-empty error is shown alongside the busy indicator |
| AnswerDisplay.BusyHidesAnswer | src/components/AnswerDisplay.tsx:41 | the busy indicator and the answer block never appear together |
| AnswerDisplay.EmptyAnswerIsNoAnswer | src/components/AnswerDisplay.tsx:12-41 | an empty-string answer renders exactly as a null answer |
| QAHistory.Toggled | src/components/QAHistory.tsx:21-28 | the toggled id's membership flips, every other id's membership is unchanged |
| QAHistory.ToggleTwice | src/components/QAHistory.tsx:21-28 | toggling the same id twice restores the expanded set |
| QAHistory.QAHistory.constructor | src/components/QAHistory.tsx:19 | no item starts expanded |
| QAHistory.QAHistory.ToggleExpanded | src/components/QAHistory.tsx:21-28 | the stored set becomes the old set with the id toggled |
| QAHistory.Render | src/components/QAHistory.tsx:31-52 | renders nothing exactly when history is empty; otherwise the count is the history length and row i renders history item i, in order |
| QAHistory.RenderRow | src/components/QAHistory.tsx:53-101 | a collapsed row shows the answer in its summary, an expanded row shows the full question and answer instead, never both; the chevron points up exactly when expanded |
| QAHistory.ToggleSwitchesOnlyThatId | src/components/QAHistory.tsx:52-101 | toggling an id switches exactly the rows with that id between collapsed and expanded and leaves every other row as it was |
| VQASystem.Accepts | src/components/VQASystem.tsx:43 | the orchestrator's guard passes exactly when an image is selected and the question has a non-whitespace character; the loading flag is not consulted |
| VQASystem.AnswerText | src/components/VQASystem.tsx:73 | the answer text is the answer field when truthy, otherwise the fixed placeholder; it is never empty |
| VQASystem.Settle | src/components/VQASystem.tsx:56-97 | an answer exactly for a 2xx response with a parsed body, never empty; every failure message starts with "Failed to analyze image: ", with "HTTP error! status: N" for a non-2xx status N and the thrown message otherwise |
| VQASystem.HttpErrorNamesStatus | src/components/VQASystem.tsx:68-70 | the digits after the two prefixes of a non-2xx failure message read back as the status |
| VQASystem.DisplayShowsOneState | src/components/VQASystem.tsx:172-176 | under the orchestrator's invariant the answer panel renders nothing exactly when nothing is set and not loading, and otherwise shows exactly one of busy, error and answer |
| VQASystem.VQASystem.constructor | src/components/VQASystem.tsx:19-24 | no image, empty question, no answer, no error, not loading, empty history |
| VQASystem.VQASystem.SetQuestion | src/components/VQASystem.tsx:164 | the question becomes the given text, nothing else changes |
| VQASystem.VQASystem.HandleImageSelect | src/components/VQASystem.tsx:27-33 | the image becomes the file, the question becomes empty, answer and error become null; history and the loading flag are unchanged |
| VQASystem.VQASystem.HandleClearImage | src/components/VQASystem.tsx:35-40 | the image becomes null, the question empty, answer and error null; history and the loading flag are unchanged |
| VQASystem.VQASystem.Submit | src/components/VQASystem.tsx:42-54 | when the guard fails nothing changes and no request is issued; otherwise the request carries the endpoint, the image and the question, loading becomes true and answer and error become null |
| VQASystem.VQASystem.Resolve | src/components/VQASystem.tsx:56-105 | loading ends false; on an answer it is shown, the error is left alone and the new item (clock id, thumbnail URL, submitted question, answer text) is prepended to the unchanged older history; on a failure the error is shown and answer and history are left alone |
| VQASystem.VQASystem.HandleSubmit | src/components/VQASystem.tsx:42-106 | a refused submit changes nothing; an accepted one ends not loading with exactly one of answer and error set and, on an answer only, the new item prepended to history; the invariant is kept |
| VQASystem.VQASystem.HandleClearHistory | src/components/VQASystem.tsx:108-114 | history becomes empty, every other field is unchanged |
| QuestionInput.FormSubmitCallsOnSubmit | src/components/QuestionInput.tsx:51-56 | the form calls `onSubmit` exactly when there is an image and the question has a non-whitespace character |
| QuestionInput.SubmitDisabled | src/components/QuestionInput.tsx:75 | the button is disabled exactly when the form would not call `onSubmit` or a request is loading |
| QuestionInput.NoImageLocksForm | src/components/QuestionInput.tsx:66-75 | without an image the text field and the button are disabled, a submit never reaches the orchestrator and the placeholder asks for an upload; with an image the text field is enabled and, while nothing loads, the button is disabled exactly for an all-whitespace question |
| QuestionInput.EnabledButtonReachesOrchestrator | src/components/QuestionInput.tsx:51-75 | an enabled button leads to `onSubmit`, and the form's guard agrees with the orchestrator's guard on the props it is given |
| QuestionInput.SampleQuestionsDistinct | src/components/QuestionInput.tsx:14-23 | the pool has eight pairwise different questions |
| QuestionInput.Suggestions | src/components/QuestionInput.tsx:38-39 | the first three entries of any permutation of the pool are three distinct pool questions |
| QuestionInput.QuestionInput.constructor | src/components/QuestionInput.tsx:32-33 | no suggestions, panel hidden |
| QuestionInput.QuestionInput.SuggestionsEffect | src/components/QuestionInput.tsx:35-44 | the panel is shown exactly when there is an image and the untrimmed question is empty, and then holds three distinct pool questions; otherwise the old suggestions are kept |
| QuestionInput.QuestionInput.HandleSuggestionClick | src/components/QuestionInput.tsx:46-49 | the orchestrator's question becomes exactly the suggestion and the panel is hidden; nothing else changes |
| ImageUpload.DroppedImage | src/components/ImageUpload.tsx:34-42 | a drop hands on a file exactly when there is at least one file and the first one's MIME type starts with "image/", and then it is the first file |
| ImageUpload.PickedFile | src/components/ImageUpload.tsx:45-49 | a picker selection hands on the first file exactly when the list exists and is non-empty, with no type check |
| ImageUpload.DropAcceptsLessThanPicker | src/components/ImageUpload.tsx:35-47 | what a drop accepts the picker accepts too, and the picker also takes a first file that is not an image |
| ImageUpload.ShowsDropZone | src/components/ImageUpload.tsx:70 | the drop zone is rendered exactly when the preview is not a truthy string; the transitions below use it to say when the drop zone comes back |
| ImageUpload.ImageUpload.constructor | src/components/ImageUpload.tsx:17-18 | no drag hovering, no preview |
| ImageUpload.ImageUpload.HandleDragOver | src/components/ImageUpload.tsx:20-23 | a drag is hovering; the preview is unchanged |
| ImageUpload.ImageUpload.HandleDragLeave | src/components/ImageUpload.tsx:25-28 | no drag is hovering; the preview is unchanged |
| ImageUpload.ImageUpload.HandleDrop | src/components/ImageUpload.tsx:30-43 | the hover ends whether or not the drop is accepted and the preview is unchanged; an accepted drop selects its first file in the orchestrator, a refused one leaves the orchestrator unchanged |
| ImageUpload.ImageUpload.HandleFileSelect | src/components/ImageUpload.tsx:45-55 | the first picked file, of any type, is selected in the orchestrator; an empty or missing list leaves it unchanged |
| ImageUpload.ImageUpload.PreviewLoaded | src/components/ImageUpload.tsx:40 | the decoded data URL becomes the preview, which replaces the drop zone unless the URL is empty |
| ImageUpload.ImageUpload.HandleClear | src/components/ImageUpload.tsx:57-60 | the orchestrator's image, question, answer and error are cleared, the preview becomes null and the drop zone is shown again |
| ImageUpload.ImageUpload.SelectionEffect | src/components/ImageUpload.tsx:62-66 | whenever the selected image is null the preview becomes null and the drop zone is shown again; otherwise the preview is kept |

## Left out

- The HTTP POST itself is left out: `fetch`, `FormData` and the multipart encoding, which the browser performs. Its result is the `FetchOutcome` parameter. The request is recorded only as the endpoint, the image and the question.
- `response.json()` is reduced to the body's `answer` field or a parse failure. Two cases are folded into these:
  - a truthy non-string `answer`, such as a number, which the code would display as-is;
  - a JSON `null` body, on which reading `.answer` throws into the `catch`.
- Toast notifications and console logging are left out: they change no modelled state.
- `URL.createObjectURL` becomes an opaque string parameter. The object URLs are never released, and that leak cannot be expressed here.
- `Date.now()` and `new Date()` become number parameters. `toLocaleString` formatting is left out, and so is any claim that ids are unique.
- `Math.random` and the comparator shuffle are left out. The shuffle's result is any permutation of the pool.
- `FileReader` decoding becomes a later, separate `PreviewLoaded` event. The model, like the code, does not stop a late preview from arriving after a clear.
- React's batching of state updates, effect timing and `useCallback` closures are left out:
  - each handler is one atomic method;
  - each effect is a method the caller runs after the prop changes;
  - `Resolve` takes the question captured when the request was issued.
- Presentation is left out: JSX layout, CSS classes (including the `truncate` class that shortens summary text), icons and animations. Rendered rows carry the full strings.
- Strings are sequences of Unicode scalar values, not UTF-16 code units, so lone surrogates cannot be represented. The whitespace set is written out from the current Unicode space-separator list.
- JsText.Decimal matches `Number.prototype.toString` only for non-negative integers below 10^21. HTTP statuses and millisecond clock readings fall in that range.
- The history panel's "Clear All" button only calls `onClearHistory`, which is `VQASystem.VQASystem.HandleClearHistory`. The panel's expanded set is not reset by it, and it is not reset in the model either.
