# CodeSensei front end: component state machines in Dafny

This project models the small state machines inside the CodeSensei
front end. CodeSensei is a single-page client for a coding-education
platform. Each stateful component is a Dafny class with the component's
own state fields. Each event handler is a method. Its `ensures` clauses
give the whole new state, usually through a pure specification function.
Lemmas about those functions state what the component promises.

- `QuestionContext` (`question_context.dfy`) models the compiler workspace's
  question store. It holds the question list and the current question. It
  loads, selects by id, marks questions submitted and moves next/previous
  without wrapping. Selecting an unknown id clears the selection. A load
  selects the first question of the list when nothing is selected. A load
  replaces the list as fetched, without carrying over earlier submissions.
- `Carousel` (`carousel.dfy`) models the home-page slideshow. It holds the
  slide index (which wraps over the four slides), the direction of the last
  move and the play/pause flag. It handles the arrow buttons, the dots and
  the keyboard.
- `RunConsole` (`run_console.dfy`) models the learning page's run-code
  console. It holds the code, output, error, loading flag and execution
  time. It classifies failed requests into user messages and decides which
  output panel shows.
- `LearningPage` (`learning_page.dfy`) models the learning path. After a
  fetch it selects the first incomplete topic. It also handles topic
  selection, the panel toggle and the header title.
- `JsonEditor` (`json_editor.dfy`) models the question-JSON editor. The
  line-number gutter comes from a modelled `split("\n")`. The module also
  covers the change, format and copy actions and the footer.
- `Js` (`js.dfy`) holds the optional-value type and JavaScript string
  truthiness (`s || fallback`, `!id`).

Network replies are parameters of the methods that consume them
(`QuestionsReply`, `TopicsReply`, `RunConsole.Outcome`). So are the
clock's elapsed time (`Outcome.Replied.elapsed`), `JSON.parse` and
`JSON.stringify` (function parameters of `Format`) and the clipboard write's
success (`CopyTemplate(copied)`).

## Model

| member | source | states |
|---|---|---|
| QuestionContext.FindIndex | src/pages/compiler/contextAPI/index.tsx:85 | -1 exactly when no question has the id; otherwise the first position holding that id |
| QuestionContext.Find | src/pages/compiler/contextAPI/index.tsx:71 | no result exactly when no question has the id; otherwise the question at the first position with that id |
| QuestionContext.MarkSubmitted | src/pages/compiler/contextAPI/index.tsx:75-81 | same length and order; every question with the id gets `submitted = true`, every other question is unchanged |
| QuestionContext.FetchedList | src/pages/compiler/contextAPI/index.tsx:57 | the fetched list exactly, or the empty list when the reply has none |
| QuestionContext.LoadSelection | src/pages/compiler/contextAPI/index.tsx:60-61 | an existing selection is kept; with no selection, the first question is selected if there is one |
| QuestionContext.NextSelection | src/pages/compiler/contextAPI/index.tsx:83-87 | no-op with no selection or at the last position; from position i it moves to i+1; an id not in a non-empty list moves to the first question; every change lands on an element of the list |
| QuestionContext.PreviousSelection | src/pages/compiler/contextAPI/index.tsx:89-93 | no-op with no selection, at position 0 or when the id is not in the list; from position i > 0 it moves to i-1; every change lands on an element of the list |
| QuestionContext.SubmitIdempotent | src/pages/compiler/contextAPI/index.tsx:75-81 | submitting the same id twice equals submitting it once |
| QuestionContext.SubmitKeepsIndex | src/pages/compiler/contextAPI/index.tsx:75-85 | after a submit, looking up any id by position gives the same answer as before |
| QuestionContext.NextThenPrevious | src/pages/compiler/contextAPI/index.tsx:83-93 | with unique ids, a next that moves followed by previous returns to the list's copy of the question; this is the original when it is in the list |
| QuestionContext.PreviousThenNext | src/pages/compiler/contextAPI/index.tsx:83-93 | with unique ids, a previous that moves followed by next returns to the list's copy of the question |
| QuestionContext.NextClamped | src/pages/compiler/contextAPI/index.tsx:83-87 | with unique ids, k presses of next from position i reach position min(i+k, last): no wrap-around |
| QuestionContext.PreviousClamped | src/pages/compiler/contextAPI/index.tsx:89-93 | with unique ids, k presses of previous from position i reach position max(i-k, 0): no wrap-around |
| QuestionContext.QuestionProvider.constructor | src/pages/compiler/contextAPI/index.tsx:34-35 | starts with no questions and no selection |
| QuestionContext.QuestionProvider.Load | src/pages/compiler/contextAPI/index.tsx:41-64 | a missing route id or a failed fetch changes nothing; otherwise the list becomes the fetched list and the selection follows LoadSelection |
| QuestionContext.QuestionProvider.SetCurrentQuestion | src/pages/compiler/contextAPI/index.tsx:70-73 | the selection becomes the first question with the id, and is cleared (not kept) when none matches; the list is unchanged |
| QuestionContext.QuestionProvider.SubmitQuestion | src/pages/compiler/contextAPI/index.tsx:75-81 | the list becomes MarkSubmitted of the old list; the current question is not refreshed |
| QuestionContext.QuestionProvider.NextQuestion | src/pages/compiler/contextAPI/index.tsx:83-87 | the selection becomes NextSelection of the old one; the list is unchanged |
| QuestionContext.QuestionProvider.PreviousQuestion | src/pages/compiler/contextAPI/index.tsx:89-93 | the selection becomes PreviousSelection of the old one; the list is unchanged |
| Carousel.NextIndex | src/components/Carousel/Carousel.tsx:50-53 | stays in [0, 4); the last slide wraps to 0, every other slide advances by one |
| Carousel.PrevIndex | src/components/Carousel/Carousel.tsx:55-58 | stays in [0, 4); slide 0 wraps to 3, every other slide goes back by one |
| Carousel.GoDirection | src/components/Carousel/Carousel.tsx:60-63 | the direction is 1 exactly when the target is past the current index, and -1 otherwise, including an equal index |
| Carousel.CounterLabel | src/components/Carousel/Carousel.tsx:227 | the counter shows index + 1, which lies in [1, 4] |
| Carousel.NextTimes | src/components/Carousel/Carousel.tsx:50-53 | any number of next moves keeps the index in [0, 4) |
| Carousel.PrevAfterNext | src/components/Carousel/Carousel.tsx:50-58 | previous after next restores the index |
| Carousel.NextAfterPrev | src/components/Carousel/Carousel.tsx:50-58 | next after previous restores the index |
| Carousel.NextTimesIsModular | src/components/Carousel/Carousel.tsx:50-53 | k next moves advance the index by k modulo 4 |
| Carousel.FullCycle | src/components/Carousel/Carousel.tsx:50-53 | four next moves are the identity on the index |
| Carousel.SpacePlayingAsWritten | src/components/Carousel/Carousel.tsx:81-93 | Space always produces the negation of the first render's play state (paused), whatever the current state |
| Carousel.SpacePlaying | src/components/Carousel/Carousel.tsx:65-67 | Space as intended: the play state is negated |
| Carousel.SpaceDoesNotResumeAsWritten | src/components/Carousel/Carousel.tsx:81-93 | as written, Space on a paused carousel leaves it paused, unlike the intended toggle |
| Carousel.SpaceTwiceRestores | src/components/Carousel/Carousel.tsx:65-67 | with the intended toggle, two presses restore the play state |
| Carousel.Slideshow.constructor | src/components/Carousel/Carousel.tsx:46-48 | starts on slide 0, playing, direction 1 |
| Carousel.Slideshow.NextSlide | src/components/Carousel/Carousel.tsx:50-53 | direction 1, index NextIndex of the old one, play state unchanged, invariant kept |
| Carousel.Slideshow.PrevSlide | src/components/Carousel/Carousel.tsx:55-58 | direction -1, index PrevIndex of the old one, play state unchanged, invariant kept |
| Carousel.Slideshow.GoToSlide | src/components/Carousel/Carousel.tsx:60-63 | index set to the dot's slide, direction GoDirection against the old index, play state unchanged |
| Carousel.Slideshow.TogglePlayPause | src/components/Carousel/Carousel.tsx:65-67 | the play state is negated; index and direction unchanged |
| Carousel.Slideshow.KeyDownAsWritten | src/components/Carousel/Carousel.tsx:81-93 | ArrowLeft acts as previous, ArrowRight as next, Space applies SpacePlayingAsWritten, any other key changes nothing |
| Carousel.Slideshow.KeyDown | src/components/Carousel/Carousel.tsx:82-89 | the corrected handler: as KeyDownAsWritten, except that Space toggles the play state |
| Js.Or | src/pages/learningpage/components/editorComponent.tsx:60-62 | `s \|\| fallback` on a string field: the field when it is present and non-empty, otherwise the fallback; empty only when the fallback is |
| RunConsole.ReportedMessage | src/pages/learningpage/components/editorComponent.tsx:73 | the payload's message if truthy, else the payload's error if truthy, else the error's own message |
| RunConsole.FailureMessage | src/pages/learningpage/components/editorComponent.tsx:64-77 | 401 gives the authentication message, 429 the rate-limit message, 500 and above the server message, any other HTTP error ReportedMessage, a non-HTTP error the unexpected-error message |
| RunConsole.Settle | src/pages/learningpage/components/editorComponent.tsx:56-77 | output and error never both hold text; a time is recorded exactly when a reply arrived, with or without a body; a success reply shows its output (or nothing) and no error; any other reply shows its error or 'Unknown error occurred', never empty; a reply with a null body shows 'An unexpected error occurred'; a failure shows FailureMessage and no output |
| RunConsole.BodylessReplyShowsErrorWithTime | src/pages/learningpage/components/editorComponent.tsx:56-59 | a 2xx reply with a null body shows the error panel and no success panel, yet keeps the recorded time |
| RunConsole.FailureShowsNoOutput | src/pages/learningpage/components/editorComponent.tsx:64-77 | a failed request never shows the success panel and records no time |
| RunConsole.ClassifiedFailureShowsError | src/pages/learningpage/components/editorComponent.tsx:65-77 | 401, 429, 5xx and non-HTTP failures always show a non-empty error and no output |
| RunConsole.ShowsError | src/pages/learningpage/components/editorComponent.tsx:148 | the error panel shows for a non-empty error, and then neither the success panel nor the placeholder shows |
| RunConsole.ShowsSuccess | src/pages/learningpage/components/editorComponent.tsx:154 | the success panel shows only with non-empty output, and then the placeholder does not show |
| RunConsole.ShowsPlaceholder | src/pages/learningpage/components/editorComponent.tsx:159 | the placeholder never shows while loading; when not loading it is hidden only by non-empty output or error |
| RunConsole.ExactlyOnePanelWhenIdle | src/pages/learningpage/components/editorComponent.tsx:148-163 | when nothing is loading, exactly one of the error panel, the success panel and the placeholder shows |
| RunConsole.LoadingShowsOnlyIndicator | src/pages/learningpage/components/editorComponent.tsx:143-163 | with the cleared area of a run in flight, none of error, success or placeholder shows |
| RunConsole.Cleared | src/pages/learningpage/components/editorComponent.tsx:83-87 | output and error become empty and the time null; code and loading flag are kept |
| RunConsole.ClearIdempotent | src/pages/learningpage/components/editorComponent.tsx:83-87 | clearing twice equals clearing once, and the code is never touched |
| RunConsole.EditorComponent.constructor | src/pages/learningpage/components/editorComponent.tsx:15-19 | starts with the default Python snippet, empty output and error, not loading, no time |
| RunConsole.EditorComponent.HandleCodeChange | src/pages/learningpage/components/editorComponent.tsx:21-25 | an undefined value leaves the code unchanged, any defined value replaces it; nothing else changes |
| RunConsole.EditorComponent.StartRun | src/pages/learningpage/components/editorComponent.tsx:28-31 | loading, with output, error and time cleared and the code kept |
| RunConsole.EditorComponent.FinishRun | src/pages/learningpage/components/editorComponent.tsx:56-80 | loading ends whatever the outcome; the output area becomes Settle of the outcome; the code is kept |
| RunConsole.EditorComponent.ExecuteCode | src/pages/learningpage/components/editorComponent.tsx:27-81 | a whole run: afterwards nothing is loading and the area is Settle of the outcome |
| RunConsole.EditorComponent.ClearOutput | src/pages/learningpage/components/editorComponent.tsx:83-87 | the state becomes Cleared of the old state |
| RunConsole.EditorComponent.ResetCode | src/pages/learningpage/components/editorComponent.tsx:89-92 | the code returns to the default snippet, then the area is cleared |
| LearningPage.FirstIncomplete | src/pages/learningpage/index.tsx:83 | none exactly when every topic is completed; otherwise the topic at the first incomplete position |
| LearningPage.TopicToSelect | src/pages/learningpage/index.tsx:83-84 | none exactly for an empty list; otherwise a topic of the list, incomplete when any is, and the first topic when all are completed |
| LearningPage.SelectedIsFirstIncomplete | src/pages/learningpage/index.tsx:82-86 | when position k is the first incomplete topic, that topic is the one selected |
| LearningPage.HeaderTitle | src/pages/learningpage/index.tsx:117 | the selected topic's title, otherwise 'Select a Topic' |
| LearningPage.LearningPageState.constructor | src/pages/learningpage/index.tsx:35-37 | panel visible, empty path, no selection |
| LearningPage.LearningPageState.FetchTopics | src/pages/learningpage/index.tsx:55-92 | no route id or a failed fetch changes nothing; otherwise the path becomes the fetched list exactly and the selection becomes TopicToSelect, or is kept for an empty list; visibility unchanged |
| LearningPage.LearningPageState.HandleTopicSelect | src/pages/learningpage/index.tsx:106-108 | the selection becomes the topic; nothing else changes |
| LearningPage.LearningPageState.ToggleLearningPath | src/pages/learningpage/index.tsx:102-104 | visibility is negated; nothing else changes |
| LearningPage.ToggleTwice | src/pages/learningpage/index.tsx:102-104 | toggling twice restores visibility with path and selection untouched |
| JsonEditor.Split | src/components/jsonEditor/index.tsx:104 | one more piece than the text has newlines, and no piece contains a newline |
| JsonEditor.JoinSplit | src/components/jsonEditor/index.tsx:104 | joining the pieces with newlines gives back the text |
| JsonEditor.LineCount | src/components/jsonEditor/index.tsx:104 | the number of newline characters plus one, so at least 1 |
| JsonEditor.LineNumbers | src/components/jsonEditor/index.tsx:105 | the gutter is exactly 1, 2, ..., LineCount |
| JsonEditor.EmptyTextHasOneLine | src/components/jsonEditor/index.tsx:104-105 | empty text gives the gutter [1] |
| JsonEditor.LineCountOfAppendedNewline | src/components/jsonEditor/index.tsx:104 | appending a newline adds exactly one line |
| JsonEditor.FooterFor | src/components/jsonEditor/index.tsx:181-187 | a truthy status shows as the status line, otherwise the hint shows |
| JsonEditor.FormatStatus | src/components/jsonEditor/index.tsx:79-87 | 'Formatted ✓' after a successful parse, 'Invalid JSON: ' followed by the parser message otherwise; never empty |
| JsonEditor.ActionStatusShows | src/components/jsonEditor/index.tsx:181-187 | a status set by Format or Copy always shows in the footer instead of the hint |
| JsonEditor.Editor.constructor | src/components/jsonEditor/index.tsx:64-68 | text is the initial value, empty when none is given, and there is no status |
| JsonEditor.Editor.HandleChange | src/components/jsonEditor/index.tsx:71-75 | text becomes the value and exactly that value is forwarded; the status is kept |
| JsonEditor.Editor.Format | src/components/jsonEditor/index.tsx:77-90 | on a successful parse the text becomes the re-serialised value and the same string is forwarded; on a failed one the text is unchanged and nothing is forwarded; the status is FormatStatus |
| JsonEditor.Editor.CopyTemplate | src/components/jsonEditor/index.tsx:92-101 | the status is 'Template copied ✓' or 'Unable to copy' by the clipboard outcome; the text is unchanged |

## Left out

- HTTP traffic is not modelled: the question fetch, the topic fetch, the code execution request and the question-store request of the JSON editor. Each reply is a method parameter.
- A question reply whose body has no `data` object throws before any state is set. Its state effect equals a failed fetch, so it is modelled as `FetchFailed`.
- A topic reply without `data.topics` is not modelled. The source first stores `undefined` as the path and then throws. `TopicsReply` always carries a list.
- `Date.now` is not modelled. The elapsed time of a reply is the parameter `elapsed`.
- Timers are not modelled. This covers the carousel's eight-second auto-advance interval and the JSON editor's `setTimeout` calls that reset the status to null.
- `JSON.parse`, `JSON.stringify` and the clipboard are external. The first two are function parameters of `Format`; the clipboard's success is a parameter of `CopyTemplate`. `window.location.reload`, the toasts and `handleQuestionCreation` (HTTP plus a page reload) are left out because they change no editor state.
- Focusing the textarea, `preventDefault` on Space, framer-motion animation values, slide variants, CSS and markup are presentation and are not modelled.
- React context plumbing and the throw in `useQuestionContext` outside a provider are not modelled.
- `submitted?: boolean` is a `bool`: every use of the flag treats a missing flag as false.
- `is_completed` is a `bool`: it records the truthiness the page tests.
- QuestionContext.QuestionProvider.Load: the source tests the `currentQuestion` its effect closure captured when the route id changed. The model tests the selection at the moment the reply is applied. The two differ only if the selection changed while the request was in flight.
- RunConsole.EditorComponent.FinishRun: requires a run in flight. Its reply can only follow `StartRun`, because the Run button is disabled while loading. Overlapping runs are therefore not modelled.
- Carousel.Slideshow.GoToSlide: requires a slide index in range, because only the dots call it, each with its own index.

## Findings

| source | as written | input that shows it | evidently intended | confidence | as-written member | corrected member |
|---|---|---|---|---|---|---|
| src/components/Carousel/Carousel.tsx:81-93 | The keydown listener is registered once (empty dependency list). Its Space branch calls the first render's `togglePlayPause`, which always reads `isPlaying == true` and so always sets it to false | Pause with the play/pause button, then press Space: the carousel stays paused | Space toggles play/pause like the button (line 65-67) | not executed; high, from the closure semantics of effects with empty dependencies | Carousel.SpaceDoesNotResumeAsWritten | Carousel.SpaceTwiceRestores |
