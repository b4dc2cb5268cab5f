# Lesson sequencer: a verified model

This project models the lesson sequencer of a learning-management frontend. The sequencer is the cursor-and-countdown state machine that walks a student through a section's ordered frames (videos, articles and assessments).

- **The student page** (`pages/Students/ContentScrollView.tsx`). It advances when a video reaches its end time or "Next Part" is clicked. It retreats on a wrong answer, on countdown expiry, on a proctoring penalty and on "Back to Video". A 30-second countdown runs on assessment frames. An assessment attempt is started only when the next frame is an assessment. A correct answer past the first frame records progress for the two adjacent frames, then advances or, on the last frame, navigates home; on the first frame reading the previous frame throws, so nothing is recorded and the cursor stays. Options are toggled for single- and multi-select questions.
- **The refactored view** (`components/Content/ContentScrollView.tsx` with `AssessmentViewer.tsx`). It runs the same machine, with the differences the lemmas state:
  - the attempt guard tolerates a missing next frame;
  - a correct answer past the first frame always advances, wrapping from the last frame to the first;
  - the streak is dispatched on every graded answer that does not throw (on the first frame a correct answer throws before it);
  - "Back to Video" subtracts one without a remainder;
  - a single-select click never deselects.
- **The bulk upload** (`pages/Admin/BlukQuestionUpload.tsx`). It numbers the segments of an uploaded batch 1, 3, 5, … and its questions 2, 4, 6, …, so question *i* directly follows segment *i*.

## How the model is organised

| file | module | what it holds |
|---|---|---|
| `wrappers.dfy` | `Wrappers` | `Option` |
| `js_number.dfy` | `JsNumber` | JavaScript's truncating `%` (`JsRem`), and what it does to the cursor |
| `youtube_url.dfy` | `YouTubeUrl` | `getYouTubeVideoId` on a parsed URL |
| `lesson.dfy` | `Lesson` | frames, questions, outgoing calls, service replies, the cursor with its countdown (`Reposition`) |
| `answering.dfy` | `Answering` | the option-toggle updaters, the Previous clamp, the Submit rule, the displayed question |
| `student_page.dfy` | `StudentPage` | the page: `PageState`, one `After…` function per event, the lemmas, event runs, class `LessonPage` |
| `content_view.dfy` | `ContentView` | the refactored view: `ViewState`, its `After…` functions, the lemmas, event runs, class `ContentScroll` |
| `assessment_viewer.dfy` | `AssessmentViewer` | the refactored assessment panel, class `Panel` |
| `bulk_upload.dfy` | `BulkUpload` | JSON values, property access and spread, the numbering transform |

Each stateful component is a class whose fields are the component's state.
- Its handlers are methods that update the fields one setter at a time, in the source's order.
- Each method is proved to produce `State() == After…(old(State()), …)`, so the pure `After…` function is the specification of that handler.
- The lemmas about the `After…` functions state what the source promises.

Outside effects are not performed; they are handled as follows:
- **Outgoing calls** are appended to a `calls` log instead of performed: starting an attempt, submitting an answer, updating progress, dispatching the streak, pausing or seeking the player, navigating home.
- **Replies** from the grading and attempt services (`StartReply`, `Grading`) are parameters of the event that consumes them.
- **Each interval tick, click or reply** is one sequential event. `Run` folds a sequence of events that the UI can deliver (`Enabled`).

JavaScript arithmetic is written out. `(c - 1) % len` is `JsRem(c - 1, len)`, which gives `-1` at the first frame, so it never wraps to the last frame (`JsNumber.RetreatAtFirstFrameIsNegative`).
- In both versions a retreat from the first frame of a section with two or more frames leaves the cursor at `-1`; in a one-frame section every `% len` retreat gives 0, and only the refactored "Back to Video", which has no remainder, still gives -1. The value -1 is before the first frame, where nothing is shown and no event changes anything any more (`StudentPage.StuckBeforeFirstFrame`, `ContentView.StuckBeforeFirstFrame`).
- Neither version ever moves to a later question: there is no "Next question" control. So the question index stays 0 and Previous stays disabled (`StudentPage.RunKeepsFirstQuestion`, `AssessmentViewer.PanelStaysOnFirstQuestion`).

## Model

Source paths are abbreviated below. `P` is `frontend/src/pages/Students/ContentScrollView.tsx`, `R` is `frontend/src/components/Content/ContentScrollView.tsx`, `A` is `frontend/src/components/Content/AssessmentViewer.tsx` and `B` is `frontend/src/pages/Admin/BlukQuestionUpload.tsx`. The table cells carry the full paths.

| member | source | states |
|---|---|---|
| JsNumber.JsRem | frontend/src/pages/Students/ContentScrollView.tsx:150 | JavaScript's `%` for a positive divisor: the remainder lies in `[0, n)` for a non-negative dividend and in `(-n, 0]` for a negative one, and `a == n * trunc(a / n) + r` |
| JsNumber.AdvanceIndex | frontend/src/pages/Students/ContentScrollView.tsx:483 | `(c + 1) % len` from any cursor in `[-1, len)` is the next frame, and 0 after the last |
| JsNumber.RetreatIndex | frontend/src/pages/Students/ContentScrollView.tsx:665 | `(c - 1) % len` on a frame is `c - 1` for `c >= 1`, and -1 at the first frame (0 when the section has one frame) |
| JsNumber.RetreatAtFirstFrameIsNegative | frontend/src/pages/Students/ContentScrollView.tsx:541 | at the first frame the truncating remainder gives -1 where Dafny's Euclidean `%` would give `len - 1` |
| JsNumber.RetreatThenAdvance | frontend/src/pages/Students/ContentScrollView.tsx:664-666 | a retreat followed by an advance returns to the starting frame, including through -1 |
| YouTubeUrl.QueryGet | frontend/src/pages/Students/ContentScrollView.tsx:782 | `searchParams.get(key)`: none exactly when no pair has the key, otherwise the value of the first pair with it |
| YouTubeUrl.DropFirst | frontend/src/pages/Students/ContentScrollView.tsx:780 | `pathname.slice(1)`: the path without its first character, empty for an empty path |
| YouTubeUrl.VideoId | frontend/src/pages/Students/ContentScrollView.tsx:775-792 | an unparsable URL gives null; host `youtu.be` gives the path after its first character; any other host gives the `v` parameter; an empty id gives null, so a returned id is never empty |
| YouTubeUrl.ShortLinkId | frontend/src/pages/Students/ContentScrollView.tsx:779-780 | `https://youtu.be/<id>` yields `<id>` whatever its query |
| YouTubeUrl.WatchLinkId | frontend/src/pages/Students/ContentScrollView.tsx:781-783 | on any other host, the first `v` pair's value is the id whatever pairs follow it |
| YouTubeUrl.QueryGetAfter | frontend/src/pages/Students/ContentScrollView.tsx:782 | pairs without the key before the first pair with it do not change the lookup |
| YouTubeUrl.NoVideoParameter | frontend/src/pages/Students/ContentScrollView.tsx:781-788 | on any other host, a query without `v` yields null |
| Lesson.KindAt | frontend/src/components/Content/ContentScrollView.tsx:47 | `content[i]?.item_type`: present exactly for an index in range, and then the frame's type |
| Lesson.IdAt | frontend/src/pages/Students/ContentScrollView.tsx:301-303 | `content[i]?.id`: present exactly for an index in range, and then the frame's id |
| Lesson.InitialCursor | frontend/src/pages/Students/ContentScrollView.tsx:133-135 | the opened item's sequence minus one; 0 when the sequence is absent or zero |
| Lesson.InitialCursorInRange | frontend/src/components/Content/ContentScrollView.tsx:30-32 | the sequence number of any frame of the section opens that frame |
| Lesson.ProgressPair | frontend/src/pages/Students/ContentScrollView.tsx:544-549 | the progress update names exactly two ids: the frame before the cursor, then the frame at it |
| Lesson.StartCalls | frontend/src/pages/Students/ContentScrollView.tsx:324-331 | at most one attempt is started; one is started exactly when the frame after `i` is an Assessment, and it is for that frame's id |
| Lesson.Reposition | frontend/src/pages/Students/ContentScrollView.tsx:192-218 | setting the cursor, with the countdown effect it re-runs, keeps the countdown within 1..30 and running only on an Assessment frame |
| Lesson.RepositionRearms | frontend/src/pages/Students/ContentScrollView.tsx:196-199 | the cursor takes the value set; moving onto a different Assessment frame resets the countdown to 30 and starts it; moving onto any other frame starts no timer; setting the same value changes nothing |
| Lesson.ProgressUpdates | frontend/src/pages/Students/ContentScrollView.tsx:547-551 | the filter result holds only progress updates taken from the calls, and no more of them than calls; the lemmas below make it keep every update, in order |
| Lesson.EveryUpdateKept | frontend/src/pages/Students/ContentScrollView.tsx:547-551 | every progress update among the calls appears in the filter's result |
| Lesson.ProgressUpdatesOfOne | frontend/src/pages/Students/ContentScrollView.tsx:547-551 | a single call is kept exactly when it is a progress update |
| Lesson.ProgressUpdatesAppend | frontend/src/pages/Students/ContentScrollView.tsx:547-551 | the updates of two runs of calls are those of the first followed by those of the second |
| Lesson.NoProgressUpdates | frontend/src/pages/Students/ContentScrollView.tsx:532-541 | a run of calls holding no progress update contributes none |
| Lesson.OneUpdateBetween | frontend/src/pages/Students/ContentScrollView.tsx:542-616 | calls around a single progress update contribute just that update |
| Answering.Without | frontend/src/pages/Students/ContentScrollView.tsx:637 | `filter((id) => id !== option)`: the option is gone, every other element stays, counts are kept, no duplicates are introduced |
| Answering.WithoutSnoc | frontend/src/pages/Students/ContentScrollView.tsx:637 | the filter keeps order: filtering a list with one more element at its end filters the list, then keeps that element unless it is the one removed |
| Answering.PageToggle | frontend/src/pages/Students/ContentScrollView.tsx:632-652 | a click toggles the option's membership; multi-select, and any deselect, keeps all other options; single-select on an unselected option gives exactly `[option]`; no duplicates are introduced; a single-select selection of at most one stays at most one |
| Answering.ViewerToggle | frontend/src/components/Content/AssessmentViewer.tsx:9-15 | multi-select toggles the option's membership and keeps the others; single-select always gives exactly `[option]`; no duplicates are introduced |
| Answering.TogglesDifferOnlyOnReselect | frontend/src/components/Content/AssessmentViewer.tsx:13 | the page and viewer updaters agree exactly unless a selected single-select option is clicked again |
| Answering.MultiToggleTwice | frontend/src/pages/Students/ContentScrollView.tsx:636-640 | clicking a multi-select option twice restores the same options, in both versions |
| Answering.SingleSelectReclickClears | frontend/src/pages/Students/ContentScrollView.tsx:644-647 | on the page, clicking an unselected single-select option twice clears the selection, whatever was selected before, and disables Submit |
| Answering.SubmitEnabled | frontend/src/pages/Students/ContentScrollView.tsx:764 | Submit is enabled exactly when something is selected |
| Answering.PreviousIndex | frontend/src/components/Content/AssessmentViewer.tsx:41 | `Math.max(i - 1, 0)`: one question back, never negative |
| Answering.WrapPrevQuestion | frontend/src/pages/Students/ContentScrollView.tsx:656-661 | `handlePrevQuestion` wraps from the first question to the last and otherwise steps back one; an empty question list gives NaN |
| Answering.DisplayedQuestion | frontend/src/components/Content/AssessmentViewer.tsx:17 | `assessmentData[currentQuestionIndex]` exists exactly for an index in range, and is that question |
| StudentPage.Initial | frontend/src/pages/Students/ContentScrollView.tsx:133-135 | the opening state satisfies the countdown invariant |
| StudentPage.AfterSetFrame | frontend/src/pages/Students/ContentScrollView.tsx:192-218 | a cursor change with its countdown effect keeps the invariant |
| StudentPage.AfterFetch | frontend/src/pages/Students/ContentScrollView.tsx:322-345 | `fetchAssessment` keeps the invariant |
| StudentPage.AfterAdvance | frontend/src/pages/Students/ContentScrollView.tsx:452-456 | the shared advance keeps the invariant |
| StudentPage.AfterVideoTime | frontend/src/pages/Students/ContentScrollView.tsx:448-458 | a playback poll on a video frame keeps the invariant |
| StudentPage.ReachedEnd | frontend/src/pages/Students/ContentScrollView.tsx:448 | the end time is reached exactly when it is present and the time is at or past it |
| StudentPage.AfterNextPart | frontend/src/pages/Students/ContentScrollView.tsx:482-490 | "Next Part" keeps the invariant |
| StudentPage.AfterSecond | frontend/src/pages/Students/ContentScrollView.tsx:200-210 | a countdown second keeps the invariant |
| StudentPage.AfterPenalty | frontend/src/pages/Students/ContentScrollView.tsx:141-151 | a penalty keeps the invariant |
| StudentPage.AfterBack | frontend/src/pages/Students/ContentScrollView.tsx:664-666 | "Back to Video" keeps the invariant |
| StudentPage.AfterOptionClick | frontend/src/pages/Students/ContentScrollView.tsx:632-652 | an option click replaces the selection by the page updater's result and changes nothing else |
| StudentPage.AfterPrevious | frontend/src/pages/Students/ContentScrollView.tsx:754-757 | Previous does nothing on the first question and otherwise steps back one; the index stays non-negative; nothing else changes |
| StudentPage.StreakCalls | frontend/src/pages/Students/ContentScrollView.tsx:529-531 | the streak is dispatched exactly when the grading carries one, with that value (a `null` streak counts as absent; see Left out) |
| StudentPage.AfterSubmit | frontend/src/pages/Students/ContentScrollView.tsx:513-625 | Submit keeps the invariant |
| StudentPage.AfterGrading | frontend/src/pages/Students/ContentScrollView.tsx:532-617 | the grading branches keep the invariant |
| StudentPage.AdvanceMovesOn | frontend/src/pages/Students/ContentScrollView.tsx:482-490 | an advance moves to `(c + 1) % len`, clears the selection and question index, stops playback, resets the time only for "Next Part", starts an attempt exactly when the next frame is an Assessment, sets `assessmentId` to the next frame's id, and replaces the attempt id exactly when the next frame is an Assessment and the start reply carries a non-empty id |
| StudentPage.FetchRule | frontend/src/pages/Students/ContentScrollView.tsx:322-345 | for every index and reply: past the last frame nothing changes; otherwise `assessmentId` becomes the next frame's id, an attempt is started exactly for an Assessment frame, the attempt id is replaced only by a non-empty id from a successful start, and nothing else changes |
| StudentPage.VideoTimeRule | frontend/src/pages/Students/ContentScrollView.tsx:448-458 | below the end time a poll changes only `currentTime`; at or past it the pause is logged and the page advances exactly as `AfterAdvance` does, keeping the playback time, so the calls are the pause followed by the advance's attempt start; without an end time the cursor never moves |
| StudentPage.RetreatLandsBack | frontend/src/pages/Students/ContentScrollView.tsx:664-666 | "Back to Video" lands on `c - 1`, on -1 from the first frame (0 in a one-frame section), and changes nothing outside the cursor and countdown |
| StudentPage.BackThenNextPartReturns | frontend/src/pages/Students/ContentScrollView.tsx:482-490 | "Next Part" after "Back to Video" returns to the frame left, whenever the retreat did not go to -1 |
| StudentPage.CountdownRule | frontend/src/pages/Students/ContentScrollView.tsx:196-210 | a running countdown is on an Assessment frame; a second at 1 or below moves to `(c - 1) % len` and restores 30, changing nothing outside the cursor and countdown; any other second takes exactly one off |
| StudentPage.PenaltyRule | frontend/src/pages/Students/ContentScrollView.tsx:141-151 | on a video frame a penalty seeks to the frame's start time and leaves the cursor; on an Assessment frame it retreats exactly like "Back to Video"; elsewhere it does nothing |
| StudentPage.EmptySelectionSubmitsNothing | frontend/src/pages/Students/ContentScrollView.tsx:764 | with nothing selected, Submit changes nothing |
| StudentPage.FailedSubmitKeepsState | frontend/src/pages/Students/ContentScrollView.tsx:525-526 | a reply without data leaves everything but the submit call unchanged |
| StudentPage.WrongAnswerRetreats | frontend/src/pages/Students/ContentScrollView.tsx:532-541 | `isAnswerCorrect === false` retreats, adds no progress update, keeps the selection, question, playback time, playing flag, assessment and attempt (only the cursor, countdown and calls change), and dispatches the streak only when present (a `null` streak counts as absent) |
| StudentPage.CorrectAnswerRecordsProgress | frontend/src/pages/Students/ContentScrollView.tsx:542-616 | any other grading past the first frame adds exactly one progress update `[content[c-1].id, content[c].id]` with cascade; short of the last frame it advances and resets selection, question and time; on the last frame it navigates home without moving |
| StudentPage.GradingAdvances | frontend/src/pages/Students/ContentScrollView.tsx:547-616 | past the first frame a non-false grading makes the progress call, then the advance's calls or the navigation home; on the last frame nothing but the calls changes |
| StudentPage.CorrectAnswerAtFirstFrameFails | frontend/src/pages/Students/ContentScrollView.tsx:544 | on the first frame `content[-1].id` throws, so only the submit and the streak happen: no progress update and no move |
| StudentPage.Step | frontend/src/pages/Students/ContentScrollView.tsx:141-666 | every event the page can receive keeps the invariant |
| StudentPage.Enabled | frontend/src/pages/Students/ContentScrollView.tsx:712-830 | the two timers fire on any frame; the poll runs on a video frame, "Next Part" on an article, and Back, the options, Previous and Submit only on an Assessment frame, so every control is on a frame |
| StudentPage.Run | frontend/src/pages/Students/ContentScrollView.tsx:141-666 | every run of events keeps the invariant |
| StudentPage.StepStaysInRange | frontend/src/pages/Students/ContentScrollView.tsx:483 | one event keeps the cursor in `[-1, len)` |
| StudentPage.RunStaysInRange | frontend/src/pages/Students/ContentScrollView.tsx:541 | any run of events keeps the cursor in `[-1, len)` |
| StudentPage.RunKeepsFirstQuestion | frontend/src/pages/Students/ContentScrollView.tsx:754-757 | from the first question, any run of events stays on the first question |
| StudentPage.StuckBeforeFirstFrame | frontend/src/pages/Students/ContentScrollView.tsx:142-150 | at cursor -1 no run of events changes the state |
| StudentPage.LessonPage.constructor | frontend/src/pages/Students/ContentScrollView.tsx:133-135 | the component opens in the state `Initial` describes |
| StudentPage.LessonPage.SetCurrentFrame | frontend/src/pages/Students/ContentScrollView.tsx:192-218 | field by field, the new state is `AfterSetFrame` of the old |
| StudentPage.LessonPage.FetchAssessment | frontend/src/pages/Students/ContentScrollView.tsx:322-345 | the new state is `AfterFetch` of the old |
| StudentPage.LessonPage.VideoTick | frontend/src/pages/Students/ContentScrollView.tsx:448-458 | the new state is `AfterVideoTime` of the old |
| StudentPage.LessonPage.NextPart | frontend/src/pages/Students/ContentScrollView.tsx:482-490 | the new state is `AfterNextPart` of the old |
| StudentPage.LessonPage.CountdownTick | frontend/src/pages/Students/ContentScrollView.tsx:200-210 | the new state is `AfterSecond` of the old |
| StudentPage.LessonPage.Penalty | frontend/src/pages/Students/ContentScrollView.tsx:141-151 | the new state is `AfterPenalty` of the old |
| StudentPage.LessonPage.BackToVideo | frontend/src/pages/Students/ContentScrollView.tsx:664-666 | the new state is `AfterBack` of the old |
| StudentPage.LessonPage.OptionClick | frontend/src/pages/Students/ContentScrollView.tsx:632-652 | the new state is `AfterOptionClick` of the old |
| StudentPage.LessonPage.PreviousClick | frontend/src/pages/Students/ContentScrollView.tsx:754-757 | the new state is `AfterPrevious` of the old |
| StudentPage.LessonPage.SubmitClick | frontend/src/pages/Students/ContentScrollView.tsx:513-625 | the new state is `AfterSubmit` of the old |
| StudentPage.LessonPage.ApplyGrading | frontend/src/pages/Students/ContentScrollView.tsx:532-617 | the new state is `AfterGrading` of the old |
| ContentView.Initial | frontend/src/components/Content/ContentScrollView.tsx:30-36 | the mounted state satisfies the invariant and has no assessment, no attempt and no calls |
| ContentView.AfterSetFrame | frontend/src/components/Content/ContentScrollView.tsx:46-58 | a cursor change with its countdown effect keeps the invariant |
| ContentView.AfterFetch | frontend/src/components/Content/ContentScrollView.tsx:60-70 | `fetchAssessment` keeps the invariant |
| ContentView.AfterNextFrame | frontend/src/components/Content/ContentScrollView.tsx:72-75 | `handleNextFrame` keeps the invariant |
| ContentView.AfterSecond | frontend/src/components/Content/ContentScrollView.tsx:49-55 | a countdown second keeps the invariant |
| ContentView.AfterBack | frontend/src/components/Content/ContentScrollView.tsx:123 | "Back to Video" keeps the invariant |
| ContentView.AfterSubmit | frontend/src/components/Content/ContentScrollView.tsx:77-102 | `handleSubmitAssessment` keeps the invariant |
| ContentView.RenderContent | frontend/src/components/Content/ContentScrollView.tsx:104-136 | the video viewer exactly for a Video frame (showing that frame), the assessment viewer exactly for an Assessment frame, the article viewer exactly for an article frame (showing its content), otherwise the placeholder |
| ContentView.RenderOffTheList | frontend/src/components/Content/ContentScrollView.tsx:106-108 | an empty list or a cursor off it renders the placeholder |
| ContentView.FetchPastEndIsNoOp | frontend/src/components/Content/ContentScrollView.tsx:61 | past the last frame `fetchAssessment` does nothing |
| ContentView.FetchRule | frontend/src/components/Content/ContentScrollView.tsx:60-70 | for every index and reply: unless frame `i + 1` is an Assessment nothing changes; otherwise its id becomes the assessment, one attempt is started for it, a successful start replaces the attempt id by whatever it carries, and nothing else changes |
| ContentView.NextFrameRule | frontend/src/components/Content/ContentScrollView.tsx:72-75 | "next" moves to `(c + 1) % len`; an attempt is started exactly when frame `c + 1` is an Assessment, which short of the last frame is the frame landed on; for an Assessment frame `c + 1` the assessment id becomes its id and a successful start replaces the attempt id by what it carries; without one nothing else changes |
| ContentView.AttemptIdTakenFromAnyReply | frontend/src/components/Content/ContentScrollView.tsx:67 | a reply with data but no attempt id clears the attempt id |
| ContentView.CountdownRule | frontend/src/components/Content/ContentScrollView.tsx:49-55 | a running countdown is on an Assessment frame; a second at 1 or below moves to `(c - 1) % len` and restores 30, changing nothing outside the cursor and countdown; any other second takes exactly one off |
| ContentView.BackSubtractsOne | frontend/src/components/Content/ContentScrollView.tsx:123 | "Back to Video" sets the cursor to `c - 1`, so -1 from the first frame, and changes nothing outside the cursor and countdown |
| ContentView.FailedSubmitKeepsState | frontend/src/components/Content/ContentScrollView.tsx:85-86 | a reply without data leaves everything but the submit call unchanged |
| ContentView.WrongAnswerRetreats | frontend/src/components/Content/ContentScrollView.tsx:96-100 | a grading that is not `true` retreats, keeps the assessment and attempt (only the cursor, countdown and calls change), adds no progress update, and dispatches the streak whatever it is |
| ContentView.CorrectAnswerAdvances | frontend/src/components/Content/ContentScrollView.tsx:86-100 | `true` past the first frame adds exactly one progress update `[content[c-1].id, content[c].id]` with cascade, moves to `(c + 1) % len` (wrapping from the last frame) and dispatches the streak last |
| ContentView.CorrectAnswerAtFirstFrameFails | frontend/src/components/Content/ContentScrollView.tsx:90 | on the first frame `content[-1].id` throws first: only the submit happens, with no progress update, no move and no streak |
| ContentView.Step | frontend/src/components/Content/ContentScrollView.tsx:46-136 | every event the view can receive keeps the invariant |
| ContentView.Enabled | frontend/src/components/Content/ContentScrollView.tsx:109-136 | the countdown fires on any frame; "next" comes from the video and article viewers, Back and Submit from the assessment viewer, so every control is on a frame |
| ContentView.Run | frontend/src/components/Content/ContentScrollView.tsx:46-136 | every run of events keeps the invariant |
| ContentView.StepStaysInRange | frontend/src/components/Content/ContentScrollView.tsx:123 | one event keeps the cursor in `[-1, len)` |
| ContentView.RunStaysInRange | frontend/src/components/Content/ContentScrollView.tsx:118-126 | "Back to Video" is offered only on an Assessment frame, so any run keeps the cursor in `[-1, len)` |
| ContentView.StuckBeforeFirstFrame | frontend/src/components/Content/ContentScrollView.tsx:134-135 | at cursor -1 the placeholder is shown and no run of events changes the state |
| ContentView.ContentScroll.constructor | frontend/src/components/Content/ContentScrollView.tsx:30-36 | the component mounts in the state `Initial` describes |
| ContentView.ContentScroll.SetCurrentFrame | frontend/src/components/Content/ContentScrollView.tsx:46-58 | the new state is `AfterSetFrame` of the old |
| ContentView.ContentScroll.FetchAssessment | frontend/src/components/Content/ContentScrollView.tsx:60-70 | the new state is `AfterFetch` of the old |
| ContentView.ContentScroll.NextFrame | frontend/src/components/Content/ContentScrollView.tsx:72-75 | the new state is `AfterNextFrame` of the old |
| ContentView.ContentScroll.CountdownTick | frontend/src/components/Content/ContentScrollView.tsx:49-55 | the new state is `AfterSecond` of the old |
| ContentView.ContentScroll.BackToVideo | frontend/src/components/Content/ContentScrollView.tsx:123 | the new state is `AfterBack` of the old |
| ContentView.ContentScroll.SubmitAssessment | frontend/src/components/Content/ContentScrollView.tsx:77-102 | the new state is `AfterSubmit` of the old |
| AssessmentViewer.AfterClick | frontend/src/components/Content/AssessmentViewer.tsx:9-15 | a click keeps the question; multi-select toggles the option and keeps the others; single-select gives exactly `[option]`; no duplicates are introduced |
| AssessmentViewer.AfterPrevious | frontend/src/components/Content/AssessmentViewer.tsx:41-42 | Previous does nothing on the first question and otherwise steps back one; the index stays non-negative; the selection is kept |
| AssessmentViewer.Submission | frontend/src/components/Content/AssessmentViewer.tsx:46 | Submit hands over a selection exactly when it is non-empty, and then the selection unchanged |
| AssessmentViewer.Apply | frontend/src/components/Content/AssessmentViewer.tsx:9-42 | any panel event keeps the index non-negative |
| AssessmentViewer.ApplyAll | frontend/src/components/Content/AssessmentViewer.tsx:9-42 | any run of panel events keeps the index non-negative |
| AssessmentViewer.PanelStaysOnFirstQuestion | frontend/src/components/Content/AssessmentViewer.tsx:6-7 | from the first question, any run of panel events stays on it and never selects an option twice |
| AssessmentViewer.SingleSelectKeepsOne | frontend/src/components/Content/AssessmentViewer.tsx:13 | clicks on single-select questions keep at most one option selected |
| AssessmentViewer.ReclickKeepsSelection | frontend/src/components/Content/AssessmentViewer.tsx:13 | clicking a single-select option twice still submits `[option]` |
| AssessmentViewer.Panel.constructor | frontend/src/components/Content/AssessmentViewer.tsx:6-7 | a mounted panel is on the first question with nothing selected |
| AssessmentViewer.Panel.Shown | frontend/src/components/Content/AssessmentViewer.tsx:17 | the displayed question exists exactly for an index in range, and is that question |
| AssessmentViewer.Panel.OptionClick | frontend/src/components/Content/AssessmentViewer.tsx:9-15 | the new state is `AfterClick` of the old, and the selection stays duplicate-free |
| AssessmentViewer.Panel.PreviousClick | frontend/src/components/Content/AssessmentViewer.tsx:41-42 | the new state is `AfterPrevious` of the old |
| AssessmentViewer.Panel.SubmitClick | frontend/src/components/Content/AssessmentViewer.tsx:46 | returns what reaches `onSubmit`: the selection when it is non-empty, nothing otherwise |
| BulkUpload.Truthy | frontend/src/pages/Admin/BlukQuestionUpload.tsx:53 | JavaScript truthiness: `null` is falsy, arrays and objects are truthy, a string exactly when non-empty |
| BulkUpload.Decimal | frontend/src/pages/Admin/BlukQuestionUpload.tsx:52 | the canonical decimal spelling of an index: digits only, no leading zero, reads back as the index |
| BulkUpload.DecimalInjective | frontend/src/pages/Admin/BlukQuestionUpload.tsx:56 | distinct indices have distinct property keys |
| BulkUpload.Get | frontend/src/pages/Admin/BlukQuestionUpload.tsx:53 | property access on parsed JSON: `null` throws; an object answers exactly its own keys; an array answers only its elements; numbers and booleans answer nothing |
| BulkUpload.Spread | frontend/src/pages/Admin/BlukQuestionUpload.tsx:56 | `{...v}` copies an object's fields, an array's elements under their index keys, and nothing for `null`, numbers and booleans |
| BulkUpload.IndexMap | frontend/src/pages/Admin/BlukQuestionUpload.tsx:56 | every element appears under its index key, and every key is an index key of an element |
| BulkUpload.Stamp | frontend/src/pages/Admin/BlukQuestionUpload.tsx:55-58 | `{...item, sequence: n}` is an object whose `sequence` is `n` and whose other properties are exactly the item's spread |
| BulkUpload.Renumber | frontend/src/pages/Admin/BlukQuestionUpload.tsx:55-62 | the map keeps the length, and item `i` is stamped with `2 * i + offset` |
| BulkUpload.ListAt | frontend/src/pages/Admin/BlukQuestionUpload.tsx:55 | `.map` works exactly on a property that holds an array, on that array's elements |
| BulkUpload.Transform | frontend/src/pages/Admin/BlukQuestionUpload.tsx:46-64 | the payload carries the selected section id and only key "0"; it throws exactly for a `null` file, or a truthy "0" whose segments or questions are not arrays |
| BulkUpload.HandleUpload | frontend/src/pages/Admin/BlukQuestionUpload.tsx:38-72 | an upload is sent exactly when a file is selected, parses, and transforms without throwing, and then it is the transformed payload |
| BulkUpload.BatchIsRenumbered | frontend/src/pages/Admin/BlukQuestionUpload.tsx:54-63 | a built batch holds the file's segments numbered from 1 and its questions numbered from 2 |
| BulkUpload.BatchComesFromKeyZero | frontend/src/pages/Admin/BlukQuestionUpload.tsx:52-54 | the payload has a batch exactly when key "0" holds a truthy value, and the batch is built from that value's two lists |
| BulkUpload.Numbering | frontend/src/pages/Admin/BlukQuestionUpload.tsx:55-62 | segment `i` gets `2i + 1`, question `i` gets `2i + 2`, one more than segment `i`, and both lists keep their lengths |
| BulkUpload.NumbersHaveParity | frontend/src/pages/Admin/BlukQuestionUpload.tsx:57-61 | every segment number is odd and every question number even |
| BulkUpload.NumbersAreDistinct | frontend/src/pages/Admin/BlukQuestionUpload.tsx:57-61 | no segment shares its number with a question |
| BulkUpload.NumbersIncrease | frontend/src/pages/Admin/BlukQuestionUpload.tsx:57-61 | within each list the numbers strictly increase |
| BulkUpload.OtherFieldsKept | frontend/src/pages/Admin/BlukQuestionUpload.tsx:56-60 | apart from `sequence`, each numbered item has exactly its original's properties with the same values |
| BulkUpload.NoBatchWithoutKeyZero | frontend/src/pages/Admin/BlukQuestionUpload.tsx:53 | without a truthy key "0", `data` stays empty and the section id is kept |

## Left out

- StudentPage.StreakCalls: a `null` streak in the grading reply is merged with an absent one, because `Graded` carries the streak as an `Option<int>`. The page tests `currentStreak !== undefined`, so it dispatches `setStreak(null)` for a `null` streak, where the model dispatches nothing.
- ContentView.Enabled: enables "Back to Video" and Submit on every Assessment frame. The assessment viewer renders `question.text` of `assessmentData[currentQuestionIndex]`, so it throws, and offers neither control, until a non-empty question list has loaded; that loading is not modelled. The over-approximation only lets the run lemmas cover more event sequences.
- Player creation, the seek on entering a video frame, play/pause, volume, speed, quality and captions are left out. They are calls into the YouTube iframe API. Only the pause and the seek that the sequencer itself makes are logged, as `PauseVideo` and `SeekTo`. `VideoTick` does not check whether the player object exists; the source skips the seek or poll when it does not.
- Timing and asynchrony are left out. Each interval tick and each service reply is one sequential event. Stale closures, the order of network completions, double submits and React's batching of setters are not modelled. The reply a handler's attempt start will produce is passed in with the event that starts it.
- Redux dispatches after the progress update, toasts, cookies, `localStorage` and `triggerRefresh` are left out as side channels, and so are `setSelectedAnswer` and `setGradingData`, whose values nothing in the core reads. Reading the penalty flags is reduced to the `PenaltyRaised` event. The saved-frame restore on reload is left out because nothing in the core writes the saved frame.
- `JsNumber.JsRem` gives 0 where JavaScript's `(0 - 1) % 1` gives `-0`. React treats `-0` as a new value, so in a one-frame section it would re-run the countdown effect, and the model does not.
- Frame ids are integers. The page turns them into strings for the progress update, and that conversion is not modelled.
- Times are reals, not floating point. A `null` end time, which JavaScript compares as 0, is not distinguished from an absent one.
- `StudentPage.Enabled` lets the answer controls act on any Assessment frame. The page renders them only when its question list is non-empty, and that list's loading is not modelled. Submit takes the question list as a parameter.
- The page's rendering at cursor -1, where `content[-1].source` throws, is not modelled; `StudentPage.StuckBeforeFirstFrame` models only that no event changes the state there.
- `AssessmentViewer.Panel` is not tied to the life cycle of the view that mounts it. React keeps its state across two consecutive Assessment frames and resets it otherwise.
- `BulkUpload.Get` does not model properties that arrays and strings inherit (`length`, `map`, …). The core looks up only `"0"`, `segments` and `questions`. Property order in objects is not modelled. `FileReader`, `JSON.parse` and the upload request are left out: the parsed value, or parse failure, is an input.
- `BulkUpload.Spread`'s contract states the string case only through `IndexMap`: a string spreads its characters under their index keys.
- `ContentNavigation.tsx`, the video player and article viewer components, `ProctoringWrapper.tsx` and the service declarations are not part of this model.
