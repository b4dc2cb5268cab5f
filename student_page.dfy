/**
 * The student content page (pages/Students/ContentScrollView.tsx): the lesson
 * sequencer that walks a student through a section's frames.
 *
 * `PageState` holds the component state the sequencer changes (the cursor
 * with its countdown, the selected options, the question index, the playback
 * time, the playing flag, the assessment and attempt ids) and the calls it
 * has made so far. One `After...` function per event states what the event
 * does to that state; the lemmas below them state what the page promises;
 * `LessonPage` is the component itself, whose handlers update its fields one
 * setter at a time and are proved to agree with the `After...` functions.
 */
module StudentPage {
  import opened Wrappers
  import opened JsNumber
  import opened Lesson
  import opened Answering

  datatype PageState = PageState(
    pos: Position,
    selection: seq<string>,
    questionIndex: int,
    currentTime: real,
    isPlaying: bool,
    assessmentId: Option<int>,
    attemptId: Option<string>,
    calls: seq<Call>)

  /** The countdown invariant and a question index that is never negative. */
  predicate Inv(content: seq<Frame>, s: PageState) {
    PositionInv(content, s.pos) && s.questionIndex >= 0
  }

  /** The cursor designates a frame of the section. */
  predicate OnFrame(content: seq<Frame>, s: PageState) {
    0 <= s.pos.cursor < |content|
  }

  /** The state on opening the page: the cursor from the item's sequence
      number, a full countdown (running when that frame is an Assessment),
      nothing selected, and `assessmentId` from the frame after the cursor. */
  function Initial(content: seq<Frame>, sequence: Option<int>): (s: PageState)
    ensures Inv(content, s)
  {
    var c := InitialCursor(sequence);
    PageState(Position(c, Budget, IsAssessmentAt(content, c)), [], 0, 0.0, false,
              IdAt(content, c + 1), None, [])
  }

  /** `setCurrentFrame(next)` and the countdown effect it triggers. */
  function AfterSetFrame(content: seq<Frame>, s: PageState, next: int): (r: PageState)
    requires Inv(content, s)
    ensures Inv(content, r)
  {
    s.(pos := Reposition(content, s.pos, next))
  }

  /** `fetchAssessment(i)`: `content[i + 1].id` throws past the last frame, so
      there nothing is recorded; otherwise `assessmentId` becomes that frame's
      id, and an Assessment frame gets an attempt started, whose id is kept
      only when the reply carries a non-empty one. */
  function AfterFetch(content: seq<Frame>, s: PageState, i: int, reply: StartReply): (r: PageState)
    requires Inv(content, s)
    ensures Inv(content, r)
  {
    if !(0 <= i + 1 < |content|) then s
    else
      var recorded := s.(assessmentId := Some(content[i + 1].id));
      if content[i + 1].itemType != Assessment then recorded
      else
        recorded.(calls := s.calls + StartCalls(content, i),
                  attemptId := if reply.StartOk? && reply.attemptId.Some? && reply.attemptId.value != ""
                               then reply.attemptId else s.attemptId)
  }

  /** The common advance: cursor to `(c + 1) % length`, selection and question
      index cleared, playback stopped (and the time reset when `resetTime`),
      then `fetchAssessment(c)` with the pre-advance cursor. */
  function AfterAdvance(content: seq<Frame>, s: PageState, reply: StartReply, resetTime: bool): (r: PageState)
    requires Inv(content, s) && OnFrame(content, s)
    ensures Inv(content, r)
  {
    var c := s.pos.cursor;
    var moved := AfterSetFrame(content, s, JsRem(c + 1, |content|));
    var cleared := moved.(selection := [], questionIndex := 0, isPlaying := false,
                          currentTime := if resetTime then 0.0 else s.currentTime);
    AfterFetch(content, cleared, c, reply)
  }

  /** `currentPlayerTime >= endTime`; an absent end time compares false. */
  function ReachedEnd(time: real, endTime: Option<real>): (reached: bool)
    ensures endTime.None? ==> !reached
    ensures endTime.Some? ==> (reached <==> time >= endTime.value)
  {
    endTime.Some? && time >= endTime.value
  }

  /** One poll of the playback interval of a video frame: at or past the
      frame's end time the video is paused and the page advances (keeping
      `currentTime`); before it only `currentTime` changes. */
  function AfterVideoTime(content: seq<Frame>, s: PageState, time: real, reply: StartReply): (r: PageState)
    requires Inv(content, s) && KindAt(content, s.pos.cursor) == Some(Video)
    ensures Inv(content, r)
  {
    if ReachedEnd(time, content[s.pos.cursor].endTime) then
      AfterAdvance(content, s.(calls := s.calls + [PauseVideo]), reply, false)
    else s.(currentTime := time)
  }

  /** `handleNextFrame` ("Next Part"). */
  function AfterNextPart(content: seq<Frame>, s: PageState, reply: StartReply): (r: PageState)
    requires Inv(content, s) && OnFrame(content, s)
    ensures Inv(content, r)
  {
    AfterAdvance(content, s, reply, true)
  }

  /** One second of the countdown interval: at 1 or below the interval is
      cleared, the countdown set back to the budget and the cursor retreats to
      `(c - 1) % length`; otherwise the countdown drops by one. Without an
      installed interval nothing happens. */
  function AfterSecond(content: seq<Frame>, s: PageState): (r: PageState)
    requires Inv(content, s)
    ensures Inv(content, r)
  {
    if !s.pos.timerRunning then s
    else if s.pos.countdown <= 1 then
      AfterSetFrame(content, s.(pos := s.pos.(timerRunning := false, countdown := Budget)),
                    JsRem(s.pos.cursor - 1, |content|))
    else s.(pos := s.pos.(countdown := s.pos.countdown - 1))
  }

  /** The penalty effect: on a video frame the player seeks back to the
      frame's start time; on an Assessment frame the cursor retreats;
      otherwise nothing changes. */
  function AfterPenalty(content: seq<Frame>, s: PageState): (r: PageState)
    requires Inv(content, s)
    ensures Inv(content, r)
  {
    match KindAt(content, s.pos.cursor)
    case Some(Video) => s.(calls := s.calls + [SeekTo(content[s.pos.cursor].startTime)])
    case Some(Assessment) => AfterSetFrame(content, s, JsRem(s.pos.cursor - 1, |content|))
    case _ => s
  }

  /** `handlePrevFrame` ("Back to Video"). */
  function AfterBack(content: seq<Frame>, s: PageState): (r: PageState)
    requires Inv(content, s) && OnFrame(content, s)
    ensures Inv(content, r)
  {
    AfterSetFrame(content, s, JsRem(s.pos.cursor - 1, |content|))
  }

  /** `handleOptionClick(option, question)`. */
  function AfterOptionClick(s: PageState, option: string, question: Question): (r: PageState)
    ensures r.selection == PageToggle(s.selection, option, question.multiSelect)
    ensures r.(selection := s.selection) == s
  {
    s.(selection := PageToggle(s.selection, option, question.multiSelect))
  }

  /** The Previous button: disabled on the first question, otherwise
      `Math.max(i - 1, 0)`. */
  function AfterPrevious(s: PageState): (r: PageState)
    requires s.questionIndex >= 0
    ensures r.questionIndex >= 0
    ensures r.questionIndex == (if s.questionIndex == 0 then 0 else s.questionIndex - 1)
    ensures r.(questionIndex := s.questionIndex) == s
  {
    if s.questionIndex == 0 then s else s.(questionIndex := PreviousIndex(s.questionIndex))
  }

  /** `dispatch(setStreak(...))` happens only when the grading carries a streak. */
  function StreakCalls(streak: Option<int>): (calls: seq<Call>)
    ensures calls != [] <==> streak.Some?
    ensures calls != [] ==> calls == [SetStreak(streak)]
  {
    if streak.Some? then [SetStreak(streak)] else []
  }

  /** The Submit button and `handleSubmit`. Disabled with nothing selected.
      Otherwise the current question's answer is sent; a reply without data
      changes nothing more. A grading of exactly `false` retreats the cursor.
      Any other grading first reads `content[c - 1].id`, which throws at the
      first frame (the error is caught and only reported); elsewhere it
      records progress for the previous and the current frame and then
      advances, or, on the last frame, navigates home. */
  function AfterSubmit(content: seq<Frame>, s: PageState, questions: seq<Question>,
                       grading: Grading, reply: StartReply): (r: PageState)
    requires Inv(content, s) && OnFrame(content, s) && 0 <= s.questionIndex < |questions|
    ensures Inv(content, r)
  {
    if !SubmitEnabled(s.selection) then s
    else
      var c := s.pos.cursor;
      var sent := s.(calls := s.calls + [Sent(s, questions)]);
      match grading
      case SubmitFailed => sent
      case Graded(correct, streak) =>
        AfterGrading(content, sent.(calls := sent.calls + StreakCalls(streak)), correct, reply)
  }

  /** What a grading does once the streak is dispatched: `false` retreats;
      anything else first reads `content[c - 1].id`, which throws at the
      first frame, and otherwise records progress and advances or, on the
      last frame, navigates home. */
  function AfterGrading(content: seq<Frame>, s: PageState, correct: Option<bool>, reply: StartReply): (r: PageState)
    requires Inv(content, s) && OnFrame(content, s)
    ensures Inv(content, r)
  {
    var c := s.pos.cursor;
    if correct == Some(false) then AfterSetFrame(content, s, JsRem(c - 1, |content|))
    else if c == 0 then s
    else
      var recorded := s.(calls := s.calls + [UpdateProgress(ProgressPair(content, c), true)]);
      if c + 1 != |content| then AfterAdvance(content, recorded, reply, true)
      else recorded.(calls := recorded.calls + [NavigateHome])
  }

  // ---------------------------------------------------------------------
  // What the page promises

  /** Every advance moves to the next frame (wrapping to the first after the
      last), clears the selection and the question index, stops playback,
      and starts an attempt exactly when the next frame is an Assessment. */
  lemma AdvanceMovesOn(content: seq<Frame>, s: PageState, reply: StartReply, resetTime: bool)
    requires Inv(content, s) && OnFrame(content, s)
    ensures var r := AfterAdvance(content, s, reply, resetTime);
            var c := s.pos.cursor;
            && r.pos.cursor == (if c + 1 == |content| then 0 else c + 1)
            && r.selection == [] && r.questionIndex == 0 && !r.isPlaying
            && r.currentTime == (if resetTime then 0.0 else s.currentTime)
            && r.calls == s.calls + StartCalls(content, c)
            && r.assessmentId == (if c + 1 < |content| then Some(content[c + 1].id) else s.assessmentId)
            && r.attemptId == (if IsAssessmentAt(content, c + 1) && reply.StartOk? && reply.attemptId.Some?
                                  && reply.attemptId.value != ""
                               then reply.attemptId else s.attemptId)
  {
    AdvanceIndex(s.pos.cursor, |content|);
  }

  /** `fetchAssessment(i)` for every index and reply: past the last frame it
      does nothing; otherwise it records the next frame's id as the
      assessment, starts an attempt exactly for an Assessment frame, and
      replaces the attempt id only by a non-empty one from a successful
      start. Nothing else changes. */
  lemma FetchRule(content: seq<Frame>, s: PageState, i: int, reply: StartReply)
    requires Inv(content, s)
    ensures !(0 <= i + 1 < |content|) ==> AfterFetch(content, s, i, reply) == s
    ensures 0 <= i + 1 < |content| ==>
              AfterFetch(content, s, i, reply)
                == s.(assessmentId := Some(content[i + 1].id),
                      calls := s.calls + StartCalls(content, i),
                      attemptId := if IsAssessmentAt(content, i + 1) && reply.StartOk?
                                      && reply.attemptId.Some? && reply.attemptId.value != ""
                                   then reply.attemptId else s.attemptId)
  {
  }

  /** Below the end time a poll changes nothing but the playback time; at or
      past it the video is paused and the page advances. */
  lemma VideoTimeRule(content: seq<Frame>, s: PageState, time: real, reply: StartReply)
    requires Inv(content, s) && KindAt(content, s.pos.cursor) == Some(Video)
    ensures !ReachedEnd(time, content[s.pos.cursor].endTime) ==>
              AfterVideoTime(content, s, time, reply) == s.(currentTime := time)
    ensures ReachedEnd(time, content[s.pos.cursor].endTime) ==>
              AfterVideoTime(content, s, time, reply).calls
                == s.calls + [PauseVideo] + StartCalls(content, s.pos.cursor)
    ensures ReachedEnd(time, content[s.pos.cursor].endTime) ==>
              AfterVideoTime(content, s, time, reply)
                == AfterAdvance(content, s.(calls := s.calls + [PauseVideo]), reply, false)
    ensures content[s.pos.cursor].endTime.None? ==>
              AfterVideoTime(content, s, time, reply).pos == s.pos
  {
  }

  /** The retreat shared by "Back to Video", a wrong answer, countdown
      expiry and a penalty on an Assessment frame lands one frame back, and
      on the first frame at -1 (0 when the section has one frame). */
  lemma RetreatLandsBack(content: seq<Frame>, s: PageState)
    requires Inv(content, s) && OnFrame(content, s)
    ensures var c := s.pos.cursor;
            AfterBack(content, s).pos.cursor == (if c >= 1 then c - 1 else if |content| == 1 then 0 else -1)
  ensures AfterBack(content, s).(pos := s.pos) == s
  {
    RetreatIndex(s.pos.cursor, |content|);
  }

  /** "Next Part" after "Back to Video" returns to the frame the student
      left, unless the retreat went to -1. */
  lemma BackThenNextPartReturns(content: seq<Frame>, s: PageState, reply: StartReply)
    requires Inv(content, s) && OnFrame(content, s)
    requires s.pos.cursor >= 1 || |content| == 1
    ensures OnFrame(content, AfterBack(content, s))
    ensures AfterNextPart(content, AfterBack(content, s), reply).pos.cursor == s.pos.cursor
  {
    var c := s.pos.cursor;
    RetreatLandsBack(content, s);
    AdvanceMovesOn(content, AfterBack(content, s), reply, true);
    RetreatThenAdvance(c, |content|);
  }

  /** The countdown: with an interval installed, a second at 1 or below
      retreats the cursor and leaves the countdown at the full budget, and
      any other second takes exactly one off; the countdown only ever runs on
      an Assessment frame. */
  lemma CountdownRule(content: seq<Frame>, s: PageState)
    requires Inv(content, s) && s.pos.timerRunning
    ensures IsAssessmentAt(content, s.pos.cursor)
    ensures s.pos.countdown <= 1 ==>
              && AfterSecond(content, s).pos.cursor == JsRem(s.pos.cursor - 1, |content|)
              && AfterSecond(content, s).pos.countdown == Budget
              && AfterSecond(content, s).(pos := s.pos) == s
    ensures s.pos.countdown > 1 ==>
              AfterSecond(content, s) == s.(pos := s.pos.(countdown := s.pos.countdown - 1))
  {
  }

  /** A penalty on a video frame seeks to its start and leaves the cursor;
      one on an Assessment frame retreats exactly like "Back to Video". */
  lemma PenaltyRule(content: seq<Frame>, s: PageState)
    requires Inv(content, s)
    ensures KindAt(content, s.pos.cursor) == Some(Video) ==>
              AfterPenalty(content, s) == s.(calls := s.calls + [SeekTo(content[s.pos.cursor].startTime)])
    ensures KindAt(content, s.pos.cursor) == Some(Assessment) ==>
              AfterPenalty(content, s) == AfterBack(content, s)
    ensures KindAt(content, s.pos.cursor) != Some(Video) && KindAt(content, s.pos.cursor) != Some(Assessment) ==>
              AfterPenalty(content, s) == s
  {
  }

  /** Nothing selected: Submit is disabled and nothing reaches the grading service. */
  lemma EmptySelectionSubmitsNothing(content: seq<Frame>, s: PageState, questions: seq<Question>,
                                     grading: Grading, reply: StartReply)
    requires Inv(content, s) && OnFrame(content, s) && 0 <= s.questionIndex < |questions|
    requires s.selection == []
    ensures AfterSubmit(content, s, questions, grading, reply) == s
  {
  }

  /** The answer sent for a submit: the current question's id with the
      current selection, attempt and assessment. */
  function Sent(s: PageState, questions: seq<Question>): Call
    requires 0 <= s.questionIndex < |questions|
  {
    SubmitAnswer(s.assessmentId, s.attemptId, questions[s.questionIndex].id, s.selection)
  }

  /** A failed submit changes no cursor or answer state. */
  lemma FailedSubmitKeepsState(content: seq<Frame>, s: PageState, questions: seq<Question>, reply: StartReply)
    requires Inv(content, s) && OnFrame(content, s) && 0 <= s.questionIndex < |questions|
    requires s.selection != []
    ensures AfterSubmit(content, s, questions, SubmitFailed, reply)
              == s.(calls := s.calls + [Sent(s, questions)])
  {
  }

  /** A wrong answer retreats the cursor, keeps the selection, the question,
      the playback and the same assessment and attempt, and makes no progress
      update. */
  lemma WrongAnswerRetreats(content: seq<Frame>, s: PageState, questions: seq<Question>,
                            streak: Option<int>, reply: StartReply)
    requires Inv(content, s) && OnFrame(content, s) && 0 <= s.questionIndex < |questions|
    requires s.selection != []
    ensures var r := AfterSubmit(content, s, questions, Graded(Some(false), streak), reply);
            var c := s.pos.cursor;
            && r.pos.cursor == (if c >= 1 then c - 1 else if |content| == 1 then 0 else -1)
            && r.calls == s.calls + [Sent(s, questions)] + StreakCalls(streak)
            && ProgressUpdates(r.calls) == ProgressUpdates(s.calls)
            && r.selection == s.selection && r.questionIndex == s.questionIndex
            && r.(pos := s.pos, calls := s.calls) == s
  {
    RetreatIndex(s.pos.cursor, |content|);
    var added := [Sent(s, questions)] + StreakCalls(streak);
    var graded := s.(calls := s.calls + added);
    assert s.calls + [Sent(s, questions)] + StreakCalls(streak) == s.calls + added;
    assert AfterSubmit(content, s, questions, Graded(Some(false), streak), reply)
             == AfterGrading(content, graded, Some(false), reply);
    NoProgressUpdates(added);
    ProgressUpdatesAppend(s.calls, added);
  }

  /** A correct answer past the first frame makes exactly one progress
      update, for the previous and the current frame with cascading; then it
      advances, or on the last frame navigates home without moving. */
  lemma CorrectAnswerRecordsProgress(content: seq<Frame>, s: PageState, questions: seq<Question>,
                                     correct: Option<bool>, streak: Option<int>, reply: StartReply)
    requires Inv(content, s) && OnFrame(content, s) && 0 <= s.questionIndex < |questions|
    requires s.selection != [] && correct != Some(false) && s.pos.cursor >= 1
    ensures var r := AfterSubmit(content, s, questions, Graded(correct, streak), reply);
            var c := s.pos.cursor;
            && ProgressUpdates(r.calls)
                 == ProgressUpdates(s.calls) + [UpdateProgress([content[c - 1].id, content[c].id], true)]
            && (c + 1 != |content| ==>
                  r.pos.cursor == c + 1 && r.selection == [] && r.questionIndex == 0
                  && r.currentTime == 0.0 && !r.isPlaying)
            && (c + 1 == |content| ==>
                  r.pos == s.pos && r.calls[|r.calls| - 1] == NavigateHome)
  {
    var c := s.pos.cursor;
    var update := UpdateProgress(ProgressPair(content, c), true);
    var tail := if c + 1 != |content| then StartCalls(content, c) else [NavigateHome];
    var added := [Sent(s, questions)] + StreakCalls(streak);
    var graded := s.(calls := s.calls + added);
    var r := AfterSubmit(content, s, questions, Graded(correct, streak), reply);
    assert s.calls + [Sent(s, questions)] + StreakCalls(streak) == s.calls + added;
    assert r == AfterGrading(content, graded, correct, reply);
    GradingAdvances(content, graded, correct, reply);
    assert r.calls == (s.calls + added) + [update] + tail;
    assert forall i :: 0 <= i < |added| ==> !added[i].UpdateProgress?;
    assert forall i :: 0 <= i < |tail| ==> !tail[i].UpdateProgress?;
    OneUpdateBetween(s.calls, added, update, tail);
  }

  /** A grading other than `false` past the first frame adds the progress
      update and then the advance's calls, or the navigation home. */
  lemma GradingAdvances(content: seq<Frame>, s: PageState, correct: Option<bool>, reply: StartReply)
    requires Inv(content, s) && OnFrame(content, s) && correct != Some(false) && s.pos.cursor >= 1
    ensures var r := AfterGrading(content, s, correct, reply);
            var c := s.pos.cursor;
            && r.calls == s.calls + [UpdateProgress(ProgressPair(content, c), true)]
                          + (if c + 1 != |content| then StartCalls(content, c) else [NavigateHome])
            && (c + 1 != |content| ==>
                  r.pos.cursor == c + 1 && r.selection == [] && r.questionIndex == 0
                  && r.currentTime == 0.0 && !r.isPlaying)
            && (c + 1 == |content| ==> r.(calls := s.calls) == s)
  {
    var c := s.pos.cursor;
    var recorded := s.(calls := s.calls + [UpdateProgress(ProgressPair(content, c), true)]);
    if c + 1 != |content| {
      AdvanceMovesOn(content, recorded, reply, true);
    }
  }

  /** A grading other than `false` on the first frame reads `content[-1]`,
      which throws: no progress update and no move. */
  lemma CorrectAnswerAtFirstFrameFails(content: seq<Frame>, s: PageState, questions: seq<Question>,
                                       correct: Option<bool>, streak: Option<int>, reply: StartReply)
    requires Inv(content, s) && OnFrame(content, s) && 0 <= s.questionIndex < |questions|
    requires s.selection != [] && correct != Some(false) && s.pos.cursor == 0
    ensures AfterSubmit(content, s, questions, Graded(correct, streak), reply)
              == s.(calls := s.calls + [Sent(s, questions)] + StreakCalls(streak))
  {
  }

  // ---------------------------------------------------------------------
  // Runs of events

  /** The events the page responds to, each with what it needs from outside
      (the player's time, the question list, the replies of the services). */
  datatype Event =
    | VideoTimeUpdate(time: real, startReply: StartReply)
    | NextPartClicked(startReply: StartReply)
    | SecondElapsed
    | PenaltyRaised
    | BackClicked
    | OptionClicked(option: string, question: Question)
    | PreviousClicked
    | SubmitClicked(questions: seq<Question>, grading: Grading, startReply: StartReply)

  /** Whether the page can receive an event: the playback poll runs on a
      video frame, "Next Part" is shown on an article frame, and the answer
      controls only on an Assessment frame with its question on display.
      The two timers fire whatever the frame; every control a student uses
      is on a frame. */
  function Enabled(content: seq<Frame>, s: PageState, e: Event): (enabled: bool)
    ensures e.SecondElapsed? || e.PenaltyRaised? ==> enabled
    ensures enabled && !e.SecondElapsed? && !e.PenaltyRaised? ==> OnFrame(content, s)
    ensures e.BackClicked? ==> (enabled <==> IsAssessmentAt(content, s.pos.cursor))
  {
    match e
    case VideoTimeUpdate(_, _) => KindAt(content, s.pos.cursor) == Some(Video)
    case NextPartClicked(_) => KindAt(content, s.pos.cursor) == Some(Article)
    case SecondElapsed => true
    case PenaltyRaised => true
    case BackClicked => KindAt(content, s.pos.cursor) == Some(Assessment)
    case OptionClicked(_, _) => KindAt(content, s.pos.cursor) == Some(Assessment)
    case PreviousClicked => KindAt(content, s.pos.cursor) == Some(Assessment)
    case SubmitClicked(questions, _, _) =>
      KindAt(content, s.pos.cursor) == Some(Assessment) && 0 <= s.questionIndex < |questions|
  }

  function Step(content: seq<Frame>, s: PageState, e: Event): (r: PageState)
    requires Inv(content, s) && Enabled(content, s, e)
    ensures Inv(content, r)
  {
    match e
    case VideoTimeUpdate(time, reply) => AfterVideoTime(content, s, time, reply)
    case NextPartClicked(reply) => AfterNextPart(content, s, reply)
    case SecondElapsed => AfterSecond(content, s)
    case PenaltyRaised => AfterPenalty(content, s)
    case BackClicked => AfterBack(content, s)
    case OptionClicked(option, question) => AfterOptionClick(s, option, question)
    case PreviousClicked => AfterPrevious(s)
    case SubmitClicked(questions, grading, reply) => AfterSubmit(content, s, questions, grading, reply)
  }

  /** The state after a run of events; an event the page cannot receive in
      the state it arrives in is ignored. */
  function Run(content: seq<Frame>, s: PageState, events: seq<Event>): (r: PageState)
    requires Inv(content, s)
    ensures Inv(content, r)
    decreases |events|
  {
    if events == [] then s
    else
      var next := if Enabled(content, s, events[0]) then Step(content, s, events[0]) else s;
      Run(content, next, events[1..])
  }

  /** One event keeps the cursor within `[-1, length)`: it designates a frame,
      or it is the -1 that a retreat from the first frame leaves. */
  lemma StepStaysInRange(content: seq<Frame>, s: PageState, e: Event)
    requires Inv(content, s) && Enabled(content, s, e)
    requires -1 <= s.pos.cursor < |content|
    ensures -1 <= Step(content, s, e).pos.cursor < |content|
  {
    if 0 <= s.pos.cursor < |content| {
      AdvanceIndex(s.pos.cursor, |content|);
      RetreatIndex(s.pos.cursor, |content|);
    }
  }

  /** Whatever the students and the services do, a cursor that starts on a
      frame (or at -1) stays within `[-1, length)`. */
  lemma {:induction false} RunStaysInRange(content: seq<Frame>, s: PageState, events: seq<Event>)
    requires Inv(content, s) && -1 <= s.pos.cursor < |content|
    ensures -1 <= Run(content, s, events).pos.cursor < |content|
    decreases |events|
  {
    if events != [] {
      var next := if Enabled(content, s, events[0]) then Step(content, s, events[0]) else s;
      if Enabled(content, s, events[0]) {
        StepStaysInRange(content, s, events[0]);
      }
      RunStaysInRange(content, next, events[1..]);
    }
  }

  /** Nothing on the page moves to a later question (there is no Next
      button), so a run that starts on the first question stays there and
      Previous stays disabled. */
  lemma {:induction false} RunKeepsFirstQuestion(content: seq<Frame>, s: PageState, events: seq<Event>)
    requires Inv(content, s) && s.questionIndex == 0
    ensures Run(content, s, events).questionIndex == 0
    decreases |events|
  {
    if events != [] {
      var next := if Enabled(content, s, events[0]) then Step(content, s, events[0]) else s;
      RunKeepsFirstQuestion(content, next, events[1..]);
    }
  }

  /** At -1, where the first frame's retreat leaves the cursor, no frame is
      shown, no countdown runs and a penalty finds no frame: nothing changes
      any more. */
  lemma {:induction false} StuckBeforeFirstFrame(content: seq<Frame>, s: PageState, events: seq<Event>)
    requires Inv(content, s) && s.pos.cursor == -1
    ensures Run(content, s, events) == s
    decreases |events|
  {
    if events != [] {
      assert !s.pos.timerRunning;
      StuckBeforeFirstFrame(content, s, events[1..]);
    }
  }

  // ---------------------------------------------------------------------
  // The component

  class LessonPage {
    const content: seq<Frame>
    var cursor: int
    var countdown: int
    var timerRunning: bool
    var selection: seq<string>
    var questionIndex: int
    var currentTime: real
    var isPlaying: bool
    var assessmentId: Option<int>
    var attemptId: Option<string>
    var calls: seq<Call>

    function State(): PageState
      reads this
    {
      PageState(Position(cursor, countdown, timerRunning), selection, questionIndex,
                currentTime, isPlaying, assessmentId, attemptId, calls)
    }

    ghost predicate Valid()
      reads this
    {
      Inv(content, State())
    }

    constructor (content: seq<Frame>, sequence: Option<int>)
      ensures Valid() && this.content == content
      ensures State() == Initial(content, sequence)
    {
      var c := InitialCursor(sequence);
      this.content := content;
      cursor := c;
      countdown := Budget;
      timerRunning := IsAssessmentAt(content, c);
      selection := [];
      questionIndex := 0;
      currentTime := 0.0;
      isPlaying := false;
      assessmentId := IdAt(content, c + 1);
      attemptId := None;
      calls := [];
    }

    /** `setCurrentFrame(next)` followed by the countdown effect. */
    method SetCurrentFrame(next: int)
      requires Valid()
      modifies this
      ensures Valid()
      ensures State() == AfterSetFrame(content, old(State()), next)
    {
      if next != cursor {
        cursor := next;
        timerRunning := IsAssessmentAt(content, next);
        if timerRunning {
          countdown := Budget;
        }
      }
    }

    method FetchAssessment(frameIndex: int, reply: StartReply)
      requires Valid()
      modifies this
      ensures Valid()
      ensures State() == AfterFetch(content, old(State()), frameIndex, reply)
    {
      if 0 <= frameIndex + 1 < |content| {
        var next := content[frameIndex + 1];
        assessmentId := Some(next.id);
        if next.itemType == Assessment {
          calls := calls + [StartAttempt(next.id)];
          if reply.StartOk? && reply.attemptId.Some? && reply.attemptId.value != "" {
            attemptId := reply.attemptId;
          }
        }
      }
    }

    method VideoTick(time: real, reply: StartReply)
      requires Valid() && KindAt(content, cursor) == Some(Video)
      modifies this
      ensures Valid()
      ensures State() == AfterVideoTime(content, old(State()), time, reply)
    {
      var c := cursor;
      if ReachedEnd(time, content[c].endTime) {
        calls := calls + [PauseVideo];
        SetCurrentFrame(JsRem(c + 1, |content|));
        selection := [];
        questionIndex := 0;
        isPlaying := false;
        FetchAssessment(c, reply);
      } else {
        currentTime := time;
      }
    }

    method NextPart(reply: StartReply)
      requires Valid() && 0 <= cursor < |content|
      modifies this
      ensures Valid()
      ensures State() == AfterNextPart(content, old(State()), reply)
    {
      var c := cursor;
      SetCurrentFrame(JsRem(c + 1, |content|));
      selection := [];
      questionIndex := 0;
      currentTime := 0.0;
      isPlaying := false;
      FetchAssessment(c, reply);
    }

    method CountdownTick()
      requires Valid()
      modifies this
      ensures Valid()
      ensures State() == AfterSecond(content, old(State()))
    {
      if timerRunning {
        if countdown <= 1 {
          timerRunning := false;
          countdown := Budget;
          SetCurrentFrame(JsRem(cursor - 1, |content|));
        } else {
          countdown := countdown - 1;
        }
      }
    }

    method Penalty()
      requires Valid()
      modifies this
      ensures Valid()
      ensures State() == AfterPenalty(content, old(State()))
    {
      var kind := KindAt(content, cursor);
      if kind == Some(Video) {
        calls := calls + [SeekTo(content[cursor].startTime)];
      }
      if kind == Some(Assessment) {
        SetCurrentFrame(JsRem(cursor - 1, |content|));
      }
    }

    method BackToVideo()
      requires Valid() && 0 <= cursor < |content|
      modifies this
      ensures Valid()
      ensures State() == AfterBack(content, old(State()))
    {
      SetCurrentFrame(JsRem(cursor - 1, |content|));
    }

    method OptionClick(option: string, question: Question)
      requires Valid()
      modifies this
      ensures Valid()
      ensures State() == AfterOptionClick(old(State()), option, question)
    {
      selection := PageToggle(selection, option, question.multiSelect);
    }

    method PreviousClick()
      requires Valid()
      modifies this
      ensures Valid()
      ensures State() == AfterPrevious(old(State()))
    {
      if questionIndex != 0 {
        questionIndex := PreviousIndex(questionIndex);
      }
    }

    method SubmitClick(questions: seq<Question>, grading: Grading, reply: StartReply)
      requires Valid() && 0 <= cursor < |content| && 0 <= questionIndex < |questions|
      modifies this
      ensures Valid()
      ensures State() == AfterSubmit(content, old(State()), questions, grading, reply)
    {
      if !SubmitEnabled(selection) {
        return;
      }
      calls := calls + [SubmitAnswer(assessmentId, attemptId, questions[questionIndex].id, selection)];
      if grading.SubmitFailed? {
        return;
      }
      calls := calls + StreakCalls(grading.currentStreak);
      ApplyGrading(grading.isAnswerCorrect, reply);
    }

    /** The branches of `handleSubmit` after the streak is dispatched. */
    method ApplyGrading(correct: Option<bool>, reply: StartReply)
      requires Valid() && 0 <= cursor < |content|
      modifies this
      ensures Valid()
      ensures State() == AfterGrading(content, old(State()), correct, reply)
    {
      var c := cursor;
      if correct == Some(false) {
        SetCurrentFrame(JsRem(c - 1, |content|));
        return;
      }
      if c == 0 {
        return;
      }
      calls := calls + [UpdateProgress(ProgressPair(content, c), true)];
      if c + 1 != |content| {
        SetCurrentFrame(JsRem(c + 1, |content|));
        selection := [];
        questionIndex := 0;
        currentTime := 0.0;
        isPlaying := false;
        FetchAssessment(c, reply);
      } else {
        calls := calls + [NavigateHome];
      }
    }
  }

  /** A section of a video, its assessment and a second video, driven
      through a wrong and then a correct answer: what a caller can conclude
      from the contracts alone. */
  method LessonWalkthrough() {
    var first := Frame(10, Video, None, "", Some(0.0), Some(10.0));
    var quiz := Frame(11, Assessment, None, "", None, None);
    var second := Frame(12, Video, None, "", Some(10.0), Some(20.0));
    var question := Question(7, false, ["a", "b"]);
    var page := new LessonPage([first, quiz, second], None);
    assert page.cursor == 0;

    page.VideoTick(10.0, StartOk(Some("attempt-1")));
    assert page.cursor == 1 && page.countdown == Budget && page.timerRunning;
    assert page.calls == [PauseVideo, StartAttempt(11)];
    assert page.attemptId == Some("attempt-1");

    page.OptionClick("a", question);
    assert page.selection == ["a"] && page.cursor == 1;
    ghost var before := page.State();
    page.SubmitClick([question], Graded(Some(false), None), StartFailed);
    WrongAnswerRetreats(page.content, before, [question], None, StartFailed);
    assert page.cursor == 0 && !page.timerRunning;

    page.VideoTick(10.0, StartOk(Some("attempt-2")));
    assert page.cursor == 1 && page.selection == [];
    page.OptionClick("a", question);
    assert page.selection == ["a"] && page.cursor == 1 && page.questionIndex == 0;
    before := page.State();
    page.SubmitClick([question], Graded(Some(true), Some(3)), StartFailed);
    CorrectAnswerRecordsProgress(page.content, before, [question], Some(true), Some(3), StartFailed);
    assert page.cursor == 2;
    assert UpdateProgress([10, 11], true) in ProgressUpdates(page.calls);
    assert UpdateProgress([10, 11], true) in page.calls;
  }
}
