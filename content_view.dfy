/**
 * The refactored content view (components/Content/ContentScrollView.tsx):
 * the same sequencer as the student page, split into components. The view
 * keeps the cursor with its countdown, the assessment and attempt ids, and
 * the calls made; the answer state lives in the assessment panel (module
 * AssessmentViewer), which hands the selection to `Submit`.
 *
 * It differs from the page in small ways that the lemmas below state: the
 * attempt guard tolerates a missing next frame, the attempt id is taken from
 * any reply that has data, a correct answer past the first frame always
 * advances (wrapping to the first frame from the last), the streak is
 * dispatched on every graded answer that does not throw (a correct answer on
 * the first frame throws first), and "Back to Video" subtracts one without a
 * remainder.
 */
module ContentView {
  import opened Wrappers
  import opened JsNumber
  import opened Lesson

  datatype ViewState = ViewState(
    pos: Position,
    assessmentId: Option<int>,
    attemptId: Option<string>,
    calls: seq<Call>)

  predicate Inv(content: seq<Frame>, s: ViewState) {
    PositionInv(content, s.pos)
  }

  predicate OnFrame(content: seq<Frame>, s: ViewState) {
    0 <= s.pos.cursor < |content|
  }

  /** The state on mounting: the cursor from the item's sequence number, no
      assessment and no attempt yet, and the countdown running when the
      first frame shown is an Assessment. */
  function Initial(content: seq<Frame>, sequence: Option<int>): (s: ViewState)
    ensures Inv(content, s)
    ensures s.assessmentId.None? && s.attemptId.None? && s.calls == []
  {
    var c := InitialCursor(sequence);
    ViewState(Position(c, Budget, IsAssessmentAt(content, c)), None, None, [])
  }

  /** `setCurrentFrame(next)` and the countdown effect it triggers. */
  function AfterSetFrame(content: seq<Frame>, s: ViewState, next: int): (r: ViewState)
    requires Inv(content, s)
    ensures Inv(content, r)
  {
    s.(pos := Reposition(content, s.pos, next))
  }

  /** `fetchAssessment(i)`: only when the frame after `i` exists and is an
      Assessment, the assessment id is set and an attempt started; a reply
      with data sets the attempt id to whatever the data carries, and a
      reply without data throws in the handler and is only reported. */
  function AfterFetch(content: seq<Frame>, s: ViewState, i: int, reply: StartReply): (r: ViewState)
    requires Inv(content, s)
    ensures Inv(content, r)
  {
    if !IsAssessmentAt(content, i + 1) then s
    else
      s.(assessmentId := Some(content[i + 1].id),
         calls := s.calls + StartCalls(content, i),
         attemptId := if reply.StartOk? then reply.attemptId else s.attemptId)
  }

  /** `handleNextFrame`: the cursor to `(c + 1) % length`, then the attempt
      guard on the frame after the pre-advance cursor. */
  function AfterNextFrame(content: seq<Frame>, s: ViewState, reply: StartReply): (r: ViewState)
    requires Inv(content, s) && OnFrame(content, s)
    ensures Inv(content, r)
  {
    var c := s.pos.cursor;
    AfterFetch(content, AfterSetFrame(content, s, JsRem(c + 1, |content|)), c, reply)
  }

  /** One second of the countdown interval: at 1 or below the cursor moves
      to `(c - 1) % length` and the countdown is set back to the budget; the
      interval itself stays until the cursor change re-runs the effect.
      Otherwise the countdown drops by one. */
  function AfterSecond(content: seq<Frame>, s: ViewState): (r: ViewState)
    requires Inv(content, s)
    ensures Inv(content, r)
  {
    if !s.pos.timerRunning then s
    else if s.pos.countdown <= 1 then
      AfterSetFrame(content, s.(pos := s.pos.(countdown := Budget)), JsRem(s.pos.cursor - 1, |content|))
    else s.(pos := s.pos.(countdown := s.pos.countdown - 1))
  }

  /** The `onPrevFrame` lambda: the cursor minus one, with no remainder. */
  function AfterBack(content: seq<Frame>, s: ViewState): (r: ViewState)
    requires Inv(content, s)
    ensures Inv(content, r)
  {
    AfterSetFrame(content, s, s.pos.cursor - 1)
  }

  /** `handleSubmitAssessment(selection)`: the answer to the first question
      is sent. A reply without data throws in the handler and nothing more
      happens. A truthy grading reads `content[c - 1].id`, which throws at
      the first frame; elsewhere it records progress for the previous and
      the current frame and advances. Any other grading retreats. Both
      branches then dispatch the reply's streak. */
  function AfterSubmit(content: seq<Frame>, s: ViewState, questions: seq<Question>,
                       selection: seq<string>, grading: Grading, reply: StartReply): (r: ViewState)
    requires Inv(content, s) && OnFrame(content, s) && |questions| > 0
    ensures Inv(content, r)
  {
    var c := s.pos.cursor;
    var sent := s.(calls := s.calls + [SubmitAnswer(s.assessmentId, s.attemptId, questions[0].id, selection)]);
    match grading
    case SubmitFailed => sent
    case Graded(correct, streak) =>
      if correct == Some(true) then
        if c == 0 then sent
        else
          var recorded := sent.(calls := sent.calls + [UpdateProgress(ProgressPair(content, c), true)]);
          var moved := AfterNextFrame(content, recorded, reply);
          moved.(calls := moved.calls + [SetStreak(streak)])
      else
        var moved := AfterSetFrame(content, sent, JsRem(c - 1, |content|));
        moved.(calls := moved.calls + [SetStreak(streak)])
  }

  /** What `renderContent` shows for a frame. */
  datatype View = VideoView(frame: Frame) | AssessmentView | ArticleView(body: string) | Placeholder

  /** `renderContent`: the viewer for the current frame's item type, and a
      placeholder for an unknown type or a cursor off the list. */
  function RenderContent(content: seq<Frame>, cursor: int): (v: View)
    ensures v.VideoView? <==> KindAt(content, cursor) == Some(Video)
    ensures v.AssessmentView? <==> KindAt(content, cursor) == Some(Assessment)
    ensures v.ArticleView? <==> KindAt(content, cursor) == Some(Article)
    ensures v.VideoView? ==> v.frame == content[cursor]
    ensures v.ArticleView? ==> v.body == content[cursor].body
  {
    match KindAt(content, cursor)
    case Some(Video) => VideoView(content[cursor])
    case Some(Assessment) => AssessmentView
    case Some(Article) => ArticleView(content[cursor].body)
    case _ => Placeholder
  }

  // ---------------------------------------------------------------------
  // What the view promises

  /** An empty section, or a cursor off the list, renders the placeholder. */
  lemma RenderOffTheList(content: seq<Frame>, cursor: int)
    requires !(0 <= cursor < |content|)
    ensures RenderContent(content, cursor) == Placeholder
  {
  }

  /** Past the last frame the attempt guard finds no frame and does nothing. */
  lemma FetchPastEndIsNoOp(content: seq<Frame>, s: ViewState, i: int, reply: StartReply)
    requires Inv(content, s) && i + 1 >= |content|
    ensures AfterFetch(content, s, i, reply) == s
  {
  }

  /** "Next" moves to `(c + 1) % length`; an attempt is started, for the
      frame after `c`, exactly when that frame is an Assessment, which short
      of the last frame is the frame the cursor lands on. */
  lemma NextFrameRule(content: seq<Frame>, s: ViewState, reply: StartReply)
    requires Inv(content, s) && OnFrame(content, s)
    ensures var r := AfterNextFrame(content, s, reply);
            var c := s.pos.cursor;
            && r.pos.cursor == (if c + 1 == |content| then 0 else c + 1)
            && r.calls == s.calls + StartCalls(content, c)
            && (c + 1 < |content| ==> (StartCalls(content, c) != [] <==> IsAssessmentAt(content, r.pos.cursor)))
            && (r.assessmentId != s.assessmentId ==> IsAssessmentAt(content, c + 1))
            && (StartCalls(content, c) == [] ==> r.attemptId == s.attemptId && r.assessmentId == s.assessmentId)
            && (IsAssessmentAt(content, c + 1) ==>
                  r.assessmentId == Some(content[c + 1].id)
                  && r.attemptId == (if reply.StartOk? then reply.attemptId else s.attemptId))
  {
    AdvanceIndex(s.pos.cursor, |content|);
  }

  /** `fetchAssessment(i)` for every index and reply: unless the frame after
      `i` is an Assessment nothing happens; otherwise its id becomes the
      assessment, one attempt is started for it, and a successful start
      replaces the attempt id by whatever it carries. Nothing else changes. */
  lemma FetchRule(content: seq<Frame>, s: ViewState, i: int, reply: StartReply)
    requires Inv(content, s)
    ensures !IsAssessmentAt(content, i + 1) ==> AfterFetch(content, s, i, reply) == s
    ensures IsAssessmentAt(content, i + 1) ==>
              AfterFetch(content, s, i, reply)
                == s.(assessmentId := Some(content[i + 1].id),
                      calls := s.calls + [StartAttempt(content[i + 1].id)],
                      attemptId := if reply.StartOk? then reply.attemptId else s.attemptId)
  {
  }

  /** A reply with data sets the attempt id even when it carries none. */
  lemma AttemptIdTakenFromAnyReply(content: seq<Frame>, s: ViewState, i: int)
    requires Inv(content, s) && IsAssessmentAt(content, i + 1)
    ensures AfterFetch(content, s, i, StartOk(None)).attemptId == None
  {
  }

  /** The countdown: a second at 1 or below retreats and restores the
      budget, any other second takes exactly one off. */
  lemma CountdownRule(content: seq<Frame>, s: ViewState)
    requires Inv(content, s) && s.pos.timerRunning
    ensures IsAssessmentAt(content, s.pos.cursor)
    ensures s.pos.countdown <= 1 ==>
              && AfterSecond(content, s).pos.cursor == JsRem(s.pos.cursor - 1, |content|)
              && AfterSecond(content, s).pos.countdown == Budget
              && AfterSecond(content, s).(pos := s.pos) == s
    ensures s.pos.countdown > 1 ==>
              AfterSecond(content, s) == s.(pos := s.pos.(countdown := s.pos.countdown - 1))
  {
  }

  /** "Back to Video" on the first frame leaves the cursor at -1, and on any
      other frame one frame back. */
  lemma BackSubtractsOne(content: seq<Frame>, s: ViewState)
    requires Inv(content, s)
    ensures AfterBack(content, s).pos.cursor == s.pos.cursor - 1
    ensures s.pos.cursor == 0 ==> AfterBack(content, s).pos.cursor == -1
    ensures AfterBack(content, s).(pos := s.pos) == s
  {
  }

  /** The answer sent for a submit: always the first question's id. */
  function Sent(s: ViewState, questions: seq<Question>, selection: seq<string>): Call
    requires |questions| > 0
  {
    SubmitAnswer(s.assessmentId, s.attemptId, questions[0].id, selection)
  }

  /** A reply without data: the answer was sent and nothing else changes. */
  lemma FailedSubmitKeepsState(content: seq<Frame>, s: ViewState, questions: seq<Question>,
                               selection: seq<string>, reply: StartReply)
    requires Inv(content, s) && OnFrame(content, s) && |questions| > 0
    ensures AfterSubmit(content, s, questions, selection, SubmitFailed, reply)
              == s.(calls := s.calls + [Sent(s, questions, selection)])
  {
  }

  /** A grading that is not `true` retreats, keeps the assessment and the
      attempt, makes no progress update and dispatches the streak, whatever
      it is. */
  lemma WrongAnswerRetreats(content: seq<Frame>, s: ViewState, questions: seq<Question>,
                            selection: seq<string>, correct: Option<bool>, streak: Option<int>,
                            reply: StartReply)
    requires Inv(content, s) && OnFrame(content, s) && |questions| > 0
    requires correct != Some(true)
    ensures var r := AfterSubmit(content, s, questions, selection, Graded(correct, streak), reply);
            var c := s.pos.cursor;
            && r.pos.cursor == (if c >= 1 then c - 1 else if |content| == 1 then 0 else -1)
            && r.calls == s.calls + [Sent(s, questions, selection), SetStreak(streak)]
            && ProgressUpdates(r.calls) == ProgressUpdates(s.calls)
            && r.(pos := s.pos, calls := s.calls) == s
  {
    RetreatIndex(s.pos.cursor, |content|);
    var added := [Sent(s, questions, selection), SetStreak(streak)];
    assert s.calls + [Sent(s, questions, selection)] + [SetStreak(streak)] == s.calls + added;
    NoProgressUpdates(added);
    ProgressUpdatesAppend(s.calls, added);
  }

  /** A correct answer past the first frame makes exactly one progress
      update, for the previous and the current frame with cascading, then
      advances, wrapping to the first frame from the last, and dispatches
      the streak last. */
  lemma CorrectAnswerAdvances(content: seq<Frame>, s: ViewState, questions: seq<Question>,
                              selection: seq<string>, streak: Option<int>, reply: StartReply)
    requires Inv(content, s) && OnFrame(content, s) && |questions| > 0
    requires s.pos.cursor >= 1
    ensures var r := AfterSubmit(content, s, questions, selection, Graded(Some(true), streak), reply);
            var c := s.pos.cursor;
            && r.pos.cursor == (if c + 1 == |content| then 0 else c + 1)
            && ProgressUpdates(r.calls)
                 == ProgressUpdates(s.calls) + [UpdateProgress([content[c - 1].id, content[c].id], true)]
            && r.calls[|r.calls| - 1] == SetStreak(streak)
  {
    var c := s.pos.cursor;
    var update := UpdateProgress(ProgressPair(content, c), true);
    var sent := s.(calls := s.calls + [Sent(s, questions, selection)]);
    var recorded := sent.(calls := sent.calls + [update]);
    NextFrameRule(content, recorded, reply);
    var after := StartCalls(content, c) + [SetStreak(streak)];
    var r := AfterSubmit(content, s, questions, selection, Graded(Some(true), streak), reply);
    assert r.calls == s.calls + [Sent(s, questions, selection)] + [update] + after;
    OneUpdateBetween(s.calls, [Sent(s, questions, selection)], update, after);
  }

  /** A truthy grading on the first frame throws before anything but the
      submit itself: no progress update, no move and no streak. */
  lemma CorrectAnswerAtFirstFrameFails(content: seq<Frame>, s: ViewState, questions: seq<Question>,
                                       selection: seq<string>, streak: Option<int>, reply: StartReply)
    requires Inv(content, s) && OnFrame(content, s) && |questions| > 0
    requires s.pos.cursor == 0
    ensures AfterSubmit(content, s, questions, selection, Graded(Some(true), streak), reply)
              == s.(calls := s.calls + [Sent(s, questions, selection)])
  {
  }

  // ---------------------------------------------------------------------
  // Runs of events

  datatype Event =
    | NextClicked(startReply: StartReply)
    | SecondElapsed
    | BackClicked
    | Submitted(questions: seq<Question>, selection: seq<string>, grading: Grading, startReply: StartReply)

  /** Whether the view can receive an event: the video player and the
      article viewer call "next", and the assessment panel offers "Back to
      Video" and, with a question on display and something selected, Submit.
      Only the countdown fires whatever the frame. */
  function Enabled(content: seq<Frame>, s: ViewState, e: Event): (enabled: bool)
    ensures e.SecondElapsed? ==> enabled
    ensures enabled && !e.SecondElapsed? ==> OnFrame(content, s)
    ensures e.BackClicked? ==> (enabled <==> IsAssessmentAt(content, s.pos.cursor))
  {
    match e
    case NextClicked(_) => KindAt(content, s.pos.cursor) in {Some(Video), Some(Article)}
    case SecondElapsed => true
    case BackClicked => KindAt(content, s.pos.cursor) == Some(Assessment)
    case Submitted(questions, selection, _, _) =>
      KindAt(content, s.pos.cursor) == Some(Assessment) && |questions| > 0 && selection != []
  }

  function Step(content: seq<Frame>, s: ViewState, e: Event): (r: ViewState)
    requires Inv(content, s) && Enabled(content, s, e)
    ensures Inv(content, r)
  {
    match e
    case NextClicked(reply) => AfterNextFrame(content, s, reply)
    case SecondElapsed => AfterSecond(content, s)
    case BackClicked => AfterBack(content, s)
    case Submitted(questions, selection, grading, reply) =>
      AfterSubmit(content, s, questions, selection, grading, reply)
  }

  function Run(content: seq<Frame>, s: ViewState, events: seq<Event>): (r: ViewState)
    requires Inv(content, s)
    ensures Inv(content, r)
    decreases |events|
  {
    if events == [] then s
    else
      var next := if Enabled(content, s, events[0]) then Step(content, s, events[0]) else s;
      Run(content, next, events[1..])
  }

  lemma StepStaysInRange(content: seq<Frame>, s: ViewState, e: Event)
    requires Inv(content, s) && Enabled(content, s, e)
    requires -1 <= s.pos.cursor < |content|
    ensures -1 <= Step(content, s, e).pos.cursor < |content|
  {
    if 0 <= s.pos.cursor < |content| {
      AdvanceIndex(s.pos.cursor, |content|);
      RetreatIndex(s.pos.cursor, |content|);
    }
  }

  /** Although "Back to Video" has no remainder, it is offered only on a
      frame, so the cursor never leaves `[-1, length)`. */
  lemma {:induction false} RunStaysInRange(content: seq<Frame>, s: ViewState, events: seq<Event>)
    requires Inv(content, s) && -1 <= s.pos.cursor < |content|
    ensures -1 <= Run(content, s, events).pos.cursor < |content|
    decreases |events|
  {
    if events != [] {
      var next := if Enabled(content, s, events[0]) then Step(content, s, events[0]) else s;
      if Enabled(content, s, events[0]) {
        StepStaysInRange(content, s, events[0]);
      }
      RunStaysInRange(content, next, events[1..]);
    }
  }

  /** At -1 the view shows the placeholder, no countdown runs and no event
      is offered: whatever happens, the state stays as it is. */
  lemma {:induction false} StuckBeforeFirstFrame(content: seq<Frame>, s: ViewState, events: seq<Event>)
    requires Inv(content, s) && s.pos.cursor == -1
    ensures Run(content, s, events) == s
    ensures RenderContent(content, s.pos.cursor) == Placeholder
    decreases |events|
  {
    if events != [] {
      assert !s.pos.timerRunning;
      StuckBeforeFirstFrame(content, s, events[1..]);
    }
  }

  // ---------------------------------------------------------------------
  // The component

  class ContentScroll {
    const content: seq<Frame>
    var cursor: int
    var countdown: int
    var timerRunning: bool
    var assessmentId: Option<int>
    var attemptId: Option<string>
    var calls: seq<Call>

    function State(): ViewState
      reads this
    {
      ViewState(Position(cursor, countdown, timerRunning), assessmentId, attemptId, calls)
    }

    ghost predicate Valid()
      reads this
    {
      Inv(content, State())
    }

    constructor (content: seq<Frame>, sequence: Option<int>)
      ensures Valid() && this.content == content
      ensures State() == Initial(content, sequence)
    {
      var c := InitialCursor(sequence);
      this.content := content;
      cursor := c;
      countdown := Budget;
      timerRunning := IsAssessmentAt(content, c);
      assessmentId := None;
      attemptId := None;
      calls := [];
    }

    method SetCurrentFrame(next: int)
      requires Valid()
      modifies this
      ensures Valid()
      ensures State() == AfterSetFrame(content, old(State()), next)
    {
      if next != cursor {
        cursor := next;
        timerRunning := IsAssessmentAt(content, next);
        if timerRunning {
          countdown := Budget;
        }
      }
    }

    method FetchAssessment(frameIndex: int, reply: StartReply)
      requires Valid()
      modifies this
      ensures Valid()
      ensures State() == AfterFetch(content, old(State()), frameIndex, reply)
    {
      if IsAssessmentAt(content, frameIndex + 1) {
        var id := content[frameIndex + 1].id;
        assessmentId := Some(id);
        calls := calls + [StartAttempt(id)];
        if reply.StartOk? {
          attemptId := reply.attemptId;
        }
      }
    }

    method NextFrame(reply: StartReply)
      requires Valid() && 0 <= cursor < |content|
      modifies this
      ensures Valid()
      ensures State() == AfterNextFrame(content, old(State()), reply)
    {
      var c := cursor;
      SetCurrentFrame(JsRem(c + 1, |content|));
      FetchAssessment(c, reply);
    }

    method CountdownTick()
      requires Valid()
      modifies this
      ensures Valid()
      ensures State() == AfterSecond(content, old(State()))
    {
      if timerRunning {
        if countdown <= 1 {
          countdown := Budget;
          SetCurrentFrame(JsRem(cursor - 1, |content|));
        } else {
          countdown := countdown - 1;
        }
      }
    }

    method BackToVideo()
      requires Valid()
      modifies this
      ensures Valid()
      ensures State() == AfterBack(content, old(State()))
    {
      SetCurrentFrame(cursor - 1);
    }

    method SubmitAssessment(questions: seq<Question>, selection: seq<string>, grading: Grading, reply: StartReply)
      requires Valid() && 0 <= cursor < |content| && |questions| > 0
      modifies this
      ensures Valid()
      ensures State() == AfterSubmit(content, old(State()), questions, selection, grading, reply)
    {
      var c := cursor;
      calls := calls + [SubmitAnswer(assessmentId, attemptId, questions[0].id, selection)];
      if grading.SubmitFailed? {
        return;
      }
      if grading.isAnswerCorrect == Some(true) {
        if c == 0 {
          return;
        }
        calls := calls + [UpdateProgress(ProgressPair(content, c), true)];
        NextFrame(reply);
      } else {
        SetCurrentFrame(JsRem(c - 1, |content|));
      }
      calls := calls + [SetStreak(grading.currentStreak)];
    }
  }

  /** A video, its assessment and a closing article: a correct answer on the
      assessment advances, and a correct answer on a last-frame assessment
      wraps around to the first frame. */
  method ContentWalkthrough() {
    var clip := Frame(20, Video, None, "", Some(0.0), Some(5.0));
    var quiz := Frame(21, Assessment, None, "", None, None);
    var notes := Frame(22, Article, None, "notes", None, None);
    var question := Question(3, true, ["x", "y"]);
    var view := new ContentScroll([clip, quiz, notes], None);
    view.NextFrame(StartOk(Some("attempt-9")));
    assert view.cursor == 1 && view.timerRunning && view.countdown == Budget;
    assert view.assessmentId == Some(21) && view.attemptId == Some("attempt-9");
    view.SubmitAssessment([question], ["x"], Graded(Some(true), Some(4)), StartFailed);
    assert view.cursor == 2 && !view.timerRunning;
    assert view.calls[|view.calls| - 1] == SetStreak(Some(4));

    var ending := new ContentScroll([clip, quiz], Some(2));
    assert ending.cursor == 1;
    ending.SubmitAssessment([question], ["y"], Graded(Some(true), None), StartFailed);
    assert ending.cursor == 0;
  }
}
