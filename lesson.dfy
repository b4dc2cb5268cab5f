/**
 * Vocabulary shared by both versions of the lesson sequencer: the section's
 * frames, the questions of an assessment, the calls the sequencer makes on the
 * grading, progress, player and router collaborators, the replies those calls
 * resolve with, and the frame cursor together with the assessment countdown
 * that the cursor drives.
 */
module Lesson {
  import opened Wrappers
  import opened YouTubeUrl

  /** A section item's `item_type`: `'Video'`, `'article'` (lower case in
      both renderers' switch), `'Assessment'`; any other string is `Unknown`. */
  datatype ItemType = Video | Article | Assessment | Unknown

  /** One section item. `source` is the outcome of parsing the item's URL
      (`None` when absent or unparsable); `body` is an article's content;
      the times are the optional `start_time` and `end_time` of a video. */
  datatype Frame = Frame(id: int, itemType: ItemType, source: Option<Url>, body: string,
                         startTime: Option<real>, endTime: Option<real>)

  /** One question; `multiSelect` is `question.type === 'multi-select'`. */
  datatype Question = Question(id: int, multiSelect: bool, options: seq<string>)

  /** An outgoing call, recorded in the order the sequencer makes it. */
  datatype Call =
    | StartAttempt(startedFor: int)
    | SubmitAnswer(assessmentId: Option<int>, attemptId: Option<string>, questionId: int,
                   answers: seq<string>)
    | UpdateProgress(itemIds: seq<int>, cascade: bool)
    | SetStreak(streak: Option<int>)
    | PauseVideo
    | SeekTo(time: Option<real>)
    | NavigateHome

  /** What starting an attempt resolves with: no data (a failed request), or
      data that may or may not carry an `attemptId`. */
  datatype StartReply = StartFailed | StartOk(attemptId: Option<string>)

  /** What submitting an answer resolves with: no data, or the grading, whose
      `isAnswerCorrect` and `currentStreak` fields may each be absent. */
  datatype Grading = SubmitFailed | Graded(isAnswerCorrect: Option<bool>, currentStreak: Option<int>)

  /** Seconds an assessment frame allows before it sends the student back. */
  const Budget: int := 30

  /** `content[i]?.item_type`. */
  function KindAt(content: seq<Frame>, i: int): (k: Option<ItemType>)
    ensures k.Some? <==> 0 <= i < |content|
    ensures k.Some? ==> k.value == content[i].itemType
  {
    if 0 <= i < |content| then Some(content[i].itemType) else None
  }

  predicate IsAssessmentAt(content: seq<Frame>, i: int) {
    KindAt(content, i) == Some(Assessment)
  }

  /** `content[i]?.id`. */
  function IdAt(content: seq<Frame>, i: int): (id: Option<int>)
    ensures id.Some? <==> 0 <= i < |content|
    ensures id.Some? ==> id.value == content[i].id
  {
    if 0 <= i < |content| then Some(content[i].id) else None
  }

  /** `assignment?.sequence ? assignment.sequence - 1 : 0`: the 1-based
      sequence number of the item the student opened, as a 0-based cursor;
      an absent or zero sequence opens the first frame. */
  function InitialCursor(sequence: Option<int>): (c: int)
    ensures sequence.Some? && sequence.value != 0 ==> c + 1 == sequence.value
    ensures sequence.None? || sequence.value == 0 ==> c == 0
  {
    if sequence.Some? && sequence.value != 0 then sequence.value - 1 else 0
  }

  /** The sequence number of any frame of the section opens that frame. */
  lemma InitialCursorInRange(content: seq<Frame>, sequence: int)
    requires 1 <= sequence <= |content|
    ensures 0 <= InitialCursor(Some(sequence)) < |content|
  {
  }

  /** The ids a progress update marks complete: the frame before the cursor
      (the video that the assessment at the cursor gates) and the frame at it. */
  function ProgressPair(content: seq<Frame>, c: int): (ids: seq<int>)
    requires 1 <= c < |content|
    ensures |ids| == 2 && ids[0] == content[c - 1].id && ids[1] == content[c].id
  {
    [content[c - 1].id, content[c].id]
  }

  /** The attempt-start call `fetchAssessment(i)` makes: exactly one, for the
      frame after `i`, when that frame exists and is an Assessment. */
  function StartCalls(content: seq<Frame>, i: int): (calls: seq<Call>)
    ensures |calls| <= 1
    ensures calls != [] <==> IsAssessmentAt(content, i + 1)
    ensures calls != [] ==> calls == [StartAttempt(content[i + 1].id)]
  {
    if IsAssessmentAt(content, i + 1) then [StartAttempt(content[i + 1].id)] else []
  }

  /** The cursor and the countdown it drives: the countdown value and whether
      its one-second interval is installed. */
  datatype Position = Position(cursor: int, countdown: int, timerRunning: bool)

  /** The countdown is within its budget, and only an Assessment frame has a
      running countdown. */
  predicate PositionInv(content: seq<Frame>, p: Position) {
    1 <= p.countdown <= Budget && (p.timerRunning ==> IsAssessmentAt(content, p.cursor))
  }

  /** `setCurrentFrame(next)` together with the countdown effect that React
      re-runs when the cursor takes a new value: the old interval is cleared,
      and an Assessment frame resets the countdown to the budget and installs
      a new one. Setting the value the cursor already has re-runs nothing. */
  function Reposition(content: seq<Frame>, p: Position, next: int): (r: Position)
    requires PositionInv(content, p)
    ensures PositionInv(content, r)
  {
    if next == p.cursor then p
    else if IsAssessmentAt(content, next) then Position(next, Budget, true)
    else Position(next, p.countdown, false)
  }

  /** Moving onto a different Assessment frame resets the countdown to the
      full budget and starts it; moving onto any other frame stops it; and
      the cursor always takes the value it was set to. */
  lemma RepositionRearms(content: seq<Frame>, p: Position, next: int)
    requires PositionInv(content, p)
    ensures Reposition(content, p, next).cursor == next
    ensures next != p.cursor && IsAssessmentAt(content, next) ==>
              Reposition(content, p, next).countdown == Budget && Reposition(content, p, next).timerRunning
    ensures next != p.cursor && !IsAssessmentAt(content, next) ==>
              !Reposition(content, p, next).timerRunning
    ensures next == p.cursor ==> Reposition(content, p, next) == p
  {
  }

  /** The progress updates among a run of calls, in order. */
  function ProgressUpdates(calls: seq<Call>): (r: seq<Call>)
    ensures forall e :: e in r ==> e.UpdateProgress? && e in calls
    ensures |r| <= |calls|
  {
    if calls == [] then []
    else (if calls[0].UpdateProgress? then [calls[0]] else []) + ProgressUpdates(calls[1..])
  }

  /** No progress update among the calls is dropped. */
  lemma {:induction false} EveryUpdateKept(calls: seq<Call>)
    ensures forall i :: 0 <= i < |calls| && calls[i].UpdateProgress? ==> calls[i] in ProgressUpdates(calls)
  {
    if calls != [] {
      EveryUpdateKept(calls[1..]);
      forall i | 1 <= i < |calls| && calls[i].UpdateProgress?
        ensures calls[i] in ProgressUpdates(calls)
      {
        assert calls[i] == calls[1..][i - 1];
      }
    }
  }

  /** A single call is kept exactly when it is a progress update; with
      `ProgressUpdatesAppend` this determines the filter on every run. */
  lemma ProgressUpdatesOfOne(c: Call)
    ensures ProgressUpdates([c]) == if c.UpdateProgress? then [c] else []
  {
    assert [c][1..] == [];
  }

  /** The progress updates of two runs of calls are those of each, in order. */
  lemma {:induction false} ProgressUpdatesAppend(a: seq<Call>, b: seq<Call>)
    ensures ProgressUpdates(a + b) == ProgressUpdates(a) + ProgressUpdates(b)
  {
    if a == [] {
      assert a + b == b;
    } else {
      assert (a + b)[0] == a[0];
      assert (a + b)[1..] == a[1..] + b;
      ProgressUpdatesAppend(a[1..], b);
    }
  }

  /** A run of calls that holds no progress update contributes none. */
  lemma {:induction false} NoProgressUpdates(calls: seq<Call>)
    requires forall i :: 0 <= i < |calls| ==> !calls[i].UpdateProgress?
    ensures ProgressUpdates(calls) == []
  {
    if calls != [] {
      NoProgressUpdates(calls[1..]);
    }
  }

  /** Filtering the progress updates of calls that surround one update with
      calls of other kinds keeps just that one. */
  lemma {:induction false} OneUpdateBetween(calls: seq<Call>, before: seq<Call>, update: Call, after: seq<Call>)
    requires update.UpdateProgress?
    requires forall i :: 0 <= i < |before| ==> !before[i].UpdateProgress?
    requires forall i :: 0 <= i < |after| ==> !after[i].UpdateProgress?
    ensures ProgressUpdates(calls + before + [update] + after) == ProgressUpdates(calls) + [update]
  {
    NoProgressUpdates(before);
    NoProgressUpdates(after);
    ProgressUpdatesAppend(calls, before);
    ProgressUpdatesAppend(calls + before, [update]);
    ProgressUpdatesAppend(calls + before + [update], after);
    assert ProgressUpdates([update]) == [update] by {
      assert [update][1..] == [];
    }
  }
}
