/**
 * The answer controls of an assessment frame, shared by the page and by the
 * refactored assessment viewer: the option-click updaters, the Previous
 * button's clamp, the unused wrap-around `handlePrevQuestion`, the Submit
 * button's disable rule and the question on display.
 */
module Answering {
  import opened Wrappers
  import opened JsNumber
  import opened Lesson

  /** No option occurs twice. */
  predicate NoDup(s: seq<string>) {
    forall i, j :: 0 <= i < j < |s| ==> s[i] != s[j]
  }

  /** `s.filter((id) => id !== x)`: every occurrence of `x` removed, everything
      else kept with its multiplicity. */
  function Without(s: seq<string>, x: string): (r: seq<string>)
    ensures x !in r
    ensures forall y :: y != x ==> (y in r <==> y in s)
    ensures multiset(r) == multiset(s)[x := 0]
    ensures |r| <= |s|
    ensures NoDup(s) ==> NoDup(r)
  {
    if s == [] then []
    else
      assert s == [s[0]] + s[1..];
      if s[0] == x then Without(s[1..], x)
      else
        assert NoDup(s) ==> s[0] !in s[1..];
        [s[0]] + Without(s[1..], x)
  }

  /** The filter of a list that does not hold `x` is the list itself. */
  lemma {:induction false} WithoutAbsent(s: seq<string>, x: string)
    requires x !in s
    ensures Without(s, x) == s
  {
    if s != [] {
      WithoutAbsent(s[1..], x);
      assert s == [s[0]] + s[1..];
    }
  }

  /** The page's updater (`handleOptionClick`): a multi-select click toggles
      the option; a single-select click deselects a selected option and
      otherwise makes it the only selection. */
  function PageToggle(prev: seq<string>, option: string, multi: bool): (r: seq<string>)
    ensures option in r <==> option !in prev
    ensures multi || option in prev ==> forall y :: y != option ==> (y in r <==> y in prev)
    ensures !multi && option !in prev ==> r == [option]
    ensures NoDup(prev) ==> NoDup(r)
    ensures !multi && |prev| <= 1 ==> |r| <= 1
  {
    if option in prev then Without(prev, option)
    else if multi then prev + [option]
    else [option]
  }

  /** The refactored viewer's updater: a multi-select click toggles the
      option; a single-select click always makes it the only selection. */
  function ViewerToggle(prev: seq<string>, option: string, multi: bool): (r: seq<string>)
    ensures multi ==> (option in r <==> option !in prev)
    ensures multi ==> forall y :: y != option ==> (y in r <==> y in prev)
    ensures !multi ==> r == [option]
    ensures NoDup(prev) ==> NoDup(r)
  {
    if multi then (if option in prev then Without(prev, option) else prev + [option])
    else [option]
  }

  /** The two updaters agree except when a single-select option is clicked
      again: the page deselects it, the refactored viewer keeps it. */
  lemma TogglesDifferOnlyOnReselect(prev: seq<string>, option: string, multi: bool)
    ensures PageToggle(prev, option, multi) == ViewerToggle(prev, option, multi)
            <==> multi || option !in prev
  {
    if !multi && option in prev {
      assert option in ViewerToggle(prev, option, multi);
    }
  }

  /** Clicking a multi-select option twice leaves a duplicate-free selection
      holding the same options as before (an option removed and re-added moves
      to the end, so the order may change). */
  lemma MultiToggleTwice(prev: seq<string>, option: string)
    requires NoDup(prev)
    ensures multiset(PageToggle(PageToggle(prev, option, true), option, true)) == multiset(prev)
    ensures multiset(ViewerToggle(ViewerToggle(prev, option, true), option, true)) == multiset(prev)
  {
    if option !in prev {
      WithoutAbsent(prev, option);
      assert option in prev + [option];
      assert Without(prev + [option], option) == prev by {
        WithoutAppend(prev, option);
      }
    } else {
      var once := Without(prev, option);
      assert option !in once;
      NoDupCount(prev, option);
      assert multiset(once + [option]) == multiset(prev);
    }
  }

  /** Removing an option that was appended to a list without it gives the list back. */
  lemma {:induction false} WithoutAppend(s: seq<string>, x: string)
    requires x !in s
    ensures Without(s + [x], x) == s
  {
    if s == [] {
      assert [] + [x] == [x];
      assert [x][1..] == [];
    } else {
      assert (s + [x])[0] == s[0];
      assert (s + [x])[1..] == s[1..] + [x];
      WithoutAppend(s[1..], x);
      assert s == [s[0]] + s[1..];
    }
  }

  /** The filter keeps the order of the elements it keeps: filtering a list
      with one more element at its end filters the list and then keeps that
      element unless it is the one removed. */
  lemma {:induction false} WithoutSnoc(s: seq<string>, y: string, x: string)
    ensures Without(s + [y], x) == Without(s, x) + (if y == x then [] else [y])
  {
    if s == [] {
      assert [] + [y] == [y];
      assert [y][1..] == [];
    } else {
      assert (s + [y])[0] == s[0];
      assert (s + [y])[1..] == s[1..] + [y];
      WithoutSnoc(s[1..], y, x);
    }
  }

  /** In a duplicate-free list an option occurs at most once. */
  lemma {:induction false} NoDupCount(s: seq<string>, x: string)
    requires NoDup(s)
    ensures multiset(s)[x] <= 1
  {
    if s != [] {
      assert s == [s[0]] + s[1..];
      assert NoDup(s[1..]) by {
        forall i, j | 0 <= i < j < |s[1..]| ensures s[1..][i] != s[1..][j] {
          assert s[1..][i] == s[i + 1] && s[1..][j] == s[j + 1];
        }
      }
      NoDupCount(s[1..], x);
      if s[0] == x {
        assert x !in s[1..] by {
          forall k | 0 <= k < |s[1..]| ensures s[1..][k] != x {
            assert s[1..][k] == s[k + 1];
          }
        }
      }
    }
  }

  /** Single-select on the page: clicking an unselected option and then the
      same option again empties the selection, whatever was selected before,
      which disables Submit. */
  lemma SingleSelectReclickClears(prev: seq<string>, option: string)
    requires option !in prev
    ensures PageToggle(PageToggle(prev, option, false), option, false) == []
    ensures !SubmitEnabled(PageToggle(PageToggle(prev, option, false), option, false))
  {
    assert [option][1..] == [];
  }

  /** The Submit button is enabled exactly when something is selected
      (`disabled={selectedOption?.length === 0}` on the page,
      `disabled={!selectedOption.length}` in the viewer). */
  function SubmitEnabled(selection: seq<string>): (enabled: bool)
    ensures enabled <==> selection != []
  {
    |selection| != 0
  }

  /** The Previous button's update `Math.max(i - 1, 0)`: one question back,
      never below the first. */
  function PreviousIndex(i: int): (r: int)
    ensures r >= 0
    ensures i >= 1 ==> r == i - 1
    ensures i <= 1 ==> r == 0
  {
    if i - 1 > 0 then i - 1 else 0
  }

  /** The page's `handlePrevQuestion` (defined but wired to no control):
      `(i - 1 + count) % count`, which wraps from the first question to the
      last; `None` is the NaN that an empty question list gives. */
  function WrapPrevQuestion(i: int, count: nat): (r: Option<int>)
    ensures count == 0 <==> r.None?
    ensures 0 <= i < count ==> r == Some(if i == 0 then count - 1 else i - 1)
  {
    if count == 0 then None
    else
      var r := JsRem(i - 1 + count, count);
      if 1 <= i < count then
        ModUnique(i - 1 + count, count, 1, i - 1);
        Some(r)
      else if i == 0 then
        ModUnique(count - 1, count, 0, count - 1);
        Some(r)
      else Some(r)
  }

  /** The question on display, `assessmentData[currentQuestionIndex]`; `None`
      where rendering it would fail (no questions, or an index out of range). */
  function DisplayedQuestion(questions: seq<Question>, i: int): (q: Option<Question>)
    ensures q.Some? <==> 0 <= i < |questions|
    ensures q.Some? ==> q.value == questions[i]
  {
    if 0 <= i < |questions| then Some(questions[i]) else None
  }
}
