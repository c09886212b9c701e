/**
 * The scoring of the Stroop go/no-go task (stroop.py). A trial shows one of
 * six colour words in a colour that is the word's own (a match, a "go"
 * trial) or another one (a "no-go" trial). A key press while the word is
 * shown is a response; the stimulus being cleared with no response is a
 * withheld one. Each ends the trial with one record whose `correct` says
 * whether the participant responded exactly on the match trials.
 *
 * The callbacks of the program (`show_next_trial`, `clear_stimulus`,
 * `on_key_press`, `start_task`, `end_task`) become the methods of one
 * StroopTask object holding the program's globals. The clock and the random
 * choices are parameters; the widgets are the label's text and whether the
 * key handler is still bound.
 */
module Stroop {

  import opened Wrappers
  import opened Text

  /** Total task time in seconds. */
  const DurationSeconds: real := 120.0

  /** The key that ends a running task. */
  const QuitKey: string := "q"

  /** The words shown, in the order `random.choice` draws from. */
  const Words: seq<string> := ["RED", "GREEN", "BLUE", "YELLOW", "PURPLE", "ORANGE"]

  /** The values of the colour table, in its insertion order. */
  const ColorValues: seq<string> := ["red", "green", "blue", "yellow", "purple", "orange"]

  /** The colour table: each word's own colour. */
  function ColorOf(word: string): (c: string)
    requires word in Words
    ensures c in ColorValues
  {
    if word == "RED" then "red"
    else if word == "GREEN" then "green"
    else if word == "BLUE" then "blue"
    else if word == "YELLOW" then "yellow"
    else if word == "PURPLE" then "purple"
    else "orange"
  }

  /** A word's colour is its name in lower case. */
  lemma ColorOfIsLower(word: string)
    requires word in Words
    ensures ColorOf(word) == Lower(word)
  {
    if word == "RED" {
      assert Lower("RED") == "red";
    } else if word == "GREEN" {
      assert Lower("GREEN") == "green";
    } else if word == "BLUE" {
      assert Lower("BLUE") == "blue";
    } else if word == "YELLOW" {
      assert Lower("YELLOW") == "yellow";
    } else if word == "PURPLE" {
      assert Lower("PURPLE") == "purple";
    } else {
      assert Lower("ORANGE") == "orange";
    }
  }

  /** No two words share a colour, so a colour names its word. */
  lemma ColorsInjective(w1: string, w2: string)
    requires w1 in Words && w2 in Words
    ensures ColorOf(w1) == ColorOf(w2) <==> w1 == w2
  {
  }

  /** `[c for c in cs if c != excluded]` */
  function Without(cs: seq<string>, excluded: string): (r: seq<string>)
    ensures forall c :: c in r <==> c in cs && c != excluded
    ensures |r| <= |cs|
  {
    if cs == [] then []
    else (if cs[0] != excluded then [cs[0]] else []) + Without(cs[1..], excluded)
  }

  /** The list `other_colors` a non-match trial draws from. */
  function OtherColors(correct: string): seq<string> {
    Without(ColorValues, correct)
  }

  predicate Distinct(cs: seq<string>) {
    forall i, j :: 0 <= i < j < |cs| ==> cs[i] != cs[j]
  }

  /** Filtering one element out of a list without repeats shortens it by exactly one. */
  lemma {:induction false} WithoutOne(cs: seq<string>, excluded: string)
    requires Distinct(cs) && excluded in cs
    ensures |Without(cs, excluded)| == |cs| - 1
  {
    if cs[0] != excluded {
      assert excluded in cs[1..];
      assert Distinct(cs[1..]) by {
        forall i, j | 0 <= i < j < |cs| - 1 ensures cs[1..][i] != cs[1..][j] {
          assert cs[1..][i] == cs[i + 1] && cs[1..][j] == cs[j + 1];
        }
      }
      WithoutOne(cs[1..], excluded);
    } else {
      assert excluded !in cs[1..] by {
        forall k | 0 <= k < |cs| - 1 ensures cs[1..][k] != excluded {
          assert cs[1..][k] == cs[k + 1];
        }
      }
      WithoutAbsent(cs[1..], excluded);
    }
  }

  /** Filtering out what is not there keeps the whole list. */
  lemma {:induction false} WithoutAbsent(cs: seq<string>, excluded: string)
    requires excluded !in cs
    ensures Without(cs, excluded) == cs
  {
    if cs != [] {
      WithoutAbsent(cs[1..], excluded);
    }
  }

  /** A non-match trial has five colours to choose from, none of them the word's own. */
  lemma OtherColorsOf(word: string)
    requires word in Words
    ensures |OtherColors(ColorOf(word))| == 5
    ensures forall c :: c in OtherColors(ColorOf(word)) <==> c in ColorValues && c != ColorOf(word)
  {
    assert Distinct(ColorValues);
    WithoutOne(ColorValues, ColorOf(word));
  }

  /**
   * The colour a trial shows: the word's own on a match trial, otherwise
   * the `otherChoice`-th of the other colours.
   */
  function TrialColor(isMatch: bool, word: string, otherChoice: nat): string
    requires word in Words && otherChoice < 5
  {
    if isMatch then ColorOf(word)
    else
      assert |OtherColors(ColorOf(word))| == 5 by { OtherColorsOf(word); }
      OtherColors(ColorOf(word))[otherChoice]
  }

  /** Match trials show the word's own colour, non-match trials another one. */
  lemma TrialColorMatches(isMatch: bool, word: string, otherChoice: nat)
    requires word in Words && otherChoice < 5
    ensures TrialColor(isMatch, word, otherChoice) in ColorValues
    ensures (TrialColor(isMatch, word, otherChoice) == ColorOf(word)) <==> isMatch
  {
    OtherColorsOf(word);
    if !isMatch {
      assert OtherColors(ColorOf(word))[otherChoice] in OtherColors(ColorOf(word));
    }
  }

  /** One row of `results`; the reaction time is not modelled. */
  datatype Record = Record(word: string, color: string, isMatch: bool, response: bool, correct: bool)

  /**
   * How a record is scored: `isMatch` says whether the colour shown was the
   * word's own, and the record is correct exactly when the participant
   * responded on a match trial or withheld on a non-match trial.
   */
  predicate Scored(r: Record) {
    r.word in Words && r.isMatch == (ColorOf(r.word) == r.color)
    && r.correct == (r.response == r.isMatch)
  }

  /** The record a key press appends for the trial on screen. */
  function ResponseRecord(word: string, color: string): (r: Record)
    requires word in Words
    ensures Scored(r) && r.response && r.correct == r.isMatch
  {
    var isMatch := ColorOf(word) == color;
    Record(word, color, isMatch, true, isMatch)
  }

  /** The record clearing the stimulus appends when no key was pressed. */
  function WithheldRecord(word: string, color: string): (r: Record)
    requires word in Words
    ensures Scored(r) && !r.response && r.correct == !r.isMatch
  {
    if ColorOf(word) == color then Record(word, color, true, false, false)
    else Record(word, color, false, false, true)
  }

  /** On the same trial, a response and a withheld response are scored oppositely. */
  lemma ResponseAndWithheldDisagree(word: string, color: string)
    requires word in Words
    ensures ResponseRecord(word, color).isMatch == WithheldRecord(word, color).isMatch
    ensures ResponseRecord(word, color).correct != WithheldRecord(word, color).correct
  {
  }

  /**
   * The task's globals and the two widget states the callbacks read. The
   * ghost fields count trials: `trialsShown` is the number of trials shown,
   * `trialRecords` the records appended since the current one was shown,
   * and `clearPending` whether its scheduled `clear_stimulus` is yet to run.
   */
  class StroopTask {
    var taskRunning: bool
    var responseReceived: bool
    var startTime: Option<real>
    var currentWord: Option<string>
    var currentColor: Option<string>
    var labelText: string
    var keysBound: bool
    var results: seq<Record>
    ghost var trialsShown: nat
    ghost var trialRecords: nat
    ghost var clearPending: bool

    ghost predicate Valid()
      reads this
    {
      && (currentWord.Some? <==> currentColor.Some?)
      && (currentWord.Some? ==> currentWord.value in Words && trialsShown > 0)
      && (taskRunning ==> startTime.Some? && keysBound)
      && (taskRunning && labelText != "" ==> currentWord.Some? && labelText == currentWord.value)
      && (clearPending ==> currentWord.Some?)
      // before the task starts nothing has happened yet
      && (!taskRunning && keysBound ==> labelText == "" && !clearPending && !responseReceived && trialRecords == 0)
      // each trial gets at most one record
      && trialRecords <= 1
      && (responseReceived ==> trialRecords == 1)
      && (trialRecords == 1 && !responseReceived ==> !clearPending && (labelText == "" || !taskRunning))
      && (if trialsShown == 0 then |results| == 0 else |results| + 1 <= trialsShown + trialRecords)
      && (forall i :: 0 <= i < |results| ==> Scored(results[i]))
    }

    /** The program's initial state: nothing shown, keys bound, no results. */
    constructor ()
      ensures Valid()
      ensures !taskRunning && !responseReceived && keysBound && labelText == ""
      ensures currentWord == None && currentColor == None && startTime == None && results == []
    {
      taskRunning := false;
      responseReceived := false;
      startTime := None;
      currentWord := None;
      currentColor := None;
      labelText := "";
      keysBound := true;
      results := [];
      trialsShown := 0;
      trialRecords := 0;
      clearPending := false;
    }

    /** `end_task`: stop, show "Done!" and unbind the key handler. The CSV file is not modelled. */
    method EndTask()
      requires Valid()
      modifies this
      ensures Valid()
      ensures !taskRunning && labelText == "Done!" && !keysBound
      ensures results == old(results) && responseReceived == old(responseReceived)
      ensures currentWord == old(currentWord) && currentColor == old(currentColor)
      ensures startTime == old(startTime)
      ensures trialsShown == old(trialsShown) && trialRecords == old(trialRecords)
      ensures clearPending == old(clearPending)
    {
      taskRunning := false;
      labelText := "Done!";
      keysBound := false;
    }

    /**
     * `show_next_trial` at clock reading `now`. The random draws are
     * `isMatch` (`random.random() < MATCH_PROBABILITY`), `wordChoice` and
     * `otherChoice` (the indices `random.choice` picks). A trial's
     * stimulus is cleared 1000 ms after it is shown and the next trial comes
     * 1500 ms after, so while the task runs the previous clear has already
     * happened.
     */
    method ShowNextTrial(now: real, isMatch: bool, wordChoice: nat, otherChoice: nat)
      requires Valid()
      requires wordChoice < |Words| && otherChoice < 5
      requires taskRunning ==> !clearPending
      modifies this
      ensures Valid()
      ensures !old(taskRunning) ==> unchanged(this)
      ensures old(taskRunning) && now - old(startTime).value > DurationSeconds ==>
        !taskRunning && labelText == "Done!" && !keysBound
        && results == old(results) && currentWord == old(currentWord) && currentColor == old(currentColor)
        && responseReceived == old(responseReceived) && startTime == old(startTime)
        && trialsShown == old(trialsShown) && trialRecords == old(trialRecords) && clearPending == old(clearPending)
      ensures old(taskRunning) && now - old(startTime).value <= DurationSeconds ==>
        && taskRunning && keysBound && !responseReceived && startTime == old(startTime)
        && currentWord == Some(Words[wordChoice])
        && currentColor == Some(TrialColor(isMatch, Words[wordChoice], otherChoice))
        && labelText == Words[wordChoice]
        && (ColorOf(currentWord.value) == currentColor.value <==> isMatch)
        && results == old(results)
        && trialsShown == old(trialsShown) + 1 && trialRecords == 0 && clearPending
    {
      if !taskRunning {
        return;
      }
      if now - startTime.value > DurationSeconds {
        EndTask();
        return;
      }
      var word := Words[wordChoice];
      TrialColorMatches(isMatch, word, otherChoice);
      ShowTrial(word, TrialColor(isMatch, word, otherChoice));
    }

    /** The part of `show_next_trial` that puts up a new trial of `word` shown in `color`. */
    method ShowTrial(word: string, color: string)
      requires Valid() && taskRunning && !clearPending && word in Words
      modifies this
      ensures Valid()
      ensures taskRunning && keysBound && !responseReceived && startTime == old(startTime)
      ensures currentWord == Some(word) && currentColor == Some(color) && labelText == word
      ensures results == old(results)
      ensures trialsShown == old(trialsShown) + 1 && trialRecords == 0 && clearPending
    {
      responseReceived := false;
      currentWord := Some(word);
      currentColor := Some(color);
      labelText := word;
      trialsShown := trialsShown + 1;
      trialRecords := 0;
      clearPending := true;
    }

    /**
     * `clear_stimulus`, the one scheduled by the trial on screen: blank the
     * label and, when no key was pressed during the trial, record the
     * withheld response. It does not look at whether the task is running.
     */
    method ClearStimulus()
      requires Valid() && clearPending
      modifies this
      ensures Valid()
      ensures labelText == "" && !clearPending
      ensures taskRunning == old(taskRunning) && responseReceived == old(responseReceived)
      ensures currentWord == old(currentWord) && currentColor == old(currentColor)
      ensures keysBound == old(keysBound) && startTime == old(startTime) && trialsShown == old(trialsShown)
      ensures results == old(results) +
        (if old(responseReceived) then [] else [WithheldRecord(old(currentWord).value, old(currentColor).value)])
    {
      labelText := "";
      var isMatch := ColorOf(currentWord.value) == currentColor.value;
      if isMatch && !responseReceived {
        results := results + [Record(currentWord.value, currentColor.value, true, false, false)];
        trialRecords := trialRecords + 1;
      } else if !isMatch && !responseReceived {
        results := results + [Record(currentWord.value, currentColor.value, false, false, true)];
        trialRecords := trialRecords + 1;
      }
      clearPending := false;
    }

    /** `start_task` at clock reading `now`: note the start, run, and show the first trial. */
    method StartTask(now: real, isMatch: bool, wordChoice: nat, otherChoice: nat)
      requires Valid() && !taskRunning && keysBound
      requires wordChoice < |Words| && otherChoice < 5
      modifies this
      ensures Valid()
      ensures
        && taskRunning && keysBound && !responseReceived && startTime == Some(now)
        && currentWord == Some(Words[wordChoice])
        && currentColor == Some(TrialColor(isMatch, Words[wordChoice], otherChoice))
        && labelText == Words[wordChoice]
        && results == old(results)
        && trialsShown == old(trialsShown) + 1 && trialRecords == 0 && clearPending
    {
      startTime := Some(now);
      taskRunning := true;
      ShowNextTrial(now, isMatch, wordChoice, otherChoice);
    }

    /**
     * `on_key_press` for a key whose symbol is `keysym`, while the handler
     * is bound. Before the task runs, Return (in any case) starts it with the
     * given clock reading and draws, and every other key is ignored. While
     * it runs, `q` ends it; a key while the label is blank or after this
     * trial's response is ignored; any other key is a response.
     */
    method OnKeyPress(keysym: string, now: real, isMatch: bool, wordChoice: nat, otherChoice: nat)
      requires Valid() && keysBound
      requires wordChoice < |Words| && otherChoice < 5
      modifies this
      ensures Valid()
      ensures !old(taskRunning) && Lower(keysym) != "return" ==> unchanged(this)
      ensures !old(taskRunning) && Lower(keysym) == "return" ==>
        && taskRunning && startTime == Some(now) && labelText == Words[wordChoice]
        && currentWord == Some(Words[wordChoice])
        && currentColor == Some(TrialColor(isMatch, Words[wordChoice], otherChoice))
        && keysBound && !responseReceived && results == old(results)
        && trialsShown == old(trialsShown) + 1 && trialRecords == 0 && clearPending
      ensures old(taskRunning) && Lower(keysym) == QuitKey ==>
        && !taskRunning && !keysBound && labelText == "Done!" && results == old(results)
        && responseReceived == old(responseReceived) && startTime == old(startTime)
        && currentWord == old(currentWord) && currentColor == old(currentColor)
        && trialsShown == old(trialsShown) && trialRecords == old(trialRecords) && clearPending == old(clearPending)
      ensures old(taskRunning) && Lower(keysym) != QuitKey && (old(labelText) == "" || old(responseReceived)) ==>
        unchanged(this)
      ensures old(taskRunning) && Lower(keysym) != QuitKey && old(labelText) != "" && !old(responseReceived) ==>
        && taskRunning && responseReceived && labelText == old(labelText)
        && currentWord == old(currentWord) && currentColor == old(currentColor)
        && keysBound && startTime == old(startTime)
        && results == old(results) + [ResponseRecord(currentWord.value, currentColor.value)]
        && trialsShown == old(trialsShown) && trialRecords == old(trialRecords) + 1
        && clearPending == old(clearPending)
    {
      var key := Lower(keysym);
      if !taskRunning {
        if key == "return" {
          StartTask(now, isMatch, wordChoice, otherChoice);
        }
        return;
      }
      if key == QuitKey {
        EndTask();
        return;
      }
      if labelText == "" || responseReceived {
        return;
      }
      responseReceived := true;
      var matched := ColorOf(currentWord.value) == currentColor.value;
      var correct := matched;
      results := results + [Record(currentWord.value, currentColor.value, matched, true, correct)];
      trialRecords := trialRecords + 1;
    }

    /** A key event: delivered to `on_key_press` while it is bound, dropped after `end_task` unbinds it. */
    method KeyEvent(keysym: string, now: real, isMatch: bool, wordChoice: nat, otherChoice: nat)
      requires Valid()
      requires wordChoice < |Words| && otherChoice < 5
      modifies this
      ensures Valid()
      ensures !old(keysBound) ==> unchanged(this)
      ensures keysBound ==> old(keysBound)
    {
      if keysBound {
        OnKeyPress(keysym, now, isMatch, wordChoice, otherChoice);
      }
    }

    /** Every trial shown contributes at most one record. */
    lemma AtMostOneRecordPerTrial()
      requires Valid()
      ensures |results| <= trialsShown
      ensures trialRecords <= 1
    {
    }

    /** Every record is scored by the go/no-go rule. */
    lemma ResultsScored(i: int)
      requires Valid() && 0 <= i < |results|
      ensures results[i].correct == (results[i].response == results[i].isMatch)
      ensures results[i].isMatch == (ColorOf(results[i].word) == results[i].color)
    {
    }
  }
}
