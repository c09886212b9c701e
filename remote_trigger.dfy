/**
 * The trigger dispatcher (remote_trigger_.py): each chunk a client sends is
 * decoded, stripped of surrounding whitespace and compared, by exact
 * equality, against ten trigger names. A match plays one tact file through
 * `load_and_play_tact_file` and then waits a fixed number of seconds; any
 * other text only reports an invalid trigger. An empty chunk means the
 * client has gone, and ends that connection's loop.
 *
 * Chunks are taken as already decoded text; the sockets, the accept loop
 * and the waits themselves are not modelled (the wait is returned).
 */
module RemoteTrigger {

  import opened Wrappers
  import opened JsonValues
  import opened Protocol
  import opened Text
  import opened BetterHapticPlayer
  import opened HapticsPatternPlayer

  /** What a trigger does: play `file` under `key`, then wait `waitSeconds`. */
  datatype Action = Action(key: string, file: string, waitSeconds: nat)

  /** The if/elif chain on the stripped trigger text. */
  function Dispatch(trigger: string): (r: Option<Action>)
    ensures r.Some? ==> r.value.key == trigger && 4 <= r.value.waitSeconds <= 9
  {
    if trigger == "inhale" then Some(Action("inhale", "inhale.tact", 4))
    else if trigger == "exhale" then Some(Action("exhale", "exhale.tact", 8))
    else if trigger == "left_shoulder" then Some(Action("left_shoulder", "left_shoulder2.tact", 8))
    else if trigger == "left_abdomen" then Some(Action("left_abdomen", "left_abdomen2.tact", 9))
    else if trigger == "right_shoulder" then Some(Action("right_shoulder", "right_shoulder2.tact", 8))
    else if trigger == "right_abdomen" then Some(Action("right_abdomen", "right_abdomen2.tact", 9))
    else if trigger == "left_chest" then Some(Action("left_chest", "left_chest2.tact", 9))
    else if trigger == "right_chest" then Some(Action("right_chest", "right_chest2.tact", 9))
    else if trigger == "left_lower_back" then Some(Action("left_lower_back", "left_lower_back2.tact", 8))
    else if trigger == "right_lower_back" then Some(Action("right_lower_back", "right_lower_back2.tact", 8))
    else None
  }

  /** The two breathing triggers. */
  predicate IsBreathTrigger(t: string) {
    t == "inhale" || t == "exhale"
  }

  /** The eight body-location triggers. */
  predicate IsBodyTrigger(t: string) {
    || t == "left_shoulder" || t == "right_shoulder" || t == "left_lower_back" || t == "right_lower_back"
    || t == "left_abdomen" || t == "right_abdomen" || t == "left_chest" || t == "right_chest"
  }

  /** The body locations the dispatcher waits 9 seconds after: abdomens and chests. */
  predicate IsLongBodyTrigger(t: string) {
    t == "left_abdomen" || t == "right_abdomen" || t == "left_chest" || t == "right_chest"
  }

  /** What one received chunk does: the trigger is the chunk with surrounding whitespace removed. */
  function DispatchChunk(chunk: string): (r: Option<Action>)
    ensures r.Some? ==> r.value.key == Strip(chunk)
  {
    Dispatch(Strip(chunk))
  }

  /** Exactly the ten trigger names play something. */
  lemma DispatchMatchesExactlyTheTriggers(trigger: string)
    ensures Dispatch(trigger).Some? <==> IsBreathTrigger(trigger) || IsBodyTrigger(trigger)
  {
  }

  /** The key a trigger plays under is the trigger itself. */
  lemma DispatchKey(trigger: string)
    requires Dispatch(trigger).Some?
    ensures Dispatch(trigger).value.key == trigger
  {
  }

  /** A breathing trigger plays `trigger.tact`, a body location `trigger2.tact`. */
  lemma DispatchFile(trigger: string)
    requires Dispatch(trigger).Some?
    ensures Dispatch(trigger).value.file == trigger + (if IsBreathTrigger(trigger) then ".tact" else "2.tact")
  {
    if trigger == "inhale" {
      assert "inhale" + ".tact" == "inhale.tact";
    } else if trigger == "exhale" {
      assert "exhale" + ".tact" == "exhale.tact";
    } else if trigger == "left_shoulder" {
      assert "left_shoulder" + "2.tact" == "left_shoulder2.tact";
    } else if trigger == "left_abdomen" {
      assert "left_abdomen" + "2.tact" == "left_abdomen2.tact";
    } else if trigger == "right_shoulder" {
      assert "right_shoulder" + "2.tact" == "right_shoulder2.tact";
    } else if trigger == "right_abdomen" {
      assert "right_abdomen" + "2.tact" == "right_abdomen2.tact";
    } else if trigger == "left_chest" {
      assert "left_chest" + "2.tact" == "left_chest2.tact";
    } else if trigger == "right_chest" {
      assert "right_chest" + "2.tact" == "right_chest2.tact";
    } else if trigger == "left_lower_back" {
      assert "left_lower_back" + "2.tact" == "left_lower_back2.tact";
    } else if trigger == "right_lower_back" {
      assert "right_lower_back" + "2.tact" == "right_lower_back2.tact";
    }
  }

  /** The wait: 4 s for inhale, 9 s for abdomens and chests, 8 s for exhale, shoulders and lower backs. */
  lemma DispatchWait(trigger: string)
    requires Dispatch(trigger).Some?
    ensures Dispatch(trigger).value.waitSeconds ==
      if trigger == "inhale" then 4 else if IsLongBodyTrigger(trigger) then 9 else 8
  {
  }

  /** Every trigger name is at least six characters long and starts and ends with a lower-case letter. */
  lemma TriggerNameShape(trigger: string)
    requires Dispatch(trigger).Some?
    ensures |trigger| >= 6 && (trigger[0] == 'r' ==> |trigger| >= 11)
    ensures 'a' <= trigger[0] <= 'z' && 'a' <= trigger[|trigger| - 1] <= 'z'
  {
  }

  /**
   * The trigger a name can only be, read from its first character, then its
   * sixth for the `left_` names and its seventh for the `right_` names.
   */
  function NameBy(first: char, sixth: char, seventh: char): string {
    if first == 'i' then "inhale"
    else if first == 'e' then "exhale"
    else if first == 'l' then
      (if sixth == 's' then "left_shoulder" else if sixth == 'a' then "left_abdomen"
       else if sixth == 'c' then "left_chest" else "left_lower_back")
    else
      (if seventh == 's' then "right_shoulder" else if seventh == 'a' then "right_abdomen"
       else if seventh == 'c' then "right_chest" else "right_lower_back")
  }

  /** Those three characters tell the ten trigger names apart. */
  lemma TriggerNamedBy(t: string)
    requires Dispatch(t).Some?
    ensures |t| >= 6 && (t[0] == 'r' ==> |t| >= 7)
    ensures t == NameBy(t[0], t[5], if |t| >= 7 then t[6] else t[0])
  {
  }

  /** No trigger name is a proper prefix of another. */
  lemma NoTriggerPrefixesAnother(a: string, t: string)
    requires Dispatch(a).Some? && Dispatch(t).Some?
    requires |a| <= |t| && t[..|a|] == a
    ensures a == t
  {
    TriggerNamedBy(a);
    TriggerNamedBy(t);
    assert a[0] == t[0] && a[5] == t[5];
    if a[0] == 'r' {
      assert a[6] == t[6];
    }
  }

  /**
   * Whatever separates them, a chunk that holds two triggers, one after the
   * other, is not a trigger, so it plays nothing.
   */
  lemma TwoTriggersMatchNothing(a: string, sep: string, b: string)
    requires Dispatch(a).Some? && Dispatch(b).Some?
    ensures DispatchChunk(a + sep + b) == None
  {
    TriggerNameShape(a);
    TriggerNameShape(b);
    var s := a + sep + b;
    assert s[0] == a[0] && s[|s| - 1] == b[|b| - 1];
    StripKeepsTrimmed(s);
    if Dispatch(s).Some? {
      assert s[..|a|] == a;
      NoTriggerPrefixesAnother(a, s);
    }
  }

  /** Surrounding whitespace does not matter: a padded trigger is that trigger. */
  lemma PaddedTrigger(pre: string, trigger: string, post: string)
    requires Dispatch(trigger).Some?
    requires forall i :: 0 <= i < |pre| ==> IsSpace(pre[i])
    requires forall i :: 0 <= i < |post| ==> IsSpace(post[i])
    ensures DispatchChunk(pre + trigger + post) == Dispatch(trigger)
  {
    TriggerNameShape(trigger);
    var s := pre + trigger + post;
    var r := Strip(s);
    var o := StripOffset(s);
    assert s[|pre|] == trigger[0] && !IsSpace(s[|pre|]);
    assert s[|pre| + |trigger| - 1] == trigger[|trigger| - 1] && !IsSpace(s[|pre| + |trigger| - 1]);
    assert o == |pre|;
    assert o + |r| == |pre| + |trigger|;
    assert r == s[|pre|..|pre| + |trigger|] == trigger;
  }

  /**
   * The actions one connection plays, given the chunks `recv` returns in
   * order: an empty chunk ends the loop; any other is dispatched.
   */
  function ConnectionActions(chunks: seq<string>): (r: seq<Action>)
    ensures |r| <= |chunks|
    ensures forall i :: 0 <= i < |r| ==> Dispatch(r[i].key) == Some(r[i])
  {
    if chunks == [] || chunks[0] == [] then []
    else
      (match DispatchChunk(chunks[0]) case Some(a) => [a] case None => [])
      + ConnectionActions(chunks[1..])
  }

  /** Nothing after the first empty chunk is played. */
  lemma {:induction false} EmptyChunkEndsConnection(chunks: seq<string>, k: int)
    requires 0 <= k < |chunks| && chunks[k] == []
    ensures ConnectionActions(chunks) == ConnectionActions(chunks[..k])
  {
    if k > 0 {
      assert chunks[..k][1..] == chunks[1..][..k - 1];
      EmptyChunkEndsConnection(chunks[1..], k - 1);
    }
  }

  /** A chunk of whitespace alone is not empty: the loop goes on, playing nothing for it. */
  lemma BlankChunkContinues(blank: string, rest: seq<string>)
    requires blank != [] && forall i :: 0 <= i < |blank| ==> IsSpace(blank[i])
    ensures ConnectionActions([blank] + rest) == ConnectionActions(rest)
  {
    PaddedTriggerless(blank);
    assert ([blank] + rest)[1..] == rest;
  }

  /** A chunk of whitespace strips to the empty text, which is no trigger. */
  lemma PaddedTriggerless(blank: string)
    requires forall i :: 0 <= i < |blank| ==> IsSpace(blank[i])
    ensures DispatchChunk(blank) == None
  {
  }

  /**
   * One pass of the inner loop for a non-empty chunk: a trigger plays its
   * tact file through the loader and yields its wait; anything else plays
   * nothing and changes nothing.
   */
  method HandleChunk(player: HapticPlayer, chunk: string, canConnect: bool, files: map<string, Json>)
    returns (action: Option<Action>, trace: seq<PlayerCall>)
    requires player.Valid()
    modifies player`hasHandle, player`connected, player`outbox
    ensures player.Valid()
    ensures action == DispatchChunk(chunk)
    ensures action.None? ==>
      trace == [] && player.outbox == old(player.outbox)
      && player.hasHandle == old(player.hasHandle) && player.connected == old(player.connected)
    ensures action.Some? ==>
      trace == LoaderTrace(old(player.IsInitialized()), RegisterRaises(player, files, action.value.file),
                           action.value.key, action.value.file)
    ensures action.Some? ==> (player.IsInitialized() <==> old(player.IsInitialized()) || canConnect)
    ensures action.Some? && (old(player.IsInitialized()) || !canConnect) ==>
      player.hasHandle == old(player.hasHandle) && player.connected == old(player.connected)
    ensures action.Some? && RegisterRaises(player, files, action.value.file) ==> player.outbox == old(player.outbox)
    ensures action.Some? && !RegisterRaises(player, files, action.value.file) ==>
      var (tracks, layout) := ReadProject(files, TactPath(action.value.file)).value;
      player.outbox == old(player.outbox)
        + (if player.Live() then [Request.Register(action.value.key, tracks, layout), SubmitKey(action.value.key)] else [])
  {
    var trigger := Strip(chunk);
    action := Dispatch(trigger);
    trace := [];
    if action.Some? {
      var statuses;
      trace, statuses := LoadAndPlayTactFile(player, action.value.key, action.value.file, canConnect, files);
    }
  }
}
