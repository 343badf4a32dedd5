/**
 * The batch transcription handler's post-processing (backend/main.py):
 * waiting on the transcription job's status, and folding the recognised
 * items into speaker turns, as `POST /api/transcribe` returns them.
 */
module Transcript {
  import opened Common
  import Text

  // ---------------------------------------------------------------------
  // Polling the transcription job
  // ---------------------------------------------------------------------

  /** TranscriptionJobStatus as the managed transcription service reports it. */
  datatype JobStatus = Queued | InProgress | Completed | Failed

  predicate IsTerminal(s: JobStatus) { s == Completed || s == Failed }

  /**
   * The index of the first terminal status among successive polls, or None
   * while every poll so far reported the job as still running.
   */
  function FirstTerminal(polls: seq<JobStatus>): (r: Option<nat>)
    ensures r.Some? ==> r.value < |polls| && IsTerminal(polls[r.value])
    ensures r.Some? ==> forall j :: 0 <= j < r.value ==> !IsTerminal(polls[j])
    ensures r.None? ==> forall j :: 0 <= j < |polls| ==> !IsTerminal(polls[j])
  {
    if polls == [] then None
    else if IsTerminal(polls[0]) then Some(0)
    else match FirstTerminal(polls[1..])
      case None => None
      case Some(k) => Some(k + 1)
  }

  /**
   * The `while True` loop: poll, stop at COMPLETED or FAILED, otherwise sleep
   * and poll again. `polls` stands for the statuses the service returns, in
   * order; None means the loop has not exited after all of them.
   */
  method WaitForJob(polls: seq<JobStatus>) returns (stoppedAt: Option<nat>)
    ensures stoppedAt == FirstTerminal(polls)
    ensures stoppedAt.Some? ==> IsTerminal(polls[stoppedAt.value])
    ensures stoppedAt.None? ==> Completed !in polls && Failed !in polls
  {
    var i := 0;
    while i < |polls|
      invariant 0 <= i <= |polls|
      invariant forall j :: 0 <= j < i ==> !IsTerminal(polls[j])
    {
      if IsTerminal(polls[i]) {
        FirstTerminalAt(polls, i);
        return Some(i);
      }
      i := i + 1;
    }
    stoppedAt := None;
  }

  /** Where the first terminal status is, FirstTerminal finds it. */
  lemma {:induction false} FirstTerminalAt(polls: seq<JobStatus>, i: nat)
    requires i < |polls| && IsTerminal(polls[i])
    requires forall j :: 0 <= j < i ==> !IsTerminal(polls[j])
    ensures FirstTerminal(polls) == Some(i)
  {
    if i > 0 {
      FirstTerminalAt(polls[1..], i - 1);
    }
  }

  // ---------------------------------------------------------------------
  // Speaker turns
  // ---------------------------------------------------------------------

  /**
   * One entry of `results.items` in the transcript document: the optional
   * `speaker_label`, and the `content` of each of its `alternatives` (an
   * absent list and an empty list both read as no alternatives).
   */
  datatype Item = Item(speakerLabel: Option<string>, alternatives: seq<string>)

  datatype Role = Agent | Customer

  /** One `{'speaker': ..., 'text': ...}` entry of the response, with its words. */
  datatype Turn = Turn(speaker: Role, words: seq<string>)
  {
    /** The response's 'text' field: the words joined by single spaces. */
    function Rendered(): string { Text.Join(" ", words) }
  }

  /**
   * A turn's 'text' holds all its words with one space between each two, so
   * it is non-empty when any of its words is.
   */
  lemma RenderedLength(t: Turn)
    requires t.words != []
    ensures |t.Rendered()| == Text.TotalLength(t.words) + |t.words| - 1
    ensures (exists i :: 0 <= i < |t.words| && t.words[i] != []) ==> t.Rendered() != []
  {
    Text.JoinLength(" ", t.words);
    if exists i :: 0 <= i < |t.words| && t.words[i] != [] {
      var i :| 0 <= i < |t.words| && t.words[i] != [];
      Text.TotalLengthPositive(t.words, i);
    }
  }

  /** `f"Speaker {item['speaker_label']}"` */
  function SpeakerName(spk: string): string { "Speaker " + spk }

  /** The role a turn is reported under: Agent for "Speaker 1", Customer otherwise. */
  function RoleOf(currentSpeaker: Option<string>): Role
  {
    if currentSpeaker == Some("Speaker 1") then Agent else Customer
  }

  /** The word an item contributes: the content of its first alternative. */
  function WordOf(item: Item): seq<string>
  {
    if item.alternatives != [] then [item.alternatives[0]] else []
  }

  /** Every recognised word of the transcript, in order (the independent reference). */
  function Words(items: seq<Item>): seq<string>
  {
    if items == [] then [] else Words(items[..|items| - 1]) + WordOf(items[|items| - 1])
  }

  /** All the words of a list of turns, in order. */
  function Flatten(turns: seq<Turn>): seq<string>
  {
    if turns == [] then [] else Flatten(turns[..|turns| - 1]) + turns[|turns| - 1].words
  }

  /** The handler's loop variables: `speakers`, `current_speaker`, `current_text`. */
  datatype Fold = Fold(turns: seq<Turn>, current: Option<string>, pending: seq<string>)

  const Start := Fold([], None, [])

  /** One iteration of the loop over `items`. */
  function Step(f: Fold, item: Item): Fold
  {
    var g :=
      match item.speakerLabel
      case None => f
      case Some(spk) =>
        var speaker := SpeakerName(spk);
        if f.current.Some? && speaker != f.current.value && f.pending != [] then
          Fold(f.turns + [Turn(RoleOf(f.current), f.pending)], Some(speaker), [])
        else
          Fold(f.turns, Some(speaker), f.pending);
    g.(pending := g.pending + WordOf(item))
  }

  /** The loop variables after the first |items| iterations. */
  function Run(items: seq<Item>): Fold
  {
    if items == [] then Start else Step(Run(items[..|items| - 1]), items[|items| - 1])
  }

  /** The final flush of the words still pending after the loop. */
  function Finish(f: Fold): seq<Turn>
  {
    if f.pending != [] then f.turns + [Turn(RoleOf(f.current), f.pending)] else f.turns
  }

  /** The turns the handler returns for a transcript's items. */
  function Segment(items: seq<Item>): seq<Turn>
  {
    Finish(Run(items))
  }

  predicate NoEmptyTurn(turns: seq<Turn>)
  {
    forall k :: 0 <= k < |turns| ==> turns[k].words != []
  }

  /**
   * Lines 176-199 as they are written: the loop over the items, then the
   * final flush. The result is exactly Segment(items); it loses, repeats and
   * reorders no word, and every turn it reports holds at least one word.
   */
  method SpeakerTurns(items: seq<Item>) returns (speakers: seq<Turn>)
    ensures speakers == Segment(items)
    ensures Flatten(speakers) == Words(items)
    ensures NoEmptyTurn(speakers)
    ensures |speakers| <= |Words(items)|
  {
    speakers := [];
    var currentSpeaker: Option<string> := None;
    var currentText: seq<string> := [];
    for i := 0 to |items|
      invariant Fold(speakers, currentSpeaker, currentText) == Run(items[..i])
    {
      var item := items[i];
      if item.speakerLabel.Some? {
        var speaker := SpeakerName(item.speakerLabel.value);
        if currentSpeaker.Some? && speaker != currentSpeaker.value && currentText != [] {
          speakers := speakers + [Turn(RoleOf(currentSpeaker), currentText)];
          currentText := [];
        }
        currentSpeaker := Some(speaker);
      }
      if item.alternatives != [] {
        currentText := currentText + [item.alternatives[0]];
      }
      assert items[..i + 1][..i] == items[..i];
    }
    if currentText != [] {
      speakers := speakers + [Turn(RoleOf(currentSpeaker), currentText)];
    }
    assert items[..|items|] == items;
    SegmentConservesWords(items);
    SegmentHasNoEmptyTurn(items);
    SegmentTurnCount(items);
  }

  lemma FlattenAppend(turns: seq<Turn>, t: Turn)
    ensures Flatten(turns + [t]) == Flatten(turns) + t.words
  {
    assert (turns + [t])[..|turns|] == turns;
  }

  /** The loop invariant: flushed words followed by pending words are the words read so far. */
  lemma {:induction false} RunConservesWords(items: seq<Item>)
    ensures Flatten(Run(items).turns) + Run(items).pending == Words(items)
  {
    if items != [] {
      var pre, item := items[..|items| - 1], items[|items| - 1];
      RunConservesWords(pre);
      var f := Run(pre);
      assert Run(items) == Step(f, item);
      assert Words(items) == Words(pre) + WordOf(item);
      if item.speakerLabel.Some? && f.current.Some?
         && SpeakerName(item.speakerLabel.value) != f.current.value && f.pending != [] {
        var t := Turn(RoleOf(f.current), f.pending);
        FlattenAppend(f.turns, t);
        assert Run(items).turns == f.turns + [t] && Run(items).pending == WordOf(item);
      } else {
        assert Run(items).turns == f.turns && Run(items).pending == f.pending + WordOf(item);
      }
    }
  }

  /** The loop flushes a turn only while words are pending, so no flushed turn is empty. */
  lemma {:induction false} RunHasNoEmptyTurn(items: seq<Item>)
    ensures NoEmptyTurn(Run(items).turns)
  {
    if items != [] {
      var pre, item := items[..|items| - 1], items[|items| - 1];
      RunHasNoEmptyTurn(pre);
      var f := Run(pre);
      assert Run(items) == Step(f, item);
      if item.speakerLabel.Some? && f.current.Some?
         && SpeakerName(item.speakerLabel.value) != f.current.value && f.pending != [] {
        assert Run(items).turns == f.turns + [Turn(RoleOf(f.current), f.pending)];
      } else {
        assert Run(items).turns == f.turns;
      }
    }
  }

  /** Nothing is lost, duplicated or reordered: the turns' words are the items' words. */
  lemma SegmentConservesWords(items: seq<Item>)
    ensures Flatten(Segment(items)) == Words(items)
  {
    RunConservesWords(items);
    var f := Run(items);
    if f.pending != [] {
      FlattenAppend(f.turns, Turn(RoleOf(f.current), f.pending));
    }
  }

  /** A turn is flushed only while words are pending, so none is empty. */
  lemma SegmentHasNoEmptyTurn(items: seq<Item>)
    ensures NoEmptyTurn(Segment(items))
  {
    RunHasNoEmptyTurn(items);
  }

  lemma {:induction false} FlattenLength(turns: seq<Turn>)
    requires NoEmptyTurn(turns)
    ensures |turns| <= |Flatten(turns)|
  {
    if turns != [] {
      FlattenLength(turns[..|turns| - 1]);
    }
  }

  /** There are never more turns than recognised words. */
  lemma SegmentTurnCount(items: seq<Item>)
    ensures |Segment(items)| <= |Words(items)|
  {
    SegmentConservesWords(items);
    SegmentHasNoEmptyTurn(items);
    FlattenLength(Segment(items));
  }

  /** Only the label "1" is reported as the Agent; every other label is the Customer. */
  lemma AgentExactlyForLabelOne(spk: string)
    ensures RoleOf(Some(SpeakerName(spk))) == Agent <==> spk == "1"
  {
    if SpeakerName(spk) == "Speaker 1" {
      assert spk == SpeakerName(spk)[8..];
    }
  }

  /** Words before any speaker label are reported under the Customer role. */
  lemma UnlabelledIsCustomer()
    ensures RoleOf(None) == Customer
  {
  }

  /**
   * A new turn begins only at a labelled item whose speaker differs from the
   * current one while words are pending; any other item extends the turn.
   */
  lemma {:induction false} TurnBoundary(items: seq<Item>, item: Item)
    ensures var f, g := Run(items), Run(items + [item]);
      if item.speakerLabel.Some? && f.current.Some?
         && SpeakerName(item.speakerLabel.value) != f.current.value && f.pending != []
      then g.turns == f.turns + [Turn(RoleOf(f.current), f.pending)] && g.pending == WordOf(item)
      else g.turns == f.turns && g.pending == f.pending + WordOf(item)
  {
    assert (items + [item])[..|items|] == items;
  }

  /** Every labelled item carries `spk` (unlabelled items may appear anywhere). */
  predicate OnlySpeaker(items: seq<Item>, spk: string)
  {
    forall k :: 0 <= k < |items| && items[k].speakerLabel.Some? ==>
      items[k].speakerLabel.value == spk
  }

  predicate NoLabel(items: seq<Item>)
  {
    forall k :: 0 <= k < |items| ==> items[k].speakerLabel.None?
  }

  lemma {:induction false} RunSingleSpeaker(items: seq<Item>, spk: string)
    requires OnlySpeaker(items, spk)
    ensures Run(items).turns == []
    ensures Run(items).pending == Words(items)
    ensures Run(items).current == if NoLabel(items) then None else Some(SpeakerName(spk))
  {
    if items != [] {
      var pre := items[..|items| - 1];
      assert OnlySpeaker(pre, spk) by {
        forall k | 0 <= k < |pre| && pre[k].speakerLabel.Some?
          ensures pre[k].speakerLabel.value == spk
        {
          assert pre[k] == items[k];
        }
      }
      assert NoLabel(items) <==> NoLabel(pre) && items[|items| - 1].speakerLabel.None? by {
        if NoLabel(pre) && items[|items| - 1].speakerLabel.None? {
          forall k | 0 <= k < |items| ensures items[k].speakerLabel.None? {
            if k < |pre| { assert pre[k] == items[k]; }
          }
        }
        if NoLabel(items) {
          forall k | 0 <= k < |pre| ensures pre[k].speakerLabel.None? {
            assert pre[k] == items[k];
          }
        }
      }
      RunSingleSpeaker(pre, spk);
    }
  }

  /**
   * A transcript in which at most one speaker is labelled is one turn (or
   * none, without words), with the unlabelled leading words joining it.
   */
  lemma OneSpeakerOneTurn(items: seq<Item>, spk: string)
    requires OnlySpeaker(items, spk)
    ensures Words(items) == [] ==> Segment(items) == []
    ensures Words(items) != [] ==>
      Segment(items) == [Turn(if NoLabel(items) then Customer else RoleOf(Some(SpeakerName(spk))), Words(items))]
  {
    RunSingleSpeaker(items, spk);
  }

  /** Without any speaker label, the whole transcript is one Customer turn. */
  lemma UnlabelledTranscriptIsOneCustomerTurn(items: seq<Item>)
    requires NoLabel(items)
    ensures Words(items) != [] ==> Segment(items) == [Turn(Customer, Words(items))]
    ensures Words(items) == [] ==> Segment(items) == []
  {
    RunSingleSpeaker(items, "");
  }
}
