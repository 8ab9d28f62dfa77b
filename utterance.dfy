/**
 * on_stt_message: final transcript segments from the speech-to-text stream
 * are buffered, and an end-of-utterance event turns the buffer into one
 * utterance for the agent.
 */
module Utterance {
  import opened Wrappers
  import opened Text

  /**
   * A speech-to-text message: the end of an utterance, a transcript segment
   * (final or not), or anything else (malformed or of another type).
   */
  datatype SttEvent = UtteranceEnd | Segment(transcript: string, isFinal: bool) | Other

  /** The buffer after a message, and the utterance handed to the agent, if any. */
  datatype Assembled = Assembled(buffer: seq<string>, utterance: Option<string>)

  /** The effect of one message on the buffer, given whether the agent is speaking. */
  function Assemble(buffer: seq<string>, speaking: bool, ev: SttEvent): Assembled {
    match ev
    case UtteranceEnd =>
      if buffer == [] then Assembled(buffer, None)
      else
        var full := Strip(JoinSpace(buffer));
        Assembled([], if full != "" && !speaking then Some(full) else None)
    case Segment(t, isFinal) =>
      Assembled(if t != "" && isFinal then buffer + [t] else buffer, None)
    case Other => Assembled(buffer, None)
  }

  /**
   * The end of an utterance leaves the buffer empty and hands over the
   * space-joined, stripped segments, unless that text is empty (as it is
   * for an empty buffer) or the agent is speaking; a segment is buffered
   * exactly when it is final and not empty; any other message changes
   * nothing; and nothing is handed over before the end.
   */
  lemma AssembleContract(buffer: seq<string>, speaking: bool, ev: SttEvent)
    ensures var a := Assemble(buffer, speaking, ev);
      ev.UtteranceEnd? ==>
        && a.buffer == []
        && (a.utterance.Some? <==> Strip(JoinSpace(buffer)) != "" && !speaking)
        && (a.utterance.Some? ==> a.utterance.value == Strip(JoinSpace(buffer)))
    ensures var a := Assemble(buffer, speaking, ev);
      ev.Segment? ==> a.utterance.None? && (a.buffer == buffer + [ev.transcript] <==> ev.transcript != "" && ev.isFinal)
    ensures var a := Assemble(buffer, speaking, ev);
      ev.Segment? && !(ev.transcript != "" && ev.isFinal) ==> a.buffer == buffer
    ensures ev.Other? ==> Assemble(buffer, speaking, ev) == Assembled(buffer, None)
    ensures var a := Assemble(buffer, speaking, ev);
      a.utterance.Some? ==> a.utterance.value != [] && !IsSpace(a.utterance.value[0])
                            && !IsSpace(a.utterance.value[|a.utterance.value| - 1])
  {
    var a := Assemble(buffer, speaking, ev);
    if ev.Segment? && a.buffer == buffer + [ev.transcript] {
      assert |a.buffer| == |buffer| + 1;
    }
    if a.utterance.Some? {
      StripTrims(JoinSpace(buffer));
    }
  }

  /** The non-empty final segments among `events`, in order. */
  function Finals(events: seq<SttEvent>): seq<string> {
    if events == [] then []
    else Finals(events[..|events| - 1])
         + (var e := events[|events| - 1]; if e.Segment? && e.transcript != "" && e.isFinal then [e.transcript] else [])
  }

  /** The buffer after a run of messages none of which ends the utterance. */
  function Buffered(buffer: seq<string>, speaking: bool, events: seq<SttEvent>): seq<string>
    requires forall i :: 0 <= i < |events| ==> !events[i].UtteranceEnd?
  {
    if events == [] then buffer
    else Assemble(Buffered(buffer, speaking, events[..|events| - 1]), speaking, events[|events| - 1]).buffer
  }

  /**
   * Starting from an empty buffer, the utterance handed over at the end is
   * the final non-empty segments, space-joined and stripped.
   */
  lemma {:induction false} SegmentsMakeUtterance(speaking: bool, events: seq<SttEvent>)
    requires forall i :: 0 <= i < |events| ==> !events[i].UtteranceEnd?
    ensures Buffered([], speaking, events) == Finals(events)
    ensures Finals(events) != [] && Strip(JoinSpace(Finals(events))) != "" && !speaking ==>
      Assemble(Buffered([], speaking, events), speaking, UtteranceEnd).utterance == Some(Strip(JoinSpace(Finals(events))))
  {
    if events != [] {
      var init := events[..|events| - 1];
      assert forall i :: 0 <= i < |init| ==> init[i] == events[i];
      SegmentsMakeUtterance(speaking, init);
    }
  }

  /** The handler's state: the segments of the utterance in progress. */
  class Assembler {
    var transcriptBuffer: seq<string>

    constructor()
      ensures transcriptBuffer == []
    {
      transcriptBuffer := [];
    }

    /** Lines 1227-1275: handle one message; return the utterance to process, if any. */
    method OnSttMessage(ev: SttEvent, speaking: bool) returns (utterance: Option<string>)
      modifies this
      ensures Assembled(transcriptBuffer, utterance) == Assemble(old(transcriptBuffer), speaking, ev)
    {
      utterance := None;
      match ev {
        case UtteranceEnd =>
          if |transcriptBuffer| > 0 {
            var full := Strip(JoinSpace(transcriptBuffer));
            transcriptBuffer := [];
            if full != "" && !speaking {
              utterance := Some(full);
            }
          }
        case Segment(t, isFinal) =>
          if t != "" && isFinal {
            transcriptBuffer := transcriptBuffer + [t];
          }
        case Other =>
      }
    }
  }
}
