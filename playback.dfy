/**
 * The audio side of a reply: the text cleanup before speech synthesis, the
 * cutting of synthesized samples into chunks, and the playback buffer the
 * output callback drains. Samples are integers; their scaling to floating
 * point is not modelled.
 */
module Playback {
  import opened Wrappers
  import opened Text

  const MaxSpokenLength := 500
  const ChunkSize := 1024

  /** `s.replace('\n', ' ')` */
  function NewlinesToSpaces(s: string): (r: string)
    ensures |r| == |s|
    ensures forall i :: 0 <= i < |s| ==> r[i] == if s[i] == '\n' then ' ' else s[i]
  {
    seq(|s|, i requires 0 <= i < |s| => if s[i] == '\n' then ' ' else s[i])
  }

  /** `s.replace('\r', '')` */
  function DropReturns(s: string): (r: string)
    ensures '\r' !in r
    ensures |r| <= |s|
    ensures forall c :: c in r ==> c in s
  {
    if s == [] then [] else (if s[0] == '\r' then [] else [s[0]]) + DropReturns(s[1..])
  }

  /** Line breaks flattened: newlines become spaces, carriage returns go. */
  function OneLine(s: string): string {
    DropReturns(NewlinesToSpaces(s))
  }

  /** Text already on one line is left as it is. */
  lemma {:induction false} OneLineUnchanged(s: string)
    requires '\n' !in s && '\r' !in s
    ensures OneLine(s) == s
  {
    assert NewlinesToSpaces(s) == s;
    DropReturnsUnchanged(s);
  }

  lemma {:induction false} DropReturnsUnchanged(s: string)
    requires '\r' !in s
    ensures DropReturns(s) == s
  {
    if s != [] {
      assert s[0] in s;
      assert forall c :: c in s[1..] ==> c in s;
      DropReturnsUnchanged(s[1..]);
      assert [s[0]] + s[1..] == s;
    }
  }

  /**
   * Lines 1060-1065: strip, flatten line breaks, cut to 500 characters plus
   * an ellipsis; None when nothing is left to say.
   */
  function SpeechText(text: string): Option<string> {
    var t := OneLine(Strip(text));
    var t' := if |t| > MaxSpokenLength then t[..MaxSpokenLength] + "..." else t;
    if t' == "" then None else Some(t')
  }

  lemma {:induction false} DropReturnsKeepsFirst(s: string)
    requires s != [] && s[0] != '\r'
    ensures DropReturns(s) != [] && DropReturns(s)[0] == s[0]
  {
  }

  /**
   * What is sent for synthesis has no line breaks and at most 503
   * characters, and nothing is sent exactly when the text is blank. It is
   * the stripped, flattened text, cut to its first 500 characters with
   * "..." appended exactly when it is longer; a blank-free, one-line text of
   * at most 500 characters is spoken exactly as stripped.
   */
  lemma SpeechTextContract(text: string)
    ensures SpeechText(text).None? <==> Strip(text) == ""
    ensures SpeechText(text).Some? ==>
      && |SpeechText(text).value| <= MaxSpokenLength + 3
      && '\n' !in SpeechText(text).value && '\r' !in SpeechText(text).value
    ensures var c := OneLine(Strip(text));
      SpeechText(text).Some? ==>
        && (|c| <= MaxSpokenLength ==> SpeechText(text).value == c)
        && (|c| > MaxSpokenLength ==>
              SpeechText(text).value[..MaxSpokenLength] == c[..MaxSpokenLength]
              && SpeechText(text).value[MaxSpokenLength..] == "...")
    ensures '\n' !in text && '\r' !in text && Strip(text) != "" && |Strip(text)| <= MaxSpokenLength ==>
      SpeechText(text) == Some(Strip(text))
  {
    var s := Strip(text);
    var n := NewlinesToSpaces(s);
    var t := DropReturns(n);
    StripTrims(text);
    if '\n' !in text && '\r' !in text {
      var lo :| OccursAt(text, s, lo);
      assert forall c :: c in s ==> c in text by {
        forall c | c in s ensures c in text {
          var j :| 0 <= j < |s| && s[j] == c;
          assert text[lo + j] == s[j];
        }
      }
      OneLineUnchanged(s);
    }
    if s != "" {
      assert n[0] != '\r';
      DropReturnsKeepsFirst(n);
    }
    var t' := if |t| > MaxSpokenLength then t[..MaxSpokenLength] + "..." else t;
    if |t| > MaxSpokenLength {
      assert forall c :: c in t[..MaxSpokenLength] ==> c in t;
    }
  }

  /** The chunks, concatenated in order. */
  function Flatten(chunks: seq<seq<int>>): seq<int> {
    if chunks == [] then [] else Flatten(chunks[..|chunks| - 1]) + chunks[|chunks| - 1]
  }

  /** Every chunk is non-empty and at most ChunkSize long, and all but the last are full. */
  predicate WellChunked(chunks: seq<seq<int>>) {
    && (forall i :: 0 <= i < |chunks| ==> 0 < |chunks[i]| <= ChunkSize)
    && (forall i :: 0 <= i < |chunks| - 1 ==> |chunks[i]| == ChunkSize)
  }

  /** Lines 1126-1129: cut the samples into chunks of 1024 for the playback queue. */
  method ChunkSamples(samples: seq<int>) returns (chunks: seq<seq<int>>)
    ensures Flatten(chunks) == samples
    ensures WellChunked(chunks)
    ensures |chunks| == (|samples| + ChunkSize - 1) / ChunkSize
  {
    chunks := [];
    var i := 0;
    while i < |samples|
      invariant 0 <= i <= |samples|
      invariant i == |chunks| * ChunkSize || i == |samples|
      invariant |chunks| == (i + ChunkSize - 1) / ChunkSize
      invariant Flatten(chunks) == samples[..i]
      invariant forall k :: 0 <= k < |chunks| ==> 0 < |chunks[k]| <= ChunkSize
      invariant forall k :: 0 <= k < |chunks| - 1 ==> |chunks[k]| == ChunkSize
      invariant i < |samples| ==> forall k :: 0 <= k < |chunks| ==> |chunks[k]| == ChunkSize
      decreases |samples| - i
    {
      var end := if i + ChunkSize <= |samples| then i + ChunkSize else |samples|;
      var chunk := samples[i..end];
      assert samples[..end] == samples[..i] + chunk;
      chunks := chunks + [chunk];
      i := end;
    }
    assert samples[..i] == samples;
  }

  /**
   * One output callback: `frames` samples to play, taken from the front of
   * the buffer and padded with silence when it runs short, and what remains.
   */
  function Consume(buffer: seq<int>, frames: nat): (r: (seq<int>, seq<int>))
    ensures |r.0| == frames
    ensures |buffer| >= frames ==> r.0 + r.1 == buffer
    ensures |buffer| < frames ==> r.0 == buffer + Silence(frames - |buffer|) && r.1 == []
  {
    if |buffer| >= frames then (buffer[..frames], buffer[frames..])
    else (buffer + Silence(frames - |buffer|), [])
  }

  function Silence(n: nat): (r: seq<int>)
    ensures |r| == n && forall i :: 0 <= i < n ==> r[i] == 0
  {
    seq(n, _ => 0)
  }

  /** The output of a run of callbacks, one per frame count, and the buffer left. */
  function Drain(buffer: seq<int>, frames: seq<nat>): (seq<int>, seq<int>)
    decreases |frames|
  {
    if frames == [] then ([], buffer)
    else
      var first := Consume(buffer, frames[0]);
      var later := Drain(first.1, frames[1..]);
      (first.0 + later.0, later.1)
  }

  function Sum(frames: seq<nat>): nat {
    if frames == [] then 0 else frames[0] + Sum(frames[1..])
  }

  /**
   * Playback neither loses, repeats nor reorders samples: callbacks asking
   * for at most what is buffered play exactly the buffered samples, in
   * order, and leave the rest.
   */
  lemma {:induction false} DrainPlaysInOrder(buffer: seq<int>, frames: seq<nat>)
    requires Sum(frames) <= |buffer|
    ensures Drain(buffer, frames).0 + Drain(buffer, frames).1 == buffer
    ensures |Drain(buffer, frames).0| == Sum(frames)
    decreases |frames|
  {
    if frames != [] {
      var first := Consume(buffer, frames[0]);
      DrainPlaysInOrder(first.1, frames[1..]);
      var later := Drain(first.1, frames[1..]);
      assert Drain(buffer, frames) == (first.0 + later.0, later.1);
      assert first.0 + later.0 + later.1 == first.0 + (later.0 + later.1);
    }
  }

  /** The playback thread's buffer and the speaking flag it raises. */
  class Player {
    var audioBuffer: seq<int>
    var speaking: bool

    constructor()
      ensures audioBuffer == [] && !speaking
    {
      audioBuffer := [];
      speaking := false;
    }

    /** Lines 1189-1195: append a chunk from the queue; raise the flag once audio is buffered. */
    method Feed(chunk: seq<int>)
      modifies this
      ensures audioBuffer == old(audioBuffer) + chunk
      ensures speaking == (old(speaking) || |audioBuffer| > 0)
    {
      audioBuffer := audioBuffer + chunk;
      if !speaking && |audioBuffer| > 0 {
        speaking := true;
      }
    }

    /** Lines 1159-1169: fill one output block of `frames` samples. */
    method Callback(frames: nat) returns (out: seq<int>)
      modifies this
      ensures (out, audioBuffer) == Consume(old(audioBuffer), frames)
      ensures speaking == old(speaking)
    {
      if |audioBuffer| >= frames {
        out := audioBuffer[..frames];
        audioBuffer := audioBuffer[frames..];
      } else if |audioBuffer| > 0 {
        out := audioBuffer + Silence(frames - |audioBuffer|);
        audioBuffer := [];
      } else {
        out := Silence(frames);
        assert audioBuffer + out == out;
      }
    }

    /** The synthesized samples, chunked and fed in order, end up buffered whole. */
    method FeedAll(chunks: seq<seq<int>>)
      modifies this
      ensures audioBuffer == old(audioBuffer) + Flatten(chunks)
      ensures speaking == (old(speaking) || (|chunks| > 0 && |audioBuffer| > 0))
    {
      var i := 0;
      while i < |chunks|
        invariant 0 <= i <= |chunks|
        invariant audioBuffer == old(audioBuffer) + Flatten(chunks[..i])
        invariant speaking == (old(speaking) || (i > 0 && |audioBuffer| > 0))
      {
        assert chunks[..i + 1][..i] == chunks[..i];
        Feed(chunks[i]);
        i := i + 1;
      }
      assert chunks[..i] == chunks;
    }
  }
}
