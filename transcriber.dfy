/**
 * The transcriber's state: a FIFO of audio file handles, a running flag, and
 * the append-only list of transcribed segments. One call of ProcessStep is one
 * pass of the worker loop; the speech engine is a parameter.
 */
module Transcription {
  import opened Wrappers
  import opened Text

  /**
   * What the speech engine gives back for one file: a failure (it raised), a
   * result dictionary with a list of segments (a segment without a "text" entry
   * is None), or any other result, already reduced to its text.
   */
  datatype EngineResult =
    | Raised
    | Segments(texts: seq<Option<string>>)
    | Other(text: string)

  /** A queued audio file: None or a path. */
  type Handle = Option<string>

  /** Python truthiness of a handle: present and not the empty string. */
  predicate Truthy(h: Handle)
  {
    h.Some? && h.value != ""
  }

  /** All segments carry a text. */
  predicate AllTexts(texts: seq<Option<string>>)
  {
    forall k :: 0 <= k < |texts| ==> texts[k].Some?
  }

  /** The segment texts of a result whose segments all carry one. */
  function Texts(texts: seq<Option<string>>): (r: seq<string>)
    requires AllTexts(texts)
    ensures |r| == |texts|
    ensures forall k :: 0 <= k < |texts| ==> texts[k] == Some(r[k])
  {
    if texts == [] then [] else [texts[0].value] + Texts(texts[1..])
  }

  /**
   * The text of one engine result: the segment texts joined by single spaces;
   * None when the engine raised or a segment lacks its text (the lookup raises
   * and the error is swallowed).
   */
  function Transcribe(result: EngineResult): (t: Option<string>)
    ensures result.Raised? ==> t == None
    ensures result.Segments? ==> (t.Some? <==> AllTexts(result.texts))
    ensures result.Segments? && AllTexts(result.texts) ==> t == Some(Join(Texts(result.texts)))
    ensures result.Other? ==> t == Some(result.text)
  {
    match result
    case Raised => None
    case Segments(texts) => if AllTexts(texts) then Some(Join(Texts(texts))) else None
    case Other(text) => Some(text)
  }

  /**
   * For a result with segments, the text holds the segment texts in segment
   * order, separated by single spaces: splitting it at spaces gives them back
   * when none of them contains a space, and its length is their total length
   * plus one per separator.
   */
  lemma TranscribeSegments(texts: seq<Option<string>>)
    requires AllTexts(texts) && texts != []
    ensures Transcribe(Segments(texts)).Some?
    ensures |Transcribe(Segments(texts)).value| == TotalLength(Texts(texts)) + |texts| - 1
    ensures (forall k :: 0 <= k < |texts| ==> ' ' !in texts[k].value) ==>
      Split(Transcribe(Segments(texts)).value) == Texts(texts)
  {
    JoinLength(Texts(texts));
    if forall k :: 0 <= k < |texts| ==> ' ' !in texts[k].value {
      SplitJoin(Texts(texts));
    }
  }

  /** Whether a handle yields a segment: it is truthy and transcribes to a non-empty text. */
  predicate Yields(engine: string -> EngineResult, h: Handle)
  {
    Truthy(h) && Transcribe(engine(h.value)).Some? && Transcribe(engine(h.value)).value != ""
  }

  /**
   * The segments one dequeued handle adds to the transcript: none for a falsy
   * handle, a failed transcription or an empty text; otherwise its text.
   */
  function Contribution(engine: string -> EngineResult, h: Handle): (r: seq<string>)
    ensures |r| <= 1
    ensures r != [] <==> Yields(engine, h)
    ensures r != [] ==> r[0] != "" && Transcribe(engine(h.value)) == Some(r[0])
  {
    if Truthy(h) then
      match Transcribe(engine(h.value))
      case Some(t) => if t != "" then [t] else []
      case None => []
    else []
  }

  /** The segments a run of dequeued handles adds to the transcript, in queue order. */
  function Accumulate(engine: string -> EngineResult, handles: seq<Handle>): (r: seq<string>)
    ensures |r| <= |handles|
    ensures forall k :: 0 <= k < |r| ==> r[k] != ""
  {
    if handles == [] then [] else Contribution(engine, handles[0]) + Accumulate(engine, handles[1..])
  }

  /** Processing two runs of handles one after the other adds the segments of the first, then those of the second. */
  lemma {:induction false} AccumulateConcat(engine: string -> EngineResult, a: seq<Handle>, b: seq<Handle>)
    ensures Accumulate(engine, a + b) == Accumulate(engine, a) + Accumulate(engine, b)
  {
    if a == [] {
      assert a + b == b;
    } else {
      assert (a + b)[1..] == a[1..] + b;
      AccumulateConcat(engine, a[1..], b);
    }
  }

  /** Every position of `idx`, plus one. */
  function Shift(idx: seq<nat>): (r: seq<nat>)
    ensures |r| == |idx| && forall k :: 0 <= k < |idx| ==> r[k] == idx[k] + 1
  {
    seq(|idx|, k requires 0 <= k < |idx| => idx[k] + 1)
  }

  /** The positions in `handles` of the handles that yield a segment. */
  function Sources(engine: string -> EngineResult, handles: seq<Handle>): (idx: seq<nat>)
    ensures forall k :: 0 <= k < |idx| ==> idx[k] < |handles| && Yields(engine, handles[idx[k]])
  {
    if handles == [] then []
    else
      var rest := Shift(Sources(engine, handles[1..]));
      assert forall k :: 0 <= k < |rest| ==> handles[rest[k]] == handles[1..][rest[k] - 1];
      if Yields(engine, handles[0]) then [0] + rest else rest
  }

  /** The positions of the sources strictly increase: segments keep submission order. */
  lemma {:induction false} SourcesIncreasing(engine: string -> EngineResult, handles: seq<Handle>)
    ensures forall k, l :: 0 <= k < l < |Sources(engine, handles)| ==>
      Sources(engine, handles)[k] < Sources(engine, handles)[l]
  {
    if handles != [] {
      SourcesIncreasing(engine, handles[1..]);
    }
  }

  /** The transcribed texts of the handles at positions `idx`, in the order of `idx`. */
  function TextsAt(engine: string -> EngineResult, handles: seq<Handle>, idx: seq<nat>): (r: seq<string>)
    requires forall k :: 0 <= k < |idx| ==> idx[k] < |handles| && Yields(engine, handles[idx[k]])
    ensures |r| == |idx|
  {
    if idx == [] then []
    else
      assert Yields(engine, handles[idx[0]]);
      [Transcribe(engine(handles[idx[0]].value)).value] + TextsAt(engine, handles, idx[1..])
  }

  /** Shifting positions by one reads the same texts from the handles after the first. */
  lemma {:induction false} TextsAtShift(engine: string -> EngineResult, handles: seq<Handle>, idx: seq<nat>)
    requires handles != []
    requires forall k :: 0 <= k < |idx| ==> idx[k] < |handles| - 1 && Yields(engine, handles[1..][idx[k]])
    ensures forall k :: 0 <= k < |Shift(idx)| ==> Shift(idx)[k] < |handles| && Yields(engine, handles[Shift(idx)[k]])
    ensures TextsAt(engine, handles, Shift(idx)) == TextsAt(engine, handles[1..], idx)
  {
    assert forall k :: 0 <= k < |idx| ==> handles[1..][idx[k]] == handles[idx[k] + 1];
    if idx != [] {
      assert Shift(idx)[1..] == Shift(idx[1..]);
      TextsAtShift(engine, handles, idx[1..]);
    }
  }

  /**
   * The transcript is the successful transcriptions in submission order: the
   * accumulated segments are exactly the texts of the handles that yield one,
   * read at the increasing positions Sources gives.
   */
  lemma {:induction false} AccumulateIsTextsAtSources(engine: string -> EngineResult, handles: seq<Handle>)
    ensures Accumulate(engine, handles) == TextsAt(engine, handles, Sources(engine, handles))
  {
    if handles != [] {
      var tail := handles[1..];
      var rest := Sources(engine, tail);
      AccumulateIsTextsAtSources(engine, tail);
      TextsAtShift(engine, handles, rest);
      if Yields(engine, handles[0]) {
        var idx := [0] + Shift(rest);
        assert Sources(engine, handles) == idx;
        assert idx[1..] == Shift(rest);
      } else {
        assert Sources(engine, handles) == Shift(rest);
      }
    }
  }

  /** No successful transcription is left out of the transcript. */
  lemma {:induction false} SourcesComplete(engine: string -> EngineResult, handles: seq<Handle>, j: nat)
    requires j < |handles| && Yields(engine, handles[j])
    ensures j in Sources(engine, handles)
  {
    if j > 0 {
      var tail := handles[1..];
      assert tail[j - 1] == handles[j];
      SourcesComplete(engine, tail, j - 1);
      var rest := Sources(engine, tail);
      var k :| 0 <= k < |rest| && rest[k] == j - 1;
      assert Shift(rest)[k] == j;
    }
  }

  /** The transcriber: its queue of handles, its running flag and the segments transcribed so far. */
  class Transcriber {
    /** The language hint passed to the engine ("auto" for none); not interpreted here. */
    const language: string
    /** Handles waiting to be transcribed, oldest first. */
    var queue: seq<Handle>
    var running: bool
    /** The transcribed segments, in the order they were added. */
    var transcript: seq<string>

    /** Only non-empty texts are ever added. */
    ghost predicate Valid()
      reads this
    {
      forall k :: 0 <= k < |transcript| ==> transcript[k] != ""
    }

    constructor (language: string := "auto")
      ensures Valid()
      ensures this.language == language && queue == [] && !running && transcript == []
    {
      this.language := language;
      queue, running, transcript := [], false, [];
    }

    /** Starts a session: sets the running flag and forgets earlier segments; queued handles stay. */
    method Start()
      requires Valid()
      modifies this
      ensures Valid()
      ensures running && transcript == [] && queue == old(queue)
    {
      running := true;
      transcript := [];
    }

    /** Ends the session and returns the transcript: the segments joined by single spaces. */
    method Stop() returns (text: string)
      requires Valid()
      modifies this
      ensures Valid()
      ensures !running && transcript == old(transcript) && queue == old(queue)
      ensures text == Join(transcript)
      ensures text == "" <==> transcript == []
    {
      running := false;
      text := Join(transcript);
      JoinEmpty(transcript);
    }

    /** Queues a handle behind those already waiting. */
    method AddAudio(h: Handle)
      requires Valid()
      modifies this
      ensures Valid()
      ensures queue == old(queue) + [h]
      ensures running == old(running) && transcript == old(transcript)
    {
      queue := queue + [h];
    }

    /**
     * One pass of the worker loop, taken only while running: when a handle is waiting, take the oldest,
     * transcribe it if it is truthy, and append the text if there is one.
     */
    method ProcessStep(engine: string -> EngineResult)
      requires Valid() && running
      modifies this
      ensures Valid()
      ensures running == old(running)
      ensures old(queue) == [] ==> queue == old(queue) && transcript == old(transcript)
      ensures old(queue) != [] ==>
        queue == old(queue)[1..] && transcript == old(transcript) + Contribution(engine, old(queue)[0])
    {
      if queue == [] {
        return;
      }
      var h := queue[0];
      queue := queue[1..];
      if Truthy(h) {
        var t := Transcribe(engine(h.value));
        if t.Some? && t.value != "" {
          transcript := transcript + [t.value];
        }
      }
    }

    /**
     * The worker loop while the session runs, for `passes` passes (the pass
     * after which the flag is found cleared). Handles are taken in the order
     * they were queued, and the transcript grows by exactly their segments.
     */
    method Run(engine: string -> EngineResult, passes: nat) returns (taken: nat)
      requires Valid()
      modifies this
      ensures Valid()
      ensures running == old(running)
      ensures taken == if !old(running) then 0 else if passes < |old(queue)| then passes else |old(queue)|
      ensures queue == old(queue)[taken..]
      ensures transcript == old(transcript) + Accumulate(engine, old(queue)[..taken])
    {
      var i := 0;
      taken := 0;
      while running && i < passes
        invariant Valid() && running == old(running)
        invariant 0 <= i <= passes
        invariant !old(running) ==> i == 0
        invariant taken == if i < |old(queue)| then i else |old(queue)|
        invariant queue == old(queue)[taken..]
        invariant transcript == old(transcript) + Accumulate(engine, old(queue)[..taken])
      {
        if queue != [] {
          ghost var before := old(queue)[..taken];
          ghost var h := queue[0];
          ProcessStep(engine);
          assert old(queue)[..taken + 1] == before + [h];
          AccumulateConcat(engine, before, [h]);
          taken := taken + 1;
        } else {
          ProcessStep(engine);
        }
        i := i + 1;
      }
    }
  }
}
