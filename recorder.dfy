/**
 * The recorder's state: the two per-device frame queues filled by the capture
 * threads, the queue of merged chunks, and the operations that move frames
 * through them. One call of MergeStep is one pass of the capture loop.
 */
module Recording {
  import opened Wrappers
  import opened Mixer

  /** What one pass of the capture loop did. */
  datatype StepOutcome =
    | MicTimeout            // no microphone frame arrived: nothing was taken
    | SpeakerTimeout        // a microphone frame was taken, but no loopback frame arrived
    | Merged                // both frames were taken and one chunk was queued
    | Raised(error: MergeError)  // both frames were taken and the merge raised

  /** A written sound file: its sample rate and its samples. */
  datatype WavFile = WavFile(sampleRate: nat, data: Chunk)

  /** The files the recorder has written, by path. */
  type Disk = map<string, WavFile>

  predicate EndsWith(s: string, suffix: string)
  {
    |suffix| <= |s| && s[|s| - |suffix|..] == suffix
  }

  /** POSIX `os.path.join(dir, name)` for a relative `name`: '/' is the separator. */
  function PathJoin(dir: string, name: string): (p: string)
    ensures EndsWith(p, name)
  {
    if dir == "" then name
    else if dir[|dir| - 1] == '/' then dir + name
    else dir + "/" + name
  }

  /** The name of the file a chunk saved at `timestamp` is written to. */
  function ChunkFileName(timestamp: string): string
  {
    "chunk_" + timestamp + ".wav"
  }

  /** A chunk that can be written as 16-bit PCM: at least one sample, one or two channels, rectangular. */
  ghost predicate Playable(c: Chunk)
  {
    c.WellShaped() && |c.rows| > 0 && 0 < c.channels <= 2
  }

  class Recorder {
    const sampleRate: nat
    const chunkDuration: real
    /** The number of samples each device read asks for. */
    const chunkSize: int
    /** Frames read from the microphone, oldest first. */
    var micQueue: seq<Frame>
    /** Frames read from the loopback of the default speaker, oldest first. */
    var speakerQueue: seq<Frame>
    /** Merged chunks waiting to be collected, oldest first. */
    var chunks: seq<Chunk>

    ghost predicate Valid()
      reads this
    {
      && (forall k :: 0 <= k < |micQueue| ==> micQueue[k].WellShaped())
      && (forall k :: 0 <= k < |speakerQueue| ==> speakerQueue[k].WellShaped())
      && (forall k :: 0 <= k < |chunks| ==> Playable(chunks[k]))
    }

    constructor (sampleRate: nat := 16000, chunkDuration: real := 5.0)
      ensures Valid()
      ensures this.sampleRate == sampleRate && this.chunkDuration == chunkDuration
      ensures chunkSize == Trunc(sampleRate as real * chunkDuration)
      ensures micQueue == [] && speakerQueue == [] && chunks == []
    {
      this.sampleRate := sampleRate;
      this.chunkDuration := chunkDuration;
      chunkSize := Trunc(sampleRate as real * chunkDuration);
      micQueue, speakerQueue, chunks := [], [], [];
    }

    /** The microphone thread hands over one frame it has read. */
    method ReceiveMic(f: Frame)
      requires Valid() && f.WellShaped()
      modifies this
      ensures Valid()
      ensures micQueue == old(micQueue) + [f]
      ensures speakerQueue == old(speakerQueue) && chunks == old(chunks)
    {
      micQueue := micQueue + [f];
    }

    /** The loopback thread hands over one frame it has read. */
    method ReceiveSpeaker(f: Frame)
      requires Valid() && f.WellShaped()
      modifies this
      ensures Valid()
      ensures speakerQueue == old(speakerQueue) + [f]
      ensures micQueue == old(micQueue) && chunks == old(chunks)
    {
      speakerQueue := speakerQueue + [f];
    }

    /**
     * One pass of the capture loop. The microphone queue is read first; when it
     * is empty nothing happens. Otherwise its oldest frame is taken, and if the
     * loopback queue is then empty that frame is lost. With a frame from each,
     * the merged chunk is queued behind the earlier ones; a merge that raises
     * queues nothing (in the original the exception also ends the capture loop).
     */
    method MergeStep() returns (outcome: StepOutcome)
      requires Valid()
      modifies this
      ensures Valid()
      ensures old(micQueue) == [] ==>
        outcome == MicTimeout && micQueue == old(micQueue) && speakerQueue == old(speakerQueue) && chunks == old(chunks)
      ensures old(micQueue) != [] && old(speakerQueue) == [] ==>
        outcome == SpeakerTimeout && micQueue == old(micQueue)[1..] && speakerQueue == [] && chunks == old(chunks)
      ensures old(micQueue) != [] && old(speakerQueue) != [] ==>
        && micQueue == old(micQueue)[1..]
        && speakerQueue == old(speakerQueue)[1..]
        && var r := Merge(old(micQueue)[0], old(speakerQueue)[0]);
           if r.Success? then outcome == Merged && chunks == old(chunks) + [r.value]
           else outcome == Raised(r.error) && chunks == old(chunks)
    {
      if micQueue == [] {
        return MicTimeout;
      }
      var mic := micQueue[0];
      micQueue := micQueue[1..];
      if speakerQueue == [] {
        return SpeakerTimeout;
      }
      var speaker := speakerQueue[0];
      speakerQueue := speakerQueue[1..];
      outcome := MergePair(mic, speaker);
    }

    /** Merges one pair of frames and queues the chunk; a merge that raises queues nothing. */
    method MergePair(mic: Frame, speaker: Frame) returns (outcome: StepOutcome)
      requires Valid() && mic.WellShaped() && speaker.WellShaped()
      modifies this
      ensures Valid()
      ensures micQueue == old(micQueue) && speakerQueue == old(speakerQueue)
      ensures var r := Merge(mic, speaker);
        if r.Success? then outcome == Merged && chunks == old(chunks) + [r.value]
        else outcome == Raised(r.error) && chunks == old(chunks)
    {
      var r := Merge(mic, speaker);
      if r.Success? {
        chunks := chunks + [r.value];
        outcome := Merged;
      } else {
        outcome := Raised(r.error);
      }
    }

    /** Takes the oldest merged chunk without waiting; None when there is none. */
    method GetNextChunk() returns (c: Option<Chunk>)
      requires Valid()
      modifies this
      ensures Valid()
      ensures old(chunks) == [] ==> c == None && chunks == old(chunks)
      ensures old(chunks) != [] ==> c == Some(old(chunks)[0]) && chunks == old(chunks)[1..]
      ensures c.Some? ==> Playable(c.value)
      ensures micQueue == old(micQueue) && speakerQueue == old(speakerQueue)
    {
      if chunks == [] {
        c := None;
      } else {
        c := Some(chunks[0]);
        chunks := chunks[1..];
      }
    }

    /**
     * Writes a chunk as a sound file named after the time of saving, in
     * `outputDir` ("recordings" unless given), and returns its path; given no
     * chunk, writes nothing and returns None.
     */
    function SaveChunk(disk: Disk, chunk: Option<Chunk>, timestamp: string, outputDir: string := "recordings"): (r: (Disk, Option<string>))
      ensures chunk.None? ==> r == (disk, None)
      ensures chunk.Some? ==>
        && r.1 == Some(PathJoin(outputDir, ChunkFileName(timestamp)))
        && r.0 == disk[r.1.value := WavFile(sampleRate, chunk.value)]
    {
      match chunk
      case None => (disk, None)
      case Some(c) =>
        var path := PathJoin(outputDir, ChunkFileName(timestamp));
        (disk[path := WavFile(sampleRate, c)], Some(path))
    }
  }

  /** Joining a directory with two names gives the same path only for the same name. */
  lemma PathJoinInjective(dir: string, a: string, b: string)
    requires PathJoin(dir, a) == PathJoin(dir, b)
    ensures a == b
  {
    var prefix := if dir == "" then "" else if dir[|dir| - 1] == '/' then dir else dir + "/";
    assert PathJoin(dir, a) == prefix + a && PathJoin(dir, b) == prefix + b;
    assert a == (prefix + a)[|prefix|..];
    assert b == (prefix + b)[|prefix|..];
  }

  /**
   * Chunks saved in the same directory at different timestamps go to different
   * files, and chunks saved at the same timestamp go to the same file.
   */
  lemma {:induction false} SavePathsDistinct(dir: string, t1: string, t2: string)
    ensures PathJoin(dir, ChunkFileName(t1)) == PathJoin(dir, ChunkFileName(t2)) <==> t1 == t2
  {
    if PathJoin(dir, ChunkFileName(t1)) == PathJoin(dir, ChunkFileName(t2)) {
      PathJoinInjective(dir, ChunkFileName(t1), ChunkFileName(t2));
      var n1, n2 := ChunkFileName(t1), ChunkFileName(t2);
      assert |t1| == |t2|;
      assert t1 == n1[6..|n1| - 4];
      assert t2 == n2[6..|n2| - 4];
    }
  }
}
