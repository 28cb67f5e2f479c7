/** What the background worker promises about a job as a whole: which keys
    it touches, which statuses it records, the exact effects on the success
    path and on a failing track, and the partial state it can leave behind. */
module Lifecycle {
  import opened Runtime
  import opened Storage
  import opened Album
  import opened Background

  /** An effect the worker may have on job `jobId`: a write of its result,
      or a write of a metadata record whose status is final. */
  predicate JobEffect(jobId: string, op: Op)
  {
    && op.Write?
    && (op.key == MetadataKey(jobId) || op.key == ResultKey(jobId))
    && (op.key == MetadataKey(jobId) ==>
          op.value.JsonBlob? && "status" in op.value.record
          && (op.value.record["status"] == "completed" || op.value.record["status"] == "failed"))
  }

  predicate AllJobEffects(jobId: string, ops: seq<Op>)
  {
    forall k :: 0 <= k < |ops| ==> JobEffect(jobId, ops[k])
  }

  lemma StoredEffects(jobId: string, env: Env, metadata: Record, album: seq<Entry>)
    ensures AllJobEffects(jobId, Stored(jobId, env, metadata, album).ops)
  {
    KeyContract(jobId, jobId);
  }

  lemma AttemptedEffects(store: map<string, Value>, jobId: string, env: Env)
    ensures AllJobEffects(jobId, Attempted(store, jobId, env).ops)
  {
    var read := GetJson(store, MetadataKey(jobId), env.readMetadata);
    if read.Found? && env.parse(FieldText(read.got, "experiences")).Ok? {
      var experiences := env.parse(FieldText(read.got, "experiences")).value;
      var blob := GetBlob(store, AudioKey(jobId), env.readAudio);
      if blob.Found? && env.saveAudio.None? {
        var original := Recording(blob.got);
        if FirstFailure(env.transformErrors, |experiences|).None? {
          StoredEffects(jobId, env, read.got, Archive(Readme(read.got), original, experiences));
        }
      }
    }
  }

  lemma ProcessEffects(store: map<string, Value>, jobId: string, env: Env)
    ensures AllJobEffects(jobId, Process(store, jobId, env).ops)
  {
    var a := Attempted(store, jobId, env);
    AttemptedEffects(store, jobId, env);
    if a.thrown.Some? {
      var read := GetJson(Applied(store, a.ops), MetadataKey(jobId), env.rereadMetadata);
      if !read.Threw? {
        var metadata := if read.Found? then read.got else map[];
        assert JobEffect(jobId, Write(MetadataKey(jobId), JsonBlob(Failed(metadata, a.thrown.value)), env.writeFailed.None?));
      }
    }
  }

  /** Every effect of the worker is a write to the job's metadata or result key. */
  lemma WritesOnlyJobKeys(store: map<string, Value>, jobId: string, env: Env)
    ensures var ops := Process(store, jobId, env).ops;
      forall k :: 0 <= k < |ops| ==> ops[k].Write? && (ops[k].key == MetadataKey(jobId) || ops[k].key == ResultKey(jobId))
  {
    ProcessEffects(store, jobId, env);
  }

  /** Every record the worker writes under the metadata key has status
      "completed" or "failed": it never writes "processing" or "pending". */
  lemma StatusesWritten(store: map<string, Value>, jobId: string, env: Env)
    ensures var ops := Process(store, jobId, env).ops;
      forall k :: 0 <= k < |ops| && ops[k].Write? && ops[k].key == MetadataKey(jobId) ==>
        ops[k].value.JsonBlob? && "status" in ops[k].value.record
        && (ops[k].value.record["status"] == "completed" || ops[k].value.record["status"] == "failed")
  {
    ProcessEffects(store, jobId, env);
  }

  /** The inputs under which the `try` block reaches the track loop: the
      metadata record and the original audio are stored, the experiences
      parse, and the original is saved. */
  predicate Ready(store: map<string, Value>, jobId: string, env: Env, metadata: Record, experiences: seq<string>, audio: Value)
  {
    && env.readMetadata.None? && MetadataKey(jobId) in store && store[MetadataKey(jobId)] == JsonBlob(metadata)
    && env.parse(FieldText(metadata, "experiences")) == Ok(experiences)
    && env.readAudio.None? && AudioKey(jobId) in store && store[AudioKey(jobId)] == audio
    && env.saveAudio.None?
  }

  /** Once the job is ready, the `try` block is the track loop and what follows it. */
  lemma ReadyAttempt(store: map<string, Value>, jobId: string, env: Env, metadata: Record, experiences: seq<string>, audio: Value)
    requires Ready(store, jobId, env, metadata, experiences, audio)
    ensures Attempted(store, jobId, env) == Remixed(jobId, env, metadata, experiences, Recording(audio))
  {
    assert Attempted(store, jobId, env) == Loaded(store, jobId, env, metadata, experiences);
  }

  /** The handler after a `try` block that threw, when the re-read finds `metadata`. */
  lemma CatchPath(store: map<string, Value>, jobId: string, env: Env, metadata: Record)
    requires Attempted(store, jobId, env).thrown.Some?
    requires env.rereadMetadata.None?
    requires var after := Applied(store, Attempted(store, jobId, env).ops);
      MetadataKey(jobId) in after && after[MetadataKey(jobId)] == JsonBlob(metadata)
    ensures Process(store, jobId, env) == FailedTrace(Attempted(store, jobId, env), jobId, metadata, env)
  {
  }

  /** When every track succeeds, the `try` block ends with the result
      write followed by the completed record. */
  lemma AllTracksRemixed(store: map<string, Value>, jobId: string, env: Env, metadata: Record, experiences: seq<string>, audio: Value)
    requires Ready(store, jobId, env, metadata, experiences, audio)
    requires forall i :: 0 <= i < |experiences| ==> i !in env.transformErrors
    requires env.generate.None? && env.writeResult.None?
    ensures Attempted(store, jobId, env) == Attempt(
      [Write(ResultKey(jobId), ZipBlob(Archive(Readme(metadata), Recording(audio), experiences)), true),
       Write(MetadataKey(jobId), JsonBlob(Completed(metadata, env.now)), env.writeCompleted.None?)],
      [OriginalPath(jobId)] + OutputPaths(jobId, |experiences|),
      env.writeCompleted)
  {
    assert FirstFailure(env.transformErrors, |experiences|).None?;
    ReadyAttempt(store, jobId, env, metadata, experiences, audio);
  }

  /** Every track succeeds, the album is stored, then the job is marked
      completed: the result is written before the metadata, nothing else is
      written, and the scratch paths are the original and every output. */
  lemma SuccessPath(store: map<string, Value>, jobId: string, env: Env, metadata: Record, experiences: seq<string>, audio: Value)
    requires Ready(store, jobId, env, metadata, experiences, audio)
    requires forall i :: 0 <= i < |experiences| ==> i !in env.transformErrors
    requires env.generate.None? && env.writeResult.None? && env.writeCompleted.None?
    ensures var album := ZipBlob(Archive(Readme(metadata), Recording(audio), experiences));
      var record := JsonBlob(Completed(metadata, env.now));
      Process(store, jobId, env) == Trace(
        [Write(ResultKey(jobId), album, true), Write(MetadataKey(jobId), record, true)],
        [OriginalPath(jobId)] + OutputPaths(jobId, |experiences|),
        Resolved)
    ensures var album := ZipBlob(Archive(Readme(metadata), Recording(audio), experiences));
      var record := JsonBlob(Completed(metadata, env.now));
      Applied(store, Process(store, jobId, env).ops) == store[ResultKey(jobId) := album][MetadataKey(jobId) := record]
  {
    AllTracksRemixed(store, jobId, env, metadata, experiences, audio);
    var album := ZipBlob(Archive(Readme(metadata), Recording(audio), experiences));
    var record := JsonBlob(Completed(metadata, env.now));
    AppliedPair(store, Write(ResultKey(jobId), album, true), Write(MetadataKey(jobId), record, true));
  }

  /** A `try` block that threw before any write leaves the re-read record
      as it was, so the failed record extends the stored one. */
  lemma ThrewBeforeWrites(store: map<string, Value>, jobId: string, env: Env, metadata: Record, temp: seq<string>, message: string)
    requires Attempted(store, jobId, env) == Attempt([], temp, Some(message))
    requires env.rereadMetadata.None? && MetadataKey(jobId) in store && store[MetadataKey(jobId)] == JsonBlob(metadata)
    ensures Process(store, jobId, env) == Trace([Write(MetadataKey(jobId), JsonBlob(Failed(metadata, message)), env.writeFailed.None?)], temp,
      if env.writeFailed.Some? then Rejected(env.writeFailed.value) else Resolved)
  {
    assert Applied(store, []) == store;
  }

  /** The `try` block stops at the first failing track, having recorded the
      outputs of that track and of every track before it. */
  lemma FirstFailingTrack(store: map<string, Value>, jobId: string, env: Env, metadata: Record, experiences: seq<string>, audio: Value, k: nat)
    requires Ready(store, jobId, env, metadata, experiences, audio)
    requires k < |experiences| && k in env.transformErrors
    requires forall j :: 0 <= j < k ==> j !in env.transformErrors
    ensures Attempted(store, jobId, env) == Attempt([], [OriginalPath(jobId)] + OutputPaths(jobId, k + 1), Some(env.transformErrors[k]))
  {
    FirstFailureAt(env.transformErrors, |experiences|, k);
    ReadyAttempt(store, jobId, env, metadata, experiences, audio);
  }

  /** When track `k` is the first to fail, the tracks after it are never
      started, no result is written, and the metadata is overwritten by the
      failed record carrying the processor's message. */
  lemma TrackFailure(store: map<string, Value>, jobId: string, env: Env, metadata: Record, experiences: seq<string>, audio: Value, k: nat)
    requires Ready(store, jobId, env, metadata, experiences, audio)
    requires k < |experiences| && k in env.transformErrors
    requires forall j :: 0 <= j < k ==> j !in env.transformErrors
    requires env.rereadMetadata.None?
    ensures Process(store, jobId, env) == Trace(
      [Write(MetadataKey(jobId), JsonBlob(Failed(metadata, env.transformErrors[k])), env.writeFailed.None?)],
      [OriginalPath(jobId)] + OutputPaths(jobId, k + 1),
      if env.writeFailed.Some? then Rejected(env.writeFailed.value) else Resolved)
    ensures var after := Applied(store, Process(store, jobId, env).ops);
      && (ResultKey(jobId) in after <==> ResultKey(jobId) in store)
      && (ResultKey(jobId) in store ==> after[ResultKey(jobId)] == store[ResultKey(jobId)])
  {
    FirstFailingTrack(store, jobId, env, metadata, experiences, audio, k);
    ThrewBeforeWrites(store, jobId, env, metadata, [OriginalPath(jobId)] + OutputPaths(jobId, k + 1), env.transformErrors[k]);
    var w := Write(MetadataKey(jobId), JsonBlob(Failed(metadata, env.transformErrors[k])), env.writeFailed.None?);
    AppliedSnoc(store, [], w);
    assert [] + [w] == [w];
    KeyContract(jobId, jobId);
  }

  /** A `try` block that wrote anything read the metadata and the audio,
      parsed the experiences, remixed every track and generated the album;
      its first write (applied or not) puts that album under the result key. */
  lemma AttemptWrites(store: map<string, Value>, jobId: string, env: Env)
    requires Attempted(store, jobId, env).ops != []
    ensures var read := GetJson(store, MetadataKey(jobId), env.readMetadata);
      && read.Found?
      && env.parse(FieldText(read.got, "experiences")).Ok?
      && var experiences := env.parse(FieldText(read.got, "experiences")).value;
      && AudioKey(jobId) in store && env.readAudio.None? && env.saveAudio.None?
      && FirstFailure(env.transformErrors, |experiences|).None? && env.generate.None?
      && var ops := Attempted(store, jobId, env).ops;
      && ops[0] == Write(ResultKey(jobId), ZipBlob(Archive(Readme(read.got), Recording(store[AudioKey(jobId)]), experiences)), env.writeResult.None?)
      && forall i :: 1 <= i < |ops| ==> ops[i].Write? && ops[i].key == MetadataKey(jobId)
  {
    var read := GetJson(store, MetadataKey(jobId), env.readMetadata);
    assert read.Found?;
    var experiences := env.parse(FieldText(read.got, "experiences")).value;
    assert Attempted(store, jobId, env) == Loaded(store, jobId, env, read.got, experiences);
    var blob := GetBlob(store, AudioKey(jobId), env.readAudio);
    assert blob.Found? && env.saveAudio.None?;
    var album := Archive(Readme(read.got), Recording(blob.got), experiences);
    assert Attempted(store, jobId, env) == Remixed(jobId, env, read.got, experiences, Recording(blob.got));
    assert FirstFailure(env.transformErrors, |experiences|).None?;
    assert Attempted(store, jobId, env).ops == Stored(jobId, env, read.got, album).ops;
  }

  /** The handler's effects are those of the `try` block, followed at most
      by writes of the metadata record. */
  lemma CatchWritesMetadata(store: map<string, Value>, jobId: string, env: Env)
    ensures var a := Attempted(store, jobId, env).ops;
      var ops := Process(store, jobId, env).ops;
      && |a| <= |ops| && ops[..|a|] == a
      && forall i :: |a| <= i < |ops| ==> ops[i].Write? && ops[i].key == MetadataKey(jobId)
  {
    SettledAppendsMetadata(store, jobId, env, Attempted(store, jobId, env));
  }

  /** Whatever the `try` block did, the `catch` block only appends
      metadata writes. */
  lemma SettledAppendsMetadata(store: map<string, Value>, jobId: string, env: Env, a: Attempt)
    ensures var ops := Settled(store, jobId, env, a).ops;
      && |a.ops| <= |ops| && ops[..|a.ops|] == a.ops
      && forall i :: |a.ops| <= i < |ops| ==> ops[i].Write? && ops[i].key == MetadataKey(jobId)
  {
  }

  /** A result is written only when every track of the job was remixed, and
      it is the first effect and holds the album of the stored original. */
  lemma ResultNeedsEveryTrack(store: map<string, Value>, jobId: string, env: Env, k: nat)
    requires var ops := Process(store, jobId, env).ops;
      k < |ops| && ops[k].Write? && ops[k].key == ResultKey(jobId)
    ensures var ops := Process(store, jobId, env).ops;
      var read := GetJson(store, MetadataKey(jobId), env.readMetadata);
      && read.Found?
      && env.parse(FieldText(read.got, "experiences")).Ok?
      && var experiences := env.parse(FieldText(read.got, "experiences")).value;
      && AudioKey(jobId) in store && env.readAudio.None? && env.saveAudio.None?
      && FirstFailure(env.transformErrors, |experiences|).None? && env.generate.None?
      && k == 0 && ops[0].value == ZipBlob(Archive(Readme(read.got), Recording(store[AudioKey(jobId)]), experiences))
  {
    KeyContract(jobId, jobId);
    CatchWritesMetadata(store, jobId, env);
    AttemptWrites(store, jobId, env);
  }

  /** The worker is not transactional: when the completed record cannot be
      written after the result was, the job ends marked failed while its
      result is stored. */
  lemma ResultWithFailedStatus(store: map<string, Value>, jobId: string, env: Env, metadata: Record, experiences: seq<string>, audio: Value)
    requires Ready(store, jobId, env, metadata, experiences, audio)
    requires forall i :: 0 <= i < |experiences| ==> i !in env.transformErrors
    requires env.generate.None? && env.writeResult.None? && env.writeCompleted.Some?
    requires env.rereadMetadata.None? && env.writeFailed.None?
    ensures var album := ZipBlob(Archive(Readme(metadata), Recording(audio), experiences));
      var t := Process(store, jobId, env);
      var after := Applied(store, t.ops);
      && t.outcome == Resolved
      && ResultKey(jobId) in after && after[ResultKey(jobId)] == album
      && MetadataKey(jobId) in after && after[MetadataKey(jobId)] == JsonBlob(Failed(metadata, env.writeCompleted.value))
  {
    KeyContract(jobId, jobId);
    var album := ZipBlob(Archive(Readme(metadata), Recording(audio), experiences));
    var result := Write(ResultKey(jobId), album, true);
    var done := Write(MetadataKey(jobId), JsonBlob(Completed(metadata, env.now)), false);
    AllTracksRemixed(store, jobId, env, metadata, experiences, audio);
    var a := Attempted(store, jobId, env);
    AppliedPair(store, result, done);
    assert Applied(store, a.ops) == store[ResultKey(jobId) := album];
    CatchPath(store, jobId, env, metadata);
    var failed := Write(MetadataKey(jobId), JsonBlob(Failed(metadata, env.writeCompleted.value)), true);
    AppliedSnoc(store, a.ops, failed);
  }

  /** A job without a metadata record still gets one: the worker fails on
      the missing record and writes a failed record that holds nothing else. */
  lemma MissingJob(store: map<string, Value>, jobId: string, env: Env)
    requires env.readMetadata.None? && MetadataKey(jobId) !in store && env.rereadMetadata.None?
    ensures var t := Process(store, jobId, env);
      && t.ops == [Write(MetadataKey(jobId), JsonBlob(map["status" := "failed", "error" := NullProperty("experiences")]), env.writeFailed.None?)]
      && t.temp == []
  {
    var t := Process(store, jobId, env);
    assert Failed(map[], NullProperty("experiences")) == map["status" := "failed", "error" := NullProperty("experiences")];
  }

  /** The scratch paths of the `try` block: none, or the original followed
      by the outputs of the tracks started, in track order. */
  lemma AttemptTemp(store: map<string, Value>, jobId: string, env: Env)
    ensures var temp := Attempted(store, jobId, env).temp;
      var read := GetJson(store, MetadataKey(jobId), env.readMetadata);
      && (temp == [] || (temp[0] == OriginalPath(jobId) && temp[1..] == OutputPaths(jobId, |temp| - 1)))
      && (temp != [] <==> read.Found? && env.parse(FieldText(read.got, "experiences")).Ok?)
  {
    var temp := Attempted(store, jobId, env).temp;
    if temp != [] {
      assert temp == [OriginalPath(jobId)] + temp[1..];
    }
  }

  /** The scratch paths recorded are none at all, or the original followed by
      the outputs of the tracks started, in track order; there are some
      exactly when the experiences were parsed. */
  lemma TempShape(store: map<string, Value>, jobId: string, env: Env)
    ensures var t := Process(store, jobId, env);
      var read := GetJson(store, MetadataKey(jobId), env.readMetadata);
      && (t.temp == [] || (t.temp[0] == OriginalPath(jobId) && t.temp[1..] == OutputPaths(jobId, |t.temp| - 1)))
      && (t.temp != [] <==> read.Found? && env.parse(FieldText(read.got, "experiences")).Ok?)
  {
    AttemptTemp(store, jobId, env);
    assert Process(store, jobId, env).temp == Attempted(store, jobId, env).temp;
  }
}
