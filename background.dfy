/** The background worker (`process-audio-background.js`): it loads a job's
    metadata and original audio, remixes the audio once per experience, in
    order, stores the album under the job's result key, records the job's
    final status, and removes its scratch files on every exit path. */
module Background {
  import opened Runtime
  import opened Strings
  import opened Themes
  import opened Storage
  import opened Album

  /** What the outside world does at each step the worker waits on; a
      `Fault` is `Some(message)` when that step throws. */
  datatype Env = Env(
    readMetadata: Fault,
    parse: string -> Result<seq<string>>,
    readAudio: Fault,
    saveAudio: Fault,
    transformErrors: map<nat, string>,
    generate: Fault,
    writeResult: Fault,
    writeCompleted: Fault,
    now: string,
    rereadMetadata: Fault,
    writeFailed: Fault)

  /** How the handler's promise settles. */
  datatype Outcome = Resolved | Rejected(message: string)

  /** What the `try` block did: its store effects, the scratch paths it
      recorded in `tempFiles`, and the error it threw, if any. */
  datatype Attempt = Attempt(ops: seq<Op>, temp: seq<string>, thrown: Fault)

  /** What the whole handler did. */
  datatype Trace = Trace(ops: seq<Op>, temp: seq<string>, outcome: Outcome)

  /** The scratch copy of the original audio. */
  function OriginalPath(jobId: string): string
  {
    TmpPath("original_" + jobId)
  }

  /** The scratch output of track `i`. */
  function OutputPath(jobId: string, i: nat): string
  {
    TmpPath("output_" + jobId + "_" + NatToString(i) + ".mp3")
  }

  /** The output paths of tracks `0 .. n - 1`, in track order. */
  function OutputPaths(jobId: string, n: nat): (paths: seq<string>)
    ensures |paths| == n
    ensures forall i :: 0 <= i < n ==> paths[i] == OutputPath(jobId, i)
  {
    if n == 0 then [] else OutputPaths(jobId, n - 1) + [OutputPath(jobId, n - 1)]
  }

  /** The scratch copy of the original is never a track output. */
  lemma OriginalNotOutput(jobId: string, i: nat)
    ensures OriginalPath(jobId) != OutputPath(jobId, i)
  {
    assert OriginalPath(jobId)[6] == 'r';
    assert OutputPath(jobId, i)[6] == 'u';
  }

  /** The readme the worker puts first in the album. */
  function Readme(metadata: Record): string
  {
    "Album: " + FieldText(metadata, "albumTitle") + "\nFor: " + FieldText(metadata, "recipientName")
  }

  /** `{ ...metadata, status: 'completed', finishedAt: now }`. */
  function Completed(metadata: Record, now: string): (r: Record)
    ensures "status" in r && r["status"] == "completed" && "finishedAt" in r && r["finishedAt"] == now
  {
    metadata["status" := "completed"]["finishedAt" := now]
  }

  /** The completed record keeps every other field of the job's record. */
  lemma CompletedKeeps(metadata: Record, now: string, f: string)
    requires f != "status" && f != "finishedAt"
    ensures f in Completed(metadata, now) <==> f in metadata
    ensures f in metadata ==> Completed(metadata, now)[f] == metadata[f]
  {
  }

  /** `{ ...metadata, status: 'failed', error: message }`. */
  function Failed(metadata: Record, message: string): (r: Record)
    ensures "status" in r && r["status"] == "failed" && "error" in r && r["error"] == message
  {
    metadata["status" := "failed"]["error" := message]
  }

  /** The failed record keeps every other field of the re-read record. */
  lemma FailedKeeps(metadata: Record, message: string, f: string)
    requires f != "status" && f != "error"
    ensures f in Failed(metadata, message) <==> f in metadata
    ensures f in metadata ==> Failed(metadata, message)[f] == metadata[f]
  {
  }

  /** The index of the first of `n` tracks whose transform fails, if any;
      `errors` maps each failing track to the processor's error message. */
  function FirstFailure(errors: map<nat, string>, n: nat): (r: Option<nat>)
    ensures r.Some? ==> r.value < n && r.value in errors
    ensures r.Some? ==> forall j :: 0 <= j < r.value ==> j !in errors
    ensures r.None? ==> forall j :: 0 <= j < n ==> j !in errors
  {
    if n == 0 then None
    else match FirstFailure(errors, n - 1)
      case Some(k) => Some(k)
      case None => if n - 1 in errors then Some(n - 1) else None
  }

  /** The `try` block, step by step: each step that throws ends it. */
  function Attempted(store: map<string, Value>, jobId: string, env: Env): Attempt
  {
    match GetJson(store, MetadataKey(jobId), env.readMetadata)
    case Threw(m) => Attempt([], [], Some(m))
    case Missing => Attempt([], [], Some(NullProperty("experiences")))
    case Found(metadata) =>
      match env.parse(FieldText(metadata, "experiences"))
      case Err(m) => Attempt([], [], Some(m))
      case Ok(experiences) => Loaded(store, jobId, env, metadata, experiences)
  }

  /** The `try` block once the experiences are known: the original audio
      is read from the store and saved to its scratch path. */
  function Loaded(store: map<string, Value>, jobId: string, env: Env, metadata: Record, experiences: seq<string>): Attempt
  {
    var original := [OriginalPath(jobId)];
    match GetBlob(store, AudioKey(jobId), env.readAudio)
    case Threw(m) => Attempt([], original, Some(m))
    case Missing => Attempt([], original, Some(NullProperty("pipe")))
    case Found(audio) =>
      if env.saveAudio.Some? then Attempt([], original, env.saveAudio)
      else Remixed(jobId, env, metadata, experiences, Recording(audio))
  }

  /** The `try` block once the original is saved: the tracks are remixed
      in order, then the album and the completed record are stored. */
  function Remixed(jobId: string, env: Env, metadata: Record, experiences: seq<string>, original: Sound): Attempt
  {
    var saved := [OriginalPath(jobId)];
    match FirstFailure(env.transformErrors, |experiences|)
    case Some(k) => Attempt([], saved + OutputPaths(jobId, k + 1), Some(env.transformErrors[k]))
    case None =>
      var temp := saved + OutputPaths(jobId, |experiences|);
      var stored := Stored(jobId, env, metadata, Archive(Readme(metadata), original, experiences));
      Attempt(stored.ops, temp, stored.thrown)
  }

  /** The end of the `try` block once every track is remixed: the album is
      generated, stored under the result key, and the job marked completed. */
  function Stored(jobId: string, env: Env, metadata: Record, album: seq<Entry>): Attempt
  {
    if env.generate.Some? then Attempt([], [], env.generate)
    else
      var result := Write(ResultKey(jobId), ZipBlob(album), env.writeResult.None?);
      if env.writeResult.Some? then Attempt([result], [], env.writeResult)
      else
        var done := Write(MetadataKey(jobId), JsonBlob(Completed(metadata, env.now)), env.writeCompleted.None?);
        Attempt([result, done], [], env.writeCompleted)
  }

  /** The whole handler: the `try` block, then, if it threw, the `catch`
      block that re-reads the metadata and records the failure. A record
      that is missing is spread as an empty object. */
  function Process(store: map<string, Value>, jobId: string, env: Env): Trace
  {
    Settled(store, jobId, env, Attempted(store, jobId, env))
  }

  /** What follows the `try` block that made the steps `a` on `store`. */
  function Settled(store: map<string, Value>, jobId: string, env: Env, a: Attempt): Trace
  {
    if a.thrown.None? then Trace(a.ops, a.temp, Resolved)
    else
      match GetJson(Applied(store, a.ops), MetadataKey(jobId), env.rereadMetadata)
      case Threw(m) => Trace(a.ops, a.temp, Rejected(m))
      case Missing => FailedTrace(a, jobId, map[], env)
      case Found(metadata) => FailedTrace(a, jobId, metadata, env)
  }

  /** The end of the `catch` block: the failed record is written over the
      re-read one. */
  function FailedTrace(a: Attempt, jobId: string, metadata: Record, env: Env): Trace
    requires a.thrown.Some?
  {
    var failed := Write(MetadataKey(jobId), JsonBlob(Failed(metadata, a.thrown.value)), env.writeFailed.None?);
    Trace(a.ops + [failed], a.temp, if env.writeFailed.Some? then Rejected(env.writeFailed.value) else Resolved)
  }

  /** Two scratch directories that differ at most at `paths`. */
  ghost predicate SameOutside(a: map<string, Sound>, b: map<string, Sound>, paths: set<string>)
  {
    forall p :: p !in paths ==> (p in a <==> p in b) && (p in a ==> a[p] == b[p])
  }

  /** Saving a file at a newly recorded path keeps the scratch directory
      equal to the old one outside the recorded paths. */
  lemma SameOutsideSaved(a: map<string, Sound>, b: map<string, Sound>, paths: seq<string>, path: string, s: Sound)
    requires SameOutside(a, b, Members(paths))
    ensures SameOutside(a[path := s], b, Members(paths + [path]))
  {
    assert Members(paths + [path]) == Members(paths) + {path};
  }

  /** The first failure is the failing track all of whose predecessors succeeded. */
  lemma {:induction false} FirstFailureAt(errors: map<nat, string>, n: nat, i: nat)
    requires i < n && i in errors
    requires FirstFailure(errors, i).None?
    ensures FirstFailure(errors, n) == Some(i)
    decreases n
  {
    if n > i + 1 {
      FirstFailureAt(errors, n - 1, i);
    }
  }

  lemma SameOutsideRemoved(a: map<string, Sound>, b: map<string, Sound>, paths: set<string>)
    requires SameOutside(a, b, paths)
    ensures a - paths == b - paths
  {
  }

  /** The `try` block as the handler runs it. */
  method TryBlock(p: Platform, jobId: string, env: Env) returns (thrown: Fault, temp: seq<string>)
    modifies p`store, p`log, p`tmp
    ensures var a := Attempted(old(p.store), jobId, env);
      thrown == a.thrown && temp == a.temp && p.log == old(p.log) + a.ops && p.store == Applied(old(p.store), a.ops)
    ensures SameOutside(p.tmp, old(p.tmp), Members(temp))
  {
    var read := GetJson(p.store, MetadataKey(jobId), env.readMetadata);
    if read.Threw? {
      return Some(read.message), [];
    } else if read.Missing? {
      return Some(NullProperty("experiences")), [];
    }
    var metadata := read.got;
    var parsed := env.parse(FieldText(metadata, "experiences"));
    if parsed.Err? {
      return Some(parsed.message), [];
    }
    thrown, temp := LoadAndRemix(p, jobId, env, metadata, parsed.value);
  }

  /** The steps of the `try` block that follow the parse. */
  method LoadAndRemix(p: Platform, jobId: string, env: Env, metadata: Record, experiences: seq<string>) returns (thrown: Fault, temp: seq<string>)
    modifies p`store, p`log, p`tmp
    ensures var a := Loaded(old(p.store), jobId, env, metadata, experiences);
      thrown == a.thrown && temp == a.temp && p.log == old(p.log) + a.ops && p.store == Applied(old(p.store), a.ops)
    ensures SameOutside(p.tmp, old(p.tmp), Members(temp))
  {
    var originalPath := OriginalPath(jobId);
    temp := [originalPath];
    var stream := GetBlob(p.store, AudioKey(jobId), env.readAudio);
    if stream.Threw? {
      return Some(stream.message), temp;
    } else if stream.Missing? {
      return Some(NullProperty("pipe")), temp;
    } else if env.saveAudio.Some? {
      return env.saveAudio, temp;
    }
    var original := Recording(stream.got);
    p.Save(originalPath, original);
    assert SameOutside(p.tmp, old(p.tmp), Members(temp));
    thrown, temp := RemixAndStore(p, jobId, env, metadata, experiences, original);
  }

  /** The steps of the `try` block that follow saving the original. */
  method RemixAndStore(p: Platform, jobId: string, env: Env, metadata: Record, experiences: seq<string>, original: Sound)
      returns (thrown: Fault, temp: seq<string>)
    requires OriginalPath(jobId) in p.tmp && p.tmp[OriginalPath(jobId)] == original
    modifies p`store, p`log, p`tmp
    ensures var a := Remixed(jobId, env, metadata, experiences, original);
      thrown == a.thrown && temp == a.temp && p.log == old(p.log) + a.ops && p.store == Applied(old(p.store), a.ops)
    ensures SameOutside(p.tmp, old(p.tmp), Members(temp) - {OriginalPath(jobId)})
  {
    var zip := Header(Readme(metadata), original);
    var failed, outputs;
    failed, outputs, zip := RemixTracks(p, jobId, env, experiences, original, zip);
    temp := [OriginalPath(jobId)] + outputs;
    if failed.Some? {
      return Some(env.transformErrors[failed.value]), temp;
    }
    assert zip == Archive(Readme(metadata), original, experiences);
    thrown := StoreAlbum(p, jobId, env, metadata, zip);
  }

  /** The steps of the `try` block that follow the track loop. */
  method StoreAlbum(p: Platform, jobId: string, env: Env, metadata: Record, album: seq<Entry>) returns (thrown: Fault)
    modifies p`store, p`log
    ensures var a := Stored(jobId, env, metadata, album);
      thrown == a.thrown && p.log == old(p.log) + a.ops && p.store == Applied(old(p.store), a.ops)
  {
    if env.generate.Some? {
      return env.generate;
    }
    thrown := p.Set(ResultKey(jobId), ZipBlob(album), env.writeResult);
    if thrown.Some? {
      return;
    }
    thrown := p.Set(MetadataKey(jobId), JsonBlob(Completed(metadata, env.now)), env.writeCompleted);
    AppliedSnoc(old(p.store), [Write(ResultKey(jobId), ZipBlob(album), true)], Write(MetadataKey(jobId), JsonBlob(Completed(metadata, env.now)), env.writeCompleted.None?));
  }

  /** One pass of the track loop after the transform succeeded: the
      remix is written to its scratch path and becomes the next entry. */
  method SaveRemix(p: Platform, jobId: string, i: nat, experience: string, original: Sound,
                   ghost outputs: seq<string>, ghost tmp0: map<string, Sound>) returns (entry: Entry)
    requires OriginalPath(jobId) in p.tmp && p.tmp[OriginalPath(jobId)] == original
    requires SameOutside(p.tmp, tmp0, Members(outputs))
    modifies p`tmp
    ensures entry == RemixEntry(i, experience, original)
    ensures p.tmp == old(p.tmp)[OutputPath(jobId, i) := Remix(original, SelectTheme(experience))]
    ensures OriginalPath(jobId) in p.tmp && p.tmp[OriginalPath(jobId)] == original
    ensures SameOutside(p.tmp, tmp0, Members(outputs + [OutputPath(jobId, i)]))
  {
    var key := PickTheme(experience);
    var outputPath := OutputPath(jobId, i);
    OriginalNotOutput(jobId, i);
    SameOutsideSaved(p.tmp, tmp0, outputs, outputPath, Remix(original, key));
    p.Save(outputPath, Remix(p.tmp[OriginalPath(jobId)], key));
    entry := Entry(TrackName(i, key), Audio(p.tmp[outputPath]));
  }

  /** The track loop: for each experience in order, pick its theme, record
      the output path, run the transform and, when it succeeds, add the
      remix to the album; the first failure ends the loop. */
  method RemixTracks(p: Platform, jobId: string, env: Env, experiences: seq<string>, original: Sound, zip0: seq<Entry>)
      returns (failed: Option<nat>, outputs: seq<string>, zip: seq<Entry>)
    requires OriginalPath(jobId) in p.tmp && p.tmp[OriginalPath(jobId)] == original
    modifies p`tmp
    ensures failed == FirstFailure(env.transformErrors, |experiences|)
    ensures outputs == OutputPaths(jobId, if failed.Some? then failed.value + 1 else |experiences|)
    ensures failed.None? ==> zip == zip0 + Remixes(original, experiences, |experiences|)
    ensures SameOutside(p.tmp, old(p.tmp), Members(outputs))
  {
    outputs, zip := [], zip0;
    var i := 0;
    while i < |experiences|
      invariant 0 <= i <= |experiences|
      invariant outputs == OutputPaths(jobId, i)
      invariant FirstFailure(env.transformErrors, i).None?
      invariant OriginalPath(jobId) in p.tmp && p.tmp[OriginalPath(jobId)] == original
      invariant zip == zip0 + Remixes(original, experiences, i)
      invariant SameOutside(p.tmp, old(p.tmp), Members(outputs))
    {
      var outputPath := OutputPath(jobId, i);
      if i in env.transformErrors {
        FirstFailureAt(env.transformErrors, |experiences|, i);
        return Some(i), outputs + [outputPath], zip;
      }
      var entry := SaveRemix(p, jobId, i, experiences[i], original, outputs, old(p.tmp));
      RemixesSnoc(zip0, original, experiences, i);
      outputs := outputs + [outputPath];
      zip := zip + [entry];
      i := i + 1;
    }
    failed := None;
  }

  /** The `catch` block after a `try` block that made the steps `a` on
      `store0`. */
  method CatchBlock(p: Platform, jobId: string, env: Env, thrown: Fault,
                    ghost store0: map<string, Value>, ghost log0: seq<Op>, ghost a: Attempt) returns (outcome: Outcome)
    requires thrown == a.thrown && p.store == Applied(store0, a.ops) && p.log == log0 + a.ops
    modifies p`store, p`log
    ensures var t := Settled(store0, jobId, env, a);
      && outcome == t.outcome && t.temp == a.temp
      && p.log == log0 + t.ops && p.store == Applied(store0, t.ops)
  {
    outcome := Resolved;
    if thrown.Some? {
      var read := GetJson(p.store, MetadataKey(jobId), env.rereadMetadata);
      if read.Threw? {
        outcome := Rejected(read.message);
      } else {
        var metadata := if read.Found? then read.got else map[];
        var err := p.Set(MetadataKey(jobId), JsonBlob(Failed(metadata, thrown.value)), env.writeFailed);
        AppliedSnoc(store0, a.ops, Write(MetadataKey(jobId), JsonBlob(Failed(metadata, thrown.value)), env.writeFailed.None?));
        if err.Some? {
          outcome := Rejected(err.value);
        }
      }
    }
  }

  /** `exports.handler`: the `try` block, the `catch` block when it threw,
      and the `finally` block that unlinks every recorded scratch path. */
  method Handle(p: Platform, jobId: string, env: Env) returns (outcome: Outcome)
    modifies p
    ensures var t := Process(old(p.store), jobId, env);
      && outcome == t.outcome
      && p.log == old(p.log) + t.ops
      && p.store == Applied(old(p.store), t.ops)
      && p.tmp == old(p.tmp) - Members(t.temp)
  {
    var thrown, tempFiles := TryBlock(p, jobId, env);
    ghost var a := Attempted(old(p.store), jobId, env);
    outcome := CatchBlock(p, jobId, env, thrown, old(p.store), old(p.log), a);
    ghost var before := p.tmp;
    p.Unlink(tempFiles);
    SameOutsideRemoved(before, old(p.tmp), Members(tempFiles));
  }
}
