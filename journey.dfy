/** A job seen across handlers: what the status and download endpoints
    report after the upload endpoint accepted it and after the background
    worker finished with it. */
module Journey {
  import opened Runtime
  import opened Storage
  import opened Http
  import Album
  import B = Background
  import L = Lifecycle
  import U = Upload
  import S = Status
  import D = Download

  /** Right after an accepted upload whose form has an album title, the
      status endpoint reports the job as pending. */
  lemma PendingAfterUpload(store: map<string, Value>, jobId: string, env: U.Env)
    requires U.Submit(jobId, env).response.statusCode == 202
    requires "albumTitle" in U.Parsed(jobId, env).fields
    ensures var r := S.Lookup(Applied(store, U.Submit(jobId, env).ops), jobId, None);
      r.statusCode == 200 && r.body.Object? && "status" in r.body.fields && r.body.fields["status"] == "pending"
  {
    var c := U.Parsed(jobId, env);
    U.AcceptedUpload(store, jobId, env);
    U.PendingKeeps(c.fields, env.now, "albumTitle");
  }

  /** After a run in which every track succeeded, the status endpoint
      reports the job as completed and the download endpoint serves the
      album that was stored. */
  lemma CompletedAfterSuccess(store: map<string, Value>, jobId: string, env: B.Env, metadata: Record, experiences: seq<string>, audio: Value)
    requires L.Ready(store, jobId, env, metadata, experiences, audio)
    requires forall i :: 0 <= i < |experiences| ==> i !in env.transformErrors
    requires env.generate.None? && env.writeResult.None? && env.writeCompleted.None?
    requires "albumTitle" in metadata
    ensures var after := Applied(store, B.Process(store, jobId, env).ops);
      var r := S.Lookup(after, jobId, None);
      && r.statusCode == 200 && r.body.Object? && "status" in r.body.fields && r.body.fields["status"] == "completed"
      && D.Fetch(after, jobId, None) == Response(200, map["Content-Type" := "application/zip"],
           Base64(ZipBlob(Album.Archive(B.Readme(metadata), Recording(audio), experiences))), true)
  {
    L.SuccessPath(store, jobId, env, metadata, experiences, audio);
    KeyContract(jobId, jobId);
    B.CompletedKeeps(metadata, env.now, "albumTitle");
  }

  /** After a run whose track `k` failed, the status endpoint reports the
      job as failed with the processor's message, and the download endpoint
      finds no result unless one was stored before. */
  lemma FailedAfterTrackFailure(store: map<string, Value>, jobId: string, env: B.Env, metadata: Record, experiences: seq<string>, audio: Value, k: nat)
    requires L.Ready(store, jobId, env, metadata, experiences, audio)
    requires k < |experiences| && k in env.transformErrors
    requires forall j :: 0 <= j < k ==> j !in env.transformErrors
    requires env.rereadMetadata.None? && env.writeFailed.None?
    requires "albumTitle" in metadata
    ensures var after := Applied(store, B.Process(store, jobId, env).ops);
      var r := S.Lookup(after, jobId, None);
      && r.statusCode == 200 && r.body.Object?
      && "status" in r.body.fields && r.body.fields["status"] == "failed"
      && "error" in r.body.fields && r.body.fields["error"] == env.transformErrors[k]
      && (ResultKey(jobId) !in store ==> D.Fetch(after, jobId, None).statusCode == 404)
  {
    L.TrackFailure(store, jobId, env, metadata, experiences, audio, k);
    var w := Write(MetadataKey(jobId), JsonBlob(B.Failed(metadata, env.transformErrors[k])), true);
    AppliedSnoc(store, [], w);
    assert [] + [w] == [w];
    B.FailedKeeps(metadata, env.transformErrors[k], "albumTitle");
  }
}
