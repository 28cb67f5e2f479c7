/** The status endpoint (`status.js`): one read of a job's metadata record
    and a response built from it; nothing is written. */
module Status {
  import opened Runtime
  import opened Storage
  import opened Http
  import opened Strings
  import opened Album

  /** The JSON object reported for a stored record: `status`, `error` and
      `albumTitle` copied from the record (a missing one is dropped by
      `JSON.stringify`), and the archive name derived from the title. */
  function Report(metadata: Record): (fields: map<string, string>)
    requires "albumTitle" in metadata
    ensures fields.Keys == {"albumTitle", "filename"} + (metadata.Keys * {"status", "error"})
    ensures fields["albumTitle"] == metadata["albumTitle"]
    ensures fields["filename"] == StatusFilename(metadata["albumTitle"])
    ensures "status" in metadata ==> fields["status"] == metadata["status"]
    ensures "error" in metadata ==> fields["error"] == metadata["error"]
  {
    var base := map["albumTitle" := metadata["albumTitle"], "filename" := StatusFilename(metadata["albumTitle"])];
    var withStatus := if "status" in metadata then base["status" := metadata["status"]] else base;
    if "error" in metadata then withStatus["error" := metadata["error"]] else withStatus
  }

  /** `exports.handler` for job `jobId`; `fault` is the error the store read
      throws, if any. A record without `albumTitle` makes the `replace` call
      throw. */
  function Lookup(store: map<string, Value>, jobId: string, fault: Fault): (r: Response)
    ensures fault.Some? ==> r == ErrorJson(500, fault.value)
    ensures r.statusCode == 404 <==> fault.None? && MetadataKey(jobId) !in store
    ensures r.statusCode == 404 ==> r.body == Object(map["error" := "Job not found."])
    ensures r.statusCode == 200 <==>
      fault.None? && MetadataKey(jobId) in store && store[MetadataKey(jobId)].JsonBlob?
      && "albumTitle" in store[MetadataKey(jobId)].record
    ensures r.statusCode == 200 ==> r.body == Object(Report(store[MetadataKey(jobId)].record))
    ensures fault.None? && MetadataKey(jobId) in store && !store[MetadataKey(jobId)].JsonBlob?
      ==> r == ErrorJson(500, NotJson)
    ensures fault.None? && MetadataKey(jobId) in store && store[MetadataKey(jobId)].JsonBlob?
      && "albumTitle" !in store[MetadataKey(jobId)].record
      ==> r == ErrorJson(500, UndefinedProperty("replace"))
    ensures r.statusCode in {200, 404, 500}
  {
    match GetJson(store, MetadataKey(jobId), fault)
    case Threw(m) => ErrorJson(500, m)
    case Missing => ErrorJson(404, "Job not found.")
    case Found(metadata) =>
      if "albumTitle" !in metadata then ErrorJson(500, UndefinedProperty("replace"))
      else Response(200, map[], Object(Report(metadata)), false)
  }

  /** The reported archive name keeps the title's length plus ".zip", uses
      only [a-z0-9_] before the extension, and is ".zip" for an empty title. */
  lemma ReportedFilename(store: map<string, Value>, jobId: string, fault: Fault)
    requires Lookup(store, jobId, fault).statusCode == 200
    ensures var title := store[MetadataKey(jobId)].record["albumTitle"];
      var name := Lookup(store, jobId, fault).body.fields["filename"];
      && |name| == |title| + 4 && name[|title|..] == ".zip"
      && (forall i :: 0 <= i < |title| ==> IsAsciiLower(name[i]) || IsDigit(name[i]) || name[i] == '_')
      && (title == "" ==> name == ".zip")
  {
    var title := store[MetadataKey(jobId)].record["albumTitle"];
    ZipStemCharset(title);
  }

  /** The response depends on the metadata record of the job and on nothing
      else in the store. */
  lemma ReadsOnlyMetadata(s1: map<string, Value>, s2: map<string, Value>, jobId: string, fault: Fault)
    requires MetadataKey(jobId) in s1 <==> MetadataKey(jobId) in s2
    requires MetadataKey(jobId) in s1 ==> s1[MetadataKey(jobId)] == s2[MetadataKey(jobId)]
    ensures Lookup(s1, jobId, fault) == Lookup(s2, jobId, fault)
  {
  }
}
