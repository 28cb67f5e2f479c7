/** The download endpoint (`download.js`): one read of a job's result and
    a response that carries it base64-encoded; nothing is written. */
module Download {
  import opened Runtime
  import opened Storage
  import opened Http

  /** `exports.handler` for job `jobId`; `fault` is the error the store read
      throws, if any. */
  function Fetch(store: map<string, Value>, jobId: string, fault: Fault): (r: Response)
    ensures fault.Some? ==> r == ErrorJson(500, fault.value)
    ensures r.statusCode == 404 <==> fault.None? && ResultKey(jobId) !in store
    ensures r.statusCode == 404 ==> r.body == Body.Text("Result not found.") && !r.isBase64Encoded
    ensures r.statusCode == 200 <==> fault.None? && ResultKey(jobId) in store
    ensures r.statusCode == 200 ==>
      && r.headers == map["Content-Type" := "application/zip"]
      && r.body == Base64(store[ResultKey(jobId)])
      && r.isBase64Encoded
    ensures r.statusCode in {200, 404, 500}
  {
    match GetBlob(store, ResultKey(jobId), fault)
    case Threw(m) => ErrorJson(500, m)
    case Missing => Response(404, map[], Body.Text("Result not found."), false)
    case Found(payload) => Response(200, map["Content-Type" := "application/zip"], Base64(payload), true)
  }

  /** The response depends on the result of the job and on nothing else in
      the store. */
  lemma ReadsOnlyResult(s1: map<string, Value>, s2: map<string, Value>, jobId: string, fault: Fault)
    requires ResultKey(jobId) in s1 <==> ResultKey(jobId) in s2
    requires ResultKey(jobId) in s1 ==> s1[ResultKey(jobId)] == s2[ResultKey(jobId)]
    ensures Fetch(s1, jobId, fault) == Fetch(s2, jobId, fault)
  {
  }
}
