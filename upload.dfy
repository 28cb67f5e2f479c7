/** The upload endpoint (`upload.js`): it streams the submitted audio into
    the store under a fresh job id, records the form fields as the job's
    pending metadata, starts the background worker, and on any error tries
    to delete what it stored. */
module Upload {
  import opened Runtime
  import opened Storage
  import opened Http

  /** One part of the multipart body, in the order the parser emits it. */
  datatype Part = FieldPart(name: string, value: string) | FilePart(filename: string, data: seq<bv8>)

  /** What the outside world does: the parts the parser emits, the error
      `store.set` throws for the file part at each listed index, the parser's
      own error, the clock, the metadata write, the POST that starts the
      worker (its rejection, its `ok` flag and its body text), and the two
      deletions of the error path. */
  datatype Env = Env(
    parts: seq<Part>,
    audioErrors: map<nat, string>,
    parseError: Fault,
    now: string,
    writeMetadata: Fault,
    trigger: Fault,
    triggerOk: bool,
    triggerText: string,
    deleteAudio: Fault,
    deleteMetadata: Fault)

  /** The form as the part handlers leave it: the `fields` object, the store
      effects, and the first error the parse promise was rejected with. */
  datatype Collection = Collection(fields: Record, ops: seq<Op>, error: Fault)

  /** The outcome of the `try` block: its effects and the error it threw. */
  datatype Tried = Tried(ops: seq<Op>, error: Fault)

  /** What the whole handler did. */
  datatype Submission = Submission(ops: seq<Op>, response: Response)

  /** The fault of the store write for the file part at index `i`. */
  function AudioFault(env: Env, i: nat): Fault
  {
    if i in env.audioErrors then Some(env.audioErrors[i]) else None
  }

  /** Assigning a string to this name of a plain object goes to the
      inherited `__proto__` setter, which ignores it: no field is created. */
  const ProtoKey: string := "__proto__"

  /** The part handlers run over the first `k` parts: a field part sets its
      field (except `__proto__`); a file part is written under the job's audio key and, when
      that write succeeds, sets `originalFilename`; a failing write rejects
      the promise, which keeps its first rejection. */
  function Collected(jobId: string, env: Env, k: nat): Collection
    requires k <= |env.parts|
  {
    if k == 0 then Collection(map[], [], None)
    else
      var c := Collected(jobId, env, k - 1);
      match env.parts[k - 1]
      case FieldPart(name, value) => if name == ProtoKey then c else c.(fields := c.fields[name := value])
      case FilePart(filename, data) =>
        var fault := AudioFault(env, k - 1);
        var ops := c.ops + [Write(AudioKey(jobId), AudioBlob(data), fault.None?)];
        if fault.None? then Collection(c.fields["originalFilename" := filename], ops, c.error)
        else Collection(c.fields, ops, if c.error.Some? then c.error else fault)
  }

  /** The parse promise: every part handled, then the parser's own error if
      no write failed first. */
  function Parsed(jobId: string, env: Env): Collection
  {
    var c := Collected(jobId, env, |env.parts|);
    c.(error := if c.error.Some? then c.error else env.parseError)
  }

  /** `{ ...fields, status: 'pending', submittedAt: now }`. */
  function Pending(fields: Record, now: string): (r: Record)
    ensures "status" in r && r["status"] == "pending" && "submittedAt" in r && r["submittedAt"] == now
  {
    fields["status" := "pending"]["submittedAt" := now]
  }

  /** The pending record keeps every other form field as submitted. */
  lemma PendingKeeps(fields: Record, now: string, f: string)
    requires f != "status" && f != "submittedAt"
    ensures f in Pending(fields, now) <==> f in fields
    ensures f in fields ==> Pending(fields, now)[f] == fields[f]
  {
  }

  /** Whether `fields.originalFilename` is truthy. */
  predicate HasFilename(fields: Record)
  {
    "originalFilename" in fields && fields["originalFilename"] != ""
  }

  /** The `try` block, step by step. */
  function Attempted(jobId: string, env: Env): Tried
  {
    var c := Parsed(jobId, env);
    if c.error.Some? then Tried(c.ops, c.error)
    else if !HasFilename(c.fields) then Tried(c.ops, Some("No file was uploaded."))
    else
      var r := Registered(jobId, env, c.fields);
      Tried(c.ops + r.ops, r.error)
  }

  /** The end of the `try` block once a file was recorded: the pending
      record is written, then the worker is started. */
  function Registered(jobId: string, env: Env, fields: Record): Tried
  {
    var metadata := Write(MetadataKey(jobId), JsonBlob(Pending(fields, env.now)), env.writeMetadata.None?);
    if env.writeMetadata.Some? then Tried([metadata], env.writeMetadata)
    else if env.trigger.Some? then Tried([metadata, Trigger(jobId)], env.trigger)
    else if !env.triggerOk then Tried([metadata, Trigger(jobId)], Some("Failed to invoke background function: " + env.triggerText))
    else Tried([metadata, Trigger(jobId)], None)
  }

  /** The deletions of the `catch` block: the audio key, then, if that
      succeeded, the metadata key. */
  function Cleanup(jobId: string, env: Env): seq<Op>
  {
    if jobId == "" then []
    else if env.deleteAudio.Some? then [Erase(AudioKey(jobId), false)]
    else [Erase(AudioKey(jobId), true), Erase(MetadataKey(jobId), env.deleteMetadata.None?)]
  }

  /** The whole handler. */
  function Submit(jobId: string, env: Env): Submission
  {
    var a := Attempted(jobId, env);
    if a.error.None? then Submission(a.ops, Response(202, map[], Object(map["jobId" := jobId]), false))
    else Submission(a.ops + Cleanup(jobId, env), ErrorJson(500, a.error.value))
  }

  /** The part handlers as the parser drives them. */
  method ReadForm(p: Platform, jobId: string, env: Env) returns (c: Collection)
    modifies p`store, p`log
    ensures c == Parsed(jobId, env)
    ensures p.log == old(p.log) + c.ops && p.store == Applied(old(p.store), c.ops)
  {
    var fields: Record := map[];
    var ops: seq<Op> := [];
    var error: Fault := None;
    var i := 0;
    while i < |env.parts|
      invariant 0 <= i <= |env.parts|
      invariant Collected(jobId, env, i) == Collection(fields, ops, error)
      invariant p.log == old(p.log) + ops && p.store == Applied(old(p.store), ops)
    {
      match env.parts[i] {
        case FieldPart(name, value) =>
          if name != ProtoKey {
            fields := fields[name := value];
          }
        case FilePart(filename, data) =>
          var err := p.Set(AudioKey(jobId), AudioBlob(data), AudioFault(env, i));
          AppliedSnoc(old(p.store), ops, Write(AudioKey(jobId), AudioBlob(data), err.None?));
          ops := ops + [Write(AudioKey(jobId), AudioBlob(data), err.None?)];
          if err.None? {
            fields := fields["originalFilename" := filename];
          } else if error.None? {
            error := err;
          }
      }
      i := i + 1;
    }
    if error.None? {
      error := env.parseError;
    }
    c := Collection(fields, ops, error);
  }

  /** The `try` block as the handler runs it. */
  method TryBlock(p: Platform, jobId: string, env: Env) returns (error: Fault)
    modifies p`store, p`log
    ensures var a := Attempted(jobId, env);
      error == a.error && p.log == old(p.log) + a.ops && p.store == Applied(old(p.store), a.ops)
  {
    var c := ReadForm(p, jobId, env);
    error := c.error;
    if error.Some? {
      return;
    }
    if !HasFilename(c.fields) {
      return Some("No file was uploaded.");
    }
    error := Register(p, jobId, env, c.fields);
    ghost var r := Registered(jobId, env, c.fields);
    AppliedAppend(old(p.store), c.ops, r.ops);
  }

  /** The steps of the `try` block after the file check. */
  method Register(p: Platform, jobId: string, env: Env, fields: Record) returns (error: Fault)
    modifies p`store, p`log
    ensures var r := Registered(jobId, env, fields);
      error == r.error && p.log == old(p.log) + r.ops && p.store == Applied(old(p.store), r.ops)
  {
    var metadata := Write(MetadataKey(jobId), JsonBlob(Pending(fields, env.now)), env.writeMetadata.None?);
    error := p.Set(MetadataKey(jobId), JsonBlob(Pending(fields, env.now)), env.writeMetadata);
    AppliedSnoc(old(p.store), [], metadata);
    assert [] + [metadata] == [metadata];
    if error.Some? {
      return;
    }
    p.Post(jobId);
    AppliedSnoc(old(p.store), [metadata], Trigger(jobId));
    assert [metadata] + [Trigger(jobId)] == [metadata, Trigger(jobId)];
    if env.trigger.Some? {
      error := env.trigger;
    } else if !env.triggerOk {
      error := Some("Failed to invoke background function: " + env.triggerText);
    }
  }

  /** The deletions of the `catch` block as the handler runs them; a
      failed deletion is swallowed. */
  method CleanUp(p: Platform, jobId: string, env: Env)
    modifies p`store, p`log
    ensures p.log == old(p.log) + Cleanup(jobId, env) && p.store == Applied(old(p.store), Cleanup(jobId, env))
  {
    if jobId == "" {
      return;
    }
    var err := p.Delete(AudioKey(jobId), env.deleteAudio);
    AppliedSnoc(old(p.store), [], Erase(AudioKey(jobId), err.None?));
    assert [] + [Erase(AudioKey(jobId), err.None?)] == [Erase(AudioKey(jobId), err.None?)];
    if err.None? {
      var _ := p.Delete(MetadataKey(jobId), env.deleteMetadata);
      AppliedSnoc(old(p.store), [Erase(AudioKey(jobId), true)], Erase(MetadataKey(jobId), env.deleteMetadata.None?));
      assert [Erase(AudioKey(jobId), true)] + [Erase(MetadataKey(jobId), env.deleteMetadata.None?)] == Cleanup(jobId, env);
    }
  }

  /** `exports.handler` for the fresh id `jobId`. */
  method Handle(p: Platform, jobId: string, env: Env) returns (r: Response)
    modifies p`store, p`log
    ensures var s := Submit(jobId, env);
      r == s.response && p.log == old(p.log) + s.ops && p.store == Applied(old(p.store), s.ops)
  {
    var error := TryBlock(p, jobId, env);
    if error.None? {
      return Response(202, map[], Object(map["jobId" := jobId]), false);
    }
    ghost var tried := Attempted(jobId, env).ops;
    CleanUp(p, jobId, env);
    AppliedAppend(old(p.store), tried, Cleanup(jobId, env));
    r := ErrorJson(500, error.value);
  }

  /** Every effect in `ops` is a write to the job's audio key. */
  predicate AudioWritesOnly(jobId: string, ops: seq<Op>)
  {
    forall i :: 0 <= i < |ops| ==> ops[i].Write? && ops[i].key == AudioKey(jobId)
  }

  /** The part handlers only write the job's audio key. */
  lemma {:induction false} PartsWriteAudio(jobId: string, env: Env, k: nat)
    requires k <= |env.parts|
    ensures AudioWritesOnly(jobId, Collected(jobId, env, k).ops)
  {
    if k > 0 {
      PartsWriteAudio(jobId, env, k - 1);
      var prev := Collected(jobId, env, k - 1).ops;
      var ops := Collected(jobId, env, k).ops;
      var part := env.parts[k - 1];
      if part.FieldPart? {
        assert ops == prev;
      } else {
        assert ops == prev + [Write(AudioKey(jobId), AudioBlob(part.data), AudioFault(env, k - 1).None?)];
      }
    }
  }

  /** Unless a form field is itself named `originalFilename`, a recorded
      file name means some file part was stored under the audio key. */
  lemma {:induction false} FilenameMeansAudio(store: map<string, Value>, jobId: string, env: Env, k: nat)
    requires k <= |env.parts|
    requires forall i :: 0 <= i < k && env.parts[i].FieldPart? ==> env.parts[i].name != "originalFilename"
    ensures var c := Collected(jobId, env, k);
      "originalFilename" in c.fields ==> AudioKey(jobId) in Applied(store, c.ops)
  {
    if k > 0 {
      var prev := Collected(jobId, env, k - 1);
      FilenameMeansAudio(store, jobId, env, k - 1);
      var c := Collected(jobId, env, k);
      var part := env.parts[k - 1];
      assert part.FieldPart? ==> part.name != "originalFilename";
      if part.FieldPart? {
        assert c.ops == prev.ops && c.fields == if part.name == ProtoKey then prev.fields else prev.fields[part.name := part.value];
      } else {
        var w := Write(AudioKey(jobId), AudioBlob(part.data), AudioFault(env, k - 1).None?);
        assert c.ops == prev.ops + [w];
        AppliedSnoc(store, prev.ops, w);
        if w.applied {
          assert Applied(store, c.ops) == Applied(store, prev.ops)[AudioKey(jobId) := AudioBlob(part.data)];
        } else {
          assert c.fields == prev.fields && Applied(store, c.ops) == Applied(store, prev.ops);
        }
      }
    }
  }

  /** An accepted upload parsed cleanly, recorded a file name, wrote the
      pending record and then started the worker, and answers 202 with the
      job id. */
  lemma AcceptedUpload(store: map<string, Value>, jobId: string, env: Env)
    requires Submit(jobId, env).response.statusCode == 202
    ensures var c := Parsed(jobId, env);
      var s := Submit(jobId, env);
      && c.error.None? && HasFilename(c.fields)
      && s.ops == c.ops + [Write(MetadataKey(jobId), JsonBlob(Pending(c.fields, env.now)), true), Trigger(jobId)]
      && s.response.body == Object(map["jobId" := jobId])
      && var after := Applied(store, s.ops);
      && MetadataKey(jobId) in after && after[MetadataKey(jobId)] == JsonBlob(Pending(c.fields, env.now))
  {
    var c := Parsed(jobId, env);
    var w := Write(MetadataKey(jobId), JsonBlob(Pending(c.fields, env.now)), true);
    AcceptedSteps(jobId, env);
    AppliedAppend(store, c.ops, [w, Trigger(jobId)]);
    AppliedPair(Applied(store, c.ops), w, Trigger(jobId));
  }

  /** The steps of an accepted upload. */
  lemma AcceptedSteps(jobId: string, env: Env)
    requires Submit(jobId, env).response.statusCode == 202
    ensures var c := Parsed(jobId, env);
      var s := Submit(jobId, env);
      && c.error.None? && HasFilename(c.fields)
      && s.ops == c.ops + [Write(MetadataKey(jobId), JsonBlob(Pending(c.fields, env.now)), true), Trigger(jobId)]
      && s.response.body == Object(map["jobId" := jobId])
  {
    var c := Parsed(jobId, env);
    var a := Attempted(jobId, env);
    assert a.error.None?;
    assert c.error.None? && HasFilename(c.fields);
    var r := Registered(jobId, env, c.fields);
    assert a == Tried(c.ops + r.ops, r.error);
    assert env.writeMetadata.None? && env.trigger.None? && env.triggerOk;
  }

  /** Whether the part at index `i` sets `fields[name]`: a field part of
      that name other than `__proto__`, or, for `originalFilename`, a file part whose write
      succeeded. */
  predicate SetsField(env: Env, i: nat, name: string)
    requires i < |env.parts|
  {
    match env.parts[i]
    case FieldPart(n, _) => n == name && name != ProtoKey
    case FilePart(_, _) => name == "originalFilename" && AudioFault(env, i).None?
  }

  /** The value a part assigns: a field's value or a file's name. */
  function PartValue(part: Part): string
  {
    match part
    case FieldPart(_, value) => value
    case FilePart(filename, _) => filename
  }

  /** The part handlers set exactly the fields some part sets: the form
      fields by name, and `originalFilename` by a stored file. */
  lemma {:induction false} CollectedKeys(jobId: string, env: Env, k: nat, name: string)
    requires k <= |env.parts|
    ensures name in Collected(jobId, env, k).fields <==> exists i :: 0 <= i < k && SetsField(env, i, name)
  {
    if k > 0 {
      CollectedKeys(jobId, env, k - 1, name);
      if name in Collected(jobId, env, k).fields && !SetsField(env, k - 1, name) {
        assert name in Collected(jobId, env, k - 1).fields;
      }
      if SetsField(env, k - 1, name) {
        assert name in Collected(jobId, env, k).fields;
      } else if exists i :: 0 <= i < k && SetsField(env, i, name) {
        var i :| 0 <= i < k && SetsField(env, i, name);
        assert i < k - 1;
      }
    }
  }

  /** A field part named `__proto__` never becomes a field, so the pending
      record never carries that key. */
  lemma ProtoNeverRecorded(jobId: string, env: Env)
    ensures ProtoKey !in Collected(jobId, env, |env.parts|).fields
  {
    CollectedKeys(jobId, env, |env.parts|, ProtoKey);
  }

  /** The last part that sets a field decides its value. */
  lemma {:induction false} CollectedValue(jobId: string, env: Env, k: nat, i: nat, name: string)
    requires i < k <= |env.parts|
    requires SetsField(env, i, name)
    requires forall j :: i < j < k ==> !SetsField(env, j, name)
    ensures var fields := Collected(jobId, env, k).fields;
      name in fields && fields[name] == PartValue(env.parts[i])
  {
    if i < k - 1 {
      CollectedValue(jobId, env, k - 1, i, name);
      assert !SetsField(env, k - 1, name);
    }
  }

  /** The pending record of an accepted upload, field by field: apart from
      `status` and `submittedAt`, a field is recorded exactly when some part
      sets it, and holds what the last such part gave. */
  lemma AcceptedRecord(store: map<string, Value>, jobId: string, env: Env, name: string)
    requires Submit(jobId, env).response.statusCode == 202
    requires name != "status" && name != "submittedAt"
    ensures var record := Pending(Parsed(jobId, env).fields, env.now);
      var after := Applied(store, Submit(jobId, env).ops);
      && MetadataKey(jobId) in after && after[MetadataKey(jobId)] == JsonBlob(record)
      && (name in record <==> exists i :: 0 <= i < |env.parts| && SetsField(env, i, name))
      && forall i :: 0 <= i < |env.parts| && SetsField(env, i, name)
           && (forall j :: i < j < |env.parts| ==> !SetsField(env, j, name))
           ==> name in record && record[name] == PartValue(env.parts[i])
  {
    var fields := Parsed(jobId, env).fields;
    AcceptedUpload(store, jobId, env);
    CollectedKeys(jobId, env, |env.parts|, name);
    PendingKeeps(fields, env.now, name);
    forall i | 0 <= i < |env.parts| && SetsField(env, i, name)
        && (forall j :: i < j < |env.parts| ==> !SetsField(env, j, name))
      ensures name in Pending(fields, env.now) && Pending(fields, env.now)[name] == PartValue(env.parts[i])
    {
      CollectedValue(jobId, env, |env.parts|, i, name);
    }
  }

  /** An accepted upload whose form has no field named `originalFilename`
      has its audio in the store. */
  lemma AcceptedHasAudio(store: map<string, Value>, jobId: string, env: Env)
    requires Submit(jobId, env).response.statusCode == 202
    requires forall i :: 0 <= i < |env.parts| && env.parts[i].FieldPart? ==> env.parts[i].name != "originalFilename"
    ensures AudioKey(jobId) in Applied(store, Submit(jobId, env).ops)
  {
    var c := Parsed(jobId, env);
    AcceptedUpload(store, jobId, env);
    FilenameMeansAudio(store, jobId, env, |env.parts|);
    KeyContract(jobId, jobId);
    var w := Write(MetadataKey(jobId), JsonBlob(Pending(c.fields, env.now)), true);
    AppliedAppend(store, c.ops, [w, Trigger(jobId)]);
    AppliedPair(Applied(store, c.ops), w, Trigger(jobId));
  }

  /** A field named `originalFilename` passes the file check on its own:
      the job is accepted and its pending record written although no audio
      was stored. */
  lemma FieldPassesFileCheck(jobId: string, env: Env)
    requires env.parts == [FieldPart("originalFilename", "song.mp3")] && env.parseError.None?
    requires env.writeMetadata.None? && env.trigger.None? && env.triggerOk
    ensures var s := Submit(jobId, env);
      && s.response.statusCode == 202
      && s.ops == [Write(MetadataKey(jobId), JsonBlob(Pending(map["originalFilename" := "song.mp3"], env.now)), true), Trigger(jobId)]
  {
    assert Collected(jobId, env, 0) == Collection(map[], [], None);
    assert Parsed(jobId, env) == Collection(map["originalFilename" := "song.mp3"], [], None);
  }

  /** Every trigger in `ops` is for this job and follows an applied write
      of its metadata. */
  predicate TriggersFollowMetadata(jobId: string, ops: seq<Op>)
  {
    forall k :: 0 <= k < |ops| && ops[k].Trigger? ==>
      && ops[k].jobId == jobId && k > 0
      && ops[k - 1].Write? && ops[k - 1].key == MetadataKey(jobId) && ops[k - 1].applied
  }

  /** Prefixing and suffixing steps that trigger nothing keeps every trigger
      right after its metadata write. */
  lemma TriggersAround(jobId: string, pre: seq<Op>, mid: seq<Op>, post: seq<Op>)
    requires forall i :: 0 <= i < |pre| ==> !pre[i].Trigger?
    requires forall i :: 0 <= i < |post| ==> !post[i].Trigger?
    requires |mid| > 0 ==> !mid[0].Trigger?
    requires TriggersFollowMetadata(jobId, mid)
    ensures TriggersFollowMetadata(jobId, pre + mid + post)
  {
    var ops := pre + mid + post;
    forall k | 0 <= k < |ops|
      ensures ops[k].Trigger? ==>
        && ops[k].jobId == jobId && k > 0
        && ops[k - 1].Write? && ops[k - 1].key == MetadataKey(jobId) && ops[k - 1].applied
    {
      if k < |pre| {
        assert ops[k] == pre[k];
      } else if k < |pre| + |mid| {
        assert ops[k] == mid[k - |pre|];
        if k > |pre| {
          assert ops[k - 1] == mid[k - 1 - |pre|];
        }
      } else {
        assert ops[k] == post[k - |pre| - |mid|];
      }
    }
  }

  /** Registration triggers only this job, right after writing its
      pending record. */
  lemma RegisteredTriggers(jobId: string, env: Env, fields: Record)
    ensures var ops := Registered(jobId, env, fields).ops;
      TriggersFollowMetadata(jobId, ops) && |ops| > 0 && !ops[0].Trigger?
  {
    var metadata := Write(MetadataKey(jobId), JsonBlob(Pending(fields, env.now)), env.writeMetadata.None?);
    var ops := Registered(jobId, env, fields).ops;
    if env.writeMetadata.Some? {
      assert ops == [metadata];
    } else {
      assert ops == [metadata, Trigger(jobId)];
      assert ops[0].applied;
    }
  }

  /** The deletions trigger nothing. */
  lemma CleanupTriggersNothing(jobId: string, env: Env)
    ensures forall i :: 0 <= i < |Cleanup(jobId, env)| ==> Cleanup(jobId, env)[i].Erase?
  {
  }

  /** The worker is started only right after the pending record was
      written, and only for this job. */
  lemma TriggerAfterMetadata(jobId: string, env: Env)
    ensures TriggersFollowMetadata(jobId, Submit(jobId, env).ops)
  {
    var c := Parsed(jobId, env);
    PartsWriteAudio(jobId, env, |env.parts|);
    assert c.ops == Collected(jobId, env, |env.parts|).ops;
    var a := Attempted(jobId, env);
    var cleanup := if a.error.None? then [] else Cleanup(jobId, env);
    var tail := if c.error.None? && HasFilename(c.fields) then Registered(jobId, env, c.fields).ops else [];
    assert a.ops == c.ops + tail;
    assert Submit(jobId, env).ops == c.ops + tail + cleanup;
    RegisteredTriggers(jobId, env, c.fields);
    CleanupTriggersNothing(jobId, env);
    TriggersAround(jobId, c.ops, tail, cleanup);
  }

  /** Without a recorded file name the handler fails with "No file was
      uploaded." before writing any metadata, then runs its deletions. */
  lemma NoFileNoMetadata(jobId: string, env: Env)
    requires Parsed(jobId, env).error.None? && !HasFilename(Parsed(jobId, env).fields)
    ensures var c := Parsed(jobId, env);
      Submit(jobId, env) == Submission(c.ops + Cleanup(jobId, env), ErrorJson(500, "No file was uploaded."))
    ensures var ops := Submit(jobId, env).ops;
      forall i :: 0 <= i < |ops| && ops[i].Write? ==> ops[i].key == AudioKey(jobId)
  {
    var c := Parsed(jobId, env);
    PartsWriteAudio(jobId, env, |env.parts|);
    assert c.ops == Collected(jobId, env, |env.parts|).ops;
    var ops := c.ops + Cleanup(jobId, env);
    forall i | 0 <= i < |ops|
      ensures ops[i].Write? ==> ops[i].key == AudioKey(jobId)
    {
      if i >= |c.ops| {
        assert ops[i] == Cleanup(jobId, env)[i - |c.ops|];
      }
    }
  }

  /** Every failure answers 500 with its message after the deletions; the
      handler answers 202 or 500 and nothing else. */
  lemma RejectedUpload(jobId: string, env: Env)
    ensures var s := Submit(jobId, env);
      var a := Attempted(jobId, env);
      && (s.response.statusCode == 202 || s.response.statusCode == 500)
      && (s.response.statusCode == 500 <==> a.error.Some?)
      && (a.error.Some? ==> s.ops == a.ops + Cleanup(jobId, env) && s.response == ErrorJson(500, a.error.value))
  {
  }

  /** When both deletions succeed, a failed upload leaves neither the audio
      nor the metadata of the job in the store. */
  lemma FailureRemovesKeys(store: map<string, Value>, jobId: string, env: Env)
    requires Submit(jobId, env).response.statusCode == 500
    requires jobId != "" && env.deleteAudio.None? && env.deleteMetadata.None?
    ensures var after := Applied(store, Submit(jobId, env).ops);
      AudioKey(jobId) !in after && MetadataKey(jobId) !in after
  {
    var a := Attempted(jobId, env);
    AppliedAppend(store, a.ops, Cleanup(jobId, env));
    AppliedPair(Applied(store, a.ops), Erase(AudioKey(jobId), true), Erase(MetadataKey(jobId), true));
  }
}
