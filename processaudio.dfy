/** The synchronous album endpoint (`process-audio.js`): it accepts only
    POST, takes the experiences and the uploaded recording from the form,
    builds the album in memory and returns it, and removes the recorded
    upload from the scratch directory on the way out. */
module ProcessAudio {
  import opened Runtime
  import opened Themes
  import opened Storage
  import opened Http
  import opened Album

  /** A file the form parser saved in the scratch directory. */
  datatype Upload = Upload(filepath: string, filename: string, sound: Sound)

  /** The parsed form: its text fields and the saved file of the `audio`
      field, if there is one. */
  datatype Form = Form(fields: Record, audio: Option<Upload>)

  /** What the outside world does: the form parser's result, the files it
      had written to the scratch directory, in order, when it rejected (a
      busboy error or a failing write stream), the JSON parser applied to
      the `experiences` text, and the archive generator. */
  datatype Env = Env(form: Result<Form>, leftOnReject: seq<Upload>, parse: string -> Result<seq<string>>, generate: Fault)

  /** What the handler did: its response, the files the parser left in the
      scratch directory, and the path the `finally` block removes. */
  datatype Run = Run(response: Response, saved: map<string, Sound>, removed: Option<string>)

  /** The readme of a synchronous album. */
  function AlbumReadme(fields: Record): string
  {
    "Album: " + FieldText(fields, "albumTitle") + "\nFor: " + FieldText(fields, "recipientName")
      + "\n\nCreated with Memory Album Creator."
  }

  /** `error.message || 'An internal error occurred.'`. */
  function Message(m: string): (r: string)
    ensures r != ""
    ensures m != "" ==> r == m
  {
    if m == "" then "An internal error occurred." else m
  }

  /** The response of the `catch` block. */
  function Failure(m: string): (r: Response)
    ensures r.statusCode == 500 && r.body.Object? && "error" in r.body.fields && r.body.fields["error"] != ""
    ensures m != "" ==> r.body.fields["error"] == m
  {
    ErrorJson(500, Message(m))
  }

  /** The files the parser saved for a form. */
  function Saved(form: Form): map<string, Sound>
  {
    if form.audio.Some? then map[form.audio.value.filepath := form.audio.value.sound] else map[]
  }

  /** The files a rejected parse leaves behind, the later of two writes to
      one path winning. */
  function Written(files: seq<Upload>): (r: map<string, Sound>)
    ensures forall i :: 0 <= i < |files| ==> files[i].filepath in r
  {
    if files == [] then map[]
    else
      var last := files[|files| - 1];
      Written(files[..|files| - 1])[last.filepath := last.sound]
  }

  /** `exports.handler`, step by step. */
  function Respond(httpMethod: string, env: Env): Run
  {
    if httpMethod != "POST" then Run(Response(405, map[], Body.Text("Method Not Allowed"), false), map[], None)
    else match env.form
      case Err(m) => Run(Failure(m), Written(env.leftOnReject), None)
      case Ok(form) =>
        var saved := Saved(form);
        match env.parse(FieldText(form.fields, "experiences"))
        case Err(m) => Run(Failure(m), saved, None)
        case Ok(experiences) =>
          if form.audio.None? || form.audio.value.filepath == "" then
            Run(Failure("No audio file uploaded or file failed to save."), saved, None)
          else
            var upload := form.audio.value;
            Run(Built(form.fields, upload.sound, experiences, env.generate), saved, Some(upload.filepath))
  }

  /** The response once the upload is recorded: the album is generated,
      then named after the album title. */
  function Built(fields: Record, original: Sound, experiences: seq<string>, generate: Fault): (r: Response)
    ensures r.statusCode == 200 || r.statusCode == 500
  {
    if generate.Some? then Failure(generate.value)
    else if "albumTitle" !in fields then Failure(UndefinedProperty("replace"))
    else
      var title := fields["albumTitle"];
      var zip := Archive(AlbumReadme(fields), original, experiences);
      Response(200, map["Content-Type" := "application/json"], AlbumJson(zip, AlbumFilename(title), title), false)
  }

  /** The scratch directory after a run. */
  function FinalTmp(tmp: map<string, Sound>, run: Run): map<string, Sound>
  {
    var after := tmp + run.saved;
    if run.removed.Some? then after - {run.removed.value} else after
  }

  /** The track loop: one remix entry per experience, in order. */
  method AddTracks(experiences: seq<string>, original: Sound, zip0: seq<Entry>) returns (zip: seq<Entry>)
    ensures zip == zip0 + Remixes(original, experiences, |experiences|)
  {
    zip := zip0;
    var i := 0;
    while i < |experiences|
      invariant 0 <= i <= |experiences|
      invariant zip == zip0 + Remixes(original, experiences, i)
    {
      var key := PickTheme(experiences[i]);
      var trackFilename := TrackName(i, key);
      zip := zip + [Entry(trackFilename, Audio(Remix(original, key)))];
      i := i + 1;
    }
  }

  /** The handler as it runs: the parser's files land in the scratch
      directory, and the recorded upload is removed in `finally`. */
  method Handle(p: Platform, httpMethod: string, env: Env) returns (r: Response)
    modifies p`tmp
    ensures var run := Respond(httpMethod, env);
      r == run.response && p.tmp == FinalTmp(old(p.tmp), run)
  {
    if httpMethod != "POST" {
      assert p.tmp == old(p.tmp) + map[];
      return Response(405, map[], Body.Text("Method Not Allowed"), false);
    }
    if env.form.Err? {
      SaveRejected(p, env.leftOnReject);
      return Failure(env.form.message);
    }
    var form := env.form.value;
    if form.audio.Some? {
      p.Save(form.audio.value.filepath, form.audio.value.sound);
    }
    assert p.tmp == old(p.tmp) + Saved(form);
    var parsed := env.parse(FieldText(form.fields, "experiences"));
    if parsed.Err? {
      return Failure(parsed.message);
    }
    var experiences := parsed.value;
    if form.audio.None? || form.audio.value.filepath == "" {
      return Failure("No audio file uploaded or file failed to save.");
    }
    var uploadedFilePath := form.audio.value.filepath;
    r := Build(p, form.fields, uploadedFilePath, experiences, env.generate);
    p.Unlink([uploadedFilePath]);
    assert Members([uploadedFilePath]) == {uploadedFilePath};
  }

  /** The parser's writes before it rejected: each file lands in the
      scratch directory, and nothing records it for cleanup. */
  method SaveRejected(p: Platform, files: seq<Upload>)
    modifies p`tmp
    ensures p.tmp == old(p.tmp) + Written(files)
  {
    var i := 0;
    while i < |files|
      invariant 0 <= i <= |files|
      invariant p.tmp == old(p.tmp) + Written(files[..i])
    {
      assert files[..i + 1][..i] == files[..i];
      p.Save(files[i].filepath, files[i].sound);
      i := i + 1;
    }
    assert files[..i] == files;
  }

  /** The body of the `try` block once the upload is recorded. */
  method Build(p: Platform, fields: Record, uploadedFilePath: string, experiences: seq<string>, generate: Fault) returns (r: Response)
    requires uploadedFilePath in p.tmp
    ensures r == Built(fields, p.tmp[uploadedFilePath], experiences, generate)
  {
    var original := p.tmp[uploadedFilePath];
    var zip := Header(AlbumReadme(fields), original);
    zip := AddTracks(experiences, original, zip);
    if generate.Some? {
      return Failure(generate.value);
    }
    if "albumTitle" !in fields {
      return Failure(UndefinedProperty("replace"));
    }
    var title := fields["albumTitle"];
    r := Response(200, map["Content-Type" := "application/json"], AlbumJson(zip, AlbumFilename(title), title), false);
  }

  /** Any method other than POST is refused with 405 before the form is
      parsed or any file is touched. */
  lemma MethodNotAllowed(httpMethod: string, env: Env, tmp: map<string, Sound>)
    requires httpMethod != "POST"
    ensures var run := Respond(httpMethod, env);
      && run.response.statusCode == 405
      && run.response.body == Body.Text("Method Not Allowed")
      && FinalTmp(tmp, run) == tmp
  {
    assert tmp + map[] == tmp;
  }

  /** A form without a saved audio file fails with 500 and the message
      "No audio file uploaded or file failed to save.". */
  lemma MissingAudio(env: Env)
    requires env.form.Ok? && env.form.value.audio.None?
    requires env.parse(FieldText(env.form.value.fields, "experiences")).Ok?
    ensures Respond("POST", env).response == ErrorJson(500, "No audio file uploaded or file failed to save.")
  {
  }

  /** Once the upload path is recorded it is gone from the scratch
      directory when the handler returns, whatever the response. */
  lemma UploadRemoved(env: Env, tmp: map<string, Sound>)
    requires env.form.Ok? && env.form.value.audio.Some? && env.form.value.audio.value.filepath != ""
    requires env.parse(FieldText(env.form.value.fields, "experiences")).Ok?
    ensures var run := Respond("POST", env);
      var path := env.form.value.audio.value.filepath;
      && run.removed == Some(path)
      && path !in FinalTmp(tmp, run)
      && (forall q :: q != path ==> (q in FinalTmp(tmp, run) <==> q in tmp || q in run.saved))
      && (forall q :: q != path && q in tmp && q !in run.saved ==> FinalTmp(tmp, run)[q] == tmp[q])
  {
  }

  /** When the experiences do not parse, the upload was never recorded for
      cleanup, so the parser's file stays in the scratch directory. */
  lemma ParseFailureKeepsUpload(env: Env, tmp: map<string, Sound>)
    requires env.form.Ok? && env.form.value.audio.Some?
    requires env.parse(FieldText(env.form.value.fields, "experiences")).Err?
    ensures var run := Respond("POST", env);
      var upload := env.form.value.audio.value;
      && run.response.statusCode == 500
      && upload.filepath in FinalTmp(tmp, run)
      && FinalTmp(tmp, run)[upload.filepath] == upload.sound
  {
  }

  /** A rejected parse answers 500 with the parser's message and removes
      nothing: every file the parser had written stays in the scratch
      directory, as the latest write to its path left it. */
  lemma RejectedParseLeavesFiles(env: Env, tmp: map<string, Sound>)
    requires env.form.Err?
    ensures var run := Respond("POST", env);
      var after := FinalTmp(tmp, run);
      var left := Written(env.leftOnReject);
      && run.response == Failure(env.form.message)
      && run.removed.None?
      && (forall q :: q in tmp ==> q in after)
      && (forall i :: 0 <= i < |env.leftOnReject| ==> env.leftOnReject[i].filepath in after)
      && (forall q :: q in left ==> after[q] == left[q])
      && (forall q :: q !in left && q in tmp ==> after[q] == tmp[q])
  {
  }

  /** A 200 response carries the album: the readme, the original, one remix
      per experience in order, all names distinct, named after the title
      with the "memory_album" fallback. */
  lemma AlbumResponse(env: Env)
    requires Respond("POST", env).response.statusCode == 200
    ensures var form := env.form.value;
      var experiences := env.parse(FieldText(form.fields, "experiences")).value;
      var r := Respond("POST", env).response;
      && form.audio.Some? && env.generate.None? && "albumTitle" in form.fields
      && r.headers == map["Content-Type" := "application/json"]
      && r.body.AlbumJson?
      && r.body.zip == Archive(AlbumReadme(form.fields), form.audio.value.sound, experiences)
      && |r.body.zip| == |experiences| + 2
      && (forall i, j :: 0 <= i < j < |r.body.zip| ==> r.body.zip[i].name != r.body.zip[j].name)
      && r.body.filename == AlbumFilename(form.fields["albumTitle"])
      && r.body.albumTitle == form.fields["albumTitle"]
  {
    var form := env.form.value;
    var experiences := env.parse(FieldText(form.fields, "experiences")).value;
    ArchiveLayout(AlbumReadme(form.fields), form.audio.value.sound, experiences);
    ArchiveNamesDistinct(AlbumReadme(form.fields), form.audio.value.sound, experiences);
  }

  /** The handler answers 200, 405 or 500; every 500 carries a non-empty
      error message. */
  lemma StatusCodes(httpMethod: string, env: Env)
    ensures var r := Respond(httpMethod, env).response;
      && (r.statusCode == 200 || r.statusCode == 405 || r.statusCode == 500)
      && (r.statusCode == 500 ==> r.body.Object? && "error" in r.body.fields && r.body.fields["error"] != "")
  {
  }
}
