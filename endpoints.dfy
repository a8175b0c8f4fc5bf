/** The generation endpoints of the HTTP application: the check that an
    upload is audio, the validation of a generated project, the way every
    failure inside a handler is turned into a 500, and the names of the
    downloaded archives.  The generators themselves and the file work are
    represented by their outcomes, given as parameters. */
module Endpoints {
  import opened Wrappers
  import opened PyText
  import Json
  import AiGenerator
  import ProjectModel
  import ProjectGen
  import OrderedDict

  /** An exception leaving a handler body: FastAPI's `HTTPException` with a
      status code and a detail, or a Python error whose message is not
      modelled. */
  datatype Exc = HttpExc(status: int, detail: Detail) | PyExc(error: PyError)

  /** A detail is plain text, or a prefix followed by `str()` of the caught
      exception. */
  datatype Detail = Text(s: string) | Wrapped(prefix: string, cause: Exc)

  datatype Outcome<T> = Returned(value: T) | Raised(exc: Exc)

  /** `except Exception as e: raise HTTPException(500, prefix + str(e))` */
  function Rewrap<T>(prefix: string, body: Outcome<T>): Outcome<T> {
    match body
    case Returned(_) => body
    case Raised(e) => Raised(HttpExc(500, Wrapped(prefix, e)))
  }

  /** A handler answers with its body's value, or with a 500 whose detail
      carries the handler's prefix and the original exception, whatever
      status that exception had. */
  lemma RewrapAlways500<T>(prefix: string, body: Outcome<T>)
    ensures Rewrap(prefix, body).Returned? <==> body.Returned?
    ensures body.Returned? ==> Rewrap(prefix, body) == body
    ensures Rewrap(prefix, body).Raised? ==>
      && Rewrap(prefix, body).exc.HttpExc?
      && Rewrap(prefix, body).exc.status == 500
      && Rewrap(prefix, body).exc.detail == Wrapped(prefix, body.exc)
  {
  }

  // ---------------------------------------------------------------------
  // Audio uploads

  const AudioTypes: seq<string> := ["audio/mpeg", "audio/mp3", "audio/wav", "audio/m4a", "audio/ogg", "audio/flac"]
  const AudioExtensions: seq<string> := [".mp3", ".wav", ".m4a", ".ogg", ".flac"]
  const UnsupportedAudio := "Formato de audio no soportado. Usa MP3, WAV, M4A, OGG o FLAC"

  /** An uploaded file: its declared content type and file name, either of
      which the client may leave out, and its bytes. */
  datatype Upload = Upload(contentType: Option<string>, filename: Option<string>, content: seq<bv8>)

  /** `s.endswith(suffixes)` for a tuple of suffixes. */
  predicate EndsWithAny(s: string, suffixes: seq<string>) {
    exists i :: 0 <= i < |suffixes| && EndsWith(s, suffixes[i])
  }

  /** The audio check: a listed content type accepts the upload at once;
      otherwise the lower-cased file name decides, and a missing file name
      raises `AttributeError`. */
  function AudioAccepted(u: Upload): Result<bool> {
    if u.contentType.Some? && u.contentType.value in AudioTypes then Ok(true)
    else match u.filename
      case None => Err(AttributeError)
      case Some(name) => Ok(EndsWithAny(Lower(name), AudioExtensions))
  }

  /** An upload is accepted exactly when its content type is listed or its
      file name ends in a listed extension in any letter case; the check
      fails only when neither a listed type nor a file name is sent. */
  lemma AudioAcceptance(u: Upload)
    ensures AudioAccepted(u) == Ok(true) <==>
      (u.contentType.Some? && u.contentType.value in AudioTypes)
      || (u.filename.Some? && exists e :: e in AudioExtensions && EndsWith(Lower(u.filename.value), e))
    ensures AudioAccepted(u).Err? <==> !(u.contentType.Some? && u.contentType.value in AudioTypes) && u.filename.None?
    ensures AudioAccepted(u).Err? ==> AudioAccepted(u).error == AttributeError
  {
    if u.filename.Some? {
      var s := Lower(u.filename.value);
      if EndsWithAny(s, AudioExtensions) {
        var i :| 0 <= i < |AudioExtensions| && EndsWith(s, AudioExtensions[i]);
        assert AudioExtensions[i] in AudioExtensions;
      }
      if exists e :: e in AudioExtensions && EndsWith(s, e) {
        var e :| e in AudioExtensions && EndsWith(s, e);
        var i :| 0 <= i < |AudioExtensions| && AudioExtensions[i] == e;
      }
    }
  }

  /** The letter case of the file name does not matter. */
  lemma AudioCheckIgnoresCase(u: Upload)
    requires u.filename.Some?
    ensures AudioAccepted(u) == AudioAccepted(u.(filename := Some(Lower(u.filename.value))))
  {
    AiGenerator.LowerIsIdempotent(u.filename.value);
  }

  /** A file named like audio is accepted whatever content type it is sent
      with. */
  lemma AudioNameSuffices(t: Option<string>, content: seq<bv8>)
    ensures AudioAccepted(Upload(t, Some("Song.MP3"), content)) == Ok(true)
  {
    var s := Lower("Song.MP3");
    assert s[4..] == ".mp3";
    assert EndsWith(s, AudioExtensions[0]);
  }

  /** A text file sent with an unlisted type is refused. */
  lemma TextFileRefused(content: seq<bv8>)
    ensures AudioAccepted(Upload(Some("audio/x-wav"), Some("notes.txt"), content)) == Ok(false)
  {
    LowerKeepsLowerText("notes.txt");
    forall i | 0 <= i < |AudioExtensions| ensures !EndsWith("notes.txt", AudioExtensions[i]) {
      assert "notes.txt"[8] == 't';
      assert AudioExtensions[i][|AudioExtensions[i]| - 1] != 't';
    }
  }

  // ---------------------------------------------------------------------
  // Generated projects

  /** The check after generation: an invalid structure raises a 500 with
      the handler's message; an error inside the check propagates. */
  function Validated(generated: Outcome<Json.Value>, invalid: string): Outcome<Json.Value> {
    match generated
    case Raised(_) => generated
    case Returned(project) =>
      match AiGenerator.ValidStructure(project)
      case Err(e) => Raised(PyExc(e))
      case Ok(valid) => if valid then generated else Raised(HttpExc(500, Text(invalid)))
  }

  const InvalidFromPrompt := "El proyecto generado por AI no tiene una estructura válida"
  const InvalidFromImage := "El proyecto generado desde la imagen no tiene una estructura válida"
  const InvalidFromAudio := "El proyecto generado desde el audio no tiene una estructura válida"

  /** `generate_json_from_prompt` */
  function JsonFromPrompt(generated: Outcome<Json.Value>): Outcome<Json.Value> {
    Rewrap("Error generating JSON from prompt: ", Validated(generated, InvalidFromPrompt))
  }

  /** `generate_json_from_image` */
  function JsonFromImage(generated: Outcome<Json.Value>): Outcome<Json.Value> {
    Rewrap("Error generating JSON from image: ", Validated(generated, InvalidFromImage))
  }

  /** The body of the audio handlers up to the validated project.  The
      generator runs only on an accepted upload; `generated` is what it
      gives then. */
  function AudioBody(u: Upload, generated: Outcome<Json.Value>): Outcome<Json.Value> {
    match AudioAccepted(u)
    case Err(e) => Raised(PyExc(e))
    case Ok(accepted) =>
      if !accepted then Raised(HttpExc(400, Text(UnsupportedAudio)))
      else Validated(generated, InvalidFromAudio)
  }

  /** `generate_json_from_audio`, as written. */
  function JsonFromAudio(u: Upload, generated: Outcome<Json.Value>): Outcome<Json.Value> {
    Rewrap("Error generating JSON from audio: ", AudioBody(u, generated))
  }

  /** A generated project is handed back exactly when generation returned
      and the structure check passed; every failure, an invalid structure
      included, reaches the client as a 500 carrying the handler's prefix. */
  lemma PromptHandlerRule(generated: Outcome<Json.Value>)
    ensures JsonFromPrompt(generated).Returned? <==>
      generated.Returned? && AiGenerator.ValidStructure(generated.value) == Ok(true)
    ensures JsonFromPrompt(generated).Returned? ==> JsonFromPrompt(generated) == generated
    ensures JsonFromPrompt(generated).Raised? ==>
      JsonFromPrompt(generated).exc.HttpExc? && JsonFromPrompt(generated).exc.status == 500
    ensures generated.Returned? && AiGenerator.ValidStructure(generated.value) == Ok(false) ==>
      JsonFromPrompt(generated)
        == Raised(HttpExc(500, Wrapped("Error generating JSON from prompt: ", HttpExc(500, Text(InvalidFromPrompt)))))
  {
  }

  /** The image handler follows the same rule with its own messages. */
  lemma ImageHandlerRule(generated: Outcome<Json.Value>)
    ensures JsonFromImage(generated).Returned? <==>
      generated.Returned? && AiGenerator.ValidStructure(generated.value) == Ok(true)
    ensures JsonFromImage(generated).Raised? ==>
      JsonFromImage(generated).exc.HttpExc? && JsonFromImage(generated).exc.status == 500
  {
  }

  /** A refused upload is answered with 500, not with the 400 the handler
      raises: the 400 is caught by the handler's own `except Exception`. */
  lemma RefusedAudioAnswers500(u: Upload, generated: Outcome<Json.Value>)
    requires AudioAccepted(u) == Ok(false)
    ensures JsonFromAudio(u, generated)
         == Raised(HttpExc(500, Wrapped("Error generating JSON from audio: ", HttpExc(400, Text(UnsupportedAudio)))))
  {
  }

  /** The client sees an HTTP error with this status. */
  predicate AnswersWith<T>(o: Outcome<T>, status: int) {
    o.Raised? && o.exc.HttpExc? && o.exc.status == status
  }

  /** `except HTTPException: raise` ahead of `except Exception`: an HTTP
      error passes through with its own status, anything else is wrapped. */
  function RewrapOthers<T>(prefix: string, body: Outcome<T>): Outcome<T> {
    match body
    case Raised(PyExc(_)) => Raised(HttpExc(500, Wrapped(prefix, body.exc)))
    case _ => body
  }

  /** The audio handler with HTTP errors passed through. */
  function JsonFromAudioFixed(u: Upload, generated: Outcome<Json.Value>): Outcome<Json.Value> {
    RewrapOthers("Error generating JSON from audio: ", AudioBody(u, generated))
  }

  /** With HTTP errors passed through, a refused upload gets 400, an
      invalid project its own 500, and the answer is 400 only for a refused
      upload; otherwise the two handlers agree. */
  lemma FixedAudioAnswers400(u: Upload, generated: Outcome<Json.Value>)
    ensures AudioAccepted(u) == Ok(false) ==>
      JsonFromAudioFixed(u, generated) == Raised(HttpExc(400, Text(UnsupportedAudio)))
    ensures !(generated.Raised? && generated.exc.HttpExc?) ==>
      (AnswersWith(JsonFromAudioFixed(u, generated), 400) <==> AudioAccepted(u) == Ok(false))
    ensures AudioBody(u, generated).Returned? || AudioBody(u, generated).exc.PyExc? ==>
      JsonFromAudioFixed(u, generated) == JsonFromAudio(u, generated)
  {
  }

  // ---------------------------------------------------------------------
  // Download names

  /** The archive name of the generated app. */
  function DownloadName(name: string): string {
    Slug(name) + "_flutter_app.zip"
  }

  /** The name is the project name lower-cased with spaces turned into
      underscores, followed by `_flutter_app.zip`; it holds no space, and a
      name already in that form is kept as it is. */
  lemma DownloadNameShape(name: string)
    ensures var r := DownloadName(name);
      && EndsWith(r, "_flutter_app.zip")
      && r[..|name|] == Slug(name)
      && ' ' !in r
      && (forall i :: 0 <= i < |name| ==> !IsUpperAscii(r[i]))
    ensures Slug(name) == name ==> DownloadName(name) == name + "_flutter_app.zip"
    ensures DownloadName(Slug(name)) == DownloadName(name)
  {
    var r := DownloadName(name);
    ProjectGen.SlugShape(name);
    assert r[|r| - 16..] == "_flutter_app.zip";
    forall i | 0 <= i < |name| ensures !IsUpperAscii(r[i]) {
      assert r[i] == Slug(name)[i] && Slug(name)[i] in Slug(name);
    }
    assert ' ' !in "_flutter_app.zip";
  }

  /** `generate_flutter_project` followed by the response: the files are
      rendered (`main.dart`, the pages, `pubspec.yaml`), and the archive is
      offered under the project's name; a rendering error propagates. */
  function Archive(project: ProjectModel.FlutterProject): Outcome<string> {
    match ProjectGen.ProjectFiles(project, ProjectGen.AnyImage(project.pages))
    case Err(e) => Raised(PyExc(e))
    case Ok(_) => Returned(DownloadName(project.name))
  }

  /** The archive is offered exactly when every file renders, and a
      rendering error is raised as it is. */
  lemma ArchiveRule(project: ProjectModel.FlutterProject)
    ensures var files := ProjectGen.ProjectFiles(project, ProjectGen.AnyImage(project.pages));
      && (Archive(project).Returned? <==> files.Ok?)
      && (Archive(project).Returned? ==> Archive(project).value == DownloadName(project.name))
      && (Archive(project).Raised? ==> Archive(project).exc == PyExc(files.error))
  {
  }

  /** `generate_flutter_app` */
  function FlutterApp(project: ProjectModel.FlutterProject): Outcome<string> {
    Rewrap("Error generating Flutter app: ", Archive(project))
  }

  /** One page that fails to render, for instance through a colour that
      is not a string, turns the whole request into a 500. */
  lemma FailingPageAnswers500(project: ProjectModel.FlutterProject, i: nat)
    requires i < |project.pages| && ProjectGen.PageFile(project.pages[i], project).Err?
    ensures AnswersWith(FlutterApp(project), 500)
    ensures FlutterApp(project).exc.detail.prefix == "Error generating Flutter app: "
  {
    if ProjectGen.PageFiles(project.pages, project).Ok? {
      ProjectGen.EveryPageHasFile(project.pages, project, i);
    }
  }

  /** The full-app handlers: the validated project is built into the
      typed model by `build`, then generated as `Archive` says. */
  function AppDownload(validated: Outcome<Json.Value>, build: Json.Value -> Outcome<ProjectModel.FlutterProject>): Outcome<string> {
    match validated
    case Raised(e) => Raised(e)
    case Returned(v) =>
      match build(v)
      case Raised(e) => Raised(e)
      case Returned(project) => Archive(project)
  }

  /** `generate_from_image` */
  function AppFromImage(generated: Outcome<Json.Value>,
                        build: Json.Value -> Outcome<ProjectModel.FlutterProject>): Outcome<string> {
    Rewrap("Error generating Flutter app from image: ", AppDownload(Validated(generated, InvalidFromImage), build))
  }

  /** The screenshot handler offers the archive exactly when generation
      returned, the structure check passed, the project built and every
      file rendered; the archive is named after the project, and every
      failure is a 500. */
  lemma AppFromImageRule(generated: Outcome<Json.Value>,
                         build: Json.Value -> Outcome<ProjectModel.FlutterProject>)
    ensures AppFromImage(generated, build).Returned? <==>
      && generated.Returned?
      && AiGenerator.ValidStructure(generated.value) == Ok(true)
      && build(generated.value).Returned?
      && ProjectGen.ProjectFiles(build(generated.value).value,
                                 ProjectGen.AnyImage(build(generated.value).value.pages)).Ok?
    ensures AppFromImage(generated, build).Returned? ==>
      AppFromImage(generated, build).value == DownloadName(build(generated.value).value.name)
    ensures AppFromImage(generated, build).Raised? ==> AnswersWith(AppFromImage(generated, build), 500)
  {
    if generated.Returned? && AiGenerator.ValidStructure(generated.value) == Ok(true)
       && build(generated.value).Returned? {
      ArchiveRule(build(generated.value).value);
    }
  }

  /** `generate_from_audio` */
  function AppFromAudio(u: Upload, generated: Outcome<Json.Value>,
                        build: Json.Value -> Outcome<ProjectModel.FlutterProject>): Outcome<string> {
    Rewrap("Error generating Flutter app from audio: ", AppDownload(AudioBody(u, generated), build))
  }

  /** For an accepted upload whose generated project is valid and builds,
      the full-app audio handler answers like `generate_flutter_app` on
      that project, prefix aside: the archive when every file renders, a
      500 otherwise. */
  lemma AppFromAudioGenerates(u: Upload, v: Json.Value,
                              build: Json.Value -> Outcome<ProjectModel.FlutterProject>)
    requires AudioAccepted(u) == Ok(true)
    requires AiGenerator.ValidStructure(v) == Ok(true)
    requires build(v).Returned?
    ensures var project := build(v).value;
      && (AppFromAudio(u, Returned(v), build).Returned? <==> FlutterApp(project).Returned?)
      && (AppFromAudio(u, Returned(v), build).Returned? ==> AppFromAudio(u, Returned(v), build) == FlutterApp(project))
      && (AppFromAudio(u, Returned(v), build).Raised? ==>
            AppFromAudio(u, Returned(v), build)
            == Raised(HttpExc(500, Wrapped("Error generating Flutter app from audio: ", Archive(project).exc))))
  {
  }

  /** The full-app audio handler refuses the same uploads, with the same
      500, and never reaches the generator for them. */
  lemma AppFromAudioRefusal(u: Upload, generated: Outcome<Json.Value>,
                            build: Json.Value -> Outcome<ProjectModel.FlutterProject>)
    requires AudioAccepted(u) == Ok(false)
    ensures AppFromAudio(u, generated, build)
         == Raised(HttpExc(500, Wrapped("Error generating Flutter app from audio: ", HttpExc(400, Text(UnsupportedAudio)))))
  {
  }

  /** The name used by the functional-app endpoint:
      `project.get('name', 'flutter_app')`, slugged; a name that is not a
      string has no `lower` and raises. */
  function FunctionalName(project: Json.Fields): Result<string> {
    match Json.Get(project, "name", Json.Str("flutter_app"))
    case Str(s) => Ok(Slug(s) + FunctionalSuffix)
    case _ => Err(AttributeError)
  }

  const FunctionalSuffix := "_ai_functional_flutter_app.zip"

  /** A missing name gives `flutter_app_ai_functional_flutter_app.zip`. */
  lemma FunctionalNameDefault(project: Json.Fields)
    requires !Json.HasKey(project, "name")
    ensures FunctionalName(project) == Ok("flutter_app" + FunctionalSuffix)
  {
    SlugKeepsSlugText("flutter_app");
  }

  /** A present name works exactly when it is a string; the result then
      ends in the suffix and holds no space. */
  lemma FunctionalNameRule(project: Json.Fields)
    ensures Json.HasKey(project, "name") ==>
      (FunctionalName(project).Ok? <==> OrderedDict.Lookup(project, "name").value.Str?)
    ensures FunctionalName(project).Ok? ==>
      EndsWith(FunctionalName(project).value, FunctionalSuffix)
      && ' ' !in FunctionalName(project).value
  {
    if FunctionalName(project).Ok? {
      var name := Json.Get(project, "name", Json.Str("flutter_app")).s;
      ProjectGen.SlugShape(name);
      SuffixedName(Slug(name), FunctionalSuffix);
    }
  }

  lemma SuffixedName(slug: string, suffix: string)
    requires ' ' !in slug && ' ' !in suffix
    ensures EndsWith(slug + suffix, suffix) && ' ' !in slug + suffix
  {
    var r := slug + suffix;
    assert r[|r| - |suffix|..] == suffix;
  }

  /** `generate_functional_app_from_json`: the Dart code is generated
      first, then the name is read. */
  function FunctionalApp(project: Json.Fields, dartCode: Outcome<string>): Outcome<string> {
    Rewrap("Error generating functional Flutter app from JSON: ",
      match dartCode
      case Raised(e) => Raised(e)
      case Returned(_) =>
        match FunctionalName(project)
        case Err(e) => Raised(PyExc(e))
        case Ok(name) => Returned(name))
  }

  /** A name that is not a string fails the request with a 500 only after
      the code generation succeeded; a generation failure is reported
      first. */
  lemma FunctionalAppFailures(project: Json.Fields, dartCode: Outcome<string>)
    ensures dartCode.Raised? ==>
      FunctionalApp(project, dartCode)
        == Raised(HttpExc(500, Wrapped("Error generating functional Flutter app from JSON: ", dartCode.exc)))
    ensures dartCode.Returned? && FunctionalName(project).Err? ==>
      FunctionalApp(project, dartCode)
        == Raised(HttpExc(500, Wrapped("Error generating functional Flutter app from JSON: ", PyExc(AttributeError))))
    ensures FunctionalApp(project, dartCode).Returned? <==> dartCode.Returned? && FunctionalName(project).Ok?
  {
  }
}
