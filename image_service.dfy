/** The image service: choosing a prompt for an app and widget type,
    shortening it, and turning the outcome of the image generator, the
    download and the S3 upload into the URL handed back.  The three remote
    calls and the random object name are parameters. */
module ImageService {
  import opened Wrappers
  import opened PyText
  import AiGenerator

  /** Returned whenever generation, download or upload fails. */
  const Placeholder := "https://via.placeholder.com/256x256/E0E0E0/666666?text=Image"

  datatype Config = Config(region: string, bucket: string)

  /** The constructor: the OpenAI key and both AWS keys must be set and
      non-empty; region and bucket default when unset. */
  function Configure(env: map<string, string>): (r: Result<Config>)
    ensures r.Ok? <==> (forall k :: k in ["OPENAI_API_KEY", "AWS_ACCESS_KEY_ID", "AWS_SECRET_ACCESS_KEY"] ==>
                          k in env && env[k] != "")
    ensures r.Err? ==> r.error == ValueError
    ensures r.Ok? ==> r.value.bucket == (if "S3_BUCKET_NAME" in env then env["S3_BUCKET_NAME"] else "mycoachbucket")
    ensures r.Ok? ==> r.value.region == (if "AWS_REGION" in env then env["AWS_REGION"] else "sa-east-1")
  {
    if !("OPENAI_API_KEY" in env && env["OPENAI_API_KEY"] != "") then Err(ValueError)
    else if !("AWS_ACCESS_KEY_ID" in env && env["AWS_ACCESS_KEY_ID"] != "")
         || !("AWS_SECRET_ACCESS_KEY" in env && env["AWS_SECRET_ACCESS_KEY"] != "") then Err(ValueError)
    else
      Ok(Config(if "AWS_REGION" in env then env["AWS_REGION"] else "sa-east-1",
                if "S3_BUCKET_NAME" in env then env["S3_BUCKET_NAME"] else "mycoachbucket"))
  }

  /** The prompt actually sent: the text before the first comma, stripped,
      cut to 40 characters. */
  function SimplifyPrompt(prompt: string): string {
    Take(Strip(Before(prompt, ",")), 40)
  }

  /** The shortened prompt is at most 40 characters long, holds no comma,
      is a contiguous piece of the prompt, and is the whole stripped first
      part when that is short enough. */
  lemma SimplifiedPromptShape(prompt: string)
    ensures |SimplifyPrompt(prompt)| <= 40
    ensures ',' !in SimplifyPrompt(prompt)
    ensures exists i, j :: 0 <= i <= j <= |prompt| && SimplifyPrompt(prompt) == prompt[i..j]
    ensures |Strip(Before(prompt, ","))| <= 40 ==> SimplifyPrompt(prompt) == Strip(Before(prompt, ","))
  {
    var head := Before(prompt, ",");
    BeforeHasNoPattern(prompt, ",");
    CharNotContained(head, ',');
    var k: nat := if Find(prompt, ",").Some? then Find(prompt, ",").value else |prompt|;
    assert head == prompt[..k];
    StripIsSlice(head);
    var i, j :| 0 <= i <= j <= |head| && Strip(head) == head[i..j];
    var r := SimplifyPrompt(prompt);
    if 40 <= |Strip(head)| {
      assert r == head[i..j][..40] == head[i..i + 40];
      assert r == prompt[i..i + 40];
    } else {
      assert r == head[i..j];
      assert r == prompt[i..j];
    }
  }

  /** A finished download: its HTTP status and body. */
  datatype Download = Download(status: int, body: seq<bv8>)

  /** What the remote calls return.  `generate` is the image generator
      given the shortened prompt (`None`: it raised); `fetch` the download
      of the generated image (`None`: it raised or timed out); `hex` the
      hex form of a random UUID; `put` whether the upload of a body under a
      bucket and key succeeded. */
  datatype Remote = Remote(
    generate: string -> Option<string>,
    fetch: string -> Option<Download>,
    hex: string,
    put: (string, string, seq<bv8>) -> bool)

  function ObjectKey(imageType: string, hex: string): string {
    "flutter_app_images/" + imageType + "_" + Take(hex, 8) + ".png"
  }

  /** The public URL of an uploaded object; the region in it is fixed. */
  function PublicUrl(bucket: string, key: string): string {
    "https://" + bucket + ".s3.sa-east-1.amazonaws.com/" + key
  }

  /** `generate_and_upload_image`: never raises. */
  function GenerateAndUpload(config: Config, prompt: string, imageType: string, remote: Remote): string {
    match remote.generate(SimplifyPrompt(prompt))
    case None => Placeholder
    case Some(imageUrl) =>
      match remote.fetch(imageUrl)
      case None => Placeholder
      case Some(download) =>
        if download.status != 200 then Placeholder
        else
          var key := ObjectKey(imageType, remote.hex);
          if !remote.put(config.bucket, key, download.body) then Placeholder
          else PublicUrl(config.bucket, key)
  }

  /** The upload succeeded: every step went through. */
  predicate Uploaded(config: Config, prompt: string, imageType: string, remote: Remote) {
    && remote.generate(SimplifyPrompt(prompt)).Some?
    && remote.fetch(remote.generate(SimplifyPrompt(prompt)).value).Some?
    && remote.fetch(remote.generate(SimplifyPrompt(prompt)).value).value.status == 200
    && remote.put(config.bucket, ObjectKey(imageType, remote.hex),
                  remote.fetch(remote.generate(SimplifyPrompt(prompt)).value).value.body)
  }

  /** The answer is the S3 URL of the new object exactly when generation,
      a 200 download and the upload all succeeded, and the placeholder
      otherwise; a download with another status counts as a failure. */
  lemma UploadOrPlaceholder(config: Config, prompt: string, imageType: string, remote: Remote)
    ensures Uploaded(config, prompt, imageType, remote) ==>
      GenerateAndUpload(config, prompt, imageType, remote) == PublicUrl(config.bucket, ObjectKey(imageType, remote.hex))
    ensures !Uploaded(config, prompt, imageType, remote) ==>
      GenerateAndUpload(config, prompt, imageType, remote) == Placeholder
    ensures GenerateAndUpload(config, prompt, imageType, remote) != Placeholder <==> Uploaded(config, prompt, imageType, remote)
  {
    var url := PublicUrl(config.bucket, ObjectKey(imageType, remote.hex));
    assert url[|url| - 1] == 'g';
    assert Placeholder[|Placeholder| - 1] == 'e';
  }

  /** Only the shortened prompt reaches the generator: prompts that agree
      on it give the same answer. */
  lemma OnlyShortPromptMatters(config: Config, p: string, q: string, imageType: string, remote: Remote)
    requires SimplifyPrompt(p) == SimplifyPrompt(q)
    ensures GenerateAndUpload(config, p, imageType, remote) == GenerateAndUpload(config, q, imageType, remote)
  {
  }

  /** The URL names `sa-east-1` whatever region the client was configured
      with. */
  lemma UrlNamesFixedRegion(region: string, bucket: string, prompt: string, imageType: string, remote: Remote)
    requires Uploaded(Config(region, bucket), prompt, imageType, remote)
    ensures GenerateAndUpload(Config(region, bucket), prompt, imageType, remote)
         == GenerateAndUpload(Config("sa-east-1", bucket), prompt, imageType, remote)
         == "https://" + bucket + ".s3.sa-east-1.amazonaws.com/" + ObjectKey(imageType, remote.hex)
  {
    UploadOrPlaceholder(Config(region, bucket), prompt, imageType, remote);
    UploadOrPlaceholder(Config("sa-east-1", bucket), prompt, imageType, remote);
  }

  /** What `uuid4().hex` gives: 32 lower-case hex digits. */
  predicate UuidHex(hex: string) {
    |hex| == 32 && forall i :: 0 <= i < |hex| ==> IsLowerHexDigit(hex[i])
  }

  /** The object key lies under `flutter_app_images/`, starts with the
      image type and ends with `.png`, with at most 8 random characters
      between; for the hex form of a UUID these are exactly its first 8
      lower-case hex digits. */
  lemma ObjectKeyShape(imageType: string, hex: string)
    ensures var key := ObjectKey(imageType, hex);
      && StartsWith(key, "flutter_app_images/" + imageType + "_")
      && EndsWith(key, ".png")
      && |key| <= |"flutter_app_images/" + imageType + "_"| + 8 + 4
    ensures var key := ObjectKey(imageType, hex);
      var n := |"flutter_app_images/" + imageType + "_"|;
      UuidHex(hex) ==>
        && |key| == n + 12
        && key[n..n + 8] == hex[..8]
        && forall i :: n <= i < n + 8 ==> IsLowerHexDigit(key[i])
  {
    var prefix := "flutter_app_images/" + imageType + "_";
    var key := ObjectKey(imageType, hex);
    assert key == prefix + (Take(hex, 8) + ".png");
    assert key[|key| - 4..] == ".png";
    if UuidHex(hex) {
      var n := |prefix|;
      assert key[n..n + 8] == hex[..8];
      forall i | n <= i < n + 8
        ensures IsLowerHexDigit(key[i])
      {
        assert key[i] == hex[i - n];
      }
    }
  }

  /** The prompt table of `get_image_for_context`. */
  function Prompts(context: string): map<string, map<string, string>> {
    map[
      "ecommerce" := map["product" := "product " + context, "logo" := "logo " + context,
                         "background" := "ecommerce background"],
      "tasks" := map["icon" := "task icon " + context, "background" := "productivity background"],
      "social" := map["profile" := "profile " + context, "background" := "social background"],
      "fitness" := map["exercise" := "fitness " + context, "equipment" := "gym equipment " + context],
      "food" := map["dish" := "food " + context, "restaurant" := "restaurant " + context],
      "default" := map["image" := "app image " + context, "icon" := "icon " + context]
    ]
  }

  /** The prompt: the app type's table, else the default table; in it the
      widget type's entry, else the `image` entry, else a generic text. */
  function PromptFor(appType: string, widgetType: string, context: string): string {
    var table := Prompts(context);
    var prompts := if appType in table then table[appType] else table["default"];
    if widgetType in prompts then prompts[widgetType]
    else if "image" in prompts then prompts["image"]
    else "Modern " + widgetType + " image, " + context
  }

  /** `get_image_for_context`: the object is stored under the type
      `<app_type>_<widget_type>`. */
  function ImageForContext(config: Config, appType: string, widgetType: string, context: string, remote: Remote): string {
    GenerateAndUpload(config, PromptFor(appType, widgetType, context), appType + "_" + widgetType, remote)
  }

  /** An unknown app type is served from the default table. */
  lemma UnknownAppUsesDefault(appType: string, widgetType: string, context: string)
    requires appType !in {"ecommerce", "tasks", "social", "fitness", "food", "default"}
    ensures PromptFor(appType, widgetType, context) == PromptFor("default", widgetType, context)
  {
    assert appType !in Prompts(context);
  }

  /** Within the default table an unknown widget type gets the `image`
      entry. */
  lemma DefaultTableFallsBackToImage(widgetType: string, context: string)
    requires widgetType != "image" && widgetType != "icon"
    ensures PromptFor("default", widgetType, context) == "app image " + context
  {
    assert widgetType !in Prompts(context)["default"];
  }

  /** The other tables have no `image` entry, so an unknown widget type
      gets the generic prompt there. */
  lemma OtherTablesFallBackToGeneric(appType: string, widgetType: string, context: string)
    requires appType in {"ecommerce", "tasks", "social", "fitness", "food"}
    requires widgetType !in Prompts(context)[appType]
    ensures PromptFor(appType, widgetType, context) == "Modern " + widgetType + " image, " + context
  {
    assert "image" !in Prompts(context)[appType];
  }

  /** Of the kinds the project pass asks for (product, logo, banner, image),
      an e-commerce app has its own prompts for products and logos only. */
  lemma EcommercePrompts(context: string)
    ensures PromptFor("ecommerce", "product", context) == "product " + context
    ensures PromptFor("ecommerce", "logo", context) == "logo " + context
    ensures PromptFor("ecommerce", "banner", context) == "Modern banner image, " + context
    ensures PromptFor("ecommerce", "image", context) == "Modern image image, " + context
  {
    OtherTablesFallBackToGeneric("ecommerce", "banner", context);
    OtherTablesFallBackToGeneric("ecommerce", "image", context);
  }

  /** The service as the project pass sees it. */
  function AsService(config: Config, remote: Remote): AiGenerator.Service {
    (appType, widgetType, context) => ImageForContext(config, appType, widgetType, context, remote)
  }

  /** Every image URL the project pass writes is the placeholder or an
      object of this bucket stored under the app and image type. */
  lemma ServiceUrlShape(config: Config, appType: string, widgetType: string, context: string, remote: Remote)
    ensures var url := AsService(config, remote)(appType, widgetType, context);
      url == Placeholder
      || url == PublicUrl(config.bucket, ObjectKey(appType + "_" + widgetType, remote.hex))
  {
    UploadOrPlaceholder(config, PromptFor(appType, widgetType, context), appType + "_" + widgetType, remote);
  }
}
