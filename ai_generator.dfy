/** What the project generator does with a chat model's answer before and
    after `json.loads`: removing Markdown fences, checking the structure of
    a generated project, and replacing image placeholders with generated
    images.  The chat and image calls themselves are outside the model; the
    image service enters as a function `svc(app_type, image_type, context)`
    returning the URL it chose. */
module AiGenerator {
  import opened Wrappers
  import opened PyText
  import opened Json
  import OrderedDict

  const Fence := "```"

  // ---------------------------------------------------------------------
  // Markdown fences

  /** The clean-up of a project or Dart answer: strip; an answer that starts
      with the tagged fence loses every tagged fence and then every plain
      fence, one that starts with a plain fence loses every plain fence;
      the rest is stripped again.  `tag` is `json` for projects and `dart`
      for code. */
  function StripFences(raw: string, tag: string): string {
    var c := Strip(raw);
    if StartsWith(c, Fence + tag) then Strip(ReplaceAll(ReplaceAll(c, Fence + tag, ""), Fence, ""))
    else if StartsWith(c, Fence) then Strip(ReplaceAll(c, Fence, ""))
    else c
  }

  /** The clean-up of an answer describing a screenshot, as written: after
      stripping, an answer that starts with the `json` fence keeps the text
      up to the next `json` fence, and then anything from the first plain
      fence on is cut off. */
  function CleanImageAnswer(raw: string): string {
    var c := Strip(raw);
    var body := if StartsWith(c, Fence + "json") then Before(c[7..], Fence + "json") else c;
    Before(body, Fence)
  }

  /** The same clean-up where an answer opening with a plain fence is
      unwrapped too, instead of being cut down to the empty text before
      that fence. */
  function CleanImageAnswerFixed(raw: string): string {
    var c := Strip(raw);
    if StartsWith(c, Fence + "json") then Before(Before(c[7..], Fence + "json"), Fence)
    else if StartsWith(c, Fence) then Before(c[3..], Fence)
    else Before(c, Fence)
  }

  lemma StripKeepsFencedText(s: string)
    requires |s| > 0 && s[0] == '`' && s[|s| - 1] == '`'
    ensures Strip(s) == s
  {
    assert StripLeft(s) == s;
  }

  /** A body wrapped in the tagged fence comes out stripped and otherwise
      unchanged. */
  lemma TaggedFenceIsUnwrapped(body: string, tag: string)
    requires '`' !in body && '`' !in tag && |tag| > 0
    ensures StripFences(Fence + tag + "\n" + body + "\n" + Fence, tag) == Strip(body)
  {
    var pat := Fence + tag;
    var inner := "\n" + body + "\n";
    var raw := pat + inner + Fence;
    assert raw == Fence + tag + "\n" + body + "\n" + Fence;
    StripKeepsFencedText(raw);
    assert raw[|pat|..] == inner + Fence;
    ReplaceAllPrefixFree(inner, Fence, pat, "");
    assert ReplaceAll(Fence, pat, "") == Fence;
    assert ReplaceAll(raw, pat, "") == inner + Fence;
    ReplaceAllPrefixFree(inner, Fence, Fence, "");
    assert ReplaceAll(Fence, Fence, "") == "" + ReplaceAll(Fence[3..], Fence, "");
    assert inner + "" == inner;
    SurroundedStrip(body);
  }

  /** A body wrapped in a plain fence comes out stripped and otherwise
      unchanged too. */
  lemma PlainFenceIsUnwrapped(body: string, tag: string)
    requires '`' !in body && |tag| > 0 && tag[0] != '\n'
    ensures StripFences(Fence + "\n" + body + "\n" + Fence, tag) == Strip(body)
  {
    var inner := "\n" + body + "\n";
    var raw := Fence + inner + Fence;
    assert raw == Fence + "\n" + body + "\n" + Fence;
    StripKeepsFencedText(raw);
    assert raw[3] == '\n';
    assert !StartsWith(raw, Fence + tag) by { assert (Fence + tag)[3] == tag[0]; }
    assert raw[3..] == inner + Fence;
    assert StartsWith(raw, Fence);
    ReplaceAllPrefixFree(inner, Fence, Fence, "");
    assert ReplaceAll(Fence, Fence, "") == "" + ReplaceAll(Fence[3..], Fence, "");
    assert inner + "" == inner;
    assert ReplaceAll(raw, Fence, "") == inner;
    SurroundedStrip(body);
  }

  /** An answer that does not open with a fence is only stripped, even if
      fences occur later in it. */
  lemma UnfencedAnswerIsStripped(raw: string, tag: string)
    requires !StartsWith(Strip(raw), Fence)
    ensures StripFences(raw, tag) == Strip(raw)
  {
    StartsWithLonger(Strip(raw), Fence, tag);
  }

  /** A screenshot answer in the `json` fence yields the body between the
      fences, newlines included. */
  lemma ImageTaggedFenceIsUnwrapped(body: string)
    requires '`' !in body
    ensures CleanImageAnswer(Fence + "json" + "\n" + body + "\n" + Fence) == "\n" + body + "\n"
    ensures CleanImageAnswerFixed(Fence + "json" + "\n" + body + "\n" + Fence) == "\n" + body + "\n"
  {
    var inner := "\n" + body + "\n";
    var raw := Fence + "json" + inner + Fence;
    assert raw == Fence + "json" + "\n" + body + "\n" + Fence;
    StripKeepsFencedText(raw);
    assert StartsWith(raw, Fence + "json");
    assert raw[7..] == inner + Fence;
    PatternNotInShortTail(inner, Fence, Fence + "json");
    assert Before(inner + Fence, Fence + "json") == inner + Fence;
    FirstOccurrenceAfter(inner, Fence, Fence);
    assert (inner + Fence)[..|inner|] == inner;
  }

  /** A screenshot answer in a plain fence is cut down to the empty text,
      whatever its body. */
  lemma ImagePlainFenceIsLost(body: string)
    ensures CleanImageAnswer(Fence + "\n" + body + "\n" + Fence) == ""
  {
    var raw := Fence + "\n" + body + "\n" + Fence;
    StripKeepsFencedText(raw);
    assert !StartsWith(raw, Fence + "json") by { assert raw[3] == '\n'; }
    FirstOccurrenceAfter("", raw, Fence);
    assert "" + raw == raw;
  }

  /** The corrected clean-up unwraps a plain fence as well. */
  lemma ImagePlainFenceFixed(body: string)
    requires '`' !in body
    ensures CleanImageAnswerFixed(Fence + "\n" + body + "\n" + Fence) == "\n" + body + "\n"
  {
    var inner := "\n" + body + "\n";
    var raw := Fence + inner + Fence;
    assert raw == Fence + "\n" + body + "\n" + Fence;
    StripKeepsFencedText(raw);
    assert !StartsWith(raw, Fence + "json") by { assert raw[3] == '\n'; }
    assert raw[3..] == inner + Fence;
    FirstOccurrenceAfter(inner, Fence, Fence);
    assert (inner + Fence)[..|inner|] == inner;
  }

  /** The correction changes nothing for answers that do not open with a
      plain fence. */
  lemma ImageFixAgreesOtherwise(raw: string)
    requires !StartsWith(Strip(raw), Fence) || StartsWith(Strip(raw), Fence + "json")
    ensures CleanImageAnswerFixed(raw) == CleanImageAnswer(raw)
  {
    if !StartsWith(Strip(raw), Fence) {
      StartsWithLonger(Strip(raw), Fence, "json");
    }
  }

  // ---------------------------------------------------------------------
  // Structure check

  const RequiredFields: seq<string> := ["name", "description", "currentPageId", "pages", "theme"]
  const PageFields: seq<string> := ["id", "name", "route", "widgets"]

  /** `for f in fields: if f not in v: return False`, then `True`. */
  function AllPresent(fields: seq<string>, v: Value): Result<bool>
    decreases |fields|
  {
    if fields == [] then Ok(true)
    else
      var present :- StrIn(fields[0], v);
      if !present then Ok(false) else AllPresent(fields[1..], v)
  }

  /** `v[key]` for a string key. */
  function Index(v: Value, key: string): Result<Value> {
    match v
    case Obj(fs) => if HasKey(fs, key) then Ok(Get(fs, key, Null)) else Err(KeyError)
    case _ => Err(TypeError)
  }

  /** `for page in pages: ...`: every page has the page fields. */
  function PagesPresent(pages: seq<Value>): Result<bool>
    decreases |pages|
  {
    if pages == [] then Ok(true)
    else
      var ok :- AllPresent(PageFields, pages[0]);
      if !ok then Ok(false) else PagesPresent(pages[1..])
  }

  /** `validate_project_structure`; an `Err` is the exception a membership
      test raises on a value that is not a container. */
  function ValidStructure(project: Value): Result<bool> {
    var top :- AllPresent(RequiredFields, project);
    if !top then Ok(false)
    else
      var pages :- Index(project, "pages");
      if !pages.Arr? || |pages.items| == 0 then Ok(false)
      else PagesPresent(pages.items)
  }

  /** `in` is defined on it. */
  predicate IsContainer(v: Value) {
    v.Obj? || v.Arr? || v.Str?
  }

  /** The structure the check looks for, stated directly. */
  ghost predicate WellFormed(fs: Fields) {
    && (forall f :: f in RequiredFields ==> HasKey(fs, f))
    && Get(fs, "pages", Null).Arr?
    && |Get(fs, "pages", Null).items| > 0
    && (forall i, f :: 0 <= i < |Get(fs, "pages", Null).items| && f in PageFields ==>
          StrIn(f, Get(fs, "pages", Null).items[i]) == Ok(true))
  }

  /** The membership loop succeeds exactly when every field is in `v`, and
      raises on the first field when `v` is not a container. */
  lemma {:induction false} AllPresentMeaning(fields: seq<string>, v: Value)
    ensures IsContainer(v) ==> AllPresent(fields, v) == Ok(forall f :: f in fields ==> StrIn(f, v) == Ok(true))
    ensures !IsContainer(v) && fields != [] ==> AllPresent(fields, v) == Err(TypeError)
    decreases |fields|
  {
    if fields != [] {
      AllPresentMeaning(fields[1..], v);
      assert forall f :: f in fields <==> f == fields[0] || f in fields[1..];
    }
  }

  /** Over pages that are all containers, the page loop succeeds exactly
      when every page has every page field. */
  lemma {:induction false} PagesPresentMeaning(pages: seq<Value>)
    requires forall i :: 0 <= i < |pages| ==> IsContainer(pages[i])
    ensures PagesPresent(pages) == Ok(forall i, f :: 0 <= i < |pages| && f in PageFields ==> StrIn(f, pages[i]) == Ok(true))
    decreases |pages|
  {
    if pages != [] {
      AllPresentMeaning(PageFields, pages[0]);
      PagesPresentMeaning(pages[1..]);
      assert forall i :: 1 <= i < |pages| ==> pages[1..][i - 1] == pages[i];
    }
  }

  /** On an object whose pages (if it has a list of them) are containers,
      the check answers whether the object is well formed, and never
      raises. */
  lemma ValidStructureOfObject(fs: Fields)
    requires Get(fs, "pages", Null).Arr? ==>
      forall i :: 0 <= i < |Get(fs, "pages", Null).items| ==> IsContainer(Get(fs, "pages", Null).items[i])
    ensures ValidStructure(Obj(fs)) == Ok(WellFormed(fs))
  {
    AllPresentMeaning(RequiredFields, Obj(fs));
    if forall f :: f in RequiredFields ==> HasKey(fs, f) {
      assert HasKey(fs, "pages");
      var pages := Get(fs, "pages", Null);
      if pages.Arr? {
        PagesPresentMeaning(pages.items);
      }
    }
  }

  /** A page that is a number (or `null`, or a boolean) makes the check
      raise once the top-level fields are there. */
  lemma ScalarPageRaises(fs: Fields, page: Value)
    requires forall f :: f in RequiredFields ==> HasKey(fs, f)
    requires Get(fs, "pages", Null) == Arr([page]) && !IsContainer(page)
    ensures ValidStructure(Obj(fs)) == Err(TypeError)
  {
    AllPresentMeaning(RequiredFields, Obj(fs));
    AllPresentMeaning(PageFields, page);
  }

  /** A page given as a string passes when the four field names occur in
      it as text. */
  lemma TextPagePasses(fs: Fields, text: string)
    requires forall f :: f in RequiredFields ==> HasKey(fs, f)
    requires Get(fs, "pages", Null) == Arr([Str(text)])
    requires forall f :: f in PageFields ==> Contains(text, f)
    ensures ValidStructure(Obj(fs)) == Ok(true)
  {
    ValidStructureOfObject(fs);
  }

  /** Setting a field other than `pages`, whether it is new and not
      required or already there, leaves the verdict as it was: extra keys
      and the value of `theme` (or of any other required field) are never
      inspected. */
  lemma OtherFieldsAreIgnored(fs: Fields, k: string, v: Value)
    requires k != "pages" && (HasKey(fs, k) || k !in RequiredFields)
    ensures ValidStructure(Obj(OrderedDict.Put(fs, k, v))) == ValidStructure(Obj(fs))
  {
    var fs' := OrderedDict.Put(fs, k, v);
    forall f
      ensures OrderedDict.Lookup(fs', f) == if f == k then Some(v) else OrderedDict.Lookup(fs, f)
    {
      OrderedDict.PutLookup(fs, k, v, f);
    }
    assert forall f :: f in RequiredFields ==> (HasKey(fs', f) <==> HasKey(fs, f));
    AllPresentMeaning(RequiredFields, Obj(fs));
    AllPresentMeaning(RequiredFields, Obj(fs'));
    assert Get(fs', "pages", Null) == Get(fs, "pages", Null);
  }

  /** The widgets of a page are never looked at: replacing them keeps the
      verdict. */
  lemma WidgetsAreIgnored(fs: Fields, i: nat, pfs: Fields, w: Value)
    requires Get(fs, "pages", Null).Arr? && i < |Get(fs, "pages", Null).items|
    requires Get(fs, "pages", Null).items[i] == Obj(pfs) && HasKey(pfs, "widgets")
    ensures
      var pages := Get(fs, "pages", Null).items;
      var page' := Obj(OrderedDict.Put(pfs, "widgets", w));
      ValidStructure(Obj(OrderedDict.Put(fs, "pages", Arr(pages[i := page'])))) == ValidStructure(Obj(fs))
  {
    var pages := Get(fs, "pages", Null).items;
    var pfs' := OrderedDict.Put(pfs, "widgets", w);
    var pages' := pages[i := Obj(pfs')];
    var fs' := OrderedDict.Put(fs, "pages", Arr(pages'));
    forall f
      ensures OrderedDict.Lookup(fs', f) == if f == "pages" then Some(Arr(pages')) else OrderedDict.Lookup(fs, f)
    {
      OrderedDict.PutLookup(fs, "pages", Arr(pages'), f);
    }
    forall f
      ensures OrderedDict.Lookup(pfs', f) == if f == "widgets" then Some(w) else OrderedDict.Lookup(pfs, f)
    {
      OrderedDict.PutLookup(pfs, "widgets", w, f);
    }
    assert HasKey(fs, "pages");
    assert forall f :: f in RequiredFields ==> (HasKey(fs', f) <==> HasKey(fs, f));
    AllPresentMeaning(RequiredFields, Obj(fs));
    AllPresentMeaning(RequiredFields, Obj(fs'));
    AllPresentMeaning(PageFields, Obj(pfs));
    AllPresentMeaning(PageFields, Obj(pfs'));
    assert AllPresent(PageFields, Obj(pfs')) == AllPresent(PageFields, Obj(pfs));
    PagesPresentOneChanged(pages, i, Obj(pfs'));
  }

  lemma {:induction false} PagesPresentOneChanged(pages: seq<Value>, i: nat, p: Value)
    requires i < |pages| && AllPresent(PageFields, p) == AllPresent(PageFields, pages[i])
    ensures PagesPresent(pages[i := p]) == PagesPresent(pages)
    decreases |pages|
  {
    var pages' := pages[i := p];
    if i > 0 {
      assert pages'[1..] == pages[1..][i - 1 := p];
      PagesPresentOneChanged(pages[1..], i - 1, p);
    } else {
      assert pages'[1..] == pages[1..];
    }
  }

  /** `validate_project_structure` as written: two membership loops with
      early exits, a list check, and a loop over the pages. */
  method ValidateProjectStructure(project: Value) returns (r: Result<bool>)
    ensures r == ValidStructure(project)
  {
    var i := 0;
    while i < |RequiredFields|
      invariant 0 <= i <= |RequiredFields|
      invariant AllPresent(RequiredFields, project) == AllPresent(RequiredFields[i..], project)
    {
      assert RequiredFields[i..][1..] == RequiredFields[i + 1..];
      var present := StrIn(RequiredFields[i], project);
      if present.Err? {
        return Err(present.error);
      }
      if !present.value {
        return Ok(false);
      }
      i := i + 1;
    }
    var pagesValue := Index(project, "pages");
    if pagesValue.Err? {
      return Err(pagesValue.error);
    }
    var pages := pagesValue.value;
    if !pages.Arr? || |pages.items| == 0 {
      return Ok(false);
    }
    var n := 0;
    while n < |pages.items|
      invariant 0 <= n <= |pages.items|
      invariant PagesPresent(pages.items) == PagesPresent(pages.items[n..])
    {
      assert pages.items[n..][1..] == pages.items[n + 1..];
      var page := pages.items[n];
      var j := 0;
      while j < |PageFields|
        invariant 0 <= j <= |PageFields|
        invariant AllPresent(PageFields, page) == AllPresent(PageFields[j..], page)
      {
        assert PageFields[j..][1..] == PageFields[j + 1..];
        var present := StrIn(PageFields[j], page);
        if present.Err? {
          return Err(present.error);
        }
        if !present.value {
          return Ok(false);
        }
        j := j + 1;
      }
      n := n + 1;
    }
    return Ok(true);
  }

  // ---------------------------------------------------------------------
  // Classifying the app and its images

  /** `any(word in text for word in words)` */
  predicate Mentions(text: string, words: seq<string>) {
    exists w :: w in words && Contains(text, w)
  }

  const AppKinds: seq<(string, seq<string>)> := [
    ("ecommerce", ["ecommerce", "shop", "store", "product", "tienda"]),
    ("tasks", ["task", "todo", "productivity", "tareas"]),
    ("social", ["social", "chat", "community"]),
    ("fitness", ["fitness", "gym", "workout", "exercise"]),
    ("food", ["food", "recipe", "restaurant", "delivery", "comida"])
  ]

  /** The app type chosen from the lower-cased name and description by the
      chain of keyword tests; `fallback` is the caller's `app_type`. */
  function ClassifyApp(text: string, fallback: string): string {
    if Mentions(text, ["ecommerce", "shop", "store", "product", "tienda"]) then "ecommerce"
    else if Mentions(text, ["task", "todo", "productivity", "tareas"]) then "tasks"
    else if Mentions(text, ["social", "chat", "community"]) then "social"
    else if Mentions(text, ["fitness", "gym", "workout", "exercise"]) then "fitness"
    else if Mentions(text, ["food", "recipe", "restaurant", "delivery", "comida"]) then "food"
    else fallback
  }

  /** The kind whose keywords appear first in the table order wins; with no
      keyword at all the fallback is kept. */
  lemma ClassifiedByFirstMention(text: string, fallback: string, i: nat)
    requires i < |AppKinds| && Mentions(text, AppKinds[i].1)
    requires forall j :: 0 <= j < i ==> !Mentions(text, AppKinds[j].1)
    ensures ClassifyApp(text, fallback) == AppKinds[i].0
  {
    if i > 0 { assert !Mentions(text, AppKinds[0].1); }
    if i > 1 { assert !Mentions(text, AppKinds[1].1); }
    if i > 2 { assert !Mentions(text, AppKinds[2].1); }
    if i > 3 { assert !Mentions(text, AppKinds[3].1); }
  }

  lemma UnclassifiedKeepsFallback(text: string, fallback: string)
    requires forall j :: 0 <= j < |AppKinds| ==> !Mentions(text, AppKinds[j].1)
    ensures ClassifyApp(text, fallback) == fallback
  {
    assert !Mentions(text, AppKinds[0].1);
    assert !Mentions(text, AppKinds[1].1);
    assert !Mentions(text, AppKinds[2].1);
    assert !Mentions(text, AppKinds[3].1);
    assert !Mentions(text, AppKinds[4].1);
  }

  /** The image type for a context: product, logo, banner or image. */
  function ImageKind(context: string): (kind: string)
    ensures kind in {"product", "logo", "banner", "image"}
  {
    var c := Lower(context);
    if Mentions(c, ["producto", "product", "item"]) then "product"
    else if Mentions(c, ["logo", "brand"]) then "logo"
    else if Mentions(c, ["banner", "header"]) then "banner"
    else "image"
  }

  lemma LowerIsIdempotent(s: string)
    ensures Lower(Lower(s)) == Lower(s)
  {
    assert forall i :: 0 <= i < |s| ==> Lower(Lower(s))[i] == Lower(s)[i];
  }

  /** The case of the context does not matter, and the Spanish `producto`
      adds nothing to `product`. */
  lemma ImageKindIgnoresCase(context: string)
    ensures ImageKind(context) == ImageKind(Lower(context))
    ensures ImageKind(context) == "product" <==> Mentions(Lower(context), ["product", "item"])
  {
    LowerIsIdempotent(context);
    var c := Lower(context);
    if Contains(c, "producto") {
      ContainsPrefixOfPattern(c, "producto", "product");
    }
  }

  /** The `imagen` test on the table columns adds nothing to `image`. */
  lemma ImagenIsRedundant(text: string)
    ensures (Contains(text, "image") || Contains(text, "imagen")) <==> Contains(text, "image")
  {
    if Contains(text, "imagen") {
      ContainsPrefixOfPattern(text, "imagen", "image");
    }
  }

  // ---------------------------------------------------------------------
  // Replacing image placeholders

  /** `get_image_for_context(app_type, image_type, context)` */
  type Service = (string, string, string) -> string

  /** A value after a loop has updated it in place, and whether the loop
      finished (`false`: an exception left it part-way). */
  datatype Pass<T> = Pass(value: T, ok: bool)

  /** A loop over `xs` updating each element with `f` and stopping at the
      first element whose update raises; later elements stay as they
      were. */
  function PassAll<T>(xs: seq<T>, f: T -> Pass<T>): (r: Pass<seq<T>>)
    ensures |r.value| == |xs|
    decreases |xs|
  {
    if xs == [] then Pass([], true)
    else
      var p := f(xs[0]);
      if !p.ok then Pass([p.value] + xs[1..], false)
      else
        var rest := PassAll(xs[1..], f);
        Pass([p.value] + rest.value, rest.ok)
  }

  /** The loop stopped after `n` successful updates. */
  ghost predicate StopsAt<T>(xs: seq<T>, f: T -> Pass<T>, r: Pass<seq<T>>, n: nat)
    requires |r.value| == |xs|
  {
    && n <= |xs|
    && (forall i :: 0 <= i < n ==> f(xs[i]).ok && r.value[i] == f(xs[i]).value)
    && (r.ok <==> n == |xs|)
    && (n < |xs| ==> !f(xs[n]).ok && r.value[n] == f(xs[n]).value && r.value[n + 1..] == xs[n + 1..])
  }

  /** Every element before the first failure is updated, the failing one
      keeps what its update did before raising, and the rest are
      untouched. */
  lemma {:induction false} PassAllStopsAtFirstFailure<T>(xs: seq<T>, f: T -> Pass<T>)
    ensures exists n :: StopsAt(xs, f, PassAll(xs, f), n)
    decreases |xs|
  {
    var r := PassAll(xs, f);
    if xs == [] {
      assert StopsAt(xs, f, r, 0);
    } else if !f(xs[0]).ok {
      assert r.value[1..] == xs[1..];
      assert StopsAt(xs, f, r, 0);
    } else {
      PassAllStopsAtFirstFailure(xs[1..], f);
      var m: nat :| StopsAt(xs[1..], f, PassAll(xs[1..], f), m);
      var rest := PassAll(xs[1..], f);
      assert r.value == [f(xs[0]).value] + rest.value;
      forall i | 0 <= i < m + 1
        ensures f(xs[i]).ok && r.value[i] == f(xs[i]).value
      {
        if i > 0 {
          assert xs[1..][i - 1] == xs[i];
        }
      }
      if m < |xs| - 1 {
        assert xs[1..][m] == xs[m + 1];
        assert r.value[m + 2..] == rest.value[m + 1..];
        assert xs[m + 2..] == xs[1..][m + 1..];
      }
      assert StopsAt(xs, f, r, m + 1);
    }
  }

  /** One turn of a loop computing `PassAll`: the element's update is
      appended and, if it raised, the untouched rest too. */
  lemma PassAllAdvance<T>(xs: seq<T>, i: nat, f: T -> Pass<T>, out: seq<T>, p: Pass<T>)
    requires i < |xs| && p == f(xs[i])
    requires PassAll(xs, f) == Pass(out + PassAll(xs[i..], f).value, PassAll(xs[i..], f).ok)
    ensures p.ok ==> PassAll(xs, f) == Pass((out + [p.value]) + PassAll(xs[i + 1..], f).value, PassAll(xs[i + 1..], f).ok)
    ensures !p.ok ==> PassAll(xs, f) == Pass(out + [p.value] + xs[i + 1..], false)
  {
    assert xs[i..][0] == xs[i] && xs[i..][1..] == xs[i + 1..];
    if p.ok {
      var rest := PassAll(xs[i + 1..], f).value;
      assert out + ([p.value] + rest) == (out + [p.value]) + rest;
    } else {
      assert out + ([p.value] + xs[i + 1..]) == out + [p.value] + xs[i + 1..];
    }
  }

  /** `d[k] = v` done through a value that was read from `d[k]`: only when
      the key exists is there anything to write back to. */
  function WriteBack(fs: Fields, k: string, v: Value): Fields {
    if HasKey(fs, k) then OrderedDict.Put(fs, k, v) else fs
  }

  /** A table cell the loop replaces: a string mentioning `placeholder` or
      `http`. */
  predicate IsImageCell(cell: Value) {
    cell.Str? && (Contains(cell.s, "placeholder") || Contains(cell.s, "http"))
  }

  /** `str(c) for c in row if c != cell` for a string `cell`. */
  function Others(row: seq<Value>, cell: string): seq<string> {
    if row == [] then []
    else (if row[0] == Str(cell) then [] else [PyStr(row[0])]) + Others(row[1..], cell)
  }

  /** One step of the cell loop: cell `i` of the row as it is now. */
  function CellStep(row: seq<Value>, i: nat, appType: string, svc: Service): seq<Value>
    requires i < |row|
  {
    if IsImageCell(row[i]) then row[i := Str(svc(appType, "product", Join(Others(row, row[i].s), " ")))]
    else row
  }

  /** The row after the cell loop has visited its first `n` cells. */
  function CellsUpTo(row: seq<Value>, n: nat, appType: string, svc: Service): (r: seq<Value>)
    requires n <= |row|
    ensures |r| == |row|
  {
    if n == 0 then row else CellStep(CellsUpTo(row, n - 1, appType, svc), n - 1, appType, svc)
  }

  /** Only image cells change, each to a URL from the service asked for a
      product image; every other cell keeps its value. */
  lemma {:induction false} CellsUpToChangesImageCells(row: seq<Value>, n: nat, appType: string, svc: Service)
    requires n <= |row|
    ensures forall j :: 0 <= j < |row| && (j >= n || !IsImageCell(row[j])) ==>
      CellsUpTo(row, n, appType, svc)[j] == row[j]
    ensures forall j :: 0 <= j < n && IsImageCell(row[j]) ==>
      exists context :: CellsUpTo(row, n, appType, svc)[j] == Str(svc(appType, "product", context))
  {
    if n > 0 {
      CellsUpToChangesImageCells(row, n - 1, appType, svc);
      var before := CellsUpTo(row, n - 1, appType, svc);
      assert before[n - 1] == row[n - 1];
      var after := CellsUpTo(row, n, appType, svc);
      assert after == CellStep(before, n - 1, appType, svc);
      forall j | 0 <= j < n && IsImageCell(row[j])
        ensures exists context :: after[j] == Str(svc(appType, "product", context))
      {
        if j == n - 1 {
          var context := Join(Others(before, before[n - 1].s), " ");
          assert after[j] == Str(svc(appType, "product", context));
        } else {
          var context :| before[j] == Str(svc(appType, "product", context));
          assert after[j] == before[j];
        }
      }
    }
  }

  /** The cell loop `for i, cell in enumerate(row)`, writing `row[i]`. */
  method ProcessCells(row: seq<Value>, appType: string, svc: Service) returns (out: seq<Value>)
    ensures out == CellsUpTo(row, |row|, appType, svc)
  {
    out := row;
    var i := 0;
    while i < |row|
      invariant 0 <= i <= |row|
      invariant out == CellsUpTo(row, i, appType, svc)
    {
      var cell := out[i];
      if cell.Str? && (Contains(cell.s, "placeholder") || Contains(cell.s, "http")) {
        var context := Join(Others(out, cell.s), " ");
        out := out[i := Str(svc(appType, "product", context))];
      }
      i := i + 1;
    }
  }

  /** One row of an image table.  A string row yields one-character strings,
      never image cells.  An object row yields its keys; a key that is an
      image cell makes the source insert an integer key and then raise
      `RuntimeError` as the dict changed size, and here the row is left as
      it was.  Other rows are not iterable. */
  function RowPass(row: Value, appType: string, svc: Service): Pass<Value> {
    match row
    case Arr(cells) => Pass(Arr(CellsUpTo(cells, |cells|, appType, svc)), true)
    case Str(_) => Pass(row, true)
    case Obj(fs) => Pass(row, forall k :: k in OrderedDict.Keys(fs) ==> !IsImageCell(Str(k)))
    case _ => Pass(row, false)
  }

  function RowStep(appType: string, svc: Service): Value -> Pass<Value> {
    row => RowPass(row, appType, svc)
  }

  /** A table widget: when the repr of its columns mentions `image`, its
      rows are visited; iterating a string or an object of rows yields
      strings, which hold no image cell. */
  function TablePass(fs: Fields, appType: string, svc: Service): Pass<Value> {
    var props := Get(fs, "properties", Obj([]));
    if !props.Obj? then Pass(Obj(fs), false)
    else
      var columns := Lower(PyStr(Get(props.fields, "columns", Arr([]))));
      if !(Contains(columns, "image") || Contains(columns, "imagen")) then Pass(Obj(fs), true)
      else
        match Get(props.fields, "rows", Arr([]))
        case Arr(rows) =>
          var p := PassAll(rows, RowStep(appType, svc));
          Pass(Obj(WriteBack(fs, "properties", Obj(WriteBack(props.fields, "rows", Arr(p.value))))), p.ok)
        case Str(_) => Pass(Obj(fs), true)
        case Obj(_) => Pass(Obj(fs), true)
        case _ => Pass(Obj(fs), false)
  }

  /** An image widget: the context is `alt`, else the widget's `name`, else
      `imagen`; the service's URL becomes `properties.src`.  Writing it
      raises `KeyError` when the widget has no `properties`. */
  function ImagePass(fs: Fields, appType: string, svc: Service): Pass<Value> {
    var props := Get(fs, "properties", Obj([]));
    if !props.Obj? then Pass(Obj(fs), false)
    else
      var context := Get(props.fields, "alt", Get(fs, "name", Str("imagen")));
      if !context.Str? || !HasKey(fs, "properties") then Pass(Obj(fs), false)
      else
        var url := svc(appType, ImageKind(context.s), context.s);
        Pass(Obj(OrderedDict.Put(fs, "properties", Obj(OrderedDict.Put(props.fields, "src", Str(url))))), true)
  }

  function WidgetPass(w: Value, appType: string, svc: Service): Pass<Value> {
    match w
    case Obj(fs) =>
      var kind := Get(fs, "type", Null);
      if kind == Str("image") then ImagePass(fs, appType, svc)
      else if kind == Str("table") then TablePass(fs, appType, svc)
      else Pass(w, true)
    case _ => Pass(w, false)
  }

  function WidgetStep(appType: string, svc: Service): Value -> Pass<Value> {
    w => WidgetPass(w, appType, svc)
  }

  /** A page: its widgets are visited; a string or object of widgets yields
      strings, whose `.get` raises unless there are none. */
  function PagePass(page: Value, appType: string, svc: Service): Pass<Value> {
    match page
    case Obj(fs) =>
      (match Get(fs, "widgets", Arr([]))
       case Arr(ws) =>
         var p := PassAll(ws, WidgetStep(appType, svc));
         Pass(Obj(WriteBack(fs, "widgets", Arr(p.value))), p.ok)
       case Str(s) => Pass(page, s == [])
       case Obj(wfs) => Pass(page, wfs == [])
       case _ => Pass(page, false))
    case _ => Pass(page, false)
  }

  function PageStep(appType: string, svc: Service): Value -> Pass<Value> {
    page => PagePass(page, appType, svc)
  }

  /** `process_images_in_project`: the project with every update made
      before the first exception, if any.  The app type comes from the
      lower-cased name and description; a project that is not an object,
      or whose name or description is not a string, is returned as it was,
      and so is one whose `pages` is not a list (iterating a string or an
      object of pages yields strings, whose `.get` raises at once). */
  function ImagesProcessed(project: Value, appType: string, svc: Service): Value {
    match project
    case Obj(fs) =>
      var name := Get(fs, "name", Str(""));
      var description := Get(fs, "description", Str(""));
      if !name.Str? || !description.Str? then project
      else
        var kind := ClassifyApp(Lower(name.s) + Lower(description.s), appType);
        (match Get(fs, "pages", Arr([]))
         case Arr(pages) => Obj(WriteBack(fs, "pages", Arr(PassAll(pages, PageStep(kind, svc)).value)))
         case _ => project)
    case _ => project
  }

  /** A generic loop method over a list, updating in place until the first
      exception. */
  method ProcessRows(rows: seq<Value>, appType: string, svc: Service) returns (out: seq<Value>, ok: bool)
    ensures Pass(out, ok) == PassAll(rows, RowStep(appType, svc))
  {
    var f := RowStep(appType, svc);
    out := [];
    ok := true;
    var i := 0;
    assert rows[0..] == rows;
    assert [] + PassAll(rows, f).value == PassAll(rows, f).value;
    while i < |rows| && ok
      invariant 0 <= i <= |rows|
      invariant ok ==> PassAll(rows, f) == Pass(out + PassAll(rows[i..], f).value, PassAll(rows[i..], f).ok)
      invariant !ok ==> PassAll(rows, f) == Pass(out, false)
    {
      var row := rows[i];
      var updated := row;
      var rowOk := true;
      match row {
        case Arr(cells) =>
          var cells' := ProcessCells(cells, appType, svc);
          updated := Arr(cells');
        case Str(_) =>
        case Obj(fs) =>
          rowOk := forall k :: k in OrderedDict.Keys(fs) ==> !IsImageCell(Str(k));
        case _ =>
          rowOk := false;
      }
      assert Pass(updated, rowOk) == f(row);
      PassAllAdvance(rows, i, f, out, Pass(updated, rowOk));
      if rowOk {
        out := out + [updated];
      } else {
        out := out + [updated] + rows[i + 1..];
        ok := false;
      }
      i := i + 1;
    }
    if ok {
      assert rows[i..] == [];
      assert out + [] == out;
    }
  }

  method ProcessTable(fs: Fields, appType: string, svc: Service) returns (r: Pass<Value>)
    ensures r == TablePass(fs, appType, svc)
  {
    var props := Get(fs, "properties", Obj([]));
    if !props.Obj? {
      return Pass(Obj(fs), false);
    }
    var columns := Lower(PyStr(Get(props.fields, "columns", Arr([]))));
    if !(Contains(columns, "image") || Contains(columns, "imagen")) {
      return Pass(Obj(fs), true);
    }
    var rows := Get(props.fields, "rows", Arr([]));
    match rows {
      case Arr(items) =>
        var out, ok := ProcessRows(items, appType, svc);
        r := Pass(Obj(WriteBack(fs, "properties", Obj(WriteBack(props.fields, "rows", Arr(out))))), ok);
      case Str(_) =>
        r := Pass(Obj(fs), true);
      case Obj(_) =>
        r := Pass(Obj(fs), true);
      case _ =>
        r := Pass(Obj(fs), false);
    }
  }

  method ProcessWidget(w: Value, appType: string, svc: Service) returns (r: Pass<Value>)
    ensures r == WidgetPass(w, appType, svc)
  {
    if !w.Obj? {
      return Pass(w, false);
    }
    var kind := Get(w.fields, "type", Null);
    if kind == Str("image") {
      r := ImagePass(w.fields, appType, svc);
    } else if kind == Str("table") {
      r := ProcessTable(w.fields, appType, svc);
    } else {
      r := Pass(w, true);
    }
  }

  /** The widget loop of one page. */
  method ProcessWidgets(ws: seq<Value>, appType: string, svc: Service) returns (out: seq<Value>, ok: bool)
    ensures Pass(out, ok) == PassAll(ws, WidgetStep(appType, svc))
  {
    var f := WidgetStep(appType, svc);
    out := [];
    ok := true;
    var i := 0;
    assert ws[0..] == ws;
    assert [] + PassAll(ws, f).value == PassAll(ws, f).value;
    while i < |ws| && ok
      invariant 0 <= i <= |ws|
      invariant ok ==> PassAll(ws, f) == Pass(out + PassAll(ws[i..], f).value, PassAll(ws[i..], f).ok)
      invariant !ok ==> PassAll(ws, f) == Pass(out, false)
    {
      var p := ProcessWidget(ws[i], appType, svc);
      assert p == f(ws[i]);
      PassAllAdvance(ws, i, f, out, p);
      if p.ok {
        out := out + [p.value];
      } else {
        out := out + [p.value] + ws[i + 1..];
        ok := false;
      }
      i := i + 1;
    }
    if ok {
      assert ws[i..] == [];
      assert out + [] == out;
    }
  }

  method ProcessPage(page: Value, appType: string, svc: Service) returns (r: Pass<Value>)
    ensures r == PagePass(page, appType, svc)
  {
    if !page.Obj? {
      return Pass(page, false);
    }
    var fs := page.fields;
    match Get(fs, "widgets", Arr([])) {
      case Arr(ws) =>
        var out, ok := ProcessWidgets(ws, appType, svc);
        r := Pass(Obj(WriteBack(fs, "widgets", Arr(out))), ok);
      case Str(s) =>
        r := Pass(page, s == []);
      case Obj(wfs) =>
        r := Pass(page, wfs == []);
      case _ =>
        r := Pass(page, false);
    }
  }

  /** `process_images_in_project`: the page loop. */
  method ProcessImagesInProject(project: Value, appType: string, svc: Service) returns (r: Value)
    ensures r == ImagesProcessed(project, appType, svc)
  {
    if !project.Obj? {
      return project;
    }
    var fs := project.fields;
    var name := Get(fs, "name", Str(""));
    var description := Get(fs, "description", Str(""));
    if !name.Str? || !description.Str? {
      return project;
    }
    var kind := ClassifyApp(Lower(name.s) + Lower(description.s), appType);
    var pagesValue := Get(fs, "pages", Arr([]));
    if !pagesValue.Arr? {
      return project;
    }
    var pages := pagesValue.items;
    var f := PageStep(kind, svc);
    var out: seq<Value> := [];
    var ok := true;
    var i := 0;
    assert pages[0..] == pages;
    assert [] + PassAll(pages, f).value == PassAll(pages, f).value;
    while i < |pages| && ok
      invariant 0 <= i <= |pages|
      invariant ok ==> PassAll(pages, f) == Pass(out + PassAll(pages[i..], f).value, PassAll(pages[i..], f).ok)
      invariant !ok ==> PassAll(pages, f) == Pass(out, false)
    {
      var p := ProcessPage(pages[i], kind, svc);
      assert p == f(pages[i]);
      PassAllAdvance(pages, i, f, out, p);
      if p.ok {
        out := out + [p.value];
      } else {
        out := out + [p.value] + pages[i + 1..];
        ok := false;
      }
      i := i + 1;
    }
    if ok {
      assert pages[i..] == [];
      assert out + [] == out;
    }
    r := Obj(WriteBack(fs, "pages", Arr(out)));
  }

  // ---------------------------------------------------------------------
  // What the replacement changes

  /** An image widget with a properties object and a string context gets
      the service's URL as `src`, asked with the image kind of the context;
      every other property and every other field of the widget is kept. */
  lemma ImageGetsServiceUrl(fs: Fields, appType: string, svc: Service)
    requires Get(fs, "type", Null) == Str("image")
    requires HasKey(fs, "properties") && Get(fs, "properties", Null).Obj?
    requires Get(Get(fs, "properties", Null).fields, "alt", Get(fs, "name", Str("imagen"))).Str?
    ensures
      var props := Get(fs, "properties", Null).fields;
      var context := Get(props, "alt", Get(fs, "name", Str("imagen"))).s;
      var r := WidgetPass(Obj(fs), appType, svc);
      && r.ok && r.value.Obj?
      && Get(r.value.fields, "properties", Null).Obj?
      && OrderedDict.Lookup(Get(r.value.fields, "properties", Null).fields, "src")
         == Some(Str(svc(appType, ImageKind(context), context)))
      && (forall k :: k != "src" ==>
            OrderedDict.Lookup(Get(r.value.fields, "properties", Null).fields, k) == OrderedDict.Lookup(props, k))
      && (forall k :: k != "properties" ==> OrderedDict.Lookup(r.value.fields, k) == OrderedDict.Lookup(fs, k))
  {
    var props := Get(fs, "properties", Null).fields;
    assert Get(fs, "properties", Obj([])) == Obj(props);
    var context := Get(props, "alt", Get(fs, "name", Str("imagen"))).s;
    var url := svc(appType, ImageKind(context), context);
    var props' := OrderedDict.Put(props, "src", Str(url));
    var fs' := OrderedDict.Put(fs, "properties", Obj(props'));
    assert WidgetPass(Obj(fs), appType, svc) == Pass(Obj(fs'), true);
    OrderedDict.PutLookup(fs, "properties", Obj(props'), "properties");
    forall k
      ensures OrderedDict.Lookup(props', k) == if k == "src" then Some(Str(url)) else OrderedDict.Lookup(props, k)
    {
      OrderedDict.PutLookup(props, "src", Str(url), k);
    }
    forall k
      ensures OrderedDict.Lookup(fs', k) == if k == "properties" then Some(Obj(props')) else OrderedDict.Lookup(fs, k)
    {
      OrderedDict.PutLookup(fs, "properties", Obj(props'), k);
    }
  }

  /** An image widget without `properties` still asks the service (for the
      name's context) but then raises `KeyError` and stays as it was. */
  lemma ImageWithoutPropertiesRaises(fs: Fields, appType: string, svc: Service)
    requires Get(fs, "type", Null) == Str("image") && !HasKey(fs, "properties")
    ensures WidgetPass(Obj(fs), appType, svc) == Pass(Obj(fs), false)
  {
  }

  /** Widgets other than images and tables are left alone. */
  lemma OtherWidgetsUntouched(w: Value, appType: string, svc: Service)
    requires w.Obj? && Get(w.fields, "type", Null) != Str("image") && Get(w.fields, "type", Null) != Str("table")
    ensures WidgetPass(w, appType, svc) == Pass(w, true)
  {
  }

  /** A table whose columns never mention `image` is left alone. */
  lemma TableWithoutImageColumnUntouched(fs: Fields, appType: string, svc: Service)
    requires Get(fs, "type", Null) == Str("table") && Get(fs, "properties", Obj([])).Obj?
    requires !Contains(Lower(PyStr(Get(Get(fs, "properties", Obj([])).fields, "columns", Arr([])))), "image")
    ensures WidgetPass(Obj(fs), appType, svc) == Pass(Obj(fs), true)
  {
    ImagenIsRedundant(Lower(PyStr(Get(Get(fs, "properties", Obj([])).fields, "columns", Arr([])))));
  }

  /** The project keeps its keys in order and every field but `pages`. */
  lemma ProcessingKeepsOtherFields(project: Value, appType: string, svc: Service)
    ensures var r := ImagesProcessed(project, appType, svc);
      && r.Obj? == project.Obj?
      && (project.Obj? ==> OrderedDict.Keys(r.fields) == OrderedDict.Keys(project.fields))
      && (project.Obj? ==> forall k :: k != "pages" ==> OrderedDict.Lookup(r.fields, k) == OrderedDict.Lookup(project.fields, k))
  {
    var r := ImagesProcessed(project, appType, svc);
    if project.Obj? && r != project {
      var fs := project.fields;
      var name := Get(fs, "name", Str(""));
      var description := Get(fs, "description", Str(""));
      var kind := ClassifyApp(Lower(name.s) + Lower(description.s), appType);
      var pages := Get(fs, "pages", Arr([])).items;
      var v := Arr(PassAll(pages, PageStep(kind, svc)).value);
      assert HasKey(fs, "pages");
      assert r.fields == OrderedDict.Put(fs, "pages", v);
      OrderedDict.PutKeys(fs, "pages", v);
      assert "pages" in OrderedDict.Keys(fs) by {
        LookupHasKey(fs, "pages");
      }
      forall k | k != "pages"
        ensures OrderedDict.Lookup(r.fields, k) == OrderedDict.Lookup(fs, k)
      {
        OrderedDict.PutLookup(fs, "pages", v, k);
      }
    }
  }

  lemma {:induction false} LookupHasKey(fs: Fields, k: string)
    requires HasKey(fs, k)
    ensures k in OrderedDict.Keys(fs)
  {
    assert OrderedDict.Keys(fs)[0] == fs[0].0;
    if fs[0].0 != k {
      LookupHasKey(fs[1..], k);
      assert OrderedDict.Keys(fs)[1..] == OrderedDict.Keys(fs[1..]);
    }
  }

  /** The pages of a processed project are the original ones, each updated
      in turn until the first page whose processing raised; pages after it
      are untouched. */
  lemma PagesProcessedInOrder(fs: Fields, appType: string, svc: Service)
    requires Get(fs, "name", Str("")).Str? && Get(fs, "description", Str("")).Str?
    requires HasKey(fs, "pages") && Get(fs, "pages", Null).Arr?
    ensures
      var kind := ClassifyApp(Lower(Get(fs, "name", Str("")).s) + Lower(Get(fs, "description", Str("")).s), appType);
      var pages := Get(fs, "pages", Null).items;
      var r := ImagesProcessed(Obj(fs), appType, svc);
      && Get(r.fields, "pages", Null) == Arr(PassAll(pages, PageStep(kind, svc)).value)
      && exists n :: StopsAt(pages, PageStep(kind, svc), PassAll(pages, PageStep(kind, svc)), n)
  {
    var kind := ClassifyApp(Lower(Get(fs, "name", Str("")).s) + Lower(Get(fs, "description", Str("")).s), appType);
    var pages := Get(fs, "pages", Null).items;
    assert Get(fs, "pages", Arr([])) == Arr(pages);
    var v := Arr(PassAll(pages, PageStep(kind, svc)).value);
    OrderedDict.PutLookup(fs, "pages", v, "pages");
    PassAllStopsAtFirstFailure(pages, PageStep(kind, svc));
  }
}
