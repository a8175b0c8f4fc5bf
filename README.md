# Flutter builder backend — a Dafny model

This project models the core of a web backend. The backend turns a JSON description of a mobile app into Flutter source code. It can ask a chat model to write that description from a prompt, a screenshot or an audio note. It can replace placeholder images with generated pictures stored in S3. It stores users' projects and lets collaborators join a project over a WebSocket. The model covers:

- the conversion of editor coordinates into responsive Dart expressions, and the lookup tables for icons, font weights, alignments and image fits (`Converters`);
- the per-widget code generator: wrapping, dispatch on the widget type, checklists and bottom navigation bars (`WidgetGen`);
- the project generator: the `pubspec.yaml` image flag, the routes and imports of `main.dart`, and each page's split into regular widgets, app bar and navigation bar (`ProjectGen`);
- the handling of chat-model answers (`AiGenerator`):
  - removing Markdown fences;
  - the project structure check;
  - the app and image classification;
  - the in-place pass that swaps image URLs;
- the image service: configuration, prompt shortening, the placeholder fallback, object keys and the prompt table (`ImageService`);
- the project endpoints: create, list, read, update, delete, with owner and grant checks (`ProjectAccess`);
- the realtime collaboration endpoint: the sub-protocol handshake, the access-grant upsert, and the room registry with its relay (`Collaboration`, whose `CollaborationHub` class holds the registry);
- the generation endpoints: the audio upload check, how handler errors become HTTP answers, the project generation behind the app downloads, and the names of downloaded archives (`Endpoints`).

Supporting modules:

- `Wrappers` holds `Option` and `Result`, plus the Python exception kinds.
- `PyText` holds the Python `str` operations the code uses.
- `Json` holds JSON values as `json.loads` builds them, with Python's `in`, iteration, `get` and `str()`.
- `OrderedDict` holds Python's insertion-ordered `dict`.

Templates are rendered as abstract terms: a template name plus its arguments. The remote services (the chat model, the image generator, HTTP downloads, S3) appear as parameters: functions or outcomes supplied by the caller. The same goes for the token decoder, the random UUID and the user directory.

## Model

| member | source | states |
|---|---|---|
| Converters.HexColorShape | utils/converters.py:3-7 | the result is `Color(0xFF` + the input without one leading `#`, upper-cased, + `)`; no lower-case letter is left among the digits |
| Converters.HexColorIgnoresOneHash | utils/converters.py:5-6 | one leading `#` makes no difference to the colour |
| Converters.HexColorKeepsSecondHash | utils/converters.py:5-7 | only one `#` is removed; a second reaches the output |
| Converters.OffsetsAreIndependent | utils/converters.py:13-25 | `left`/`top` are `0.0` exactly when x/y is missing, and each depends only on its own coordinate |
| Converters.OffsetRoundTrip | utils/converters.py:17 | a present offset times a positive screen size gives back the pixel offset |
| Converters.ExtentRoundTrip | utils/converters.py:36-47 | a pixel size divided by a positive screen size is recovered by multiplying back |
| Converters.NonPositiveScreenFallbacks | utils/converters.py:17-47 | with a screen size that is not positive, offsets become 0, widths 0.2 and heights 0.1 |
| Converters.FullOnlyForHundredPercent | utils/converters.py:28-33 | the bare full-screen expression is produced exactly for the text `100%` |
| Converters.ValidatedSizesAreScaled | models/project.py:12-18 | sizes that passed model validation are numbers, so every size is a scaled ratio |
| Converters.TableIsFullWidth | utils/converters.py:111-137 | tables start at 0 and span the width; their top equals the generic one; the pixel-height fallback is 0.3 |
| Converters.IconMappingShape | utils/converters.py:57-79 | every icon key is lower case; `user` and `heart` map to `Icons.person` and `Icons.favorite` |
| WidgetGen.BuildChecklistEntries | generators/widget_generator.py:253-259 | the append loop over `enumerate(items)` computes the checklist rows specified by `ChecklistEntries` |
| WidgetGen.BuildNavEntries | generators/widget_generator.py:288-294 | the `zip(items, icons)` loop computes the rows specified by `NavEntries` for the shorter length |
| WidgetGen.WrapRule | generators/widget_generator.py:21-38 | app bars and navigation bars come back bare; every other widget is wrapped at the generic `left`/`top` around exactly its content |
| WidgetGen.DispatchIsTotal | generators/widget_generator.py:40-85 | any type outside the 18 handled names gets the grey placeholder labelled with the type, and a handled name never does |
| WidgetGen.TableIsFullWidth | generators/widget_generator.py:69-73 | a table's content is sized by the table conversion, whatever its x and width |
| WidgetGen.OtherWidgetsUseLayout | generators/widget_generator.py:40-85 | every widget that passes its layout (button, textfield, image, container, checkbox, switch, slider, dropdown, divider, progress, radio, checklist) takes width and height from the generic conversion |
| WidgetGen.ChecklistFailsWhole | generators/widget_generator.py:254-255 | one failing membership test fails the whole checklist |
| WidgetGen.ChecklistRows | generators/widget_generator.py:245-269 | one row per item in order, row `i` checked exactly when `i in checkedItems`; the only failure is a `checkedItems` that cannot answer `in` |
| WidgetGen.ChecklistIgnoresOutOfRange | generators/widget_generator.py:254-255 | adding an index outside the item range to `checkedItems` changes no row |
| WidgetGen.ChecklistColorsFirst | generators/widget_generator.py:247-254 | both colours are converted before the items are iterated: a colour that is not a string fails the checklist with `AttributeError` whatever the items |
| WidgetGen.ChecklistDefaults | generators/widget_generator.py:247-248 | without properties: three tasks, only the first checked |
| WidgetGen.NavFailsWhole | generators/widget_generator.py:289-290 | one icon that is not a string fails the whole navigation bar |
| WidgetGen.NavPairs | generators/widget_generator.py:282-302 | as many items as the shorter list, paired in order, each with its lower-cased icon's mapping or `Icons.home` |
| WidgetGen.BottomNavDefaults | generators/widget_generator.py:284-285 | the default lists give one `Home` item with the home icon |
| WidgetGen.LookupDefaults | generators/widget_generator.py:95-148 | unknown icons show a star, weights are normal, alignments left, fits cover |
| WidgetGen.NumericWeightFallsBack | generators/widget_generator.py:95 | a numeric weight is not a string key and falls back to normal |
| WidgetGen.BooleansPrintLowerCase | generators/widget_generator.py:157 | `str(b).lower()` prints Dart's `true`/`false` |
| WidgetGen.NonStringColorFails | generators/widget_generator.py:94-150 | a colour property that is not a string fails its widget with `AttributeError` |
| ProjectGen.DetectImages | generators/project_generator.py:58-67 | the flag loop with its two `break`s is true exactly when some page has an image widget |
| ProjectGen.CollectRoutes | generators/project_generator.py:92-98 | the page loop builds the import list and the route dict specified by `Imports` and `RouteEntries` |
| ProjectGen.Partition | generators/project_generator.py:125-140 | the partition loop gives the codes of the regular widgets in order, and the last app bar and navigation bar |
| ProjectGen.FirstIndex | generators/project_generator.py:160 | `list.index`: the first position holding the value |
| ProjectGen.SlugShape | generators/project_generator.py:70 | the slug keeps the length, has no space and no upper-case letter, and is idempotent |
| ProjectGen.PubspecDefaults | generators/project_generator.py:69-74 | a missing or empty description or version takes its default |
| ProjectGen.InitialRouteIsFirstPage | generators/project_generator.py:87-89 | the initial route is the first page's, and the route table leads it to that page's class; `/` without pages |
| ProjectGen.RouteTable | generators/project_generator.py:92-98 | one import per page in order; each route once, where its first page put it, mapped to that page's class |
| ProjectGen.LastRouteEntry | generators/project_generator.py:98 | a later page writing the same route writes the same class name |
| ProjectGen.PositionedCodeFailsWhole | generators/project_generator.py:135-140 | a widget that fails to render fails the page |
| ProjectGen.PositionedCodeIsPerWidget | generators/project_generator.py:129-140 | each regular widget gets exactly one code, in order |
| ProjectGen.PositionedFilters | generators/project_generator.py:129-134 | the regular widgets are exactly those that are not app bars or navigation bars, in order |
| ProjectGen.LastOfKindIsLast | generators/project_generator.py:130-133 | the slot widget is the last of its kind; none means there is none |
| ProjectGen.NavIndexIsFirstMatch | generators/project_generator.py:156-160 | the navigation index is 0 without a bar or a match, else the first position of the page's route |
| ProjectGen.NavRoutesOfPage | generators/project_generator.py:150-153 | without a navigation bar there are no routes; with one, every page's route in order |
| ProjectGen.PageDefaults | generators/project_generator.py:162-176 | file name `<slug>_page.dart`; a white background and a 390 x 844 screen when the page gives none, an empty colour or a zero size, which `or` treats alike |
| ProjectGen.EveryPageHasFile | generators/project_generator.py:111-118 | every page gets a file, and one failing page fails them all |
| AiGenerator.StripKeepsFencedText | services/ai_generator.py:147-153 | stripping keeps a text that starts and ends with a backtick unchanged |
| AiGenerator.TaggedFenceIsUnwrapped | services/ai_generator.py:147-151 | a body in the tagged fence comes out stripped and otherwise unchanged |
| AiGenerator.PlainFenceIsUnwrapped | services/ai_generator.py:152-153 | a body in a plain fence comes out stripped and otherwise unchanged |
| AiGenerator.UnfencedAnswerIsStripped | services/ai_generator.py:147-153 | an answer that does not open with a fence is only stripped |
| AiGenerator.ImageTaggedFenceIsUnwrapped | services/ai_generator.py:489-495 | a screenshot answer in the `json` fence yields the text between the fences |
| AiGenerator.ImagePlainFenceIsLost | services/ai_generator.py:489-495 | a screenshot answer in a plain fence is cut to the empty text, whatever its body |
| AiGenerator.ImagePlainFenceFixed | services/ai_generator.py:489-495 | the corrected clean-up unwraps a plain fence |
| AiGenerator.ImageFixAgreesOtherwise | services/ai_generator.py:489-495 | the correction changes nothing for answers not opening with a plain fence |
| AiGenerator.AllPresentMeaning | services/ai_generator.py:323-325 | the membership loop succeeds exactly when every field is in the value, and raises when it is not a container |
| AiGenerator.PagesPresentMeaning | services/ai_generator.py:330-334 | over container pages, the page loop succeeds exactly when every page has every page field |
| AiGenerator.ValidStructureOfObject | services/ai_generator.py:317-336 | on an object with container pages, the check answers exactly whether it is well formed, and never raises |
| AiGenerator.ScalarPageRaises | services/ai_generator.py:330-333 | a page that is a number, boolean or null makes the check raise `TypeError` |
| AiGenerator.TextPagePasses | services/ai_generator.py:330-334 | a string page passes when the four field names occur in it as text |
| AiGenerator.OtherFieldsAreIgnored | services/ai_generator.py:321-327 | setting a field other than `pages`, new or existing, keeps the verdict |
| AiGenerator.WidgetsAreIgnored | services/ai_generator.py:330-334 | replacing a page's widgets keeps the verdict |
| AiGenerator.PagesPresentOneChanged | services/ai_generator.py:330-334 | replacing one page by another with the same verdict keeps the page loop's verdict |
| AiGenerator.ValidateProjectStructure | services/ai_generator.py:317-336 | the loops with early exits compute `ValidStructure` |
| AiGenerator.ClassifiedByFirstMention | services/ai_generator.py:257-269 | the first kind in table order whose keyword occurs in name + description wins |
| AiGenerator.UnclassifiedKeepsFallback | services/ai_generator.py:257-269 | with no keyword the caller's app type is kept |
| AiGenerator.ImageKind | services/ai_generator.py:279-286 | the image kind is one of product, logo, banner, image |
| AiGenerator.LowerIsIdempotent | services/ai_generator.py:279 | lower-casing twice changes nothing |
| AiGenerator.ImageKindIgnoresCase | services/ai_generator.py:279-286 | the context's letter case does not matter; product exactly when `product` or `item` occurs; `producto` adds nothing |
| AiGenerator.ImagenIsRedundant | services/ai_generator.py:298 | the `imagen` test on the columns adds nothing to the `image` test |
| AiGenerator.PassAll | services/ai_generator.py:272-315 | an in-place loop that stops at an exception keeps the list's length |
| AiGenerator.PassAllStopsAtFirstFailure | services/ai_generator.py:272-315 | elements before the first failure are updated, the failing one keeps its partial update, the rest are untouched |
| AiGenerator.PassAllAdvance | services/ai_generator.py:272-315 | one loop turn appends its update, and the untouched rest if it raised |
| AiGenerator.CellsUpTo | services/ai_generator.py:302-309 | the row keeps its length as the cell loop visits it |
| AiGenerator.CellsUpToChangesImageCells | services/ai_generator.py:302-309 | only placeholder or `http` string cells change, each to the service's product URL for the other cells' text |
| AiGenerator.ProcessCells | services/ai_generator.py:302-309 | the cell loop computes `CellsUpTo` over the whole row |
| AiGenerator.ProcessRows | services/ai_generator.py:300-309 | the row loop computes `PassAll` with the row step |
| AiGenerator.ProcessTable | services/ai_generator.py:295-309 | a table is processed as `TablePass` says |
| AiGenerator.ProcessWidget | services/ai_generator.py:274-309 | a widget is processed as `WidgetPass` says |
| AiGenerator.ProcessWidgets | services/ai_generator.py:273-309 | the widget loop computes `PassAll` with the widget step |
| AiGenerator.ProcessPage | services/ai_generator.py:272-309 | a page is processed as `PagePass` says |
| AiGenerator.ProcessImagesInProject | services/ai_generator.py:250-315 | the whole pass computes `ImagesProcessed` |
| AiGenerator.ImageGetsServiceUrl | services/ai_generator.py:274-293 | an image widget gets the service's URL as `src`, asked with the context's kind; everything else is kept |
| AiGenerator.ImageWithoutPropertiesRaises | services/ai_generator.py:276-293 | without `properties` the write raises `KeyError` and the widget is unchanged |
| AiGenerator.OtherWidgetsUntouched | services/ai_generator.py:274-295 | widgets other than images and tables are left alone |
| AiGenerator.TableWithoutImageColumnUntouched | services/ai_generator.py:297-298 | a table whose columns never mention `image` is left alone |
| AiGenerator.ProcessingKeepsOtherFields | services/ai_generator.py:250-315 | the project keeps its keys in order and every field but `pages` |
| AiGenerator.LookupHasKey | services/ai_generator.py:272 | a present key is found by lookup |
| AiGenerator.PagesProcessedInOrder | services/ai_generator.py:272-315 | pages are updated in order up to the first that raised; later pages are untouched |
| ImageService.Configure | services/image_service.py:13-34 | `ValueError` unless the OpenAI key and both AWS keys are set and non-empty; region and bucket default to `sa-east-1` and `mycoachbucket` |
| ImageService.SimplifiedPromptShape | services/image_service.py:49-51 | the prompt sent is at most 40 characters long, has no comma, is a slice of the prompt, and is the whole stripped first part when short enough |
| ImageService.UploadOrPlaceholder | services/image_service.py:47-88 | the S3 URL is returned exactly when generation, a 200 download and the upload succeed; otherwise the placeholder |
| ImageService.OnlyShortPromptMatters | services/image_service.py:49-56 | prompts with the same shortened form give the same answer |
| ImageService.UrlNamesFixedRegion | services/image_service.py:81 | the URL names `sa-east-1` whatever region is configured |
| ImageService.ObjectKeyShape | services/image_service.py:70 | the key lies under `flutter_app_images/`, starts with the image type, ends in `.png`; for a `uuid4().hex` the middle is exactly its first 8 lower-case hex digits |
| ImageService.UnknownAppUsesDefault | services/image_service.py:133 | an unknown app type uses the default table |
| ImageService.DefaultTableFallsBackToImage | services/image_service.py:134 | in the default table an unknown widget type gets the `image` prompt |
| ImageService.OtherTablesFallBackToGeneric | services/image_service.py:134 | the other tables have no `image` entry, so an unknown widget type gets the generic prompt |
| ImageService.EcommercePrompts | services/image_service.py:104-134 | e-commerce has its own prompts for product and logo only |
| ImageService.ServiceUrlShape | services/image_service.py:90-136 | every URL is the placeholder or this bucket's object stored under `<app>_<widget>` |
| ProjectAccess.FindProject | services/user_service.py:73-75 | a found project is in the store with the id; none is found exactly when no row has the id |
| ProjectAccess.CreateProject | routers/projects.py:13-20 | the new project is owned by the caller and carries the given name and data; it is appended and grants are unchanged |
| ProjectAccess.CreatorMayRead | services/user_service.py:55-65 | with a fresh id, ids stay unique and the creator can read the new project |
| ProjectAccess.GetProjectRule | routers/projects.py:55-84 | 404 exactly when no row has the id; 403 exactly when it exists and the caller neither owns it nor holds a grant; a returned project is the row and the caller may access it |
| ProjectAccess.UpdateRule | routers/projects.py:87-120 | updates go through under the read rule; only the one row changes, keeping id and owner; an empty name and absent data keep the old values; refusals change nothing |
| ProjectAccess.ReplaceFirst | services/user_service.py:80-87 | the row update keeps the number of rows |
| ProjectAccess.ReplaceFirstEffect | services/user_service.py:80-87 | the update replaces exactly the found row |
| ProjectAccess.DeleteRemovesFoundRow | services/user_service.py:91-97 | with unique ids, deleting removes exactly the row `.first()` finds and keeps the others in order |
| ProjectAccess.DeleteRule | routers/projects.py:123-144 | only the owner deletes; a deleted project is gone with its grants; other rows and grants stay; refusals change nothing |
| ProjectAccess.Without | services/user_service.py:91-98 | deleting keeps exactly the rows with other ids |
| ProjectAccess.GrantHolderCannotDelete | routers/projects.py:138-142 | a grant holder who is not the owner can read and update but gets 403 on delete |
| ProjectAccess.Owned | services/user_service.py:68-70 | the owned list holds exactly the caller's rows |
| ProjectAccess.Shared | routers/projects.py:36-41 | the joined list holds exactly the rows the caller holds a grant for |
| ProjectAccess.PutProjects | routers/projects.py:46-50 | the dict loop computes `PutAll` of the id/project entries |
| ProjectAccess.ListProjects | routers/projects.py:23-52 | the endpoint computes `Listed` |
| ProjectAccess.MergedIds | routers/projects.py:44-52 | listed ids are the owned ids at first appearance, then the new shared ones; every listed project comes from one of the two lists |
| ProjectAccess.MergedCoversIds | routers/projects.py:44-52 | no id is listed twice, and every id of either list is listed |
| ProjectAccess.ListedOrder | routers/projects.py:23-52 | the order of the list: owned projects first, then shared ones not already listed |
| ProjectAccess.ListedIsAccessible | routers/projects.py:23-52 | with unique ids, the list holds each project the caller owns or holds a grant for, each once, and nothing else |
| ProjectAccess.HandshakeGrantsAccess | routers/collaboration.py:40-58 | after an accepted handshake by a user with a row, to a project with a row, the grant is stored; the user can then read and update the project, and can delete it only as its owner |
| Collaboration.ParseUuid | routers/collaboration.py:35 | a parsed UUID is in canonical form: 32 lower-case hex digits |
| Collaboration.HexIntRefuses | routers/collaboration.py:35 | `int(·, 16)` refuses text holding a character that is not white space, a sign, a prefix letter, an underscore or a hex digit |
| Collaboration.PrefixedHexAccepted | routers/collaboration.py:35 | `0x` followed by 30 hex digits is a UUID, padded with two leading zeros |
| Collaboration.UuidSubject | routers/collaboration.py:35 | `UUID(sub)` resolves exactly the strings `ParseUuid` accepts, to a canonical UUID, and raises `ValueError` otherwise |
| Collaboration.DirectorySubject | services/dependencies.py:24-31 | the directory resolves exactly the known e-mails |
| Collaboration.RecordGrant | routers/collaboration.py:38-55 | the pair is stored afterwards exactly when it was stored already or both its user and its project have a row (the foreign-key failure is swallowed); no other grant changes |
| Collaboration.GrantsStayConsistent | routers/collaboration.py:38-55 | the upsert keeps every stored grant pointing at existing rows |
| Collaboration.Handshake | routers/collaboration.py:23-58 | a refused connection is closed with 1008 and keeps the grants; an accepted one echoes the first offered entry and upserts the caller's grant |
| Collaboration.RejectsWithoutPrefix | routers/collaboration.py:23-28 | a first entry without `jwt.` is closed with 1008 and changes nothing |
| Collaboration.RejectsUnverifiedToken | routers/collaboration.py:30-34 | a token the verifier refuses is closed with 1008 before any grant |
| Collaboration.AcceptEchoesFirstEntry | routers/collaboration.py:23-58 | the echoed sub-protocol is `jwt.` plus the accepted token and holds no comma; the grant is stored afterwards exactly when it was already or both rows exist |
| Collaboration.MissingRowStoresNothing | routers/collaboration.py:38-58 | a connection to a project without a row, or by a user without one, is accepted and stores no grant |
| Collaboration.GrantIsIdempotent | routers/collaboration.py:40-51 | repeating the handshake records nothing new |
| Collaboration.EmailIsNoUuid | routers/collaboration.py:35 | no string containing `@` parses as a UUID |
| Collaboration.MissingSubjectRaises | routers/collaboration.py:35 | a verified token without a `sub` claim raises `KeyError` before acceptance and writes no grant |
| Collaboration.EmailSubjectRaises | routers/collaboration.py:35 | with an e-mail as subject the handshake raises before acceptance and writes no grant |
| Collaboration.DirectorySubjectAdmits | routers/collaboration.py:35 | resolving the e-mail through the directory admits the connection and upserts the grant of the e-mail's owner |
| Collaboration.JoinAppends | routers/collaboration.py:61 | join appends at the end, creating the list when absent; nobody is evicted and other rooms are untouched |
| Collaboration.RemoveFirstOfAppended | routers/collaboration.py:69 | removing a connection just appended restores the list |
| Collaboration.RemoveFirstDropsOne | routers/collaboration.py:69 | `remove` drops exactly one copy |
| Collaboration.JoinThenLeaveRestores | routers/collaboration.py:61-71 | join then disconnect leaves the registry as it was |
| Collaboration.NoEmptyRoomsPreserved | routers/collaboration.py:61-71 | join and leave keep every room non-empty |
| Collaboration.DeliveriesReachOthers | routers/collaboration.py:65-67 | a relay pass reaches every other member once per listing, never the sender |
| Collaboration.AloneSendsNothing | routers/collaboration.py:65-67 | a sender alone in its room sends nothing |
| Collaboration.RelayNeverEchoes | routers/collaboration.py:62-67 | over a whole session the sender never receives its own texts |
| Collaboration.DeliveriesTargets | routers/collaboration.py:65-67 | every delivery goes to a member other than the sender |
| Collaboration.CollaborationHub.constructor | routers/collaboration.py:11 | the registry starts empty |
| Collaboration.CollaborationHub.Admit | routers/collaboration.py:23-58 | the handshake updates only the grants, as `Handshake` says, and keeps them pointing at existing rows |
| Collaboration.CollaborationHub.Join | routers/collaboration.py:61 | the registry becomes `AfterJoin` and keeps no empty room |
| Collaboration.CollaborationHub.Broadcast | routers/collaboration.py:65-67 | one relay pass sends `Deliveries` |
| Collaboration.CollaborationHub.RelaySession | routers/collaboration.py:62-67 | the receive loop sends `Relay` over the texts received before the session ends |
| Collaboration.CollaborationHub.Disconnect | routers/collaboration.py:68-71 | `KeyError` when the room is gone, `ValueError` when the connection is not in it, otherwise `AfterLeave` |
| Collaboration.CollaborationHub.ProjectWs | routers/collaboration.py:20-71 | a whole connection: handshake with its grant upsert, join, relay, then its end; after a disconnect the registry ends as it began, after a non-text frame `KeyError` escapes and the connection stays in its room |
| Collaboration.StaleConnectionReceives | routers/collaboration.py:64-67 | a connection left in its room by a non-text frame still receives every later relay pass of another member |
| Endpoints.RewrapAlways500 | main.py:68-86 | a handler returns its body's value, or a 500 whose detail carries its prefix and the original exception, whatever that exception's status |
| Endpoints.AudioAcceptance | main.py:157-188 | an upload is accepted exactly when its content type is listed or its lower-cased file name ends in a listed extension; a missing file name raises |
| Endpoints.AudioCheckIgnoresCase | main.py:160 | the file name's letter case does not matter |
| Endpoints.AudioNameSuffices | main.py:160 | `Song.MP3` is accepted with any content type |
| Endpoints.TextFileRefused | main.py:159-160 | `notes.txt` with an unlisted type is refused |
| Endpoints.PromptHandlerRule | main.py:71-86 | the project is returned exactly when generation returned and the check passed; every failure is a 500 |
| Endpoints.ImageHandlerRule | main.py:101-120 | the same rule for the screenshot handler |
| Endpoints.RefusedAudioAnswers500 | main.py:157-180 | a refused upload is answered with 500 wrapping the 400 |
| Endpoints.FixedAudioAnswers400 | main.py:157-180 | with HTTP errors passed through, a refused upload gets 400, and the rest is unchanged |
| Endpoints.DownloadNameShape | main.py:63 | the archive name is the slugged project name + `_flutter_app.zip`, with no space or upper-case letter in it |
| Endpoints.ArchiveRule | generators/project_generator.py:15-40 | the archive is offered, under the download name, exactly when every file renders; a rendering error is raised as it is |
| Endpoints.FailingPageAnswers500 | main.py:52-69 | one page that fails to render makes `generate_flutter_app` answer 500 |
| Endpoints.AppFromImageRule | main.py:122-151 | the screenshot handler offers the archive exactly when generation, the check, the build and the rendering all succeed; every failure is a 500 |
| Endpoints.AppFromAudioGenerates | main.py:196-219 | for an accepted upload with a valid project the audio handler answers as generation and rendering allow: the archive, or a 500 wrapping the rendering error |
| Endpoints.AppFromAudioRefusal | main.py:186-219 | the full-app audio handler refuses the same uploads with the same 500 |
| Endpoints.FunctionalNameDefault | main.py:233-252 | a project without a name gives `flutter_app_ai_functional_flutter_app.zip` |
| Endpoints.FunctionalNameRule | main.py:233-252 | a present name works exactly when it is a string; the name then ends in `_ai_functional_flutter_app.zip` and holds no space |
| Endpoints.FunctionalAppFailures | main.py:224-258 | code generation failures come first; a non-string name fails after it; the archive is named only when both succeed |

## Left out

- I/O and remote services:
  - calls to the chat model, image generator, HTTP downloads and S3 are parameters;
  - file-system work (template copying, temporary directories, zip files, clean-up) is not modelled;
  - logging is not modelled.
- Jinja templates: their contents are not modelled. A rendered file is the template's name plus its arguments.
- Floating point:
  - ratios are exact reals;
  - `%.6f` formatting and `float()` parsing of text are not modelled.
- Case mapping covers ASCII letters only. `repr` escaping of strings is not modelled.
- Concurrency:
  - the relay's interleaving with other connections is not modelled;
  - failed sends to peers are not modelled;
  - two connections inserting the same grant at once are not modelled; the model runs handshakes one at a time.
- The per-call randomness of `uuid4` is fixed per `Remote` value.
- Python's in-place mutation is modelled on values. `json.loads` builds fresh, unshared objects, so no aliasing is lost.
- AiGenerator.RowPass: for an object row, the source writes an integer key into the dict it is iterating, then raises `RuntimeError`. The model leaves the row unchanged and stops.
- The prompt-, image- and audio-to-project generators are outcomes given to the handlers. Only their answer clean-up is modelled.
- The SQL query order of the owned and shared project lists is taken as the store's order.
- ProjectAccess.DeleteRule: assumes the database applies the `ON DELETE CASCADE` of the access table (models/user_project_access.py:9-10).
- Converters.IconMappingShape: does not state the 19-entry count of the icon table.
- User registration, login and password hashing (routers/auth.py, services/auth_service.py) are not part of this model. Only the fact that tokens carry the e-mail as subject is used.
- UuidSubject: non-ASCII decimal digits, which `int` maps to ASCII ones before reading, are refused by the model; every ASCII form `int(·, 16)` reads is modelled.
- Endpoints.RewrapAlways500: the text of `str()` for a Python exception is not modelled, only which exception was wrapped.

## Findings

| source | as written | input that shows it | evidently intended | confidence | as-written member | corrected member |
|---|---|---|---|---|---|---|
| routers/collaboration.py:35 | `UUID(payload["sub"])`, but the login endpoint issues tokens whose subject is the e-mail (routers/auth.py:51-53) | any token from `/login`, whose subject contains `@` | resolve the e-mail through the user directory, as services/dependencies.py:24-31 does | not executed | Collaboration.EmailSubjectRaises | Collaboration.DirectorySubjectAdmits |
| main.py:157-180 | the 400 for an unsupported upload is raised inside `try` and caught by `except Exception` | content type `audio/x-wav`, file name `notes.txt` | the client gets 400 | not executed | Endpoints.RefusedAudioAnswers500 | Endpoints.FixedAudioAnswers400 |
| services/ai_generator.py:492-495 | an answer in a plain fence is cut at its first fence | the answer ```` ```\n{}\n``` ```` is cleaned to the empty text, which `json.loads` rejects | unwrap a plain fence as the other two clean-ups do | not executed | AiGenerator.ImagePlainFenceIsLost | AiGenerator.ImagePlainFenceFixed |
