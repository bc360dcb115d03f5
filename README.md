# K-Beauty MCP gateway, modelled in Dafny

This project models the remote MCP (Model Context Protocol) gateway of the
K-Beauty assistant. The gateway is an HTTP front end (`http_server.py`) that
speaks JSON-RPC 2.0 over POST and server-sent events over GET. It delegates
tool discovery and tool calls to the tool server (`server.py`), which lists
nine skincare tools and answers each call with one text block.

The modules, in dependency order:

| file | module | what it models |
|---|---|---|
| json.dfy | `Json` | JSON values as decoded by Python (`dict`, `list`, `str`, `int`, `bool`, `None`) and `dict.get` |
| python.dfy | `Py` | the Python built-ins the handlers rely on: truthiness, `str()`, `', '.join`, ASCII `lower`/`title`, substring `in`, the exceptions they raise, `str()` of an `HTTPException` |
| schema.dfy | `Schema` | the `Tool` descriptor and the JSON-Schema fragments of `list_tools` |
| registry.dfy | `Registry` | `list_tools`: nine descriptors, their names and argument schemas |
| templates.dfy | `Templates` | the reply texts as sequences of template pieces; `result += ...` as rendering |
| concern_matcher.dfy | `ConcernMatcher` | the nested first-match loop of `skin_concern_matcher` |
| handlers.dfy | `Handlers` | the nine branches of `call_tool`, with `recommend_routine` and `skin_concern_matcher` also as step-by-step methods |
| tool_calls.dfy | `ToolCalls` | `call_tool`'s dispatch on the tool name, the fallback, the argument defaults |
| argument_reads.dfy | `ArgumentReads` | which argument keys each branch of `call_tool` reads, stated by what changing them does to the reply |
| registration.dfy | `Registration` | agreement between `list_tools` and `call_tool` |
| protocol.dfy | `Protocol` | the `initialize` block (protocol revision 2024-11-05, server `k-beauty-complete` 3.0.0) |
| json_rpc.dfy | `JsonRpc` | `MCPRequest`/`MCPResponse`, `handle_mcp_request`, the two list conversions, the POST reply and its error mapping |
| event_stream.dfy | `EventStream` | `event_generator`: notifications framed as server-sent events (the `text/event-stream` format of the WHATWG HTML Living Standard, section 9.2) |
| http_server.dfy | `HttpServer` | the `sessions` dictionary as a class, POST /mcp, POST /messages and GET /mcp |

Design points:

- **Reply text.** A reply is a sequence of `Piece(template, slots)` values.
  `Render` concatenates them.
  - Only three fixed texts are kept as the source writes them: "모든 피부 타입", "제한 없음" and the fallback prefix "알 수 없는 도구: ".
  - For every other template, `Templates.Lead` is the source's first character of the template and `Templates.Rest` is a stand-in for the rest.
  - The first character is enough to show that only the fallback reply opens like the fallback.
- **Exceptions.** A raised exception is the `Err` case of `Py.Result`.
  - `arguments.get` on a value that is not a dictionary raises AttributeError.
  - `', '.join` of a non-string item raises TypeError.
  - `.title()` on None raises AttributeError.
  - These propagate to the POST handler, which turns every exception into the -32603 error object with status 500.
- **State.** The process-wide `sessions` dictionary is the `sessions` field of `HttpServer.Gateway`. Its methods insert into it exactly as the endpoints do.
- **Loops.**
  - The two list conversions are `for` loops.
  - The heartbeat generator is a `while` loop.
  - The concern matcher's nested loop with `break` is a pair of `while` loops.
  - The `+=` sequence of `recommend_routine` is straight-line code.
  - Each is proved equal to a function, and the properties are proved about that function.

Where the standards the gateway speaks ask for more than the code does, the model follows the code:
- JSON-RPC 2.0 (section 5.1 of its specification) reserves code -32601 "Method not found" for an unknown method. The gateway answers an unknown method with code -32603 and HTTP status 500; -32601 is never emitted.
- JSON-RPC 2.0 (section 4) requires `jsonrpc` to be exactly "2.0". The gateway never checks the field.
- The MCP specification (revision 2025-03-26, session management of the Streamable HTTP transport) has a server refuse an unknown `Mcp-Session-Id` with HTTP 404. The gateway uses a non-empty header verbatim, without looking it up in `sessions`.
- The MCP specification reports a call to an unknown tool as a JSON-RPC error. Here `tools/call` with an unregistered name answers with the fallback text as an ordinary result.

## Model

| member | source | states |
|---|---|---|
| Py.Dict | server.py:221 | `arguments.get` succeeds exactly on a dictionary and then reads its entries; on any other value it raises AttributeError |
| Py.StrItems | server.py:232 | `', '.join` accepts a string, with one part per character, and accepts a list exactly when every item is a string; anything else raises |
| Py.StrItemsPointwise | server.py:232 | iterating a string yields part i as its i-th character alone; iterating a list of strings yields the items themselves, in order |
| Py.ItemStrings | server.py:349 | a list's items are accepted exactly when all of them are strings, and are then the parts, in order |
| Py.ErrorText | http_server.py:138 | `str(e)` of an HTTPException is its status, ": " and its detail; of any other exception, its message |
| Py.Lower | server.py:523 | `concern.lower()` keeps the length and lower-cases every ASCII capital, leaving other characters alone |
| Py.TitleFrom | server.py:347 | `title()` keeps the length; the first character is upper-cased when it is a letter that does not follow a letter, lower-cased when it follows one |
| Py.TitleFromAt | server.py:347 | at every later position, a letter right after a letter is lower-cased, any other letter is upper-cased, and a non-letter is kept |
| Py.TitleOf | server.py:347 | `.title()` succeeds exactly on a string, and gives its title case |
| Py.ContainsAt | server.py:525 | the substring test `a in b` holds exactly when `a` occurs in `b` at some offset |
| Py.BadRequestText | http_server.py:186 | `str()` of a 400 HTTPException is "400: " followed by its detail |
| Registry.ListTools | server.py:17-214 | `list_tools` returns nine descriptors |
| Registry.ToolNamesAre | server.py:20-214 | the registered names, in order: analyze_skin_from_photo, search_kbeauty_brands, recommend_routine, analyze_ingredients, product_comparison, kbeauty_trends, seasonal_skincare_guide, dupes_finder, skin_concern_matcher |
| Registry.NamesDistinct | server.py:20-214 | no two descriptors share a name |
| Registry.RequiredAreDeclared | server.py:20-214 | every descriptor requires at least one argument, and each name it requires is one of its declared properties |
| Registry.SkinPhotoWellFormed | server.py:21-51 | `analyze_skin_from_photo` requires `image_description`, which it declares |
| Registry.BrandSearchWellFormed | server.py:52-65 | `search_kbeauty_brands` requires `brand_name`, which it declares |
| Registry.RoutineWellFormed | server.py:66-90 | `recommend_routine` requires `skin_type`, which it declares |
| Registry.IngredientsWellFormed | server.py:91-110 | `analyze_ingredients` requires `ingredients`, which it declares |
| Registry.ComparisonWellFormed | server.py:111-130 | `product_comparison` requires `products`, which it declares |
| Registry.TrendsWellFormed | server.py:131-150 | `kbeauty_trends` requires `trend_type`, which it declares |
| Registry.SeasonalWellFormed | server.py:151-175 | `seasonal_skincare_guide` requires `season` and `skin_type`, both declared |
| Registry.DupesWellFormed | server.py:176-193 | `dupes_finder` requires `target_product`, which it declares |
| Registry.ConcernMatcherWellFormed | server.py:194-213 | `skin_concern_matcher` requires `concerns`, which it declares |
| Registry.DeclaredProperties0 | server.py:26-48 | `analyze_skin_from_photo` declares image_description, analysis_focus, user_age, skin_type_self_assessment |
| Registry.DeclaredProperties1 | server.py:57-62 | `search_kbeauty_brands` declares brand_name |
| Registry.DeclaredProperties2 | server.py:71-87 | `recommend_routine` declares skin_type, skin_concerns, budget |
| Registry.DeclaredProperties3 | server.py:96-107 | `analyze_ingredients` declares ingredients, skin_type |
| Registry.DeclaredProperties4 | server.py:116-127 | `product_comparison` declares products, comparison_criteria |
| Registry.DeclaredProperties5 | server.py:136-147 | `kbeauty_trends` declares trend_type, time_period |
| Registry.DeclaredProperties6 | server.py:156-172 | `seasonal_skincare_guide` declares season, climate, skin_type |
| Registry.DeclaredProperties7 | server.py:181-190 | `dupes_finder` declares target_product, max_price |
| Registry.DeclaredProperties8 | server.py:199-210 | `skin_concern_matcher` declares concerns, severity |
| Schema.ObjectSchemaWellFormed | server.py:24-49 | an `inputSchema` built from properties and a non-empty `required` list of declared names passes the well-formedness check |
| Templates.RenderAppend | server.py:346-364 | rendering distributes over appending pieces, so building `result` with `+=` renders the whole sequence |
| Templates.OnlyFallbackOpensLikeFallback | server.py:556 | no reply template except the fallback starts with the fallback's first character |
| Templates.RenderStart | server.py:220-556 | a rendered reply starts with the first character of its first template |
| ConcernMatcher.MatchesAt | server.py:525 | a key matches a lower-cased concern exactly when the key occurs in it at some offset or it occurs in the key |
| ConcernMatcher.FirstMatchInSpec | server.py:524-530 | the first match is none exactly when no key matches; otherwise it is a key that matches with no matching key before it, and every such key is it |
| ConcernMatcher.FirstMatchIsEarliest | server.py:494-530 | over the mapping order acne, aging, pigmentation, dryness, sensitivity, no key is chosen exactly when none matches, and a key is chosen exactly when it matches and no earlier key does |
| ConcernMatcher.Section | server.py:522-530 | one concern adds at most one solution section |
| ConcernMatcher.Solutions | server.py:522-530 | there are never more sections than concerns |
| ConcernMatcher.SolutionsCount | server.py:522-530 | there is one section per concern that matches some key, so every concern gets a section exactly when every concern matches |
| ConcernMatcher.SolutionsTemplates | server.py:522-530 | every section belongs to some concern that matches: it names that concern's first matching key and carries the concern title-cased |
| ConcernMatcher.AppendSolutions | server.py:522-530 | the outer loop appends the rendering of every concern's section, in concern order |
| ConcernMatcher.AppendSection | server.py:523-530 | the inner loop appends the section of the first matching key and stops, or appends nothing |
| ConcernMatcher.EmptyConcernMatchesAcne | server.py:525 | an empty concern occurs in every key, so it always gets the acne section |
| ConcernMatcher.SeveralKeysFirstWins | server.py:524-530 | "Aging and Acne" gets only the acne section, because acne comes first in the mapping |
| Handlers.SkinPhotoReply | server.py:220-320 | a reply of `analyze_skin_from_photo` that does not raise starts with the scan-request template |
| Handlers.BrandSearchReply | server.py:322-339 | a reply of `search_kbeauty_brands` that does not raise starts with the brand-search template |
| Handlers.RoutineReply | server.py:341-366 | a reply of `recommend_routine` that does not raise starts with the routine header |
| Handlers.RoutineText | server.py:346-366 | a routine text that does not raise starts with the routine header |
| Handlers.ConcernsLineOf | server.py:348-349 | the concerns line builds exactly when the concerns are falsy or can be joined; it is present exactly for truthy concerns and holds only the concerns template |
| Handlers.IngredientsReply | server.py:368-389 | a reply of `analyze_ingredients` that does not raise starts with the ingredient-search template |
| Handlers.ComparisonReply | server.py:391-412 | a reply of `product_comparison` that does not raise starts with the comparison template |
| Handlers.TrendsReply | server.py:414-435 | a reply of `kbeauty_trends` that does not raise starts with the trend-search template |
| Handlers.SeasonalReply | server.py:437-459 | a reply of `seasonal_skincare_guide` that does not raise starts with the seasonal-guide template |
| Handlers.DupesReply | server.py:461-482 | a reply of `dupes_finder` that does not raise starts with the dupe-search template |
| Handlers.ConcernMatcherReply | server.py:484-553 | a reply of `skin_concern_matcher` that does not raise starts with the matcher header |
| Handlers.ConcernMatches | server.py:489-553 | a matcher text that does not raise starts with the matcher header |
| Handlers.AsContent | server.py:366 | a branch answers exactly when its text builds, with one item of type "text" holding the rendered text |
| Handlers.SkinPhotoReplyReadsDeclared | server.py:221-224 | two argument dictionaries that `get` reads alike for the four keys, with their defaults, give the same reply |
| Handlers.BrandSearchReplyReadsDeclared | server.py:323 | the reply depends only on `brand_name` (default "") |
| Handlers.RoutineReplyReadsDeclared | server.py:342-344 | the reply depends only on `skin_type`, `skin_concerns` (default []) and `budget` (default "mixed") |
| Handlers.IngredientsReplyReadsDeclared | server.py:369-370 | the reply depends only on `ingredients` (default []) and `skin_type` |
| Handlers.ComparisonReplyReadsDeclared | server.py:392-393 | the reply depends only on `products` and `comparison_criteria` (default price, ingredients, effectiveness) |
| Handlers.TrendsReplyReadsDeclared | server.py:415-416 | the reply depends only on `trend_type` and `time_period` (default "current") |
| Handlers.SeasonalReplyReadsDeclared | server.py:438-440 | the reply depends only on `season`, `climate` (default "temperate") and `skin_type` |
| Handlers.DupesReplyReadsDeclared | server.py:462-463 | the reply depends only on `target_product` (default "") and `max_price` |
| Handlers.ConcernMatcherReplyReadsDeclared | server.py:485-486 | the reply depends only on `concerns` (default []) and `severity` (default "moderate") |
| Handlers.MorningSteps | server.py:353-359 | the oily-skin morning steps are chosen exactly for "oily", the dry-skin ones exactly for "dry", the general ones for every other skin type |
| Handlers.RoutineLayout | server.py:346-364 | a routine is the header, the title-cased skin type, the concerns line if any, the title-cased budget, the morning steps its skin type selects, the evening steps and the budget note, in that order |
| Handlers.RoutineTextShape | server.py:346-366 | a routine that does not raise has a string skin type and budget, and is the header, the title-cased profile lines, the concerns line, the morning and evening steps and the budget note, in that order |
| Handlers.RoutineMorningSteps | server.py:353-359 | the routine holds the oily morning steps exactly for "oily", the dry ones exactly for "dry", and the general ones exactly for every other skin type |
| Handlers.MorningStepsOnce | server.py:353-359 | of the three morning templates, a routine holds exactly the one its skin type selects |
| Handlers.RoutineConcernsLine | server.py:348-349 | the routine holds a concerns line exactly when the concerns are truthy |
| Handlers.ConcernsLineShown | server.py:346-350 | the concerns template appears in a routine exactly when a concerns line was given |
| Handlers.RoutineRaises | server.py:347-350 | `recommend_routine` raises exactly when the skin type or the budget is not a string, or the concerns are truthy and cannot be joined |
| Handlers.RoutineWithoutSkinTypeRaises | server.py:342-347 | without `skin_type`, which the schema marks required, `recommend_routine` raises AttributeError on `None.title()` |
| Handlers.RecommendRoutine | server.py:341-366 | the `+=` sequence of `recommend_routine` builds exactly the rendering of the routine's pieces, and raises where the function does |
| Handlers.SkinConcernMatcher | server.py:484-553 | the header lines, the nested matching loop and the search request build exactly the rendering of the matcher's pieces |
| ToolCalls.UnknownToolText | server.py:556 | the fallback reads "알 수 없는 도구: " followed by `str()` of the name |
| ToolCalls.Lookup | server.py:220-484 | the `if`/`elif` chain picks a branch only for the very name that branch compares against |
| ToolCalls.Reply | server.py:220-553 | a branch that answers never starts with the fallback template |
| ToolCalls.CallTool | server.py:216-556 | every answer of `call_tool` is exactly one content item, of type "text" |
| ToolCalls.LookupKindName | server.py:220-484 | each branch is reached by its own name |
| ToolCalls.NonDictArgumentsRaise | server.py:221-485 | every branch raises AttributeError from its first `get` when the arguments are not a dictionary |
| ToolCalls.OnlyReadArgumentsMatter | server.py:221-486 | a branch's reply depends on the arguments only through what `get` returns for the keys it reads, with its defaults |
| ToolCalls.MissingArgumentTakesDefault | server.py:221-486 | leaving out an argument a branch reads is the same as passing that branch's default for it |
| ToolCalls.UnreadArgumentIgnored | server.py:221-486 | adding or changing an argument a branch does not read changes nothing |
| ToolCalls.SkinPhotoReadsDeclaredProperties | server.py:221-224 | `analyze_skin_from_photo` passes to `get` exactly image_description, analysis_focus, user_age and skin_type_self_assessment |
| ToolCalls.BrandSearchReadsDeclaredProperties | server.py:323 | `search_kbeauty_brands` passes to `get` exactly brand_name |
| ToolCalls.RoutineReadsDeclaredProperties | server.py:342-344 | `recommend_routine` passes to `get` exactly skin_type, skin_concerns and budget |
| ToolCalls.IngredientsReadsDeclaredProperties | server.py:369-370 | `analyze_ingredients` passes to `get` exactly ingredients and skin_type |
| ToolCalls.ComparisonReadsDeclaredProperties | server.py:392-393 | `product_comparison` passes to `get` exactly products and comparison_criteria |
| ToolCalls.TrendsReadsDeclaredProperties | server.py:415-416 | `kbeauty_trends` passes to `get` exactly trend_type and time_period |
| ToolCalls.SeasonalReadsDeclaredProperties | server.py:438-440 | `seasonal_skincare_guide` passes to `get` exactly season, climate and skin_type |
| ToolCalls.DupesReadsDeclaredProperties | server.py:462-463 | `dupes_finder` passes to `get` exactly target_product and max_price |
| ToolCalls.ConcernMatchReadsDeclaredProperties | server.py:485-486 | `skin_concern_matcher` passes to `get` exactly concerns and severity |
| ArgumentReads.ReadsIffGets | server.py:221-486 | a branch reads a key (some arguments get a different reply once the key is set) exactly when it passes that key to `get` |
| ArgumentReads.SkinPhotoReadsEveryKey | server.py:221-224 | each of the four keys `analyze_skin_from_photo` passes to `get` changes its reply for some arguments |
| ArgumentReads.BrandSearchReadsEveryKey | server.py:323 | `brand_name` changes the reply of `search_kbeauty_brands` for some arguments |
| ArgumentReads.RoutineReadsEveryKey | server.py:342-344 | each of skin_type, skin_concerns and budget changes the reply of `recommend_routine` for some arguments |
| ArgumentReads.IngredientsReadsEveryKey | server.py:369-370 | each of ingredients and skin_type changes the reply of `analyze_ingredients` for some arguments |
| ArgumentReads.ComparisonReadsEveryKey | server.py:392-393 | each of products and comparison_criteria changes the reply of `product_comparison` for some arguments |
| ArgumentReads.TrendsReadsEveryKey | server.py:415-416 | each of trend_type and time_period changes the reply of `kbeauty_trends` for some arguments |
| ArgumentReads.SeasonalReadsEveryKey | server.py:438-440 | each of season, climate and skin_type changes the reply of `seasonal_skincare_guide` for some arguments |
| ArgumentReads.DupesReadsEveryKey | server.py:462-463 | each of target_product and max_price changes the reply of `dupes_finder` for some arguments |
| ArgumentReads.ConcernMatchReadsEveryKey | server.py:485-486 | each of concerns and severity changes the reply of `skin_concern_matcher` for some arguments |
| ToolCalls.RunCallTool | server.py:216-556 | `call_tool`, with its two step-by-step branches run as methods, gives exactly the `call_tool` function's answer |
| Registration.LookupIffRegistered | server.py:20-484 | `call_tool` has a branch for a name exactly when `list_tools` registers it |
| Registration.FallbackIffUnregistered | server.py:555-556 | the fallback text `알 수 없는 도구: {name}` is the answer exactly for names outside the registry; it never raises and ignores the arguments |
| Registration.HandlerMatchesRegistry | server.py:20-486 | the keys each branch reads are exactly the properties its tool's descriptor declares |
| Registration.DeclaredIffRead | server.py:20-486 | a key is a declared property of a registered tool exactly when that tool's branch reads it |
| Registration.KindNamesAreToolNames | server.py:20-484 | the branches test the registered names, in registry order |
| JsonRpc.Dump | http_server.py:38-42 | `dict(exclude_none=True)` keeps `jsonrpc`, keeps `id`, `result` and `error` exactly when they are not None, and adds nothing else |
| JsonRpc.DumpRoundTrip | http_server.py:125-128 | dropping the None fields loses nothing: the envelope reads back as it was |
| JsonRpc.ToolJson | http_server.py:197-201 | a descriptor becomes a dictionary with exactly the keys name, description and inputSchema |
| JsonRpc.ToolJsonRoundTrip | http_server.py:197-201 | the descriptor dictionary keeps the tool's name, description and input schema |
| JsonRpc.ToolsJson | http_server.py:195-204 | the tool conversion keeps the length, and element i is the dictionary of tool i |
| JsonRpc.ContentJson | http_server.py:215-218 | a content item becomes a dictionary with exactly the keys type and text |
| JsonRpc.ContentJsonRoundTrip | http_server.py:215-218 | the content dictionary keeps the item's type and text |
| JsonRpc.ContentsJson | http_server.py:213-220 | the content conversion keeps the length, and element i is the dictionary of item i |
| JsonRpc.ToolCallContent | http_server.py:206-220 | the converted answer exists exactly when the tool answers, and is then its content items converted |
| JsonRpc.Dispatch | http_server.py:151-186 | every answer of `handle_mcp_request` is a dictionary |
| JsonRpc.ErrorObject | http_server.py:135-139 | the error object has exactly code -32603, message "Internal error" and the exception text as data |
| JsonRpc.Respond | http_server.py:125-144 | every POST reply body is a JSON object |
| Protocol.InitializeBlock | http_server.py:155-166 | the `initialize` block has exactly protocolVersion "2024-11-05", capabilities with empty tools, logging and prompts, and serverInfo k-beauty-complete 3.0.0 |
| JsonRpc.InitializeIsConstant | http_server.py:154-166 | `initialize` answers the same block whatever the id, params or session: protocol version 2024-11-05, server k-beauty-complete 3.0.0 |
| JsonRpc.PingIsPong | http_server.py:182-183 | `ping` answers `{"status": "pong"}` with status 200, with no earlier `initialize` needed |
| JsonRpc.UnknownMethodRaises | http_server.py:185-186 | any other method raises HTTPException 400 "Unknown method: <method>" |
| JsonRpc.KnownMethodAnswers | http_server.py:154-183 | `initialize`, `tools/list` and `ping` always answer |
| JsonRpc.ToolsCallAnswersIffTool | http_server.py:173-180 | `tools/call` answers exactly when the tool does, and then with `{"content": ...}` holding the tool's items converted; otherwise it raises what the tool raises |
| JsonRpc.UnknownMethodAnswer | http_server.py:132-144 | an unknown method gets status 500, no result, and the error object whose data is "400: Unknown method: <method>" |
| JsonRpc.ErrorReply | http_server.py:132-144 | whatever handling raised gets status 500, no session header, no result and the error object |
| JsonRpc.UnknownMethodText | http_server.py:186 | the unknown-method exception reads "400: Unknown method: <method>" |
| JsonRpc.ResultXorError | http_server.py:125-144 | a reply carries either a result (status 200, with the session header) or an error (code -32603, status 500), never both, and echoes the id unless it is None |
| JsonRpc.ToolsCallUnregistered | http_server.py:173-180 | `tools/call` with an unregistered or absent name answers the fallback text as its one content item; the gateway does not check the registry |
| JsonRpc.ToolsListAnswersRegistry | http_server.py:168-171 | `tools/list` answers every registered descriptor, in order, with all its fields |
| JsonRpc.GetToolsFromOriginalServer | http_server.py:188-204 | the append loop builds exactly the converted tool list |
| JsonRpc.CallToolFromOriginalServer | http_server.py:206-220 | the append loop builds exactly the converted content, or raises what the tool raises |
| JsonRpc.HandleMcpRequest | http_server.py:151-186 | handling a request gives exactly the routing function's answer, whatever the session |
| EventStream.Notification | http_server.py:66-93 | a notification has exactly `jsonrpc` "2.0", its method and its params, and no id |
| EventStream.InitMessage | http_server.py:66-81 | the first notification is `notifications/initialized`, without id, carrying the `initialize` block as its params |
| EventStream.Heartbeat | http_server.py:89-93 | a heartbeat is `notifications/heartbeat`, without id, whose params hold only the timestamp |
| EventStream.Frame | http_server.py:84 | an event is "data: ", the payload unchanged, and a blank line |
| EventStream.FrameRoundTrip | http_server.py:84 | a framed payload reads back unchanged |
| EventStream.ParseFrameRoundTrip | http_server.py:84-94 | anything that reads back as a payload is exactly `data: <payload>` followed by a blank line |
| EventStream.StreamFrames | http_server.py:84-94 | the stream has one event more than there are heartbeats |
| EventStream.HeartbeatFrames | http_server.py:87-95 | one heartbeat event per clock reading, in order |
| EventStream.StreamReadsBack | http_server.py:66-94 | the first event reads back as the `initialized` notification and event i+1 as the heartbeat for reading i |
| EventStream.EventGenerator | http_server.py:64-95 | the generator yields exactly the `initialized` event followed by one heartbeat event per reading |
| HttpServer.Mints | http_server.py:118 | a new id is minted exactly when the header is falsy in Python: missing or empty |
| HttpServer.SessionIdFor | http_server.py:117-119 | a missing or empty header means the minted id; any other header is used verbatim |
| HttpServer.SessionsAfterPost | http_server.py:117-120 | a minted id gets a record holding only `created_at` and every other session is kept; a given header leaves `sessions` unchanged |
| HttpServer.PostSessionCount | http_server.py:117-120 | a fresh minted id adds exactly one session; a given header adds none, even when no such session exists |
| HttpServer.StreamSession | http_server.py:58-62 | the stream's record holds `created_at`, and `tools` and `capabilities` set to None |
| HttpServer.StreamHeaders | http_server.py:100-104 | the stream answers with exactly Cache-Control no-cache, Connection keep-alive and the new session id |
| HttpServer.StreamOpensWithInitialize | http_server.py:64-84 | the stream's first event carries exactly the block `initialize` answers with |
| HttpServer.Gateway.constructor | http_server.py:45 | the gateway starts with no sessions |
| HttpServer.Gateway.ResolveSession | http_server.py:116-120 | resolves the session id and inserts a minted session into `sessions` |
| HttpServer.Gateway.PostMcp | http_server.py:107-144 | resolves the session, then answers the result under the session header or the error object with status 500; a minted session stays even when handling raised |
| HttpServer.Gateway.PostMessages | http_server.py:146-149 | the legacy endpoint answers and updates sessions exactly as POST /mcp |
| HttpServer.Gateway.GetMcp | http_server.py:52-105 | opening the stream inserts one session with `tools` and `capabilities` None, and answers as `text/event-stream` with the stream headers |
| HttpServer.PostEchoesSession | http_server.py:116-130 | a successful POST answers under the resolved session: a minted id is now in `sessions`, and a given header comes back unchanged |
| HttpServer.StreamSessionCount | http_server.py:56-62 | opening a stream with a fresh id adds exactly one session and keeps the others |

## Left out

- Floating-point numbers: JSON numbers are integers, so a fractional `user_age` or `max_price` is not modelled.
- Key order of dictionaries: JSON objects are maps, so the order of keys in replies and of `concern_mapping`'s items is not part of a value. The mapping order is kept explicitly as `ConcernMatcher.MappingOrder`.
- Py.Repr: `str()` of a non-string value quotes strings without escaping and prints a dictionary as `{...}`.
- Py.Lower and Py.TitleFrom: only ASCII letters change case; Unicode case mapping is not modelled.
- Py.StrItems: joining a dictionary, which Python does over its keys, is modelled as a TypeError, because key order is not kept.
- Templates.Rest: the fixed prose of each reply template is a short stand-in. Kept exactly: the first character, plus "모든 피부 타입", "제한 없음" and "알 수 없는 도구: ". The solution details of `concern_mapping` (ingredients, what to avoid, routine) are part of the stand-in for the solution section.
- Registry.ListTools: the tool descriptions and property descriptions are short stand-ins. The names, types, enumerations and `required` lists are as written.
- The `mcp` library binding: `mcp_server.list_tools()` and `mcp_server.call_tool(...)` go through decorators that are not part of this model. They are taken to return `list_tools`'s and `call_tool`'s results unchanged.
- The malformed-body path of POST /mcp: parsing the body and validating it into `MCPRequest` are not modelled. The handlers take an already validated request whose `params` defaults to `{}`. When that step fails, `mcp_request` is unbound in the `except` clause and the handler itself faults. No envelope is produced for that case.
- The GET / health check: a constant reply outside the gateway's request path.
- The OAuth discovery endpoint: it refers to an undefined `request` and cannot answer.
- FastAPI app construction, CORS middleware, the uvicorn entry point and `server.py`'s stdio `main`.
- EventStream.EventGenerator: the heartbeat loop never ends and sleeps 30 seconds between events. The model yields the heartbeats for a finite sequence of clock readings; timing and client disconnection are not modelled.
- `json.dumps`, `uuid.uuid4()` and `datetime.utcnow()` are parameters: `dumps`, `freshId`, `now` and the heartbeat timestamps. The uniqueness of a uuid is the `freshId !in sessions` premise of the session-count lemmas.
- Concurrent requests sharing `sessions`: the code has no locking, and the model handles one request at a time.
- JsonRpc.Dump: only the envelope's own None fields are dropped. The replies the gateway builds hold no nested None values.

## Findings

None. The model follows the code as written.
