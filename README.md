# RSS Wrangler feed pipeline, modelled in Dafny

RSS Wrangler serves RSS/XML feeds over HTTP. Each feed is an entry in a YAML
configuration tree. A request for `<base_url><path>.xml` does the following:

- it reloads the configuration and walks the tree along the `/`-separated path to the feed's descriptor
- it gives the descriptor an `args` mapping if it has none
- it loads the processor module the descriptor names, fresh, from `feed_processors`
- it converts the query-string arguments that the processor's `process_feed` declares
- it lays all query arguments over the static `args`
- it calls `process_feed(name, url, <cache folder>/<feed name>.xml, **args)` and returns its XML or a JSON error

`generic_rss.py` is an RSS helper that a feed processor calls:
`process_rss_feed(rss_url, output_file, img_filter)` rebuilds an RSS feed of at
most fifty items. It reuses, by guid, the items its previous output file
already holds. It defines no `process_feed` of its own.

The project models:

- `strings.dfy` (`Strings`): Python's `str.strip(c)`, `str.split(c)` and `split(c)[-1]` on one character, with the split/join round trip.
- `config_tree.dfy` (`ConfigTree`): the configuration tree as a value.
  - `dict_path_exists` and `dict_get_by_path` are loops proved against the specification functions `Exists` and `Walk`.
  - `Put` is the in-place replacement of the node at a path.
- `naming.dfy` (`Naming`): the `base_url` normalisation, the `.py` stripping of processor names, the feed name and the cache path (`os.path.join`).
- `query_args.dfy` (`ArgumentMerge`): the conversion loop over the processor's signature and the `|=` merge into the static arguments.
- `feed_handler.dfy` (`FeedPipeline`): the `feed` handler, stated twice.
  - `HandleFeed` and its three stages are the decision procedure as functions, and the lemmas are about them.
  - `ConfigStore` is the process-wide `config` as a class. Its `Feed` method runs the handler step by step and writes each edit of `feed_data` into the configuration, as the source's in-place edits do. It is proved equal to `HandleFeed` in response and final configuration.
- `generic_rss.dfy` (`GenericRss`): `get_existing_entries` and `process_rss_feed`, as loops proved against the specification functions `IndexByGuid` and `SelectItems`.

What the handler takes from outside the request is passed in:

- the configuration as `yaml.safe_load` returns it, with string keys (see "## Left out")
- the module loader (`importlib.import_module` plus `reload`)
- the parameters `inspect.signature` reports
- werkzeug's conversion of one query value
- the processor's own behaviour

An exception that escapes the handler is answered 500 by Flask. The model
shows it as the response `Crashed(e)`.

Some behaviour of the code is easy to miss, and the model keeps it:

- Every parameter of `process_feed` that the query names is converted, the three leading ones (`name`, `url`, `output_file`) included (app.py:106-108).
- `request.args.get(..., type=...)` falls back to the default when the conversion raises `ValueError` or `TypeError`, and the default is the raw string. Any other `Exception` aborts the request with a 500 (`Coercion.Fallback` and `Coercion.Fails`).
- The handler checks only that the path exists (app.py:84). A path that stops at a namespace mapping is not answered 404. It gains an `args` entry and then fails with an uncaught `KeyError('processor')` (`FeedPipeline.NamespacePathCrashes`).
- A descriptor without `name` or `url` is found only when the processor is called. The handler then answers "Custom feed processing failed" (app.py:113-116).

## Model

| member | source | states |
|---|---|---|
| Strings.StartsWith | app.py:53 | `str.startswith`: the string begins with the prefix (used at app.py:53, by `NormalizeBaseUrl`, `PathJoin` and `ConfigStore.NormalizeConfiguredBaseUrl`) |
| Strings.EndsWith | app.py:55 | `str.endswith`: the string ends with the suffix (used at app.py:55 and app.py:94) |
| Strings.Strip | app.py:62 | `path.strip('/')`: the result has no `/` at either end, is no longer than the input, and is a contiguous slice of the input with only `/` cut off on both sides |
| Strings.Split | app.py:62 | `split('/')`: at least one piece, and no piece contains the separator |
| Strings.JoinSplit | app.py:62 | joining the pieces of a split with the separator gives back the string |
| Strings.SplitJoin | app.py:62 | splitting a join of separator-free pieces gives back the pieces (at least one) |
| Strings.LastPiece | app.py:88 | `split('/')[-1]`: a separator-free suffix of the string, preceded by the separator whenever it is not the whole string |
| ConfigTree.Has | app.py:64 | `isinstance(data, dict) and key in data`: the node is a mapping holding the key |
| ConfigTree.PathKeys | app.py:62 | the keys of a path are at least one, none contains `/`, and joined with `/` they give the stripped path |
| ConfigTree.ExistsIffWalkSucceeds | app.py:60-74 | a path exists exactly when walking it succeeds, i.e. when `dict_get_by_path` would not raise |
| ConfigTree.WalkAppend | app.py:63-66 | walking `a + b` is walking `a`, then `b` from where `a` ends |
| ConfigTree.ExistsReachesLastEntry | app.py:63-67 | an existing non-empty path ends at an entry of the mapping its last key is looked up in |
| ConfigTree.MissingIffSomeStepFails | app.py:63-65 | a path is missing exactly when, after some existing prefix, the value there is not a mapping or lacks the next key |
| ConfigTree.Exists | app.py:60-67 | specification of `dict_path_exists`: every key is found in a mapping along the way (properties: `ExistsIffWalkSucceeds`, `MissingIffSomeStepFails`) |
| ConfigTree.Walk | app.py:69-74 | specification of `dict_get_by_path`: index key by key, KeyError for a missing key, TypeError on a non-mapping (properties: `ExistsIffWalkSucceeds`, `WalkAppend`) |
| ConfigTree.DictPathExists | app.py:60-67 | `dict_path_exists` never raises and returns True exactly when every key is found in a mapping along the way |
| ConfigTree.DictGetByPath | app.py:69-74 | `dict_get_by_path` returns the node at the path, raises KeyError with the first missing key, or TypeError when indexing a non-mapping |
| ConfigTree.Put | app.py:90-91 | replacing the node at an existing path: afterwards the path exists and leads to the new node |
| ConfigTree.PutElsewhere | app.py:90-109 | a path that leaves the replaced path at some key reads the same after the replacement |
| ConfigTree.PutSame | app.py:90-91 | putting back the node a path already holds changes nothing |
| ConfigTree.PutTwice | app.py:90-109 | a second replacement at the same path overrides the first |
| Naming.NormalizeBaseUrl | app.py:53-56 | the normalised `base_url` starts and ends with `/`, is the input with at most one `/` added at each end, adds none at an end that already has one, and is `/` for the empty string |
| Naming.NormalizeBaseUrlIdempotent | app.py:53-56 | normalising twice is normalising once |
| Naming.StripPySuffix | app.py:94-95 | a name ending in `.py` loses exactly those three characters; any other name is kept |
| Naming.StripPySuffixOfSourceName | app.py:94-96 | `foo.py` names the same module as `foo`, and only one `.py` is removed |
| Naming.ProcessorModule | app.py:94-96 | the module imported is `feed_processors.` followed by the processor name with one trailing `.py` removed |
| Naming.PathJoin | app.py:114 | `os.path.join` of two parts: an absolute second part wins; otherwise the result is the two parts concatenated, with one `/` between them only when the first is non-empty and does not end in one |
| Naming.CacheFolder | app.py:15 | `FEED_CACHE_FOLDER_PATH` starts with the config path and ends with `feed_cache`, joined by one `/` unless the config path is empty or already ends in one |
| Naming.FeedName | app.py:88 | the feed name is the last `/`-piece of the request path: it holds no `/` and ends the path |
| Naming.CachePath | app.py:114 | the output file path handed to the processor (its shape is `CachePathShape`) |
| Naming.CachePathShape | app.py:114 | the output file handed to the processor is `<cache folder>/<feed name>.xml`, with the cache folder as in the `CacheFolder` row |
| ArgumentMerge.RawArgs | app.py:105 | `request.args.to_dict()`: every query value as a string (used by `QueryArgsSpec`) |
| ArgumentMerge.CoerceDeclared | app.py:106-108 | specification of the conversion loop from a given start (properties: `CoerceDeclaredValues`, `CoerceDeclaredExact`, `CoerceDeclaredFails`) |
| ArgumentMerge.QueryArgs | app.py:105-111 | the query arguments, or the exception that aborted their conversion (properties: `QueryArgsSpec`) |
| ArgumentMerge.CoerceDeclaredValues | app.py:106-108 | the conversion loop keeps exactly the query's keys; an undeclared key keeps its value; a declared one keeps it or takes a conversion of it (which one is `CoerceDeclaredExact`) |
| ArgumentMerge.CoerceDeclaredExact | app.py:106-108 | with the signature's distinct parameter names, a declared parameter the query names ends at exactly werkzeug's converted value, or at its starting value when werkzeug falls back |
| ArgumentMerge.CoerceDeclaredFails | app.py:106-111 | the loop raises exactly when some declared parameter's conversion raises, with the exception of the first such parameter in signature order |
| ArgumentMerge.QueryArgsSpec | app.py:105-111 | the query arguments hold every query key, undeclared ones as raw strings; a declared one holds exactly the converted value when werkzeug converts it and the raw string when werkzeug falls back; they are missing exactly when a conversion raised |
| ArgumentMerge.MergeArgs | app.py:109 | `args \|= query_args`: the keys of both, every query argument overrides, every static argument the query does not name is kept |
| ArgumentMerge.CollectQueryArgs | app.py:105-108 | the conversion loop computes the query arguments of `QueryArgsSpec`, or the exception that aborted it |
| FeedPipeline.Status | app.py:85-116 | the HTTP status of a response: 404 exactly for "not found", 200 exactly for XML, 500 for every error and escaped exception |
| FeedPipeline.Reply | app.py:113-119 | the processor's string is the XML body, and an exception it raises is "Custom feed processing failed" |
| FeedPipeline.LoadedProcessor | app.py:96-101 | the `process_feed` of the module a name loads to, when it loads and has one (used by the response lemmas) |
| FeedPipeline.HandleFeed | app.py:81-119 | specification of one request after the reload: response, final configuration, module imported and call made (properties: `Selected`, `NotSelected`, `NotFoundBeforeLookup`, `FeedResponses`, `FeedCallResponses`, `FailuresBeforeCall`, `CallArguments`, `EditsStayInDescriptor`, `OtherPathsUntouched`) |
| FeedPipeline.Descriptor | app.py:84-87 | the mapping the request path selects below `feeds`, if any (properties: `Selected`, `NotSelected`) |
| FeedPipeline.WithArgs | app.py:90-91 | the descriptor with `args` defaulted to an empty mapping (properties: `DescriptorStage`, `NamespacePathCrashes`) |
| FeedPipeline.StaticArgs | app.py:90-91 | the static arguments a descriptor ends up with before the merge, None when `args` is not a mapping (properties: `DescriptorStage`, `CallArguments`) |
| FeedPipeline.HandleDescriptor | app.py:90-119 | specification of the handler from the selected descriptor on (properties: `DescriptorStage`) |
| FeedPipeline.HandleProcessor | app.py:94-119 | specification of the handler from the processor name on (properties: `ProcessorStage`, `ProcessorResponses`) |
| FeedPipeline.HandleCall | app.py:104-119 | specification of the handler from the loaded `process_feed` on (properties: `CallStage`, `CallResponses`) |
| FeedPipeline.MergeAndRun | app.py:109-119 | specification of the handler once the query arguments are known (properties: `CallStage`) |
| FeedPipeline.Run | app.py:113-119 | specification of the processor call and its reply (properties: `CallStage`, `ConfigStore.RunProcessor`) |
| FeedPipeline.FeedsPrefix | app.py:84-87 | looking below `config["feeds"]` is looking below the root with `feeds` prepended |
| FeedPipeline.CallStage | app.py:104-119 | the call stage answers 500 for a failing signature, conversion or non-mapping `args`, or calls the processor with the descriptor's `name` and `url`, the cache path and the merged arguments, and it does call it when signature, conversion and a mapping `args` succeed and `name` and `url` are present; the descriptor keeps its keys, every key but `args` keeps its value, and `args` becomes the merged arguments exactly when the merge ran |
| FeedPipeline.ProcessorStage | app.py:93-119 | the import stage imports `feed_processors.<name without .py>`; a "not found" answer comes from an ImportError and a contract error from a module without `process_feed`, and every call has the arguments of the call stage (the converse is `ProcessorResponses`) |
| FeedPipeline.ProcessorResponses | app.py:94-102 | an ImportError is answered "not found" naming the processor without `.py`, another import failure escapes, and a module without `process_feed` is answered with the contract error |
| FeedPipeline.CallResponses | app.py:104-119 | the call stage answers a failing signature or conversion with a query error carrying that exception and a non-mapping `args` with TypeError; a missing `name` or `url` is a processing failure; otherwise the processor is called with the descriptor's `name` and `url`, the cache path and the merged arguments, and its result is the answer |
| FeedPipeline.DescriptorStage | app.py:90-119 | a module is imported exactly when the descriptor's `processor` is a string; the edited descriptor keeps every key and gains `args`; each answer is traced back to its cause (the converse is `FeedResponses` and `FeedCallResponses`) |
| FeedPipeline.Selected | app.py:84-87 | when the path selects a mapping, the handler's outcome is the descriptor stage's, with the edited descriptor written back at the path |
| FeedPipeline.NotSelected | app.py:84-91 | otherwise nothing is edited, imported or called, and the answer is TypeError for a configuration that is not a mapping, KeyError('feeds') when `feeds` is missing, 404 for a missing path, and TypeError for a path that ends at a non-mapping |
| FeedPipeline.NotFoundBeforeLookup | app.py:84-85 | the answer's status is 404 exactly when `feeds` exists and lacks the path, and then nothing is imported, called or edited |
| FeedPipeline.FeedResponses | app.py:90-102 | for a selected descriptor, each answer before the processor is loaded: a missing `processor` escapes with KeyError, a non-string one with AttributeError, an ImportError is "not found" naming the processor without `.py`, another import failure escapes, and a module without `process_feed` is the contract error |
| FeedPipeline.FeedCallResponses | app.py:104-119 | for a selected descriptor whose `process_feed` loads: a failing signature or conversion is a query error carrying that exception, a non-mapping `args` a TypeError query error, a missing `name` or `url` a processing failure, and otherwise the processor is called with the descriptor's `name` and `url`, the cache path and the static arguments overridden by the query, its result being the answer |
| FeedPipeline.NamespacePathCrashes | app.py:84-94 | a path ending at a mapping without `processor` crashes with KeyError after gaining `args`, instead of answering 404 |
| FeedPipeline.ImportsNamedProcessor | app.py:94-97 | a module is imported exactly when the path selects a mapping with a string `processor`, and it is that name without `.py` under `feed_processors` |
| FeedPipeline.FailuresBeforeCall | app.py:98-111 | every error but a failing processor happens before the call; "not found" comes from an ImportError of the imported module, the contract error from a module without `process_feed`, and a query error from the signature, a conversion or non-mapping `args` (the converse is `FeedResponses` and `FeedCallResponses`) |
| FeedPipeline.CallArguments | app.py:113-119 | a processor call (or an XML answer) happens only after everything else succeeded, with the descriptor's `name` and `url`, `<cache folder>/<feed name>.xml` and the static arguments overridden by the query; its result is the response (that the call does happen is `FeedCallResponses`) |
| FeedPipeline.EditsStayInDescriptor | app.py:90-109 | the configuration changes only at the selected descriptor, which keeps all its keys, gains `args` and changes at most `args` and `processor` |
| FeedPipeline.OtherPathsUntouched | app.py:90-109 | every other feed and every key outside the descriptor's path read the same after a request |
| FeedPipeline.ConfigStore.constructor | app.py:50 | the store starts with the loaded configuration |
| FeedPipeline.ConfigStore.Reload | app.py:44-48 | reloading replaces the configuration with the file's current content |
| FeedPipeline.ConfigStore.NormalizeConfiguredBaseUrl | app.py:53-56 | start-up fails with TypeError, KeyError or AttributeError when the configuration is not a mapping, lacks `base_url` or has a non-string one; otherwise only `base_url` changes, to its normalised form |
| FeedPipeline.ConfigStore.Feed | app.py:81-88 | the handler run step by step gives the response and the configuration of `HandleFeed` |
| FeedPipeline.ConfigStore.EditAndCall | app.py:90-119 | from the selected descriptor on, the in-place edits leave the configuration holding the descriptor stage's edited descriptor, and the response is the stage's |
| FeedPipeline.ConfigStore.LoadAndCall | app.py:93-119 | the same for the import stage |
| FeedPipeline.ConfigStore.Call | app.py:104-119 | the same for the call stage |
| FeedPipeline.ConfigStore.Invoke | app.py:109-119 | the same once the query arguments are known: the merge is written into the configuration before the call |
| FeedPipeline.ConfigStore.RunProcessor | app.py:113-119 | the call changes nothing and answers as `Run` does: a missing `name` or `url` or an exception of the processor is a processing failure, otherwise the processor's XML |
| GenericRss.IndexByGuid | generic_rss.py:28-31 | specification of the guid index of the cached items (properties: `IndexKeys`, `IndexLastWins`, `IndexKeyedByGuid`, `IndexUniqueGuid`) |
| GenericRss.ExistingEntries | generic_rss.py:19-35 | specification of `get_existing_entries` (properties: `GetExistingEntries`) |
| GenericRss.IndexKeys | generic_rss.py:28-31 | a guid is a key of the cache index exactly when some cached item carries it |
| GenericRss.IndexLastWins | generic_rss.py:28-31 | the item filed under a guid is the last item carrying that guid in document order |
| GenericRss.IndexKeyedByGuid | generic_rss.py:28-31 | every indexed item is filed under its own guid |
| GenericRss.GetExistingEntries | generic_rss.py:19-35 | `get_existing_entries` builds the index of the cached items, and the empty index when the file is missing or cannot be parsed |
| GenericRss.Capped | generic_rss.py:57-59 | the loop looks at all the entries or at the first fifty |
| GenericRss.EntryGuid | generic_rss.py:62 | an entry's guid is its own guid, or its link when it has none; an entry without a link raises |
| GenericRss.ImageHtml | generic_rss.py:78 | the preload link and image markup for an image URL (used by `NewDescription`) |
| GenericRss.NewDescription | generic_rss.py:75-82 | a new item's description is the image markup when a non-empty image URL is found, else the entry's description, else empty |
| GenericRss.NewItem | generic_rss.py:68-85 | a new item has the entry's title, link, guid, description and (only when published) pubDate; an entry without a title raises |
| GenericRss.EmitEntry | generic_rss.py:61-88 | specification of one pass of the entry loop (properties: `EmitEntryCases`) |
| GenericRss.EmitEntryCases | generic_rss.py:61-88 | an entry whose guid is cached yields the cached item unchanged and is not new; any other entry yields its new item; it fails exactly without a link, or uncached without a title |
| GenericRss.ProcessEntry | generic_rss.py:61-86 | the loop body yields exactly what `EmitEntryCases` describes |
| GenericRss.BuildItem | generic_rss.py:68-85 | the item built child by child is the new item `NewItem` describes |
| GenericRss.SelectItems | generic_rss.py:57-88 | specification of the entry loop without the cap (properties: `SelectionInOrder`, `SelectionFailure`, `FailureFinal`, `AllCached`, `NoneCached`) |
| GenericRss.SelectionInOrder | generic_rss.py:57-88 | the selection has one item per entry in feed order, each the item its entry yields, and no more new items than items |
| GenericRss.SelectionFailure | generic_rss.py:57-88 | the run fails exactly when some entry raises, and with the first such entry's exception |
| GenericRss.FailureFinal | generic_rss.py:57-88 | once an entry has raised, later entries do not change the outcome |
| GenericRss.AllCached | generic_rss.py:63-66 | when every entry is cached, the run succeeds, emits the cached items and counts no new item |
| GenericRss.NoneCached | generic_rss.py:68-88 | when no entry is cached, every emitted item is counted as new |
| GenericRss.ProcessEntries | generic_rss.py:53-88 | the entry loop emits the selection of the first fifty entries, with no more than fifty items and no more new items than items |
| GenericRss.RssChannel | generic_rss.py:37-88 | specification of `process_rss_feed` on the parsed cache and feed (properties: `ChannelItems`, `ProcessRssFeed`) |
| GenericRss.ProcessRssFeed | generic_rss.py:37-88 | `process_rss_feed` raises on missing channel metadata, else builds the channel from the selection |
| GenericRss.ChannelItems | generic_rss.py:49-88 | the written channel holds one item per leading entry, at most fifty: the cached item for the entry's guid when there is one, else the entry's new item |
| GenericRss.ItemsCarryEntryGuids | generic_rss.py:62-72 | every emitted item carries its entry's guid |
| GenericRss.IndexUniqueGuid | generic_rss.py:28-31 | an item whose guid no other item carries is the one filed under that guid |
| GenericRss.SecondRunBuildsNothing | generic_rss.py:19-88 | a second run over the same entries, with the items just written as the cache, succeeds and builds no new item |
| GenericRss.SecondRunSameItems | generic_rss.py:19-88 | when the entries' guids are distinct, that second run emits exactly the items of the first |

## Left out

- Flask routing, the `index` page and its template, `jsonify` and the error message texts: responses are the `Response` datatype, with `Status` giving the HTTP code.
- Start-up side effects (app.py:13-42): creating folders, copying the example configuration and feed processors, and the `pip install` subprocess.
- `base_url` is normalised once at start-up (app.py:53-56). `ConfigStore.Feed` reloads the raw file and does not normalise it again, as in the source. The route prefix built from it is not modelled.
- YAML parsing and its errors: the configuration arrives already parsed. YAML lists and other scalars are the opaque `Other` node, and anchors/aliases are not modelled.
- Non-string YAML keys: mapping keys are strings in the model. A key YAML reads as an integer or a boolean (`2024:`, `yes:`) is never equal to the path segment `"2024"` in app.py:64, so in the source such a feed is not found; the model cannot express that configuration.
- The import machinery, `inspect.signature`, werkzeug's type conversions and the processors' own code: these are oracle parameters, and their exceptions are opaque `Raised` values.
- Exceptions that are not subclasses of `Exception` (`SystemExit`, `KeyboardInterrupt`): the oracles for `inspect.signature`, the `type=` converters and `process_feed` raise only `Exception` subclasses in the model. In the source such an exception passes the `except Exception` at app.py:110 and app.py:115, escapes Flask and the server as well, and the connection is dropped with no answer. The model would answer it with a query error or a processing failure.
- Non-text scalars as `processor` or `base_url`: every non-string, non-mapping value is the `Other` node, and the model raises AttributeError for it at app.py:53 and app.py:94, as an int, a list or null do in the source. A `!!binary` value (Python `bytes`) raises TypeError there instead.
- The traceback text in error messages: only which exception it reports is kept.
- Flask's `Response(xml_data, ...)` for processor results that are not strings: the processor's result is taken to be a string.
- Concurrent requests and the unsynchronised global `config`.
- generic_rss.py's `requests.get`, BeautifulSoup, `feedparser.parse`, the ElementTree parse/indent/write/tostring and the `print` of error messages (generic_rss.py:16,34): the cache file arrives parsed, and the feed arrives as `Feed`.
  - `get_image_from_url` is the `ImageLookup` oracle.
  - The channel is returned as a value, not serialised XML.
- GenericRss.GetExistingEntries: exceptions raised while walking a parsed tree (the source catches them all) are not modelled, since a parsed list of items cannot fail.
- GenericRss.SecondRunBuildsNothing: takes the written items to read back unchanged. ElementTree writes an empty text as an empty element, which reads back as None (generic_rss.py:31,72), so in the source an entry whose guid (or link, when it has no guid) is the empty string is built again on the second run.
- GenericRss.SecondRunSameItems: takes the written items to read back unchanged, with the same empty-text exception as `SecondRunBuildsNothing`.
- The example processors (example_feed_processor.py, feed_processors/example.py): fixed string templates with no logic.
