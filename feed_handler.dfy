/** The `feed` request handler of app.py (lines 81-119) and the process-wide
    configuration it reloads on every request (lines 44-56). The handler is
    stated twice: `HandleFeed` and its stages are the decision procedure as
    functions, with the lemmas about them, and `ConfigStore.Feed` is the
    handler as the source runs it, step by step, writing each edit of the
    feed descriptor through to the configuration that holds it. */
module FeedPipeline {
  import opened Common
  import opened Strings
  import opened ConfigTree
  import opened Naming
  import opened ArgumentMerge

  /** The arguments of one call of a processor's `process_feed`: the
      descriptor's `name` and `url`, the cache file path and the keyword
      arguments. */
  datatype Invocation = Invocation(name: Node, url: Node, outputFile: string, kwargs: map<string, Node>)

  /** A module's `process_feed`: the parameters `inspect.signature` reports
      for it (or the exception it raises) and what calling it returns or
      raises. The processor is user code; nothing about it is assumed. */
  datatype Processor = Processor(
    signature: Result<seq<Param>, Exception>,
    run: Invocation -> Result<string, Exception>)

  /** A freshly (re)loaded processor module; `processFeed` is None when it
      has no `process_feed` attribute. */
  datatype Module = Module(processFeed: Option<Processor>)

  /** `importlib.import_module` followed by `importlib.reload`: the module,
      an ImportError (which the handler catches), or any other exception
      raised while loading it (which escapes the handler). */
  datatype ImportOutcome =
    | Imported(loaded: Module)
    | ImportFailed(exc: Exception)
    | ImportCrashed(exc: Exception)

  /** What the handler takes from outside the request: the `CONFIG_PATH`
      setting, the module loader and werkzeug's value conversion. */
  datatype Env = Env(configPath: string, importModule: string -> ImportOutcome, coerce: Coercer)

  /** The failures the handler answers with a JSON error and status 500. */
  datatype FeedError =
    | ProcessorNotFound(processor: string, exc: Exception)   // app.py:98-99
    | NoProcessFeed(processor: string)                       // app.py:101-102
    | BadQueryArgs(exc: Exception)                           // app.py:110-111
    | ProcessingFailed(exc: Exception)                       // app.py:115-116

  /** The handler's answer. `Crashed` is an exception that escapes the
      handler; Flask then answers 500 on its own. */
  datatype Response =
    | NotFound                 // {"error": "Feed not found"}, 404
    | Failed(error: FeedError)
    | Xml(body: string)        // application/xml
    | Crashed(exc: Exception)

  /** The HTTP status code of a response. */
  function Status(r: Response): (code: int)
    ensures code == 404 <==> r.NotFound?
    ensures code == 200 <==> r.Xml?
    ensures code == 200 || code == 404 || code == 500
  {
    match r
    case NotFound => 404
    case Failed(_) => 500
    case Xml(_) => 200
    case Crashed(_) => 500
  }

  /** app.py:113-119: the processor's string becomes the XML body; an
      exception it raises becomes a 500. */
  function Reply(result: Result<string, Exception>): (r: Response)
    ensures result.Ok? <==> r.Xml?
    ensures result.Ok? ==> r == Xml(result.value)
    ensures result.Err? ==> r == Failed(ProcessingFailed(result.error))
  {
    match result
    case Ok(xml) => Xml(xml)
    case Err(e) => Failed(ProcessingFailed(e))
  }

  /** What one request did: the response, the configuration afterwards, the
      module it imported if any, and the processor call it made if any. */
  datatype Outcome = Outcome(
    response: Response,
    config: Node,
    imported: Option<string>,
    invoked: Option<Invocation>)

  /** What the handler did once it holds a descriptor: the response, the
      descriptor as edited (`feed_data` at that point), the module imported
      and the processor call made. */
  datatype Step = Step(
    response: Response,
    feedData: map<string, Node>,
    imported: Option<string>,
    invoked: Option<Invocation>)

  /** The key sequence of the feed's descriptor from the root of the
      configuration: `config["feeds"]` then the request path's keys. */
  function FullKeys(feedPath: string): seq<string> {
    ["feeds"] + PathKeys(feedPath)
  }

  /** Looking below `config["feeds"]` is looking below the root along
      `FullKeys`. */
  lemma FeedsPrefix(loaded: Node, feedPath: string)
    requires Has(loaded, "feeds")
    ensures Exists(loaded, FullKeys(feedPath)) == Exists(loaded.entries["feeds"], PathKeys(feedPath))
    ensures Walk(loaded, FullKeys(feedPath)) == Walk(loaded.entries["feeds"], PathKeys(feedPath))
  {
    var full := FullKeys(feedPath);
    assert full[0] == "feeds" && full[1..] == PathKeys(feedPath);
  }

  /** The feed descriptor a request path selects, when the path exists
      below `feeds` and leads to a mapping. */
  function Descriptor(loaded: Node, feedPath: string): Option<map<string, Node>> {
    if Has(loaded, "feeds") && Exists(loaded.entries["feeds"], PathKeys(feedPath))
    then
      ExistsIffWalkSucceeds(loaded.entries["feeds"], PathKeys(feedPath));
      match Walk(loaded.entries["feeds"], PathKeys(feedPath)).value
      case Dict(d) => Some(d)
      case _ => None
    else None
  }

  /** The static arguments of a descriptor, `{}` when it has none (app.py:90-91);
      None when `args` is set to something that is not a mapping. */
  function StaticArgs(d: map<string, Node>): Option<map<string, Node>> {
    if "args" !in d then Some(map[])
    else match d["args"]
      case Dict(a) => Some(a)
      case _ => None
  }

  /** The processor a module name loads to, if it loads and has
      `process_feed`. */
  function LoadedProcessor(env: Env, moduleName: string): Option<Processor> {
    match env.importModule(moduleName)
    case Imported(m) => m.processFeed
    case _ => None
  }

  /** app.py:81-119: one request for `feedPath` with query `query`, after
      `reload_config()` has loaded `loaded`. The descriptor is edited in
      place, so the configuration afterwards holds the edited descriptor. */
  function HandleFeed(loaded: Node, feedPath: string, query: map<string, string>, env: Env): Outcome {
    if !loaded.Dict? then Outcome(Crashed(TypeError), loaded, None, None)
    else if "feeds" !in loaded.entries then Outcome(Crashed(KeyError("feeds")), loaded, None, None)
    else
      var feeds := loaded.entries["feeds"];
      var keys := PathKeys(feedPath);
      if !Exists(feeds, keys) then Outcome(NotFound, loaded, None, None)
      else
        ExistsIffWalkSucceeds(feeds, keys);
        FeedsPrefix(loaded, feedPath);
        match Walk(feeds, keys).value
        case Dict(d0) =>
          var st := HandleDescriptor(feedPath, d0, query, env);
          Outcome(st.response, Put(loaded, FullKeys(feedPath), Dict(st.feedData)), st.imported, st.invoked)
        case _ => Outcome(Crashed(TypeError), loaded, None, None)
  }

  /** app.py:90-91: a descriptor without `args` gets an empty mapping. */
  function WithArgs(d0: map<string, Node>): map<string, Node> {
    if "args" in d0 then d0 else d0["args" := Dict(map[])]
  }

  /** app.py:90-94: default the static arguments, then read the processor
      name; a descriptor without a string `processor` raises out of the
      handler (the `except ImportError` does not catch it). */
  function HandleDescriptor(feedPath: string, d0: map<string, Node>,
                            query: map<string, string>, env: Env): Step
  {
    var d1 := WithArgs(d0);
    if "processor" !in d1 then Step(Crashed(KeyError("processor")), d1, None, None)
    else match d1["processor"]
      case Str(p) => HandleProcessor(feedPath, d1, p, query, env)
      case _ => Step(Crashed(AttributeError("endswith")), d1, None, None)
  }

  /** app.py:94-102: strip `.py` from the processor name (editing the
      descriptor), load the module fresh and check it has `process_feed`. */
  function HandleProcessor(feedPath: string, d1: map<string, Node>, p: string,
                           query: map<string, string>, env: Env): Step
    requires "args" in d1 && "processor" in d1 && d1["processor"] == Str(p)
  {
    var name := StripPySuffix(p);
    var d2 := if EndsWith(p, ".py") then d1["processor" := Str(name)] else d1;
    var moduleName := "feed_processors." + name;
    match env.importModule(moduleName)
    case ImportFailed(e) => Step(Failed(ProcessorNotFound(name, e)), d2, Some(moduleName), None)
    case ImportCrashed(e) => Step(Crashed(e), d2, Some(moduleName), None)
    case Imported(m) =>
      if m.processFeed.None? then Step(Failed(NoProcessFeed(name)), d2, Some(moduleName), None)
      else HandleCall(feedPath, d2, m.processFeed.value, query, env).(imported := Some(moduleName))
  }

  /** app.py:104-119: merge the query arguments into `args` (editing the
      descriptor), call the processor and wrap what it returns. */
  function HandleCall(feedPath: string, d2: map<string, Node>, pf: Processor,
                      query: map<string, string>, env: Env): Step
    requires "args" in d2
  {
    match pf.signature
    case Err(e) => Step(Failed(BadQueryArgs(e)), d2, None, None)
    case Ok(params) =>
      match QueryArgs(query, params, env.coerce)
      case Err(e) => Step(Failed(BadQueryArgs(e)), d2, None, None)
      case Ok(queryArgs) => MergeAndRun(feedPath, d2, pf, queryArgs, env)
  }

  /** app.py:109-119 once the query arguments are known: merge them into
      `args` (editing the descriptor), then call the processor. */
  function MergeAndRun(feedPath: string, d2: map<string, Node>, pf: Processor,
                       queryArgs: map<string, Node>, env: Env): Step
    requires "args" in d2
  {
    match d2["args"]
    case Dict(staticArgs) => Run(feedPath, d2["args" := Dict(MergeArgs(staticArgs, queryArgs))], pf, env)
    case _ => Step(Failed(BadQueryArgs(TypeError)), d2, None, None)
  }

  /** app.py:113-119: call the processor with the descriptor's `name`,
      `url`, the cache path and its `args` as keyword arguments. */
  function Run(feedPath: string, d3: map<string, Node>, pf: Processor, env: Env): Step
    requires "args" in d3 && d3["args"].Dict?
  {
    if "name" !in d3 then Step(Failed(ProcessingFailed(KeyError("name"))), d3, None, None)
    else if "url" !in d3 then Step(Failed(ProcessingFailed(KeyError("url"))), d3, None, None)
    else
      var inv := Invocation(d3["name"], d3["url"], CachePath(env.configPath, feedPath), d3["args"].entries);
      Step(Reply(pf.run(inv)), d3, None, Some(inv))
  }

  /** `d'` is `d0` edited by the handler: every key kept, `args` added,
      nothing but `args` and `processor` changed. */
  predicate EditOf(d0: map<string, Node>, d': map<string, Node>) {
    && d'.Keys == d0.Keys + {"args"}
    && forall k :: k in d0 && k != "args" && k != "processor" ==> d'[k] == d0[k]
  }

  /** What the call stage (app.py:104-119) does, in terms of the
      descriptor `d2` it starts from. */
  lemma CallStage(feedPath: string, d2: map<string, Node>, pf: Processor,
                  query: map<string, string>, env: Env)
    requires "args" in d2
    ensures var st := HandleCall(feedPath, d2, pf, query, env);
      && st.imported == None
      && (st.response.Failed? || st.response.Xml?)
      && (st.response.Failed? ==> st.response.error.BadQueryArgs? || st.response.error.ProcessingFailed?)
      && (st.response.Xml? ==> st.invoked.Some?)
      && EditOf(d2, st.feedData)
    ensures var st := HandleCall(feedPath, d2, pf, query, env);
      && st.feedData.Keys == d2.Keys
      && (forall k :: k in d2 && k != "args" ==> st.feedData[k] == d2[k])
      && st.feedData["args"]
           == if pf.signature.Ok? && QueryArgs(query, pf.signature.value, env.coerce).Ok? && d2["args"].Dict?
              then Dict(MergeArgs(d2["args"].entries, QueryArgs(query, pf.signature.value, env.coerce).value))
              else d2["args"]
    ensures var st := HandleCall(feedPath, d2, pf, query, env);
      st.response.Failed? && st.response.error.BadQueryArgs? ==>
        && st.invoked == None
        && (|| pf.signature == Err(st.response.error.exc)
            || (pf.signature.Ok? && QueryArgs(query, pf.signature.value, env.coerce) == Err(st.response.error.exc))
            || (pf.signature.Ok? && QueryArgs(query, pf.signature.value, env.coerce).Ok?
                && !d2["args"].Dict? && st.response.error.exc == TypeError))
    ensures var st := HandleCall(feedPath, d2, pf, query, env);
      st.invoked.Some? ==>
        && pf.signature.Ok? && QueryArgs(query, pf.signature.value, env.coerce).Ok?
        && d2["args"].Dict? && "name" in d2 && "url" in d2
        && st.invoked.value == Invocation(d2["name"], d2["url"], CachePath(env.configPath, feedPath),
             MergeArgs(d2["args"].entries, QueryArgs(query, pf.signature.value, env.coerce).value))
        && st.response == Reply(pf.run(st.invoked.value))
    ensures pf.signature.Ok? && QueryArgs(query, pf.signature.value, env.coerce).Ok? && d2["args"].Dict?
            && "name" in d2 && "url" in d2 ==>
      HandleCall(feedPath, d2, pf, query, env).invoked.Some?
  {
    if pf.signature.Ok? && QueryArgs(query, pf.signature.value, env.coerce).Ok? && d2["args"].Dict? {
      var merged := MergeArgs(d2["args"].entries, QueryArgs(query, pf.signature.value, env.coerce).value);
      var d3 := d2["args" := Dict(merged)];
      assert HandleCall(feedPath, d2, pf, query, env) == Run(feedPath, d3, pf, env);
      assert EditOf(d2, d3);
    }
  }

  /** The call stage answers every case as app.py:104-119 does: a failing
      signature, conversion or non-mapping `args` is a query error carrying
      that exception; a missing `name` or `url` is a processing failure;
      otherwise the processor is called and its result is the answer. */
  lemma CallResponses(feedPath: string, d2: map<string, Node>, pf: Processor,
                      query: map<string, string>, env: Env)
    requires "args" in d2
    ensures pf.signature.Err? ==>
      HandleCall(feedPath, d2, pf, query, env).response == Failed(BadQueryArgs(pf.signature.error))
    ensures pf.signature.Ok? && QueryArgs(query, pf.signature.value, env.coerce).Err? ==>
      HandleCall(feedPath, d2, pf, query, env).response
        == Failed(BadQueryArgs(QueryArgs(query, pf.signature.value, env.coerce).error))
    ensures pf.signature.Ok? && QueryArgs(query, pf.signature.value, env.coerce).Ok? && !d2["args"].Dict? ==>
      HandleCall(feedPath, d2, pf, query, env).response == Failed(BadQueryArgs(TypeError))
    ensures pf.signature.Ok? && QueryArgs(query, pf.signature.value, env.coerce).Ok? && d2["args"].Dict? ==>
      var st := HandleCall(feedPath, d2, pf, query, env);
      && ("name" !in d2 ==> st.response == Failed(ProcessingFailed(KeyError("name"))) && st.invoked == None)
      && ("name" in d2 && "url" !in d2 ==> st.response == Failed(ProcessingFailed(KeyError("url"))) && st.invoked == None)
      && ("name" in d2 && "url" in d2 ==>
            && st.invoked == Some(Invocation(d2["name"], d2["url"], CachePath(env.configPath, feedPath),
                                             MergeArgs(d2["args"].entries, QueryArgs(query, pf.signature.value, env.coerce).value)))
            && st.response == Reply(pf.run(st.invoked.value)))
  {
    if pf.signature.Ok? && QueryArgs(query, pf.signature.value, env.coerce).Ok? && d2["args"].Dict? {
      var merged := MergeArgs(d2["args"].entries, QueryArgs(query, pf.signature.value, env.coerce).value);
      var d3 := d2["args" := Dict(merged)];
      assert HandleCall(feedPath, d2, pf, query, env) == Run(feedPath, d3, pf, env);
      assert ("name" in d3 <==> "name" in d2) && ("url" in d3 <==> "url" in d2);
    }
  }

  /** What the processor stage (app.py:94-119) does, in terms of the
      descriptor `d1` (which has `args`) and its processor name `p`. */
  lemma ProcessorStage(feedPath: string, d1: map<string, Node>, p: string,
                       query: map<string, string>, env: Env)
    requires "args" in d1 && "processor" in d1 && d1["processor"] == Str(p)
    ensures var st := HandleProcessor(feedPath, d1, p, query, env);
      && !st.response.NotFound?
      && st.imported == Some(ProcessorModule(p))
      && (st.response.Crashed? || (st.response.Failed? && !st.response.error.ProcessingFailed?) ==> st.invoked == None)
      && EditOf(d1, st.feedData)
    ensures var st := HandleProcessor(feedPath, d1, p, query, env);
      st.response.Failed? && st.response.error.ProcessorNotFound? ==>
        && env.importModule(st.imported.value) == ImportFailed(st.response.error.exc)
        && st.imported.value == "feed_processors." + st.response.error.processor
    ensures var st := HandleProcessor(feedPath, d1, p, query, env);
      st.response.Failed? && st.response.error.NoProcessFeed? ==>
        && env.importModule(st.imported.value).Imported?
        && env.importModule(st.imported.value).loaded.processFeed == None
    ensures var st := HandleProcessor(feedPath, d1, p, query, env);
      st.response.Failed? && st.response.error.BadQueryArgs? ==>
        && LoadedProcessor(env, st.imported.value).Some?
        && var pf := LoadedProcessor(env, st.imported.value).value;
           (|| pf.signature == Err(st.response.error.exc)
            || (pf.signature.Ok? && QueryArgs(query, pf.signature.value, env.coerce) == Err(st.response.error.exc))
            || (pf.signature.Ok? && QueryArgs(query, pf.signature.value, env.coerce).Ok?
                && !d1["args"].Dict? && st.response.error.exc == TypeError))
    ensures var st := HandleProcessor(feedPath, d1, p, query, env);
      st.response.Xml? || st.invoked.Some? ==>
        && st.invoked.Some? && LoadedProcessor(env, st.imported.value).Some?
        && var pf := LoadedProcessor(env, st.imported.value).value;
        && pf.signature.Ok? && QueryArgs(query, pf.signature.value, env.coerce).Ok?
        && d1["args"].Dict? && "name" in d1 && "url" in d1
        && st.invoked.value == Invocation(d1["name"], d1["url"], CachePath(env.configPath, feedPath),
             MergeArgs(d1["args"].entries, QueryArgs(query, pf.signature.value, env.coerce).value))
        && st.response == Reply(pf.run(st.invoked.value))
  {
    var name := StripPySuffix(p);
    var d2 := if EndsWith(p, ".py") then d1["processor" := Str(name)] else d1;
    assert EditOf(d1, d2);
    assert d2["args"] == d1["args"];
    assert "name" in d2 <==> "name" in d1;
    assert "name" in d1 ==> d2["name"] == d1["name"];
    assert "url" in d2 <==> "url" in d1;
    assert "url" in d1 ==> d2["url"] == d1["url"];
    match env.importModule(ProcessorModule(p))
    case Imported(m) =>
      if m.processFeed.Some? {
        var pf := m.processFeed.value;
        CallStage(feedPath, d2, pf, query, env);
        var st := HandleCall(feedPath, d2, pf, query, env);
        assert HandleProcessor(feedPath, d1, p, query, env) == st.(imported := Some(ProcessorModule(p)));
        assert EditOf(d1, st.feedData);
      }
    case _ =>
  }

  /** The import stage answers each outcome of the import as app.py:94-102
      does: an ImportError names the processor without `.py`, any other
      import failure escapes, and a module without `process_feed` is the
      contract error. */
  lemma ProcessorResponses(feedPath: string, d1: map<string, Node>, p: string,
                           query: map<string, string>, env: Env)
    requires "args" in d1 && "processor" in d1 && d1["processor"] == Str(p)
    ensures env.importModule(ProcessorModule(p)).ImportFailed? ==>
      HandleProcessor(feedPath, d1, p, query, env).response
        == Failed(ProcessorNotFound(StripPySuffix(p), env.importModule(ProcessorModule(p)).exc))
    ensures env.importModule(ProcessorModule(p)).ImportCrashed? ==>
      HandleProcessor(feedPath, d1, p, query, env).response == Crashed(env.importModule(ProcessorModule(p)).exc)
    ensures env.importModule(ProcessorModule(p)).Imported? && env.importModule(ProcessorModule(p)).loaded.processFeed.None? ==>
      HandleProcessor(feedPath, d1, p, query, env).response == Failed(NoProcessFeed(StripPySuffix(p)))
  {
    assert "feed_processors." + StripPySuffix(p) == ProcessorModule(p);
  }

  /** What the descriptor stage (app.py:90-119) does, in terms of the
      descriptor `d0` the path selected. */
  lemma DescriptorStage(feedPath: string, d0: map<string, Node>, query: map<string, string>, env: Env)
    ensures var st := HandleDescriptor(feedPath, d0, query, env);
      && !st.response.NotFound?
      && (st.imported.Some? <==> "processor" in d0 && d0["processor"].Str?)
      && (st.imported.Some? ==> st.imported == Some(ProcessorModule(d0["processor"].text)))
      && (st.response.Crashed? || (st.response.Failed? && !st.response.error.ProcessingFailed?) ==> st.invoked == None)
      && EditOf(d0, st.feedData)
    ensures var st := HandleDescriptor(feedPath, d0, query, env);
      st.response.Failed? && st.response.error.ProcessorNotFound? ==>
        && st.imported.Some?
        && env.importModule(st.imported.value) == ImportFailed(st.response.error.exc)
        && st.imported.value == "feed_processors." + st.response.error.processor
    ensures var st := HandleDescriptor(feedPath, d0, query, env);
      st.response.Failed? && st.response.error.NoProcessFeed? ==>
        && st.imported.Some?
        && env.importModule(st.imported.value).Imported?
        && env.importModule(st.imported.value).loaded.processFeed == None
    ensures var st := HandleDescriptor(feedPath, d0, query, env);
      st.response.Failed? && st.response.error.BadQueryArgs? ==>
        && st.imported.Some?
        && LoadedProcessor(env, st.imported.value).Some?
        && var pf := LoadedProcessor(env, st.imported.value).value;
           (|| pf.signature == Err(st.response.error.exc)
            || (pf.signature.Ok? && QueryArgs(query, pf.signature.value, env.coerce) == Err(st.response.error.exc))
            || (pf.signature.Ok? && QueryArgs(query, pf.signature.value, env.coerce).Ok?
                && StaticArgs(d0) == None && st.response.error.exc == TypeError))
    ensures var st := HandleDescriptor(feedPath, d0, query, env);
      st.response.Xml? || st.invoked.Some? ==>
        && st.invoked.Some? && st.imported.Some? && LoadedProcessor(env, st.imported.value).Some?
        && var pf := LoadedProcessor(env, st.imported.value).value;
        && pf.signature.Ok? && QueryArgs(query, pf.signature.value, env.coerce).Ok?
        && StaticArgs(d0).Some? && "name" in d0 && "url" in d0
        && st.invoked.value == Invocation(d0["name"], d0["url"], CachePath(env.configPath, feedPath),
             MergeArgs(StaticArgs(d0).value, QueryArgs(query, pf.signature.value, env.coerce).value))
        && st.response == Reply(pf.run(st.invoked.value))
  {
    var d1 := WithArgs(d0);
    assert EditOf(d0, d1);
    assert d1["args"] == (if "args" in d0 then d0["args"] else Dict(map[]));
    if "processor" in d1 && d1["processor"].Str? {
      ProcessorStage(feedPath, d1, d1["processor"].text, query, env);
      assert EditOf(d0, HandleDescriptor(feedPath, d0, query, env).feedData);
    }
  }

  /** The path has been found and selects a mapping. */
  lemma Selected(loaded: Node, feedPath: string, query: map<string, string>, env: Env)
    requires Descriptor(loaded, feedPath).Some?
    ensures Exists(loaded, FullKeys(feedPath))
    ensures Walk(loaded, FullKeys(feedPath)) == Ok(Dict(Descriptor(loaded, feedPath).value))
    ensures var st := HandleDescriptor(feedPath, Descriptor(loaded, feedPath).value, query, env);
      HandleFeed(loaded, feedPath, query, env)
        == Outcome(st.response, Put(loaded, FullKeys(feedPath), Dict(st.feedData)), st.imported, st.invoked)
  {
    ExistsIffWalkSucceeds(loaded.entries["feeds"], PathKeys(feedPath));
    FeedsPrefix(loaded, feedPath);
  }

  /** Without a selected mapping the handler stops before the descriptor
      stage, leaving the configuration as loaded: a configuration that is
      not a mapping raises TypeError, one without `feeds` raises
      KeyError('feeds'), a missing path is answered 404, and a path that
      ends at a string or other scalar raises TypeError when the handler
      treats it as a mapping (app.py:84-91). */
  lemma NotSelected(loaded: Node, feedPath: string, query: map<string, string>, env: Env)
    requires Descriptor(loaded, feedPath).None?
    ensures var o := HandleFeed(loaded, feedPath, query, env);
      && o.config == loaded && o.imported == None && o.invoked == None
      && (o.response == NotFound || o.response.Crashed?)
    ensures !loaded.Dict? ==> HandleFeed(loaded, feedPath, query, env).response == Crashed(TypeError)
    ensures loaded.Dict? && "feeds" !in loaded.entries ==>
      HandleFeed(loaded, feedPath, query, env).response == Crashed(KeyError("feeds"))
    ensures Has(loaded, "feeds") && !Exists(loaded.entries["feeds"], PathKeys(feedPath)) ==>
      HandleFeed(loaded, feedPath, query, env).response == NotFound
    ensures Has(loaded, "feeds") && Exists(loaded.entries["feeds"], PathKeys(feedPath)) ==>
      HandleFeed(loaded, feedPath, query, env).response == Crashed(TypeError)
  {
    if Has(loaded, "feeds") && Exists(loaded.entries["feeds"], PathKeys(feedPath)) {
      ExistsIffWalkSucceeds(loaded.entries["feeds"], PathKeys(feedPath));
    }
  }

  /** A path missing from `feeds` is answered 404 before any processor is
      looked up, and leaves the configuration as loaded; no other outcome
      has status 404. */
  lemma NotFoundBeforeLookup(loaded: Node, feedPath: string, query: map<string, string>, env: Env)
    ensures Status(HandleFeed(loaded, feedPath, query, env).response) == 404 <==>
      Has(loaded, "feeds") && !Exists(loaded.entries["feeds"], PathKeys(feedPath))
    ensures HandleFeed(loaded, feedPath, query, env).response == NotFound ==>
      var o := HandleFeed(loaded, feedPath, query, env);
      o.config == loaded && o.imported == None && o.invoked == None
  {
    if Descriptor(loaded, feedPath).Some? {
      Selected(loaded, feedPath, query, env);
      DescriptorStage(feedPath, Descriptor(loaded, feedPath).value, query, env);
    } else {
      NotSelected(loaded, feedPath, query, env);
      if Has(loaded, "feeds") && Exists(loaded.entries["feeds"], PathKeys(feedPath)) {
        ExistsIffWalkSucceeds(loaded.entries["feeds"], PathKeys(feedPath));
      }
    }
  }

  /** A path that stops at a namespace mapping (one without `processor`)
      is not answered 404: the handler gives the mapping an `args` entry and
      then fails with an uncaught KeyError. */
  lemma NamespacePathCrashes(loaded: Node, feedPath: string, query: map<string, string>, env: Env)
    requires Descriptor(loaded, feedPath).Some? && "processor" !in Descriptor(loaded, feedPath).value
    ensures var o := HandleFeed(loaded, feedPath, query, env);
      && o.response == Crashed(KeyError("processor"))
      && o.imported == None && o.invoked == None
      && o.config == Put(loaded, FullKeys(feedPath), Dict(WithArgs(Descriptor(loaded, feedPath).value)))
  {
    Selected(loaded, feedPath, query, env);
  }

  /** The answers a request whose path selects a descriptor `d` gets before
      the processor is loaded, case by case in the order app.py:90-102
      decides them: a missing or non-string `processor` escapes; an
      ImportError is "not found", naming the processor without `.py`;
      another import failure escapes; a module without `process_feed` is
      the contract error. */
  lemma FeedResponses(loaded: Node, feedPath: string, query: map<string, string>, env: Env)
    requires Descriptor(loaded, feedPath).Some?
    ensures var d := Descriptor(loaded, feedPath).value;
      && ("processor" !in d ==> HandleFeed(loaded, feedPath, query, env).response == Crashed(KeyError("processor")))
      && ("processor" in d && !d["processor"].Str? ==>
            HandleFeed(loaded, feedPath, query, env).response == Crashed(AttributeError("endswith")))
    ensures var d := Descriptor(loaded, feedPath).value;
      "processor" in d && d["processor"].Str? ==>
        var p := d["processor"].text;
        var out := env.importModule(ProcessorModule(p));
        var o := HandleFeed(loaded, feedPath, query, env);
        && (out.ImportFailed? ==> o.response == Failed(ProcessorNotFound(StripPySuffix(p), out.exc)))
        && (out.ImportCrashed? ==> o.response == Crashed(out.exc))
        && (out.Imported? && out.loaded.processFeed.None? ==> o.response == Failed(NoProcessFeed(StripPySuffix(p))))
  {
    Selected(loaded, feedPath, query, env);
    var d := Descriptor(loaded, feedPath).value;
    var d1 := WithArgs(d);
    if "processor" in d && d["processor"].Str? {
      var p := d["processor"].text;
      assert d1["processor"] == Str(p);
      ProcessorResponses(feedPath, d1, p, query, env);
    }
  }

  /** The answers a request whose path selects a descriptor `d` with a
      string `processor` gets once `process_feed` is loaded, as app.py:104-119
      decides them: a failing signature, conversion or non-mapping `args` is
      a query error carrying that exception; a missing `name` or `url` is a
      processing failure; and otherwise the processor is called with the
      descriptor's `name` and `url`, the cache path and the static arguments
      overridden by the query, and its result is the answer. */
  lemma FeedCallResponses(loaded: Node, feedPath: string, query: map<string, string>, env: Env)
    requires Descriptor(loaded, feedPath).Some?
    requires "processor" in Descriptor(loaded, feedPath).value && Descriptor(loaded, feedPath).value["processor"].Str?
    requires LoadedProcessor(env, ProcessorModule(Descriptor(loaded, feedPath).value["processor"].text)).Some?
    ensures var d := Descriptor(loaded, feedPath).value;
      var pf := LoadedProcessor(env, ProcessorModule(d["processor"].text)).value;
      var o := HandleFeed(loaded, feedPath, query, env);
      && (pf.signature.Err? ==> o.response == Failed(BadQueryArgs(pf.signature.error)))
      && (pf.signature.Ok? && QueryArgs(query, pf.signature.value, env.coerce).Err? ==>
            o.response == Failed(BadQueryArgs(QueryArgs(query, pf.signature.value, env.coerce).error)))
      && (pf.signature.Ok? && QueryArgs(query, pf.signature.value, env.coerce).Ok? && StaticArgs(d).None? ==>
            o.response == Failed(BadQueryArgs(TypeError)))
    ensures var d := Descriptor(loaded, feedPath).value;
      var pf := LoadedProcessor(env, ProcessorModule(d["processor"].text)).value;
      var o := HandleFeed(loaded, feedPath, query, env);
      pf.signature.Ok? && QueryArgs(query, pf.signature.value, env.coerce).Ok? && StaticArgs(d).Some? ==>
        && ("name" !in d ==> o.response == Failed(ProcessingFailed(KeyError("name"))))
        && ("name" in d && "url" !in d ==> o.response == Failed(ProcessingFailed(KeyError("url"))))
        && ("name" in d && "url" in d ==>
              && o.invoked == Some(Invocation(d["name"], d["url"], CachePath(env.configPath, feedPath),
                                              MergeArgs(StaticArgs(d).value, QueryArgs(query, pf.signature.value, env.coerce).value)))
              && o.response == Reply(pf.run(o.invoked.value)))
  {
    Selected(loaded, feedPath, query, env);
    var d := Descriptor(loaded, feedPath).value;
    var d1 := WithArgs(d);
    var p := d["processor"].text;
    var pf := LoadedProcessor(env, ProcessorModule(p)).value;
    var name := StripPySuffix(p);
    var d2 := if EndsWith(p, ".py") then d1["processor" := Str(name)] else d1;
    assert d2["args"] == d1["args"] == (if "args" in d then d["args"] else Dict(map[]));
    assert ("name" in d2 <==> "name" in d) && ("url" in d2 <==> "url" in d);
    assert "name" in d ==> d2["name"] == d["name"];
    assert "url" in d ==> d2["url"] == d["url"];
    assert "feed_processors." + name == ProcessorModule(p);
    assert HandleDescriptor(feedPath, d, query, env)
        == HandleCall(feedPath, d2, pf, query, env).(imported := Some(ProcessorModule(p)));
    CallResponses(feedPath, d2, pf, query, env);
  }

  /** The handler imports a module exactly when the path selects a mapping
      whose `processor` is a string, and the module is that name without
      `.py` under `feed_processors`. */
  lemma ImportsNamedProcessor(loaded: Node, feedPath: string, query: map<string, string>, env: Env)
    ensures HandleFeed(loaded, feedPath, query, env).imported.Some? <==>
      Descriptor(loaded, feedPath).Some? && "processor" in Descriptor(loaded, feedPath).value
      && Descriptor(loaded, feedPath).value["processor"].Str?
    ensures HandleFeed(loaded, feedPath, query, env).imported.Some? ==>
      HandleFeed(loaded, feedPath, query, env).imported
        == Some(ProcessorModule(Descriptor(loaded, feedPath).value["processor"].text))
  {
    if Descriptor(loaded, feedPath).Some? {
      Selected(loaded, feedPath, query, env);
      DescriptorStage(feedPath, Descriptor(loaded, feedPath).value, query, env);
    } else {
      NotSelected(loaded, feedPath, query, env);
    }
  }

  /** Every failure answered with status 500 comes from the stage the
      source checks it in, and none of them but a failing call calls the
      processor. */
  lemma FailuresBeforeCall(loaded: Node, feedPath: string, query: map<string, string>, env: Env)
    ensures var o := HandleFeed(loaded, feedPath, query, env);
      o.response.Crashed? || (o.response.Failed? && !o.response.error.ProcessingFailed?) ==> o.invoked == None
    ensures var o := HandleFeed(loaded, feedPath, query, env);
      o.response.Failed? && o.response.error.ProcessorNotFound? ==>
        && o.imported.Some?
        && env.importModule(o.imported.value) == ImportFailed(o.response.error.exc)
        && o.imported.value == "feed_processors." + o.response.error.processor
    ensures var o := HandleFeed(loaded, feedPath, query, env);
      o.response.Failed? && o.response.error.NoProcessFeed? ==>
        && o.imported.Some?
        && env.importModule(o.imported.value).Imported?
        && env.importModule(o.imported.value).loaded.processFeed == None
    ensures var o := HandleFeed(loaded, feedPath, query, env);
      o.response.Failed? && o.response.error.BadQueryArgs? ==>
        && o.imported.Some?
        && LoadedProcessor(env, o.imported.value).Some?
        && var pf := LoadedProcessor(env, o.imported.value).value;
           (|| pf.signature == Err(o.response.error.exc)
            || (pf.signature.Ok? && QueryArgs(query, pf.signature.value, env.coerce) == Err(o.response.error.exc))
            || (pf.signature.Ok? && QueryArgs(query, pf.signature.value, env.coerce).Ok?
                && Descriptor(loaded, feedPath).Some?
                && StaticArgs(Descriptor(loaded, feedPath).value) == None
                && o.response.error.exc == TypeError))
  {
    if Descriptor(loaded, feedPath).Some? {
      Selected(loaded, feedPath, query, env);
      DescriptorStage(feedPath, Descriptor(loaded, feedPath).value, query, env);
    } else {
      NotSelected(loaded, feedPath, query, env);
    }
  }

  /** When the processor is called, it is called once the path, the
      module, `process_feed` and the query arguments have all succeeded;
      with the descriptor's own `name` and `url`; with the cache path
      `<cache folder>/<last path piece>.xml`; and with the static arguments
      overridden by every query argument. Its result decides the response,
      and a successful response carries what it returned, unchanged. */
  lemma CallArguments(loaded: Node, feedPath: string, query: map<string, string>, env: Env)
    requires HandleFeed(loaded, feedPath, query, env).invoked.Some?
          || HandleFeed(loaded, feedPath, query, env).response.Xml?
    ensures var o := HandleFeed(loaded, feedPath, query, env);
      && o.invoked.Some?
      && Descriptor(loaded, feedPath).Some?
      && var d := Descriptor(loaded, feedPath).value;
      && o.imported.Some? && LoadedProcessor(env, o.imported.value).Some?
      && var pf := LoadedProcessor(env, o.imported.value).value;
      && pf.signature.Ok?
      && QueryArgs(query, pf.signature.value, env.coerce).Ok?
      && StaticArgs(d).Some?
      && var inv := o.invoked.value;
      && inv.kwargs == MergeArgs(StaticArgs(d).value, QueryArgs(query, pf.signature.value, env.coerce).value)
      && "name" in d && "url" in d && inv.name == d["name"] && inv.url == d["url"]
      && inv.outputFile == CacheFolder(env.configPath) + "/" + FeedName(feedPath) + ".xml"
      && o.response == Reply(pf.run(inv))
  {
    CachePathShape(env.configPath, feedPath);
    if Descriptor(loaded, feedPath).Some? {
      Selected(loaded, feedPath, query, env);
      DescriptorStage(feedPath, Descriptor(loaded, feedPath).value, query, env);
    } else {
      NotSelected(loaded, feedPath, query, env);
    }
  }

  /** The handler's edits reach the configuration only at the selected
      descriptor, which keeps every key, gains `args`, and changes at most
      `args` and `processor`. */
  lemma EditsStayInDescriptor(loaded: Node, feedPath: string, query: map<string, string>, env: Env)
    ensures var o := HandleFeed(loaded, feedPath, query, env);
      || o.config == loaded
      || (&& Descriptor(loaded, feedPath).Some?
          && Exists(loaded, FullKeys(feedPath))
          && Walk(o.config, FullKeys(feedPath)).Ok?
          && Walk(o.config, FullKeys(feedPath)).value.Dict?
          && o.config == Put(loaded, FullKeys(feedPath), Walk(o.config, FullKeys(feedPath)).value)
          && EditOf(Descriptor(loaded, feedPath).value, Walk(o.config, FullKeys(feedPath)).value.entries))
  {
    if Descriptor(loaded, feedPath).Some? {
      Selected(loaded, feedPath, query, env);
      DescriptorStage(feedPath, Descriptor(loaded, feedPath).value, query, env);
    } else {
      NotSelected(loaded, feedPath, query, env);
    }
  }

  /** Every other feed, and everything outside `feeds`, is untouched by a
      request: a path that leaves the descriptor's path at some key reads
      the same before and after. */
  lemma OtherPathsUntouched(loaded: Node, feedPath: string, query: map<string, string>, env: Env,
                            other: seq<string>, i: nat)
    requires var full := FullKeys(feedPath);
      i < |full| && i < |other| && full[..i] == other[..i] && full[i] != other[i]
    ensures Walk(HandleFeed(loaded, feedPath, query, env).config, other) == Walk(loaded, other)
  {
    var o := HandleFeed(loaded, feedPath, query, env);
    EditsStayInDescriptor(loaded, feedPath, query, env);
    if o.config != loaded {
      PutElsewhere(loaded, FullKeys(feedPath), Walk(o.config, FullKeys(feedPath)).value, other, i);
    }
  }

  /** The process-wide `config` of app.py. */
  class ConfigStore {
    var config: Node

    /** The first `reload_config()`, at start-up (app.py:50). */
    constructor (loaded: Node)
      ensures config == loaded
    {
      config := loaded;
    }

    /** `reload_config()` (app.py:44-48): the YAML file's current content
        replaces the configuration. */
    method Reload(loaded: Node)
      modifies this
      ensures config == loaded
    {
      config := loaded;
    }

    /** app.py:53-56, run once at start-up: `base_url` gets its leading and
        trailing `/`. A configuration that is not a mapping, lacks
        `base_url` or holds a non-string there makes start-up fail. */
    method NormalizeConfiguredBaseUrl() returns (failure: Option<Exception>)
      modifies this
      ensures !old(config).Dict? ==> failure == Some(TypeError) && config == old(config)
      ensures old(config).Dict? && "base_url" !in old(config).entries ==>
        failure == Some(KeyError("base_url")) && config == old(config)
      ensures Has(old(config), "base_url") && !old(config).entries["base_url"].Str? ==>
        failure == Some(AttributeError("startswith")) && config == old(config)
      ensures Has(old(config), "base_url") && old(config).entries["base_url"].Str? ==>
        && failure == None
        && config == Dict(old(config).entries["base_url" := Str(NormalizeBaseUrl(old(config).entries["base_url"].text))])
    {
      if !config.Dict? {
        return Some(TypeError);
      }
      if "base_url" !in config.entries {
        return Some(KeyError("base_url"));
      }
      if !config.entries["base_url"].Str? {
        return Some(AttributeError("startswith"));
      }
      var url := config.entries["base_url"].text;
      if !StartsWith(url, "/") {
        config := Dict(config.entries["base_url" := Str("/" + url)]);
      }
      url := config.entries["base_url"].text;
      if !EndsWith(url, "/") {
        config := Dict(config.entries["base_url" := Str(url + "/")]);
      }
      failure := None;
    }

    /** The `feed` route (app.py:81-88): reload, look the path up and fetch
        the descriptor, then hand over to the descriptor stage. */
    method Feed(loaded: Node, feedPath: string, query: map<string, string>, env: Env)
      returns (response: Response)
      modifies this
      ensures response == HandleFeed(loaded, feedPath, query, env).response
      ensures config == HandleFeed(loaded, feedPath, query, env).config
    {
      Reload(loaded);
      if !config.Dict? {
        return Crashed(TypeError);
      }
      if "feeds" !in config.entries {
        return Crashed(KeyError("feeds"));
      }
      var feeds := config.entries["feeds"];
      var found := DictPathExists(feeds, feedPath);
      if !found {
        return NotFound;
      }
      var feedData := DictGetByPath(feeds, feedPath);
      ExistsIffWalkSucceeds(feeds, PathKeys(feedPath));
      FeedsPrefix(config, feedPath);
      if !feedData.value.Dict? {
        return Crashed(TypeError);
      }
      response := EditAndCall(feedPath, feedData.value.entries, query, env);
    }

    /** app.py:90-119 on the descriptor `d0`, which the configuration holds
        at the path's keys: each edit of the descriptor is written into the
        configuration, as the source's in-place edits of `feed_data` are. */
    method EditAndCall(feedPath: string, d0: map<string, Node>, query: map<string, string>, env: Env)
      returns (response: Response)
      requires Exists(config, FullKeys(feedPath))
      requires Walk(config, FullKeys(feedPath)) == Ok(Dict(d0))
      modifies this
      ensures response == HandleDescriptor(feedPath, d0, query, env).response
      ensures config == Put(old(config), FullKeys(feedPath), Dict(HandleDescriptor(feedPath, d0, query, env).feedData))
    {
      var full := FullKeys(feedPath);
      PutSame(config, full);
      var feedData := d0;
      if "args" !in feedData {
        feedData := feedData["args" := Dict(map[])];
        config := Put(config, full, Dict(feedData));
      }
      if "processor" !in feedData {
        return Crashed(KeyError("processor"));
      }
      if !feedData["processor"].Str? {
        return Crashed(AttributeError("endswith"));
      }
      var p := feedData["processor"].text;
      response := LoadAndCall(feedPath, feedData, p, query, env);
      PutTwice(old(config), full, Dict(feedData), Dict(HandleProcessor(feedPath, feedData, p, query, env).feedData));
    }

    /** app.py:93-119 once the descriptor `d1` has its `args`: strip `.py`,
        import the module, check `process_feed`, then call it. */
    method LoadAndCall(feedPath: string, d1: map<string, Node>, p: string,
                       query: map<string, string>, env: Env)
      returns (response: Response)
      requires Exists(config, FullKeys(feedPath))
      requires Walk(config, FullKeys(feedPath)) == Ok(Dict(d1))
      requires "args" in d1 && "processor" in d1 && d1["processor"] == Str(p)
      modifies this
      ensures response == HandleProcessor(feedPath, d1, p, query, env).response
      ensures config == Put(old(config), FullKeys(feedPath), Dict(HandleProcessor(feedPath, d1, p, query, env).feedData))
    {
      var full := FullKeys(feedPath);
      PutSame(config, full);
      var feedData := d1;
      if EndsWith(p, ".py") {
        feedData := feedData["processor" := Str(p[..|p| - 3])];
        config := Put(config, full, Dict(feedData));
      }
      PutTwice(old(config), full, Dict(d1), Dict(feedData));
      var processor := feedData["processor"].text;
      assert processor == StripPySuffix(p);
      var feedModule: Module;
      match env.importModule("feed_processors." + processor)
      case ImportFailed(e) =>
        return Failed(ProcessorNotFound(processor, e));
      case ImportCrashed(e) =>
        return Crashed(e);
      case Imported(m) =>
        feedModule := m;
      if feedModule.processFeed.None? {
        return Failed(NoProcessFeed(processor));
      }
      response := Call(feedPath, feedData, feedModule.processFeed.value, query, env);
      PutTwice(old(config), full, Dict(feedData),
               Dict(HandleCall(feedPath, feedData, feedModule.processFeed.value, query, env).feedData));
    }

    /** app.py:104-119: merge the query arguments into `args` (writing the
        merge into the configuration), then call `process_feed`. */
    method Call(feedPath: string, d2: map<string, Node>, processFeed: Processor,
                query: map<string, string>, env: Env)
      returns (response: Response)
      requires Exists(config, FullKeys(feedPath))
      requires Walk(config, FullKeys(feedPath)) == Ok(Dict(d2)) && "args" in d2
      modifies this
      ensures response == HandleCall(feedPath, d2, processFeed, query, env).response
      ensures config == Put(old(config), FullKeys(feedPath), Dict(HandleCall(feedPath, d2, processFeed, query, env).feedData))
    {
      var full := FullKeys(feedPath);
      PutSame(config, full);
      if processFeed.signature.Err? {
        return Failed(BadQueryArgs(processFeed.signature.error));
      }
      var queryArgs := CollectQueryArgs(query, processFeed.signature.value, env.coerce);
      if queryArgs.Err? {
        return Failed(BadQueryArgs(queryArgs.error));
      }
      response := Invoke(feedPath, d2, processFeed, queryArgs.value, env);
    }

    /** app.py:109-119: merge the query arguments into `args`, writing the
        merge into the configuration, then call `process_feed`. */
    method Invoke(feedPath: string, d2: map<string, Node>, processFeed: Processor,
                       queryArgs: map<string, Node>, env: Env)
      returns (response: Response)
      requires Exists(config, FullKeys(feedPath))
      requires Walk(config, FullKeys(feedPath)) == Ok(Dict(d2)) && "args" in d2
      modifies this
      ensures response == MergeAndRun(feedPath, d2, processFeed, queryArgs, env).response
      ensures config == Put(old(config), FullKeys(feedPath),
                            Dict(MergeAndRun(feedPath, d2, processFeed, queryArgs, env).feedData))
    {
      var full := FullKeys(feedPath);
      PutSame(config, full);
      if !d2["args"].Dict? {
        return Failed(BadQueryArgs(TypeError));
      }
      var feedData := d2["args" := Dict(d2["args"].entries + queryArgs)];
      config := Put(config, full, Dict(feedData));
      PutTwice(old(config), full, Dict(d2), Dict(feedData));
      response := RunProcessor(feedPath, feedData, processFeed, env);
    }

    /** app.py:113-119: the call itself, which reads the descriptor and
        changes nothing. */
    method RunProcessor(feedPath: string, feedData: map<string, Node>, processFeed: Processor, env: Env)
      returns (response: Response)
      requires "args" in feedData && feedData["args"].Dict?
      ensures response == Run(feedPath, feedData, processFeed, env).response
    {
      if "name" !in feedData {
        return Failed(ProcessingFailed(KeyError("name")));
      }
      if "url" !in feedData {
        return Failed(ProcessingFailed(KeyError("url")));
      }
      var outputFile := PathJoin(CacheFolder(env.configPath), FeedName(feedPath)) + ".xml";
      var xmlData := processFeed.run(Invocation(feedData["name"], feedData["url"], outputFile, feedData["args"].entries));
      if xmlData.Err? {
        return Failed(ProcessingFailed(xmlData.error));
      }
      return Xml(xmlData.value);
    }
  }
}
