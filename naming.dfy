/** The small string normalisations of app.py: the base URL, the processor
    module name, the feed name taken from the request path and the cache
    file path handed to a processor. */
module Naming {
  import opened Strings

  /** app.py:53-56: the configured `base_url` gets a leading `/` when it has
      none, then a trailing `/` when it has none. */
  function NormalizeBaseUrl(s: string): (r: string)
    ensures StartsWith(r, "/") && EndsWith(r, "/")
    ensures StartsWith(s, "/") && EndsWith(s, "/") ==> r == s
    ensures r == s || r == "/" + s || r == s + "/" || r == "/" + s + "/"
    ensures StartsWith(s, "/") ==> StartsWith(r, s)
    ensures EndsWith(s, "/") ==> EndsWith(r, s)
    ensures s == "" ==> r == "/"
  {
    var lead := if StartsWith(s, "/") then s else "/" + s;
    assert lead[0] == '/';
    if EndsWith(lead, "/") then lead else lead + "/"
  }

  /** Normalising a second time changes nothing. */
  lemma NormalizeBaseUrlIdempotent(s: string)
    ensures NormalizeBaseUrl(NormalizeBaseUrl(s)) == NormalizeBaseUrl(s)
  {
  }

  /** app.py:94-95: a processor named with a trailing `.py` loses exactly
      those three characters; any other name is kept. */
  function StripPySuffix(processor: string): (r: string)
    ensures EndsWith(processor, ".py") ==> r + ".py" == processor
    ensures !EndsWith(processor, ".py") ==> r == processor
  {
    if EndsWith(processor, ".py") then processor[..|processor| - 3] else processor
  }

  /** `foo.py` and `foo` name the same module, and only one `.py` is
      removed: `foo.py.py` names module `foo.py`. */
  lemma {:induction false} StripPySuffixOfSourceName(name: string)
    ensures StripPySuffix(name + ".py") == name
  {
    var s := name + ".py";
    assert s[|s| - 3..] == ".py";
    assert s[..|s| - 3] == name;
  }

  /** app.py:96: the module imported for a processor. */
  function ProcessorModule(processor: string): (r: string)
    ensures EndsWith(processor, ".py") ==> r + ".py" == "feed_processors." + processor
    ensures !EndsWith(processor, ".py") ==> r == "feed_processors." + processor
  {
    "feed_processors." + StripPySuffix(processor)
  }

  /** `os.path.join(a, b)` for two components: an absolute `b` replaces
      `a`; otherwise `/` is inserted unless `a` is empty or already ends
      with one. */
  function PathJoin(a: string, b: string): (r: string)
    ensures StartsWith(b, "/") ==> r == b
    ensures !StartsWith(b, "/") ==> EndsWith(r, b) && StartsWith(r, a)
    ensures !StartsWith(b, "/") && a != [] && !EndsWith(a, "/") ==> r == a + "/" + b
    ensures !StartsWith(b, "/") && (a == [] || EndsWith(a, "/")) ==> r == a + b
  {
    if StartsWith(b, "/") then b
    else if a == [] || EndsWith(a, "/") then a + b
    else a + "/" + b
  }

  /** app.py:15: `FEED_CACHE_FOLDER_PATH`. */
  function CacheFolder(configPath: string): (r: string)
    ensures StartsWith(r, configPath) && EndsWith(r, "feed_cache")
    ensures configPath == [] || EndsWith(configPath, "/") ==> r == configPath + "feed_cache"
    ensures configPath != [] && !EndsWith(configPath, "/") ==> r == configPath + "/feed_cache"
  {
    assert "feed_cache"[0] != '/';
    PathJoin(configPath, "feed_cache")
  }

  /** app.py:88: the feed name is the last `/`-separated piece of the
      request path (the path is not stripped first). */
  function FeedName(feedPath: string): (r: string)
    ensures '/' !in r && EndsWith(feedPath, r)
    ensures |r| < |feedPath| ==> feedPath[|feedPath| - |r| - 1] == '/'
  {
    LastPiece(feedPath, '/')
  }

  /** app.py:114: the cache file path passed to the processor,
      `os.path.join(FEED_CACHE_FOLDER_PATH, feed_name) + ".xml"`. */
  function CachePath(configPath: string, feedPath: string): string {
    PathJoin(CacheFolder(configPath), FeedName(feedPath)) + ".xml"
  }

  /** The cache path is always `<cache folder>/<feed name>.xml`, with the
      cache folder ending in `feed_cache`: the feed name never holds a `/`,
      so it can neither replace the folder nor reach a sub-directory. */
  lemma CachePathShape(configPath: string, feedPath: string)
    ensures EndsWith(CacheFolder(configPath), "feed_cache")
    ensures CachePath(configPath, feedPath)
         == CacheFolder(configPath) + "/" + FeedName(feedPath) + ".xml"
  {
    var folder := CacheFolder(configPath);
    assert !StartsWith("feed_cache", "/") by { assert "feed_cache"[0] != '/'; }
    assert folder != [] && folder[|folder| - 1] == 'e';
    var name := FeedName(feedPath);
    assert !StartsWith(name, "/") by {
      if |name| > 0 { assert name[0] in name; }
    }
  }
}
