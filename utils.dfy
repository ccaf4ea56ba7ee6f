/** The helpers of `plone/cachepurging/utils.py`: whether purging is
    enabled, the paths to purge for an object, and the purge URLs for a
    path on each caching proxy. */
module Utils {
  import opened Text
  import opened Wrappers
  import opened Settings
  import Urls
  import Purger

  // ---------------------------------------------------------------------
  // isCachePurgingEnabled

  /** `isCachePurgingEnabled(registry)`: `lookup` stands for the registry
      utility found when no registry is passed in. */
  function IsCachePurgingEnabled(registry: Option<CachePurgingSettings>, lookup: Option<CachePurgingSettings>): bool
  {
    var found := if registry.None? then lookup else registry;
    if found.None? then false else found.value.enabled
  }

  /** Purging is on exactly when the registry that is used says so: the one
      passed in when there is one, otherwise the one looked up; with no
      registry at all it is off. */
  lemma IsCachePurgingEnabledRule(registry: Option<CachePurgingSettings>, lookup: Option<CachePurgingSettings>)
    ensures registry.Some? ==> (IsCachePurgingEnabled(registry, lookup) <==> registry.value.enabled)
    ensures registry.None? ==> (IsCachePurgingEnabled(registry, lookup) <==> lookup.Some? && lookup.value.enabled)
    ensures !IsCachePurgingEnabled(None, None)
  {
  }

  // ---------------------------------------------------------------------
  // getPathsToPurge

  /** One `IPurgePaths` adapter: its relative and absolute paths, each of
      which may be `None`. */
  datatype PathProvider = PathProvider(relativePaths: Option<seq<string>>, absolutePaths: Option<seq<string>>)

  /** An `IPurgePathRewriter`: a path to a list of paths, or `None`. */
  type Rewriter = string -> Option<seq<string>>

  /** The relative paths, each replaced by the rewriter's list when there is
      a rewriter (`None` counts as no paths). */
  function RewrittenPaths(relative: seq<string>, rewriter: Option<Rewriter>): seq<string>
    decreases |relative|
  {
    if |relative| == 0 then []
    else
      var first := if rewriter.None? then [relative[0]] else OrEmpty(rewriter.value(relative[0]));
      first + RewrittenPaths(relative[1..], rewriter)
  }

  /** What one provider contributes: its rewritten relative paths, then its
      absolute paths as they are. */
  function ProviderPaths(provider: PathProvider, rewriter: Option<Rewriter>): seq<string>
  {
    RewrittenPaths(OrEmpty(provider.relativePaths), rewriter) + OrEmpty(provider.absolutePaths)
  }

  /** `list(getPathsToPurge(context, request))`: the providers' paths in
      provider order. */
  function PathsToPurge(providers: seq<PathProvider>, rewriter: Option<Rewriter>): seq<string>
    decreases |providers|
  {
    if |providers| == 0 then []
    else ProviderPaths(providers[0], rewriter) + PathsToPurge(providers[1..], rewriter)
  }

  /** Reference listing: every provider's relative paths, then its absolute
      paths, provider after provider. */
  function Listed(providers: seq<PathProvider>): seq<string>
    decreases |providers|
  {
    if |providers| == 0 then []
    else OrEmpty(providers[0].relativePaths) + OrEmpty(providers[0].absolutePaths) + Listed(providers[1..])
  }

  /** All relative paths of all providers, the only paths a rewriter sees. */
  function AllRelative(providers: seq<PathProvider>): seq<string>
    decreases |providers|
  {
    if |providers| == 0 then [] else OrEmpty(providers[0].relativePaths) + AllRelative(providers[1..])
  }

  lemma {:induction false} RewrittenPathsWithout(relative: seq<string>)
    ensures RewrittenPaths(relative, None) == relative
    decreases |relative|
  {
    if |relative| > 0 {
      RewrittenPathsWithout(relative[1..]);
      assert relative == [relative[0]] + relative[1..];
    }
  }

  lemma {:induction false} RewrittenPathsIdentity(relative: seq<string>, rewriter: Rewriter)
    requires forall p :: rewriter(p) == Some([p])
    ensures RewrittenPaths(relative, Some(rewriter)) == relative
    decreases |relative|
  {
    if |relative| > 0 {
      RewrittenPathsIdentity(relative[1..], rewriter);
      assert relative == [relative[0]] + relative[1..];
    }
  }

  /** Without a rewriter the paths are listed as the providers give them. */
  lemma {:induction false} PathsToPurgeWithoutRewriter(providers: seq<PathProvider>)
    ensures PathsToPurge(providers, None) == Listed(providers)
    decreases |providers|
  {
    if |providers| > 0 {
      RewrittenPathsWithout(OrEmpty(providers[0].relativePaths));
      PathsToPurgeWithoutRewriter(providers[1..]);
      assert PathsToPurge(providers, None) ==
             (OrEmpty(providers[0].relativePaths) + OrEmpty(providers[0].absolutePaths)) + Listed(providers[1..]);
    }
  }

  /** A rewriter that gives every path back alone changes nothing. */
  lemma {:induction false} PathsToPurgeIdentityRewriter(providers: seq<PathProvider>, rewriter: Rewriter)
    requires forall p :: rewriter(p) == Some([p])
    ensures PathsToPurge(providers, Some(rewriter)) == PathsToPurge(providers, None)
    decreases |providers|
  {
    if |providers| > 0 {
      RewrittenPathsIdentity(OrEmpty(providers[0].relativePaths), rewriter);
      RewrittenPathsWithout(OrEmpty(providers[0].relativePaths));
      PathsToPurgeIdentityRewriter(providers[1..], rewriter);
    }
  }

  lemma {:induction false} RewrittenPathsAgree(relative: seq<string>, rw1: Rewriter, rw2: Rewriter)
    requires forall p :: p in relative ==> OrEmpty(rw1(p)) == OrEmpty(rw2(p))
    ensures RewrittenPaths(relative, Some(rw1)) == RewrittenPaths(relative, Some(rw2))
    decreases |relative|
  {
    if |relative| > 0 {
      assert relative[0] in relative;
      forall p | p in relative[1..] ensures OrEmpty(rw1(p)) == OrEmpty(rw2(p)) {
        assert p in relative;
      }
      RewrittenPathsAgree(relative[1..], rw1, rw2);
    }
  }

  /** Absolute paths never reach the rewriter: two rewriters that agree on
      every relative path give the same result. */
  lemma {:induction false} PathsToPurgeOnlyRewritesRelative(providers: seq<PathProvider>, rw1: Rewriter, rw2: Rewriter)
    requires forall p :: p in AllRelative(providers) ==> OrEmpty(rw1(p)) == OrEmpty(rw2(p))
    ensures PathsToPurge(providers, Some(rw1)) == PathsToPurge(providers, Some(rw2))
    decreases |providers|
  {
    if |providers| > 0 {
      var rel := OrEmpty(providers[0].relativePaths);
      forall p | p in rel ensures OrEmpty(rw1(p)) == OrEmpty(rw2(p)) {
        assert p in AllRelative(providers);
      }
      RewrittenPathsAgree(rel, rw1, rw2);
      forall p | p in AllRelative(providers[1..]) ensures OrEmpty(rw1(p)) == OrEmpty(rw2(p)) {
        assert p in AllRelative(providers);
      }
      PathsToPurgeOnlyRewritesRelative(providers[1..], rw1, rw2);
    }
  }

  /** Every absolute path of every provider is purged, whatever the
      rewriter. */
  lemma {:induction false} AbsolutePathsKept(providers: seq<PathProvider>, rewriter: Option<Rewriter>, i: nat, x: string)
    requires i < |providers| && x in OrEmpty(providers[i].absolutePaths)
    ensures x in PathsToPurge(providers, rewriter)
    decreases |providers|
  {
    if i == 0 {
      assert x in ProviderPaths(providers[0], rewriter);
    } else {
      AbsolutePathsKept(providers[1..], rewriter, i - 1, x);
    }
  }

  /** The paths of a list of providers are those of its parts, in order. */
  lemma {:induction false} PathsToPurgeAppend(ps1: seq<PathProvider>, ps2: seq<PathProvider>, rewriter: Option<Rewriter>)
    ensures PathsToPurge(ps1 + ps2, rewriter) == PathsToPurge(ps1, rewriter) + PathsToPurge(ps2, rewriter)
    decreases |ps1|
  {
    if |ps1| > 0 {
      assert (ps1 + ps2)[1..] == ps1[1..] + ps2;
      PathsToPurgeAppend(ps1[1..], ps2, rewriter);
    } else {
      assert ps1 + ps2 == ps2;
    }
  }

  // ---------------------------------------------------------------------
  // getURLsToPurge

  /** The proxy base with one trailing `/` removed. */
  function StripTrailingSlash(proxy: string): (r: string)
    ensures EndsWith(proxy, "/") ==> proxy == r + "/"
    ensures !EndsWith(proxy, "/") ==> r == proxy
  {
    if EndsWith(proxy, "/") then proxy[..|proxy| - 1] else proxy
  }

  /** The path with a leading `/`; the empty path becomes `/`. */
  function SlashPath(path: string): (r: string)
    ensures StartsWith(r, "/")
    ensures StartsWith(path, "/") ==> r == path
    ensures !StartsWith(path, "/") ==> r == "/" + path
  {
    if StartsWith(path, "/") then path else "/" + path
  }

  /** One purge URL: proxy base, then the path. */
  function PurgeUrl(proxy: string, path: string): string
  {
    StripTrailingSlash(proxy) + SlashPath(path)
  }

  /** `list(getURLsToPurge(path, proxies))`: one URL per proxy, in proxy
      order. */
  function UrlsToPurge(path: string, proxies: seq<string>): (r: seq<string>)
    ensures |r| == |proxies|
    ensures forall i :: 0 <= i < |proxies| ==> r[i] == PurgeUrl(proxies[i], path)
    decreases |proxies|
  {
    if |proxies| == 0 then [] else [PurgeUrl(proxies[0], path)] + UrlsToPurge(path, proxies[1..])
  }

  /** A proxy written with or without its trailing `/` gives the same URL. */
  lemma PurgeUrlTrailingSlash(base: string, path: string)
    requires !EndsWith(base, "/")
    ensures PurgeUrl(base + "/", path) == PurgeUrl(base, path)
  {
    assert EndsWith(base + "/", "/");
    assert (base + "/")[..|base|] == base;
  }

  /** A purge URL for a proxy `scheme://host` is routed to the queue of
      `(host, scheme)`, with the scheme lower-cased. */
  lemma PurgeUrlKey(scheme: string, host: string, path: string)
    requires Urls.IsScheme(scheme)
    requires |host| > 0 && forall i :: 0 <= i < |host| ==> !Urls.IsNetlocEnd(host[i])
    ensures Purger.KeyOf(PurgeUrl(scheme + "://" + host, path)) == Purger.HostKey(host, Lower(scheme))
  {
    var proxy := scheme + "://" + host;
    assert proxy[|proxy| - 1] == host[|host| - 1];
    assert !Urls.IsNetlocEnd(host[|host| - 1]);
    assert !EndsWith(proxy, "/");
    var tail := SlashPath(path);
    assert tail[0] == '/';
    Urls.ParseComposed(scheme, host, tail);
    assert PurgeUrl(proxy, path) == scheme + "://" + host + tail;
  }
}
