/** The default purge path rewriter of `plone/cachepurging/rewrite.py`: a
    path of the site becomes one Virtual Host Monster path per configured
    domain, or stays as it is when virtual hosting does not apply. */
module Rewrite {
  import opened Text
  import opened Wrappers
  import opened Settings
  import Urls

  /** A value read with `request.get(name)`: absent, a string, or a list or
      tuple of strings. */
  datatype RequestValue = Missing | Str(s: string) | Items(items: seq<string>)

  /** The request variables the Virtual Host Monster leaves behind. */
  datatype VhmRequest = VhmRequest(
    virtualUrl: RequestValue,
    virtualUrlParts: RequestValue,
    virtualRootPhysicalPath: RequestValue)

  /** Python truthiness of a request value. */
  predicate Truthy(v: RequestValue)
  {
    match v
    case Missing => false
    case Str(s) => s != ""
    case Items(xs) => xs != []
  }

  /** The compliance test fails: either variable is false, not a list or
      tuple, or there are fewer than two or more than three URL parts. */
  predicate Rejected(parts: RequestValue, phys: RequestValue): (r: bool)
    ensures r <==> !(parts.Items? && phys.Items? && 2 <= |parts.items| <= 3 && |phys.items| >= 1)
  {
    || !Truthy(parts)
    || !Truthy(phys)
    || !parts.Items?
    || !phys.Items?
    || |parts.items| < 2
    || |parts.items| > 3
  }

  /** Virtual hosting applies to the request: it went through the Virtual
      Host Monster, settings exist and enable it, and the request is
      compliant. */
  predicate Rewrites(request: VhmRequest, registry: Option<CachePurgingSettings>)
  {
    && !request.virtualUrl.Missing?
    && registry.Some?
    && registry.value.virtualHosting
    && !Rejected(request.virtualUrlParts, request.virtualRootPhysicalPath)
  }

  /** The configured domains, or the request's own server URL when none are. */
  function Domains(settings: CachePurgingSettings, parts: seq<string>): seq<string>
    requires |parts| >= 1
  {
    if |settings.domains| == 0 then [parts[0]] else settings.domains
  }

  /** The physical path of the virtual root joined with `/`, or `""` when
      that join is `/` (the root of the Zope application). */
  function VirtualRoot(phys: seq<string>): string
  {
    var root := Join(phys, "/");
    if root == "/" then "" else root
  }

  /** A join starts with its first piece. */
  lemma JoinStartsWithFirst(xs: seq<string>, sep: string)
    requires |xs| >= 1
    ensures StartsWith(Join(xs, sep), xs[0])
  {
    if |xs| > 1 {
      assert Join(xs, sep) == xs[0] + (sep + Join(xs[1..], sep));
      assert Join(xs, sep)[..|xs[0]|] == xs[0];
    }
  }

  /** A physical path `("", "a", ...)` below the application root gives the
      root `/a/...`. */
  lemma VirtualRootOfPhysicalPath(segs: seq<string>)
    requires |segs| >= 1 && segs[0] != ""
    ensures VirtualRoot([""] + segs) == "/" + Join(segs, "/")
  {
    assert ([""] + segs)[1..] == segs;
    assert Join([""] + segs, "/") == "" + "/" + Join(segs, "/");
    JoinStartsWithFirst(segs, "/");
    assert |Join(segs, "/")| >= 1;
  }

  /** The application root itself, `("",)` or `("", "")`, gives no root. */
  lemma VirtualRootOfApplicationRoot()
    ensures VirtualRoot([""]) == ""
    ensures VirtualRoot(["", ""]) == ""
  {
    assert ["", ""][1..] == [""];
  }

  /** Each segment with the `_vh_` marker in front. */
  function VhSegments(segs: seq<string>): seq<string>
  {
    seq(|segs|, i requires 0 <= i < |segs| => "_vh_" + segs[i])
  }

  /** Each segment with its first four characters dropped. */
  function StripVh(segs: seq<string>): seq<string>
  {
    seq(|segs|, i requires 0 <= i < |segs| => if |segs[i]| >= 4 then segs[i][4..] else segs[i])
  }

  /** The `_vh_` prefix of the virtual URL: empty unless there are three
      parts with a non-empty middle one, and then `/` followed by the
      middle part's segments, each marked with `_vh_`. */
  function PathPrefix(parts: seq<string>): (r: string)
    ensures r == "" <==> !(|parts| == 3 && parts[1] != "")
    ensures r != "" ==> r[0] == '/'
  {
    if |parts| == 3 && parts[1] != "" then "/" + Join(VhSegments(Split(parts[1], '/')), "/") else ""
  }

  /** The prefix can be read back: dropping the leading `/` and each
      segment's `_vh_` gives the middle part of the virtual URL again. */
  lemma PathPrefixRoundTrip(parts: seq<string>)
    requires |parts| == 3 && parts[1] != ""
    ensures var p := PathPrefix(parts);
            |p| >= 1 && Join(StripVh(Split(p[1..], '/')), "/") == parts[1]
  {
    var segs := Split(parts[1], '/');
    var marked := VhSegments(segs);
    var p := PathPrefix(parts);
    assert p[1..] == Join(marked, "/");
    SplitPiecesOmitSeparator(parts[1], '/');
    forall k | 0 <= k < |marked|
      ensures '/' !in marked[k]
    {
      assert marked[k] == "_vh_" + segs[k];
    }
    SplitJoin(marked, '/');
    assert Split(p[1..], '/') == marked;
    assert StripVh(marked) == segs;
    JoinSplit(parts[1], '/');
  }

  /** The path with a leading `/`, unless it is empty. */
  function NormalizePath(path: string): (r: string)
    ensures path == "" ==> r == ""
    ensures path != "" ==> StartsWith(r, "/") && (r == path || r == "/" + path)
    ensures StartsWith(path, "/") ==> r == path
  {
    if |path| > 0 && !StartsWith(path, "/") then "/" + path else path
  }

  lemma NormalizePathIdempotent(path: string)
    ensures NormalizePath(NormalizePath(path)) == NormalizePath(path)
  {
  }

  /** `/VirtualHostBase/<scheme>/<host><root>/VirtualHostRoot<prefix><path>`
      for one domain. */
  function VhmPath(domain: string, root: string, prefix: string, path: string): string
  {
    var url := Urls.UrlParse(domain);
    "/VirtualHostBase/" + url.scheme + "/" + url.netloc + root + "/VirtualHostRoot" + prefix + path
  }

  /** Every rewritten path starts with `/VirtualHostBase/` and ends with
      `/VirtualHostRoot`, the prefix and the path. */
  lemma VhmPathShape(domain: string, root: string, prefix: string, path: string)
    ensures StartsWith(VhmPath(domain, root, prefix, path), "/VirtualHostBase/")
    ensures EndsWith(VhmPath(domain, root, prefix, path), "/VirtualHostRoot" + prefix + path)
  {
    var url := Urls.UrlParse(domain);
    var base := "/VirtualHostBase/";
    var mid := url.scheme + "/" + url.netloc + root;
    var tail := "/VirtualHostRoot" + prefix + path;
    assert VhmPath(domain, root, prefix, path) == (base + mid) + tail;
    EndsWithConcat(base + mid, tail);
    assert StartsWith((base + mid) + tail, base) by {
      assert (base + mid) + tail == base + (mid + tail);
      StartsWithConcat(base, mid + tail);
    }
  }

  /** For a domain written `scheme://host`, the scheme (lower-cased) and
      the host appear as they are. */
  lemma VhmPathOfDomain(scheme: string, host: string, root: string, prefix: string, path: string)
    requires Urls.IsScheme(scheme)
    requires forall i :: 0 <= i < |host| ==> !Urls.IsNetlocEnd(host[i])
    ensures VhmPath(scheme + "://" + host, root, prefix, path) ==
            "/VirtualHostBase/" + Lower(scheme) + "/" + host + root + "/VirtualHostRoot" + prefix + path
  {
    Urls.ParseComposed(scheme, host, "");
    assert scheme + "://" + host + "" == scheme + "://" + host;
  }

  /** `DefaultRewriter(request)(path)`: `[path]` when virtual hosting does
      not apply, and otherwise one Virtual Host Monster path per domain, in
      domain order. */
  method RewritePath(request: VhmRequest, registry: Option<CachePurgingSettings>, path: string)
    returns (paths: seq<string>)
    ensures request.virtualUrl.Missing? ==> paths == [path]
    ensures registry.None? ==> paths == [path]
    ensures registry.Some? && !registry.value.virtualHosting ==> paths == [path]
    ensures Rejected(request.virtualUrlParts, request.virtualRootPhysicalPath) ==> paths == [path]
    ensures Rewrites(request, registry) ==>
              var parts := request.virtualUrlParts.items;
              var domains := Domains(registry.value, parts);
              |paths| == |domains| &&
              forall i :: 0 <= i < |domains| ==>
                paths[i] == VhmPath(domains[i], VirtualRoot(request.virtualRootPhysicalPath.items),
                                    PathPrefix(parts), NormalizePath(path))
    ensures Rewrites(request, registry) && registry.value.domains == [] ==>
              var parts := request.virtualUrlParts.items;
              paths == [VhmPath(parts[0], VirtualRoot(request.virtualRootPhysicalPath.items),
                                PathPrefix(parts), NormalizePath(path))]
  {
    // No rewriting necessary.
    if request.virtualUrl.Missing? {
      return [path];
    }
    if registry.None? {
      return [path];
    }
    var settings := registry.value;
    if !settings.virtualHosting {
      return [path];
    }
    var virtualUrlParts := request.virtualUrlParts;
    var virtualRootPhysicalPath := request.virtualRootPhysicalPath;
    if Rejected(virtualUrlParts, virtualRootPhysicalPath) {
      return [path];
    }
    var parts := virtualUrlParts.items;
    var domains := settings.domains;
    if |domains| == 0 {
      domains := [parts[0]];
    }
    var virtualRoot := Join(virtualRootPhysicalPath.items, "/");
    if virtualRoot == "/" {
      virtualRoot := "";
    }
    var pathPrefix := if |parts| == 3 then parts[1] else "";
    if pathPrefix != "" {
      pathPrefix := "/" + Join(VhSegments(Split(pathPrefix, '/')), "/");
    }
    var p := path;
    if |p| > 0 && !StartsWith(p, "/") {
      p := "/" + p;
    }
    paths := [];
    for i := 0 to |domains|
      invariant |paths| == i
      invariant forall j :: 0 <= j < i ==> paths[j] == VhmPath(domains[j], virtualRoot, pathPrefix, p)
    {
      var url := Urls.UrlParse(domains[i]);
      paths := paths + ["/VirtualHostBase/" + url.scheme + "/" + url.netloc + virtualRoot
                        + "/VirtualHostRoot" + pathPrefix + p];
    }
  }
}
