/** The part of `urllib.parse.urlparse` that the purger and the rewriter use:
    the scheme and the network location of a URL. */
module Urls {
  import opened Text

  datatype UrlParts = UrlParts(scheme: string, netloc: string)

  predicate IsAsciiLetter(c: char)
  {
    'a' <= c <= 'z' || 'A' <= c <= 'Z'
  }

  /** Characters allowed in a URL scheme. */
  predicate IsSchemeChar(c: char)
  {
    IsAsciiLetter(c) || '0' <= c <= '9' || c == '+' || c == '-' || c == '.'
  }

  /** A non-empty run of scheme characters starting with a letter. */
  predicate IsScheme(s: string)
  {
    |s| > 0 && IsAsciiLetter(s[0]) && forall i :: 0 <= i < |s| ==> IsSchemeChar(s[i])
  }

  /** The characters that end a network location. */
  predicate IsNetlocEnd(c: char)
  {
    c == '/' || c == '?' || c == '#'
  }

  /** Index of the first `c` in `s`, or `|s|` when there is none. */
  function IndexOf(s: string, c: char): (i: nat)
    ensures i <= |s|
    ensures i < |s| ==> s[i] == c
    ensures forall j :: 0 <= j < i ==> s[j] != c
  {
    if |s| == 0 then 0 else if s[0] == c then 0 else 1 + IndexOf(s[1..], c)
  }

  /** Index of the first character ending a network location, or `|s|`. */
  function NetlocLength(s: string): (i: nat)
    ensures i <= |s|
    ensures i < |s| ==> IsNetlocEnd(s[i])
    ensures forall j :: 0 <= j < i ==> !IsNetlocEnd(s[j])
  {
    if |s| == 0 then 0 else if IsNetlocEnd(s[0]) then 0 else 1 + NetlocLength(s[1..])
  }

  /** The scheme is the text before the first `:` when that text is a scheme;
      it is lower-cased. Otherwise there is no scheme. */
  function SplitScheme(url: string): (string, string)
  {
    var i := IndexOf(url, ':');
    if 0 < i < |url| && IsScheme(url[..i]) then (Lower(url[..i]), url[i + 1..])
    else ("", url)
  }

  /** The network location follows a leading `//` and runs up to the first
      `/`, `?` or `#`. */
  function SplitNetloc(rest: string): string
  {
    if |rest| >= 2 && rest[..2] == "//" then
      var r := rest[2..];
      r[..NetlocLength(r)]
    else ""
  }

  function UrlParse(url: string): UrlParts
  {
    var (scheme, rest) := SplitScheme(url);
    UrlParts(scheme, SplitNetloc(rest))
  }

  /** The network location ends exactly where the host does. */
  lemma {:induction false} NetlocLengthOfHost(host: string, tail: string)
    requires forall i :: 0 <= i < |host| ==> !IsNetlocEnd(host[i])
    requires tail == [] || IsNetlocEnd(tail[0])
    ensures NetlocLength(host + tail) == |host|
  {
    if |host| > 0 {
      assert (host + tail)[1..] == host[1..] + tail;
      NetlocLengthOfHost(host[1..], tail);
    }
  }

  /** The first `c` is the one right after a `c`-free prefix. */
  lemma {:induction false} IndexOfAfter(a: string, c: char, b: string)
    requires c !in a
    ensures IndexOf(a + [c] + b, c) == |a|
  {
    if |a| > 0 {
      assert (a + [c] + b)[1..] == a[1..] + [c] + b;
      IndexOfAfter(a[1..], c, b);
    }
  }

  /** A scheme followed by `:` is split off and lower-cased. */
  lemma SplitSchemeOf(scheme: string, rest: string)
    requires IsScheme(scheme)
    ensures SplitScheme(scheme + [':'] + rest) == (Lower(scheme), rest)
  {
    var url := scheme + [':'] + rest;
    assert ':' !in scheme by {
      forall j | 0 <= j < |scheme| ensures scheme[j] != ':' {
        assert IsSchemeChar(scheme[j]);
      }
    }
    IndexOfAfter(scheme, ':', rest);
    assert url[..|scheme|] == scheme;
    assert url[|scheme| + 1..] == rest;
  }

  /** After `//`, the network location is the host. */
  lemma SplitNetlocOf(host: string, tail: string)
    requires forall i :: 0 <= i < |host| ==> !IsNetlocEnd(host[i])
    requires tail == [] || IsNetlocEnd(tail[0])
    ensures SplitNetloc("//" + host + tail) == host
  {
    var rest := "//" + host + tail;
    assert rest[..2] == "//";
    assert rest[2..] == host + tail;
    NetlocLengthOfHost(host, tail);
    assert (host + tail)[..|host|] == host;
  }

  /** A URL written as `scheme://host` followed by a path, query or fragment
      parses back into its (lower-cased) scheme and its host. */
  lemma ParseComposed(scheme: string, host: string, tail: string)
    requires IsScheme(scheme)
    requires forall i :: 0 <= i < |host| ==> !IsNetlocEnd(host[i])
    requires tail == [] || IsNetlocEnd(tail[0])
    ensures UrlParse(scheme + "://" + host + tail) == UrlParts(Lower(scheme), host)
  {
    var rest := "//" + host + tail;
    assert scheme + "://" + host + tail == scheme + [':'] + rest;
    SplitSchemeOf(scheme, rest);
    SplitNetlocOf(host, tail);
  }
}
