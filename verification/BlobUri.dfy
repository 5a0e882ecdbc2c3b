/**
 Content-addressed names for staged packs, and the split of such a name into
 what the Blob service is addressed by.
 */
module BlobUri {
  import opened Wrappers

  const HTTPS := "https://"
  const STAGED_PACK_SUFFIX := ".json"

  /** The length of a hex-encoded SHA-256. */
  const HASH_LENGTH := 64

  predicate HasPrefix(s: string, prefix: string) {
    |prefix| <= |s| && s[..|prefix|] == prefix
  }

  predicate HasSuffix(s: string, suffix: string) {
    |suffix| <= |s| && s[|s| - |suffix|..] == suffix
  }

  function TrimSlash(s: string): string {
    if s != "" && s[|s| - 1] == '/' then s[..|s| - 1] else s
  }

  /** The blob a pack is staged under: its hash, below the container. */
  function StagedPackUri(container: string, packHash: string): string {
    TrimSlash(container) + "/" + packHash + STAGED_PACK_SUFFIX
  }

  /** With or without a slash at its end, a container gives the same name, one slash before the hash. */
  lemma TrailingSlashIsOptional(container: string, packHash: string)
    requires container != "" ==> container[|container| - 1] != '/'
    ensures StagedPackUri(container, packHash) == container + "/" + packHash + ".json"
    ensures StagedPackUri(container + "/", packHash) == container + "/" + packHash + ".json"
  {
    assert (container + "/")[..|container|] == container;
  }

  /** The hash is recovered from the end of the name, whatever the container. */
  lemma HashFromUri(container: string, hash: string, container': string, hash': string)
    requires |hash| == |hash'|
    requires StagedPackUri(container, hash) == StagedPackUri(container', hash')
    ensures hash == hash' && TrimSlash(container) == TrimSlash(container')
  {
    var uri := StagedPackUri(container, hash);
    var start := |uri| - |hash| - |STAGED_PACK_SUFFIX|;
    assert hash == uri[start..start + |hash|];
    assert hash' == uri[start..start + |hash|];
    assert TrimSlash(container) == uri[..start - 1];
    assert TrimSlash(container') == uri[..start - 1];
  }

  // ---------------------------------------------------------------- parsing

  datatype BlobUriParts = BlobUriParts(service: string, container: string, blob: string)

  datatype UriError = NoContainerOrBlob

  datatype Url = Url(scheme: string, host: string, path: string)

  /** The first position of a slash, or the length. */
  function SlashIn(s: string): (i: nat)
    ensures i <= |s|
    ensures forall k :: 0 <= k < i ==> s[k] != '/'
    ensures i < |s| ==> s[i] == '/'
  {
    if s == "" || s[0] == '/' then 0 else 1 + SlashIn(s[1..])
  }

  /** Neither query, fragment, escape, user information nor port: the text is its own parse. */
  ghost predicate Plain(uri: string) {
    && HasPrefix(uri, HTTPS)
    && forall i :: |HTTPS| <= i < |uri| ==> '!' <= uri[i] <= '~' && uri[i] !in "?#%@:[]\"<>\\^`{|}"
  }

  /** url.Parse on such text. */
  function ParseUrl(uri: string): Url
    requires HasPrefix(uri, HTTPS)
  {
    var rest := uri[|HTTPS|..];
    Url("https", rest[..SlashIn(rest)], rest[SlashIn(rest)..])
  }

  /** The first segment of a URL path, and the rest after its slash. */
  function SplitPath(path: string): Option<(string, string)> {
    var p := if HasPrefix(path, "/") then path[1..] else path;
    var cut := SlashIn(p);
    if cut == |p| || p[..cut] == "" || p[cut + 1..] == "" then None
    else Some((p[..cut], p[cut + 1..]))
  }

  function ParseBlobUri(uri: string): Result<BlobUriParts, UriError>
    requires Plain(uri)
  {
    var u := ParseUrl(uri);
    match SplitPath(u.path)
    case None => Failure(NoContainerOrBlob)
    case Some((container, blob)) => Success(BlobUriParts(u.scheme + "://" + u.host, container, blob))
  }

  /** What staging_container must look like: something other than a slash after the host's slash. */
  predicate NamesContainer(container: string)
    requires HasPrefix(container, HTTPS)
  {
    && |container| > |HTTPS|
    && var rest := TrimSlash(container)[|HTTPS|..];
       SlashIn(rest) + 1 < |rest| && rest[SlashIn(rest) + 1] != '/'
  }

  /** Cutting at the first slash, when what precedes it has none. */
  lemma CutAtSlash(before: string, after: string)
    requires '/' !in before
    ensures
      var s := before + "/" + after;
      SlashIn(s) == |before| && s[..|before|] == before && s[|before| + 1..] == after && s[|before|..] == "/" + after
  {
    var s := before + "/" + after;
    assert forall k :: 0 <= k < |before| ==> s[k] == before[k];
    assert s[|before|] == '/';
  }

  lemma NoSlash(s: string)
    requires '/' !in s
    ensures SlashIn(s) == |s|
  {
  }

  lemma PlainName(container: string, hash: string)
    requires Plain(container)
    requires forall c :: c in hash ==> '0' <= c <= '9' || 'a' <= c <= 'f'
    ensures Plain(StagedPackUri(container, hash))
  {
    var uri, base := StagedPackUri(container, hash), TrimSlash(container);
    forall i | |HTTPS| <= i < |uri|
      ensures '!' <= uri[i] <= '~' && uri[i] !in "?#%@:[]\"<>\\^`{|}"
    {
      if i < |base| {
        assert uri[i] == container[i];
      } else if |base| < i <= |base| + |hash| {
        assert uri[i] in hash;
      }
    }
  }

  /** A URL whose host ends at the first slash. */
  lemma UrlOf(host: string, path: string)
    requires '/' !in host
    ensures ParseUrl(HTTPS + (host + "/" + path)) == Url("https", host, "/" + path)
  {
    CutAtSlash(host, path);
    assert (HTTPS + (host + "/" + path))[|HTTPS|..] == host + "/" + path;
  }

  lemma SplitAt(container: string, blob: string)
    requires '/' !in container
    ensures SplitPath("/" + (container + "/" + blob)) ==
            if container == "" || blob == "" then None else Some((container, blob))
  {
    CutAtSlash(container, blob);
    assert ("/" + (container + "/" + blob))[1..] == container + "/" + blob;
  }

  /** The split when the container text goes on after the host's slash. */
  lemma SplitBelowHost(tail: string, name: string) returns (container: string, blob: string)
    requires '/' !in name && name != ""
    ensures tail + "/" + name == container + "/" + blob
    ensures '/' !in container
    ensures blob == name || HasSuffix(blob, "/" + name)
    ensures SplitPath("/" + (tail + "/" + name)) == if container == "" then None else Some((container, blob))
    ensures container == "" <==> tail == "" || tail[0] == '/'
  {
    hide SplitPath, SlashIn;
    var cut := SlashIn(tail);
    container := tail[..cut];
    if cut == |tail| {
      blob := name;
    } else {
      blob := tail[cut + 1..] + "/" + name;
      assert tail == container + "/" + tail[cut + 1..];
      assert blob[|blob| - |name| - 1..] == "/" + name;
    }
    SplitAt(container, blob);
  }

  lemma SplitAtHost(name: string)
    requires '/' !in name
    ensures SplitPath("/" + name) == None && SplitPath("") == None
  {
    assert ("/" + name)[1..] == name;
    NoSlash(name);
  }

  /** Where the host ends in base + "/" + name, and what follows its slash. */
  lemma LayoutOf(base: string, name: string) returns (host: string, path: string)
    requires HasPrefix(base, HTTPS)
    ensures base + "/" + name == HTTPS + (host + "/" + path)
    ensures ParseUrl(base + "/" + name) == Url("https", host, "/" + path)
    ensures
      var rest := base[|HTTPS|..];
      if SlashIn(rest) == |rest| then path == name else path == rest[SlashIn(rest) + 1..] + "/" + name
  {
    var rest := base[|HTTPS|..];
    var h := SlashIn(rest);
    host := rest[..h];
    assert base == HTTPS + rest;
    if h == |rest| {
      path := name;
      assert base + "/" + name == HTTPS + (host + "/" + path);
    } else {
      path := rest[h + 1..] + "/" + name;
      assert rest == host + "/" + rest[h + 1..];
      assert base + "/" + name == HTTPS + (host + "/" + path);
    }
    UrlOf(host, path);
  }

  lemma TrimmedPrefix(container: string)
    requires HasPrefix(container, HTTPS) && |container| > |HTTPS|
    ensures HasPrefix(TrimSlash(container), HTTPS)
  {
  }

  lemma ServiceOf(host: string)
    ensures "https" + "://" + host == HTTPS + host
  {
    assert "https" + "://" == HTTPS;
  }

  lemma Rejoined(host: string, path: string)
    ensures (HTTPS + host) + ("/" + path) == HTTPS + (host + "/" + path)
  {
  }

  /**
   The name a pack is staged under parses exactly when the container URL names
   a container, and its parts rebuild it; the content-addressed name is the
   last segment of the blob, trailing slash on the container or not.
   */
  lemma StagedUriParses(container: string, hash: string)
    requires Plain(container)
    requires |hash| == HASH_LENGTH && forall c :: c in hash ==> '0' <= c <= '9' || 'a' <= c <= 'f'
    ensures Plain(StagedPackUri(container, hash))
    ensures ParseBlobUri(StagedPackUri(container, hash)).Success? <==> NamesContainer(container)
    ensures NamesContainer(container) ==>
              var p, name := ParseBlobUri(StagedPackUri(container, hash)).value, hash + STAGED_PACK_SUFFIX;
              && p.service + ("/" + (p.container + "/" + p.blob)) == StagedPackUri(container, hash)
              && '/' !in p.container && p.container != ""
              && HasPrefix(p.service, "https://") && '/' !in p.service[8..]
              && (p.blob == name || HasSuffix(p.blob, "/" + name))
  {
    var uri, base, name := StagedPackUri(container, hash), TrimSlash(container), hash + STAGED_PACK_SUFFIX;
    assert uri == base + "/" + name;
    PlainName(container, hash);
    assert '/' !in name;
    if |container| == |HTTPS| {
      assert uri[|HTTPS|..] == name;
      SplitAtHost(name);
      NoSlash(name);
      return;
    }
    TrimmedPrefix(container);
    var host, path := LayoutOf(base, name);
    var rest := base[|HTTPS|..];
    if SlashIn(rest) == |rest| {
      SplitAtHost(name);
    } else {
      var first, blob := SplitBelowHost(rest[SlashIn(rest) + 1..], name);
      ServiceOf(host);
      Rejoined(host, first + "/" + blob);
    }
  }
}
