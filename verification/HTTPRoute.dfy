/** The controller that turns an annotated HTTPRoute into an OIDC client
    (internal/controller/httproute_controller.go). */
module HTTPRoute {
  import opened Strings
  import SecurityPolicy

  // ---------------------------------------------------------------- allowed groups

  /** The group names of a list of parts: trimmed, the empty ones and the repetitions left out. */
  function Names(parts: seq<string>): seq<string> {
    if parts == [] then [] else
      var before := Names(parts[..|parts| - 1]);
      var name := TrimSpace(parts[|parts| - 1]);
      if name == "" || name in before then before else before + [name]
  }

  function Parse(annotation: string): seq<string> {
    Names(Split(annotation, ','))
  }

  ghost predicate NoRepeat(s: seq<string>) {
    forall a, b :: 0 <= a < b < |s| ==> s[a] != s[b]
  }

  /** Some part before every part that reads `later` reads `sooner`. */
  ghost predicate Precedes(parts: seq<string>, sooner: string, later: string) {
    exists i :: 0 <= i < |parts| && TrimSpace(parts[i]) == sooner && forall j :: 0 <= j <= i ==> TrimSpace(parts[j]) != later
  }

  ghost predicate Occurs(parts: seq<string>, name: string) {
    exists i :: 0 <= i < |parts| && TrimSpace(parts[i]) == name
  }

  lemma OccursMore(parts: seq<string>, name: string)
    requires parts != []
    ensures Occurs(parts, name) <==> Occurs(parts[..|parts| - 1], name) || name == TrimSpace(parts[|parts| - 1])
  {
    var n := |parts| - 1;
    if i :| 0 <= i < n && TrimSpace(parts[..n][i]) == name { assert TrimSpace(parts[i]) == name; }
    if i :| 0 <= i < |parts| && TrimSpace(parts[i]) == name {
      if i < n { assert TrimSpace(parts[..n][i]) == name; }
    }
  }

  /** Exactly the non-empty trimmed parts, each once. */
  lemma {:induction false} NamesExact(parts: seq<string>)
    ensures NoRepeat(Names(parts))
    ensures forall name :: name in Names(parts) <==> name != "" && Occurs(parts, name)
  {
    if parts != [] {
      NamesExact(parts[..|parts| - 1]);
      forall name ensures name in Names(parts) <==> name != "" && Occurs(parts, name) { OccursMore(parts, name); }
    }
  }

  lemma PrecedesMore(parts: seq<string>, sooner: string, later: string)
    requires parts != [] && Precedes(parts[..|parts| - 1], sooner, later)
    ensures Precedes(parts, sooner, later)
  {
    var before := parts[..|parts| - 1];
    var i :| 0 <= i < |before| && TrimSpace(before[i]) == sooner && forall j :: 0 <= j <= i ==> TrimSpace(before[j]) != later;
    assert TrimSpace(parts[i]) == sooner;
    assert forall j :: 0 <= j <= i ==> parts[j] == before[j];
  }

  lemma PrecedesNew(parts: seq<string>, sooner: string, later: string)
    requires parts != [] && Occurs(parts[..|parts| - 1], sooner) && !Occurs(parts[..|parts| - 1], later)
    ensures Precedes(parts, sooner, later)
  {
    var before := parts[..|parts| - 1];
    var i :| 0 <= i < |before| && TrimSpace(before[i]) == sooner;
    assert TrimSpace(parts[i]) == sooner;
    assert forall j :: 0 <= j <= i ==> parts[j] == before[j];
  }

  /** In the order of their first occurrence. */
  lemma {:induction false} NamesOrdered(parts: seq<string>, a: nat, b: nat)
    requires a < b < |Names(parts)|
    ensures Precedes(parts, Names(parts)[a], Names(parts)[b])
  {
    var before, names := Names(parts[..|parts| - 1]), Names(parts);
    if b < |before| {
      NamesOrdered(parts[..|parts| - 1], a, b);
      PrecedesMore(parts, names[a], names[b]);
    } else {
      NamesExact(parts[..|parts| - 1]);
      assert names[a] in before && names[b] !in before;
      PrecedesNew(parts, names[a], names[b]);
    }
  }

  /** parseAllowedGroupRefs */
  method ParseAllowedGroupRefs(annotation: string) returns (refs: seq<string>)
    ensures refs == Parse(annotation)
  {
    if annotation == "" {
      assert Split("", ',') == [""] && Names([""]) == Names([]);
      return [];
    }
    var parts := Split(annotation, ',');
    refs := [];
    var seen: set<string> := {};
    for i := 0 to |parts|
      invariant refs == Names(parts[..i])
      invariant forall name :: name in seen <==> name in refs
    {
      assert parts[..i + 1][..i] == parts[..i];
      var name := TrimSpace(parts[i]);
      if name == "" { continue; }
      if name in seen { continue; }
      seen := seen + {name};
      refs := refs + [name];
    }
    assert parts[..|parts|] == parts;
  }

  /** A list that an annotation can spell: trimmed names without commas, none empty, none twice. */
  ghost predicate Clean(names: seq<string>) {
    && NoRepeat(names) && Free(names, ',')
    && forall i :: 0 <= i < |names| ==> names[i] != "" && Trimmed(names[i])
  }

  lemma ParseClean(annotation: string)
    ensures Clean(Parse(annotation))
  {
    var parts := Split(annotation, ',');
    var names := Parse(annotation);
    SplitFree(annotation, ',');
    NamesExact(parts);
    forall a | 0 <= a < |names| ensures names[a] != "" && Trimmed(names[a]) && ',' !in names[a] {
      assert names[a] in names;
      var i :| 0 <= i < |parts| && TrimSpace(parts[i]) == names[a];
      var from, to := TrimExact(parts[i]);
    }
  }

  lemma {:induction false} NamesIdle(names: seq<string>)
    requires Clean(names)
    ensures Names(names) == names
  {
    if names != [] {
      var n := |names| - 1;
      NamesIdle(names[..n]);
      assert names == names[..n] + [names[n]];
    }
  }

  /** Every clean list is spelled by joining it with commas. */
  lemma ParseJoin(names: seq<string>)
    requires Clean(names)
    ensures Parse(Join(names, ',')) == names
  {
    if names == [] {
      assert Split("", ',') == [""] && Names([""]) == Names([]);
    } else {
      SplitJoin(names, ',');
      NamesIdle(names);
    }
  }

  /** Round trip, for every annotation: writing the parsed names back and parsing again changes
      nothing. */
  lemma ParseRoundTrip(annotation: string)
    ensures Parse(Join(Parse(annotation), ',')) == Parse(annotation)
  {
    ParseClean(annotation);
    ParseJoin(Parse(annotation));
  }

  // ---------------------------------------------------------------- redirect URIs

  function TrimAll(parts: seq<string>): (trimmed: seq<string>)
    ensures |trimmed| == |parts|
  {
    if parts == [] then [] else TrimAll(parts[..|parts| - 1]) + [TrimSpace(parts[|parts| - 1])]
  }

  /** The paths of the annotation, or the default path without one. */
  function Paths(annotation: string): (paths: seq<string>)
    ensures |paths| > 0
  {
    if annotation == "" then [SecurityPolicy.DEFAULT_CALLBACK_PATH] else TrimAll(Split(annotation, ','))
  }

  /** The paths are the comma-separated parts of the annotation, trimmed, in order. */
  lemma PathsExact(annotation: string) returns (parts: seq<string>)
    requires annotation != ""
    ensures Join(parts, ',') == annotation && Free(parts, ',') && |parts| == |Paths(annotation)|
    ensures forall i :: 0 <= i < |parts| ==> Paths(annotation)[i] == TrimSpace(parts[i])
  {
    parts := Split(annotation, ',');
    JoinSplit(annotation, ',');
    SplitFree(annotation, ',');
    forall i | 0 <= i < |parts| ensures TrimAll(parts)[i] == TrimSpace(parts[i]) { TrimAllAt(parts, i); }
  }

  lemma {:induction false} TrimAllAt(parts: seq<string>, i: nat)
    requires i < |parts|
    ensures TrimAll(parts)[i] == TrimSpace(parts[i])
  {
    if i < |parts| - 1 { TrimAllAt(parts[..|parts| - 1], i); }
  }

  function HostUris(host: string, paths: seq<string>): (uris: seq<string>)
    ensures |uris| == |paths|
  {
    if paths == [] then [] else HostUris(host, paths[..|paths| - 1]) + [SecurityPolicy.RedirectUrl(host, paths[|paths| - 1])]
  }

  lemma {:induction false} HostUrisAt(host: string, paths: seq<string>, p: nat)
    requires p < |paths|
    ensures HostUris(host, paths)[p] == SecurityPolicy.RedirectUrl(host, paths[p])
  {
    if p < |paths| - 1 { HostUrisAt(host, paths[..|paths| - 1], p); }
  }

  lemma HostUrisExact(host: string, paths: seq<string>, uri: string)
    ensures uri in HostUris(host, paths) <==> exists p :: p in paths && uri == SecurityPolicy.RedirectUrl(host, p)
  {
    var uris := HostUris(host, paths);
    if uri in uris {
      var i :| 0 <= i < |uris| && uris[i] == uri;
      HostUrisAt(host, paths, i);
      assert paths[i] in paths;
    }
    if p :| p in paths && uri == SecurityPolicy.RedirectUrl(host, p) {
      var i :| 0 <= i < |paths| && paths[i] == p;
      HostUrisAt(host, paths, i);
      assert uris[i] in uris;
    }
  }

  function Uris(hosts: seq<string>, paths: seq<string>): seq<string> {
    if hosts == [] then [] else Uris(hosts[..|hosts| - 1], paths) + HostUris(hosts[|hosts| - 1], paths)
  }

  /** The host-major product: the paths of the first host, then those of the second, and so on. */
  lemma {:induction false} UrisAt(hosts: seq<string>, paths: seq<string>, h: nat, p: nat)
    requires h < |hosts| && p < |paths|
    ensures |Uris(hosts, paths)| == |hosts| * |paths|
    ensures 0 <= h * |paths| + p < |Uris(hosts, paths)|
    ensures Uris(hosts, paths)[h * |paths| + p] == SecurityPolicy.RedirectUrl(hosts[h], paths[p])
  {
    var n := |hosts| - 1;
    UrisSize(hosts[..n], paths);
    UrisSize(hosts, paths);
    HostUrisAt(hosts[n], paths, p);
    if h < n {
      UrisAt(hosts[..n], paths, h, p);
    }
  }

  lemma {:induction false} UrisSize(hosts: seq<string>, paths: seq<string>)
    ensures |Uris(hosts, paths)| == |hosts| * |paths|
  {
    if hosts != [] {
      UrisSize(hosts[..|hosts| - 1], paths);
      assert |hosts| * |paths| == (|hosts| - 1) * |paths| + |paths|;
    }
  }

  lemma {:induction false} UrisExact(hosts: seq<string>, paths: seq<string>, uri: string)
    ensures uri in Uris(hosts, paths) <==> exists h, p :: h in hosts && p in paths && uri == SecurityPolicy.RedirectUrl(h, p)
  {
    if hosts != [] {
      var n := |hosts| - 1;
      UrisExact(hosts[..n], paths, uri);
      HostUrisExact(hosts[n], paths, uri);
      assert hosts == hosts[..n] + [hosts[n]];
    }
  }

  /** The nested loops of Reconcile. */
  method RedirectUris(hosts: seq<string>, annotation: string) returns (uris: seq<string>)
    ensures uris == Uris(hosts, Paths(annotation))
  {
    uris := [];
    if annotation != "" {
      var pathList := Split(annotation, ',');
      for h := 0 to |hosts|
        invariant uris == Uris(hosts[..h], TrimAll(pathList))
      {
        ghost var before := uris;
        for p := 0 to |pathList|
          invariant uris == before + HostUris(hosts[h], TrimAll(pathList[..p]))
        {
          PathStep(before, hosts[h], pathList, p);
          uris := uris + [SecurityPolicy.RedirectUrl(hosts[h], TrimSpace(pathList[p]))];
        }
        assert pathList[..|pathList|] == pathList;
        HostStep(hosts, TrimAll(pathList), h);
      }
    } else {
      for h := 0 to |hosts|
        invariant uris == Uris(hosts[..h], [SecurityPolicy.DEFAULT_CALLBACK_PATH])
      {
        HostStep(hosts, [SecurityPolicy.DEFAULT_CALLBACK_PATH], h);
        HostUrisAt(hosts[h], [SecurityPolicy.DEFAULT_CALLBACK_PATH], 0);
        uris := uris + [SecurityPolicy.RedirectUrl(hosts[h], "/oauth2/callback")];
      }
    }
    assert hosts[..|hosts|] == hosts;
  }

  lemma HostStep(hosts: seq<string>, paths: seq<string>, h: nat)
    requires h < |hosts|
    ensures Uris(hosts[..h + 1], paths) == Uris(hosts[..h], paths) + HostUris(hosts[h], paths)
  {
    assert hosts[..h + 1][..h] == hosts[..h];
  }

  lemma PathStep(before: seq<string>, host: string, parts: seq<string>, p: nat)
    requires p < |parts|
    ensures before + HostUris(host, TrimAll(parts[..p])) + [SecurityPolicy.RedirectUrl(host, TrimSpace(parts[p]))]
      == before + HostUris(host, TrimAll(parts[..p + 1]))
  {
    assert parts[..p + 1][..p] == parts[..p];
    var all := TrimAll(parts[..p + 1]);
    assert all[..|all| - 1] == TrimAll(parts[..p]);
  }

  // ---------------------------------------------------------------- the policy's redirect URL

  /** The redirect URL of the policy that the OIDC client controller generates for the route: first
      host, default path. */
  function PolicyUrl(hosts: seq<string>): string
    requires hosts != []
  {
    SecurityPolicy.RedirectUrl(hosts[0], SecurityPolicy.DEFAULT_CALLBACK_PATH)
  }

  lemma SlashInside(h: string, p: string, k: string, q: string)
    requires h + p == k + q && q != "" && q[0] == '/'
    ensures |h| > |k| ==> '/' in h
  {
    assert (k + q)[|k|] == '/';
    if |h| > |k| { assert h[|k|] == (h + p)[|k|]; }
  }

  lemma SamePlace(h: string, p: string, k: string, q: string)
    requires h + p == k + q && '/' !in h && q != "" && q[0] == '/'
    ensures |h| <= |k| && h == k[..|h|] && p == k[|h|..] + q
  {
    var all := h + p;
    SlashInside(h, p, k, q);
    assert all[..|h|] == h && all[|h|..] == p;
    assert (k + q)[..|h|] == k[..|h|] && (k + q)[|h|..] == k[|h|..] + q;
  }

  /** Host `i` begins the first host, and some path continues it to the callback. */
  ghost predicate Reaches(hosts: seq<string>, paths: seq<string>, i: int)
    requires hosts != []
  {
    && 0 <= i < |hosts| && |hosts[i]| <= |hosts[0]| && hosts[i] == hosts[0][..|hosts[i]|]
    && hosts[0][|hosts[i]|..] + SecurityPolicy.DEFAULT_CALLBACK_PATH in paths
  }

  lemma UrlParts(h: string, p: string)
    ensures SecurityPolicy.RedirectUrl(h, p) == "https://" + (h + p)
  {
    assert "https://" + h + p == "https://" + (h + p);
  }

  lemma UrlReaches(hosts: seq<string>, paths: seq<string>, i: nat, p: string)
    requires i < |hosts| && '/' !in hosts[i] && p in paths
    requires PolicyUrl(hosts) == SecurityPolicy.RedirectUrl(hosts[i], p)
    ensures Reaches(hosts, paths, i)
  {
    var callback := SecurityPolicy.DEFAULT_CALLBACK_PATH;
    UrlParts(hosts[0], callback);
    UrlParts(hosts[i], p);
    var url, scheme := PolicyUrl(hosts), "https://";
    assert url[|scheme|..] == hosts[i] + p && url[|scheme|..] == hosts[0] + callback;
    SamePlace(hosts[i], p, hosts[0], callback);
  }

  lemma ReachesUrl(hosts: seq<string>, paths: seq<string>, i: nat)
    requires hosts != [] && Reaches(hosts, paths, i)
    ensures PolicyUrl(hosts) in Uris(hosts, paths)
  {
    var host, callback := hosts[0], SecurityPolicy.DEFAULT_CALLBACK_PATH;
    var h, rest := hosts[i], host[|hosts[i]|..];
    UrlParts(host, callback);
    UrlParts(h, rest + callback);
    assert h + (rest + callback) == host + callback by {
      assert h + rest == host;
      assert h + (rest + callback) == (h + rest) + callback;
    }
    UrisExact(hosts, paths, PolicyUrl(hosts));
  }

  /** When the policy's redirect URL is registered, for any slash-free hosts and any paths: exactly if
      some host begins the first one and some path continues it to the callback. */
  lemma RegisteredExactly(hosts: seq<string>, paths: seq<string>)
    requires hosts != [] && forall i :: 0 <= i < |hosts| ==> '/' !in hosts[i]
    ensures PolicyUrl(hosts) in Uris(hosts, paths) <==> exists i :: Reaches(hosts, paths, i)
  {
    var url := PolicyUrl(hosts);
    UrisExact(hosts, paths, url);
    if url in Uris(hosts, paths) {
      var h, p :| h in hosts && p in paths && url == SecurityPolicy.RedirectUrl(h, p);
      var i :| 0 <= i < |hosts| && hosts[i] == h;
      UrlReaches(hosts, paths, i, p);
    }
    if i :| Reaches(hosts, paths, i) {
      ReachesUrl(hosts, paths, i);
    }
  }

  /** Agreement: for slash-free hosts and paths that start with a slash, the policy's redirect URL is
      among the client's callback URLs if and only if the annotation is empty or lists
      /oauth2/callback. */
  lemma RedirectAgreement(hosts: seq<string>, annotation: string)
    requires hosts != [] && forall i :: 0 <= i < |hosts| ==> '/' !in hosts[i]
    requires forall i :: 0 <= i < |Paths(annotation)| ==> Paths(annotation)[i] != "" && Paths(annotation)[i][0] == '/'
    ensures PolicyUrl(hosts) in Uris(hosts, Paths(annotation))
       <==> annotation == "" || "/oauth2/callback" in Paths(annotation)
  {
    var paths := Paths(annotation);
    RegisteredExactly(hosts, paths);
    if i :| Reaches(hosts, paths, i) { ReachesWhole(hosts, paths, i); }
    if "/oauth2/callback" in paths { WholeReaches(hosts, paths); }
  }

  lemma FirstOf(host: string, n: nat, q: string)
    requires n <= |host| && q != ""
    ensures host[n..] != "" ==> (host[n..] + q)[0] in host
  {
    if n < |host| { assert (host[n..] + q)[0] == host[n]; }
  }

  lemma ReachesWhole(hosts: seq<string>, paths: seq<string>, i: nat)
    requires hosts != [] && '/' !in hosts[0] && Reaches(hosts, paths, i)
    requires forall j :: 0 <= j < |paths| ==> paths[j] != "" && paths[j][0] == '/'
    ensures "/oauth2/callback" in paths
  {
    var rest := hosts[0][|hosts[i]|..];
    var p := rest + SecurityPolicy.DEFAULT_CALLBACK_PATH;
    FirstOf(hosts[0], |hosts[i]|, SecurityPolicy.DEFAULT_CALLBACK_PATH);
    assert p[0] == '/';
    assert rest == "";
    assert p == SecurityPolicy.DEFAULT_CALLBACK_PATH;
  }

  lemma WholeReaches(hosts: seq<string>, paths: seq<string>)
    requires hosts != [] && "/oauth2/callback" in paths
    ensures Reaches(hosts, paths, 0)
  {
    assert hosts[0][|hosts[0]|..] + SecurityPolicy.DEFAULT_CALLBACK_PATH == SecurityPolicy.DEFAULT_CALLBACK_PATH;
  }
}
