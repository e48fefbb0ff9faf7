/**
 * Expansion of the test matrix: every application server paired with each of the
 * runtime (JRE) tags it supports, the tags made safe for use in an image name.
 */
module Parameters {
  import opened Wrappers
  import opened Errors

  /** One parameterised run: `{appServer, os, jreVersion}`. */
  datatype TestCase = TestCase(appServer: string, os: string, jreVersion: string)

  /** The per-character rewrite of the pattern `[:/]` to `_`. */
  function NormaliseChar(c: char): char
  {
    if c == ':' || c == '/' then '_' else c
  }

  /** `input.replaceAll("[:/]", "_")`. */
  function NormaliseTag(tag: string): (r: string)
    ensures |r| == |tag|
    ensures forall i :: 0 <= i < |r| ==> r[i] != ':' && r[i] != '/'
    ensures forall i :: 0 <= i < |tag| && (tag[i] == ':' || tag[i] == '/') ==> r[i] == '_'
    ensures forall i :: 0 <= i < |tag| && tag[i] != ':' && tag[i] != '/' ==> r[i] == tag[i]
  {
    if tag == [] then [] else [NormaliseChar(tag[0])] + NormaliseTag(tag[1..])
  }

  /** Normalising a tag that is already normalised changes nothing. */
  lemma {:induction false} NormaliseTagIdempotent(tag: string)
    ensures NormaliseTag(NormaliseTag(tag)) == NormaliseTag(tag)
  {
    var once := NormaliseTag(tag);
    var twice := NormaliseTag(once);
    assert |twice| == |once|;
    forall i | 0 <= i < |once|
      ensures twice[i] == once[i]
    {
    }
  }

  /** A tag with no `:` and no `/` is already normalised. */
  lemma NormaliseTagFixesSafeTags(tag: string)
    requires forall i :: 0 <= i < |tag| ==> tag[i] != ':' && tag[i] != '/'
    ensures NormaliseTag(tag) == tag
  {
  }

  /** `getAppServerJres`: the server's tag list, each tag normalised, length and order kept. */
  function AppServerJres(lines: seq<string>): (r: seq<string>)
    ensures |r| == |lines|
    ensures forall i :: 0 <= i < |r| ==> r[i] == NormaliseTag(lines[i])
  {
    seq(|lines|, i requires 0 <= i < |lines| => NormaliseTag(lines[i]))
  }

  /** The resource that lists a server's runtime tags. */
  function JreResourceName(appServer: string): string
  {
    appServer + ".jre.txt"
  }

  /** The (server, tag) entries that `putAll(appServer, serverJres)` adds to the multimap. */
  function ServerEntries(appServer: string, serverJres: seq<string>): set<(string, string)>
  {
    set t | t in serverJres :: (appServer, t)
  }

  /**
   * The entries of the multimap `parameterGenerator` fills, one `putAll` per listed
   * server. A HashMultimap holds a set of values per key, so repeated pairs collapse.
   */
  function Entries(appServers: seq<string>, jreLists: map<string, seq<string>>): set<(string, string)>
  {
    if appServers == [] then {}
    else
      var last := appServers[|appServers| - 1];
      Entries(appServers[..|appServers| - 1], jreLists)
      + (if last in jreLists then ServerEntries(last, AppServerJres(jreLists[last])) else {})
  }

  /** An entry is present exactly when its server is listed and its tag is one of that server's normalised tags. */
  lemma {:induction false} EntriesMembership(appServers: seq<string>, jreLists: map<string, seq<string>>, e: (string, string))
    ensures e in Entries(appServers, jreLists) <==>
            exists i :: 0 <= i < |appServers| && appServers[i] == e.0 && appServers[i] in jreLists
                        && e.1 in AppServerJres(jreLists[appServers[i]])
  {
    if appServers != [] {
      var init := appServers[..|appServers| - 1];
      EntriesMembership(init, jreLists, e);
      if e in Entries(init, jreLists) {
        var i :| 0 <= i < |init| && init[i] == e.0 && init[i] in jreLists && e.1 in AppServerJres(jreLists[init[i]]);
        assert appServers[i] == init[i];
      }
      if exists i :: 0 <= i < |appServers| && appServers[i] == e.0 && appServers[i] in jreLists
                     && e.1 in AppServerJres(jreLists[appServers[i]]) {
        var i :| 0 <= i < |appServers| && appServers[i] == e.0 && appServers[i] in jreLists
                 && e.1 in AppServerJres(jreLists[appServers[i]]);
        if i < |init| {
          assert init[i] == appServers[i];
        }
      }
    }
  }

  predicate NoDuplicates(cases: seq<TestCase>)
  {
    forall i, j :: 0 <= i < j < |cases| ==> cases[i] != cases[j]
  }

  /**
   * Iteration over `entries()`: every entry of the set is visited once, in an order
   * the multimap does not specify.
   */
  method EnumerateEntries<T(==)>(entries: set<T>) returns (listed: seq<T>)
    ensures |listed| == |entries|
    ensures forall k :: 0 <= k < |listed| ==> listed[k] in entries
    ensures forall e :: e in entries ==> e in listed
    ensures forall i, j :: 0 <= i < j < |listed| ==> listed[i] != listed[j]
  {
    listed := [];
    var remaining := entries;
    while remaining != {}
      invariant remaining <= entries
      invariant forall k :: 0 <= k < |listed| ==> listed[k] in entries - remaining
      invariant forall e :: e in entries - remaining ==> e in listed
      invariant forall i, j :: 0 <= i < j < |listed| ==> listed[i] != listed[j]
      invariant |listed| + |remaining| == |entries|
      decreases |remaining|
    {
      var entry :| entry in remaining;
      listed := listed + [entry];
      remaining := remaining - {entry};
    }
    assert entries - remaining == entries;
  }

  /** The `{server, os, tag}` cases built from the visited entries, in visiting order. */
  function CasesOf(listed: seq<(string, string)>, os: string): (cases: seq<TestCase>)
    ensures |cases| == |listed|
    ensures forall k :: 0 <= k < |cases| ==> cases[k].os == os
    ensures forall k :: 0 <= k < |cases| ==> (cases[k].appServer, cases[k].jreVersion) == listed[k]
    ensures forall e :: e in listed ==> exists k :: 0 <= k < |cases| && cases[k] == TestCase(e.0, os, e.1)
    ensures (forall i, j :: 0 <= i < j < |listed| ==> listed[i] != listed[j]) ==> NoDuplicates(cases)
  {
    seq(|listed|, k requires 0 <= k < |listed| => TestCase(listed[k].0, os, listed[k].1))
  }

  const DefaultOs: string := "linux"

  /**
   * `System.getProperty("applicationinsights.smoketest.os", "linux")`, given the
   * property's value or `None` when it is unset.
   */
  function OsSetting(osProperty: Option<string>): string
  {
    if osProperty.Some? then osProperty.value else DefaultOs
  }

  /** The resource that lists the application servers. */
  const AppServersFileName: string := "appServers.txt"

  /**
   * `parameterGenerator`. `appServersFile` is the content of `appServers.txt`, or
   * `None` when that resource is missing; `jreLists` maps a server to the lines of
   * its `<server>.jre.txt` and lacks the servers whose resource is missing;
   * `osProperty` is the OS system property. A failure names the missing
   * resource: `appServers.txt`, or else the first listed server's tag list.
   */
  method ParameterGenerator(appServersFile: Option<seq<string>>, jreLists: map<string, seq<string>>,
                            osProperty: Option<string>)
    returns (r: Result<seq<TestCase>, Error>)
    ensures appServersFile.None? ==> r == Failure(MissingResource(AppServersFileName))
    ensures appServersFile.Some? ==>
              (r.Failure? <==> exists i :: 0 <= i < |appServersFile.value| && appServersFile.value[i] !in jreLists)
    ensures appServersFile.Some? && r.Failure? ==>
              var appServers := appServersFile.value;
              exists i :: && 0 <= i < |appServers| && appServers[i] !in jreLists
                          && (forall j :: 0 <= j < i ==> appServers[j] in jreLists)
                          && r.error == MissingResource(JreResourceName(appServers[i]))
    ensures r.Success? ==> appServersFile.Some?
    ensures r.Success? ==> forall k :: 0 <= k < |r.value| ==> r.value[k].os == OsSetting(osProperty)
    ensures osProperty.None? && r.Success? ==> forall k :: 0 <= k < |r.value| ==> r.value[k].os == DefaultOs
    ensures r.Success? ==> NoDuplicates(r.value)
    ensures r.Success? ==> forall k :: 0 <= k < |r.value| ==>
              (r.value[k].appServer, r.value[k].jreVersion) in Entries(appServersFile.value, jreLists)
    ensures r.Success? ==> forall e :: e in Entries(appServersFile.value, jreLists) ==>
              exists k :: 0 <= k < |r.value| && r.value[k] == TestCase(e.0, OsSetting(osProperty), e.1)
    ensures r.Success? ==> |r.value| == |Entries(appServersFile.value, jreLists)|
  {
    if appServersFile.None? {
      return Failure(MissingResource(AppServersFileName));
    }
    r := ExpandServers(appServersFile.value, jreLists, OsSetting(osProperty));
  }

  /**
   * The two loops of `parameterGenerator` once `appServers.txt` is read: fill the
   * multimap one server at a time, then build one case per entry.
   */
  method ExpandServers(appServers: seq<string>, jreLists: map<string, seq<string>>, os: string)
    returns (r: Result<seq<TestCase>, Error>)
    ensures r.Failure? <==> exists i :: 0 <= i < |appServers| && appServers[i] !in jreLists
    ensures r.Failure? ==> exists i :: && 0 <= i < |appServers| && appServers[i] !in jreLists
                                      && (forall j :: 0 <= j < i ==> appServers[j] in jreLists)
                                      && r.error == MissingResource(JreResourceName(appServers[i]))
    ensures r.Success? ==> NoDuplicates(r.value)
    ensures r.Success? ==> forall k :: 0 <= k < |r.value| ==> r.value[k].os == os
    ensures r.Success? ==> forall k :: 0 <= k < |r.value| ==>
              (r.value[k].appServer, r.value[k].jreVersion) in Entries(appServers, jreLists)
    ensures r.Success? ==> forall e :: e in Entries(appServers, jreLists) ==>
              exists k :: 0 <= k < |r.value| && r.value[k] == TestCase(e.0, os, e.1)
    ensures r.Success? ==> |r.value| == |Entries(appServers, jreLists)|
  {
    var entries: set<(string, string)> := {};
    for n := 0 to |appServers|
      invariant forall i :: 0 <= i < n ==> appServers[i] in jreLists
      invariant entries == Entries(appServers[..n], jreLists)
    {
      var appServer := appServers[n];
      if appServer !in jreLists {
        return Failure(MissingResource(JreResourceName(appServer)));
      }
      var serverJres := AppServerJres(jreLists[appServer]);
      entries := entries + ServerEntries(appServer, serverJres);
      assert appServers[..n + 1][..n] == appServers[..n];
    }
    assert appServers[..|appServers|] == appServers;

    var listed := EnumerateEntries(entries);
    var rval := CasesOf(listed, os);
    return Success(rval);
  }
}
