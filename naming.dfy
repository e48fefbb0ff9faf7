/**
 * Names and URLs the harness derives: the container image name, the application
 * context taken from the WAR file name, and the URLs probed on the host.
 */
module Naming {
  import opened Wrappers
  import opened Text

  /** `String.format("%s_%s_%s", appServer, os, jreVersion)` in `setupProperties`. */
  function ImageName(appServer: string, os: string, jreVersion: string): (r: string)
    ensures '_' !in appServer && '_' !in os ==> ParseImageName(r) == Some((appServer, os, jreVersion))
  {
    var r := appServer + "_" + os + "_" + jreVersion;
    assert '_' !in appServer && '_' !in os ==> ParseImageName(r) == Some((appServer, os, jreVersion)) by {
      if '_' !in appServer && '_' !in os {
        assert r == appServer + ['_'] + (os + "_" + jreVersion);
        SplitFirstOfJoin(appServer, '_', os + "_" + jreVersion);
        assert os + "_" + jreVersion == os + ['_'] + jreVersion;
        SplitFirstOfJoin(os, '_', jreVersion);
      }
    }
    r
  }

  /** Splits `s` at the first `sep`; `None` when `sep` does not occur. */
  function SplitFirst(s: string, sep: char): (r: Option<(string, string)>)
    ensures r.Some? ==> sep !in r.value.0 && s == r.value.0 + [sep] + r.value.1
    ensures r.None? ==> sep !in s
  {
    if s == [] then None
    else if s[0] == sep then Some(([], s[1..]))
    else match SplitFirst(s[1..], sep)
      case None => None
      case Some((a, b)) => Some(([s[0]] + a, b))
  }

  lemma {:induction false} SplitFirstOfJoin(a: string, sep: char, b: string)
    requires sep !in a
    ensures SplitFirst(a + [sep] + b, sep) == Some((a, b))
  {
    if a != [] {
      assert (a + [sep] + b)[1..] == a[1..] + [sep] + b;
      SplitFirstOfJoin(a[1..], sep, b);
      assert [a[0]] + a[1..] == a;
    }
  }

  /** Reads an image name back into its server, OS and runtime parts. */
  function ParseImageName(name: string): Option<(string, string, string)>
  {
    match SplitFirst(name, '_')
    case None => None
    case Some((appServer, rest)) =>
      match SplitFirst(rest, '_')
      case None => None
      case Some((os, jreVersion)) => Some((appServer, os, jreVersion))
  }

  const WarSuffix: string := ".war"

  /**
   * `getAppContext`: `warFileName.replace(".war", "")`, which drops every occurrence
   * and not only a trailing one; `AppContextDropsFirstWar` gives each step.
   */
  function AppContext(warFileName: string): (r: string)
    ensures !Contains(warFileName, WarSuffix) ==> r == warFileName
    ensures Contains(warFileName, WarSuffix) ==> |r| <= |warFileName| - |WarSuffix|
  {
    if Contains(warFileName, WarSuffix) then
      RemoveAllShrinks(warFileName, WarSuffix);
      RemoveAll(warFileName, WarSuffix)
    else
      RemoveAllWithoutPattern(warFileName, WarSuffix);
      RemoveAll(warFileName, WarSuffix)
  }

  /** No `.war` starts inside `x` when `x + ".war" + y` is scanned, as `x` holds none. */
  lemma {:induction false} NoWarInside(x: string, y: string)
    requires !Contains(x, WarSuffix)
    ensures NoMatchBefore(x + WarSuffix + y, WarSuffix, |x|)
  {
    if x != [] {
      var s := x + WarSuffix + y;
      assert !(WarSuffix <= s) by {
        if |x| >= 4 {
          assert s[..4] == x[..4];
          assert x[0..] == x;
        } else {
          assert s[|x|] == '.';
          assert WarSuffix[|x|] != '.';
        }
      }
      if |x| >= 4 {
        ContainsPastHead(x, WarSuffix);
      }
      NoWarInside(x[1..], y);
      assert s[1..] == x[1..] + WarSuffix + y;
    }
  }

  /** The first `.war` is dropped and the rest of the name is scanned on after it. */
  lemma AppContextDropsFirstWar(x: string, y: string)
    requires !Contains(x, WarSuffix)
    ensures AppContext(x + WarSuffix + y) == x + AppContext(y)
  {
    NoWarInside(x, y);
    RemoveAllStep(x, WarSuffix, y);
  }

  /** For a WAR named `x.war`, with no other `.war` in `x`, the context is `x`. */
  lemma AppContextOfWarName(x: string)
    requires !Contains(x, WarSuffix)
    ensures AppContext(x + WarSuffix) == x
  {
    NoWarInside(x, []);
    assert x + WarSuffix + [] == x + WarSuffix;
    RemoveAllOfAppended(x, WarSuffix);
  }

  /** A doubled suffix is dropped twice: `x.war.war` also gives `x`. */
  lemma AppContextOfDoubledWar(x: string)
    requires !Contains(x, WarSuffix)
    ensures AppContext(x + WarSuffix + WarSuffix) == x
  {
    AppContextDropsFirstWar(x, WarSuffix);
    AppContextOfWarName([]);
    assert [] + WarSuffix == WarSuffix;
  }

  /**
   * `replace` does not rescan its own output: removing the one `.war` in `.w.warar`
   * joins its neighbours into a new `.war`, which stays.
   */
  lemma AppContextDoesNotRescan()
    ensures AppContext(".w.warar") == ".war"
    ensures Contains(AppContext(".w.warar"), WarSuffix)
  {
    assert ".w.warar" == ".w" + WarSuffix + "ar";
    assert NoMatchBefore(".w" + WarSuffix + "ar", WarSuffix, 2) by {
      var s := ".w" + WarSuffix + "ar";
      assert s[0] == '.' && s[1] == 'w';
      assert s[1..][0] == 'w' && s[1..][1] == '.';
      assert s[1..][1..] == s[2..];
    }
    RemoveAllStep(".w", WarSuffix, "ar");
    assert ".w" + "ar" == ".war";
    assert WarSuffix <= ".war"[0..];
  }

  const LocalhostPrefix: string := "http://localhost:"

  /** Reads the port back out of a `http://localhost:<port>/...` URL. */
  function PortOf(url: string): Option<int>
  {
    if !(LocalhostPrefix <= url) then None
    else match SplitFirst(url[|LocalhostPrefix|..], '/')
      case None => None
      case Some((digits, _)) => ParseDecimal(digits)
  }

  /** Reads the application context back out of a `http://localhost:<port>/<context>` URL. */
  function ContextOf(url: string): Option<string>
  {
    if !(LocalhostPrefix <= url) then None
    else match SplitFirst(url[|LocalhostPrefix|..], '/')
      case None => None
      case Some((_, context)) => Some(context)
  }

  /** A URL on localhost names its port and its context, whatever the context holds. */
  lemma UrlParsesBack(port: int, context: string)
    ensures var url := LocalhostPrefix + DecimalString(port) + "/" + context;
            PortOf(url) == Some(port) && ContextOf(url) == Some(context)
  {
    var url := LocalhostPrefix + DecimalString(port) + "/" + context;
    var numeral := DecimalString(port);
    assert url == LocalhostPrefix + (numeral + ['/'] + context);
    assert url[|LocalhostPrefix|..] == numeral + ['/'] + context;
    assert '/' !in numeral by {
      if port < 0 {
        assert numeral == ['-'] + Digits(-port);
      }
    }
    SplitFirstOfJoin(numeral, '/', context);
  }

  /** `String.format("http://localhost:%s/", String.valueOf(appServerPort))`: the app server's root. */
  function ServerUrl(port: int): (r: string)
    ensures PortOf(r) == Some(port) && ContextOf(r) == Some([])
  {
    UrlParsesBack(port, []);
    assert LocalhostPrefix + DecimalString(port) + "/" + [] == LocalhostPrefix + DecimalString(port) + "/";
    LocalhostPrefix + DecimalString(port) + "/"
  }

  /** `getBaseUrl`: `"http://localhost:" + appServerPort + "/" + getAppContext()`. */
  function BaseUrl(port: int, warFileName: string): (r: string)
    ensures PortOf(r) == Some(port) && ContextOf(r) == Some(AppContext(warFileName))
  {
    UrlParsesBack(port, AppContext(warFileName));
    LocalhostPrefix + DecimalString(port) + "/" + AppContext(warFileName)
  }
}
