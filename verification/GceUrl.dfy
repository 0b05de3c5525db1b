/** Links to cloud resources: printing and parsing. */
module GceUrl {
  import opened Options
  import opened Text

  datatype GoogleCloudURL = URL(
    version: string, project: string, kind: string, name: string, global: bool, region: string, zone: string)

  const EMPTY := URL("", "", "", "", false, "", "")

  const HOST := ["https:", "", "www.googleapis.com", "compute"]

  /** The path of a link after the version. */
  function Fields(u: GoogleCloudURL): (r: seq<string>) {
    (if u.project != "" then ["projects", u.project] else [])
    + (if u.global then ["global"] else [])
    + (if u.region != "" then ["regions", u.region] else [])
    + (if u.zone != "" then ["zones", u.zone] else [])
    + [u.kind, u.name]
  }

  function Defaulted(u: GoogleCloudURL): GoogleCloudURL {
    if u.version == "" then u.(version := "v1") else u
  }

  function Printed(u: GoogleCloudURL): string {
    Join(HOST + [Defaulted(u).version] + Fields(u), '/')
  }

  method BuildURL(u: GoogleCloudURL) returns (url: string)
    ensures url == Printed(u)
  {
    var version := u.version;
    if version == "" {
      version := "v1";
    }
    hide Join, Fields;
    url := "https:" + "//" + "www.googleapis.com" + "/" + "compute" + "/" + version + "/";
    ghost var done := HOST + [version];
    HostText("https:", "www.googleapis.com", "compute", version);
    if u.project != "" {
      Grow(url, done, "projects/", "projects", u.project);
      url := url + "projects/" + u.project + "/";
      done := done + ["projects", u.project];
    }
    if u.global {
      GrowWord(url, done, "global/", "global");
      url := url + "global/";
      done := done + ["global"];
    }
    if u.region != "" {
      Grow(url, done, "regions/", "regions", u.region);
      url := url + "regions/" + u.region + "/";
      done := done + ["regions", u.region];
    }
    if u.zone != "" {
      Grow(url, done, "zones/", "zones", u.zone);
      url := url + "zones/" + u.zone + "/";
      done := done + ["zones", u.zone];
    }
    Finish(url, done, u.kind, u.name);
    url := url + u.kind + "/" + u.name;
    AllFields(u, HOST + [version], done);
  }

  /** A printed link as a text: the host, the version, by default the first, and the fields that are there. */
  lemma PrintedText(u: GoogleCloudURL)
    ensures Printed(u) ==
            "https://www.googleapis.com/compute/" + (if u.version == "" then "v1" else u.version) + "/"
            + (if u.project != "" then "projects/" + u.project + "/" else "")
            + (if u.global then "global/" else "")
            + (if u.region != "" then "regions/" + u.region + "/" else "")
            + (if u.zone != "" then "zones/" + u.zone + "/" else "")
            + u.kind + "/" + u.name
  {
    var version := if u.version == "" then "v1" else u.version;
    HostText("https:", "www.googleapis.com", "compute", version);
    HostLiteral(version);
    hide Join, Fields;
    FieldsText("https://www.googleapis.com/compute/" + version + "/", HOST + [version], u);
  }

  lemma HostLiteral(version: string)
    ensures "https:" + "//" + "www.googleapis.com" + "/" + "compute" + "/" + version + "/" == "https://www.googleapis.com/compute/" + version + "/"
  {
  }

  lemma FieldsText(start: string, base: seq<string>, u: GoogleCloudURL)
    requires base != [] && start == Join(base, '/') + "/"
    ensures Join(base + Fields(u), '/') ==
            start
            + (if u.project != "" then "projects/" + u.project + "/" else "")
            + (if u.global then "global/" else "")
            + (if u.region != "" then "regions/" + u.region + "/" else "")
            + (if u.zone != "" then "zones/" + u.zone + "/" else "")
            + u.kind + "/" + u.name
  {
    hide Join, Fields;
    var a, done1 := AddField(u.project != "", start, base, "projects/", "projects", u.project);
    var b, done2 := AddWord(u.global, a, done1, "global/", "global");
    var c, done3 := AddField(u.region != "", b, done2, "regions/", "regions", u.region);
    var d, done4 := AddField(u.zone != "", c, done3, "zones/", "zones", u.zone);
    Finish(d, done4, u.kind, u.name);
    AllFields(u, base, done4);
  }

  lemma AddField(there: bool, url: string, done: seq<string>, head: string, word: string, value: string)
    returns (url': string, done': seq<string>)
    requires done != [] && url == Join(done, '/') + "/" && head == word + "/"
    ensures done' == done + (if there then [word, value] else []) && done' != [] && url' == Join(done', '/') + "/"
    ensures url' == url + if there then head + value + "/" else ""
  {
    url', done' := url, done;
    if there {
      Grow(url, done, head, word, value);
      url', done' := url + (head + value + "/"), done + [word, value];
      assert url' == url + head + value + "/";
    }
  }

  lemma AddWord(there: bool, url: string, done: seq<string>, head: string, word: string) returns (url': string, done': seq<string>)
    requires done != [] && url == Join(done, '/') + "/" && head == word + "/"
    ensures done' == done + (if there then [word] else []) && done' != [] && url' == Join(done', '/') + "/"
    ensures url' == url + if there then head else ""
  {
    url', done' := url, done;
    if there {
      GrowWord(url, done, head, word);
      url', done' := url + head, done + [word];
    }
  }

  /** `url` is `done`, joined, with a slash at the end. */
  lemma GrowWord(url: string, done: seq<string>, head: string, word: string)
    requires done != [] && url == Join(done, '/') + "/" && head == word + "/"
    ensures url + head == Join(done + [word], '/') + "/"
  {
    JoinAppend(done, [word], '/');
  }

  lemma HostText(a: string, b: string, c: string, version: string)
    ensures Join([a, "", b, c] + [version], '/') + "/" == a + "//" + b + "/" + c + "/" + version + "/"
  {
    var u1 := a + "/";
    GrowWord(u1, [a], "/", "");
    var u2 := u1 + "/";
    GrowWord(u2, [a] + [""], b + "/", b);
    var u3 := u2 + (b + "/");
    GrowWord(u3, [a] + [""] + [b], c + "/", c);
    var u4 := u3 + (c + "/");
    GrowWord(u4, [a] + [""] + [b] + [c], version + "/", version);
    assert [a] + [""] + [b] + [c] + [version] == [a, "", b, c] + [version];
    assert u2 == a + "//" && u3 == u2 + b + "/" && u4 == u3 + c + "/";
    assert u4 + (version + "/") == u4 + version + "/";
  }

  lemma Grow(url: string, done: seq<string>, head: string, word: string, value: string)
    requires done != [] && url == Join(done, '/') + "/" && head == word + "/"
    ensures url + head + value + "/" == Join(done + [word, value], '/') + "/"
  {
    GrowWord(url, done, head, word);
    GrowWord(url + head, done + [word], value + "/", value);
    assert done + [word] + [value] == done + [word, value];
  }

  lemma Finish(url: string, done: seq<string>, kind: string, name: string)
    requires done != [] && url == Join(done, '/') + "/"
    ensures url + kind + "/" + name == Join(done + [kind, name], '/')
  {
    Grow(url, done, kind + "/", kind, name);
    var whole, text := Join(done + [kind, name], '/'), url + kind + "/" + name;
    assert url + (kind + "/") + name + "/" == text + "/";
    assert (whole + "/")[..|whole|] == whole && (text + "/")[..|text|] == text;
  }

  lemma AllFields(u: GoogleCloudURL, base: seq<string>, done: seq<string>)
    requires done == base + (if u.project != "" then ["projects", u.project] else [])
                     + (if u.global then ["global"] else [])
                     + (if u.region != "" then ["regions", u.region] else [])
                     + (if u.zone != "" then ["zones", u.zone] else [])
    ensures done + [u.kind, u.name] == base + Fields(u)
  {
    var a := if u.project != "" then ["projects", u.project] else [];
    var b := if u.global then ["global"] else [];
    var c := if u.region != "" then ["regions", u.region] else [];
    var d := if u.zone != "" then ["zones", u.zone] else [];
    Regroup(base, a, b, c, d, [u.kind, u.name]);
  }

  lemma Regroup(base: seq<string>, a: seq<string>, b: seq<string>, c: seq<string>, d: seq<string>, e: seq<string>)
    ensures base + a + b + c + d + e == base + (a + b + c + d + e)
  {
  }

  /** What the path after the version stands for. */
  function ParseFields(rest: seq<string>, u: GoogleCloudURL): Option<GoogleCloudURL>
    decreases |rest|
  {
    if rest == [] then None
    else if rest[0] == "projects" then
      if |rest| < 2 then None else ParseFields(rest[2..], u.(project := rest[1]))
    else if rest[0] == "zones" then
      if |rest| < 2 then None else ParseFields(rest[2..], u.(zone := rest[1]))
    else if rest[0] == "regions" && |rest| > 2 then
      ParseFields(rest[2..], u.(region := rest[1]))
    else if rest[0] == "global" then
      ParseFields(rest[1..], u.(global := true))
    else if |rest| == 2 then
      Some(u.(kind := rest[0], name := rest[1]))
    else None
  }

  function Parsed(s: string): Option<GoogleCloudURL> {
    var tokens := Split(s, '/');
    if |tokens| < 5 || tokens[..4] != HOST || tokens[4] !in {"v1", "beta"} then None
    else ParseFields(tokens[5..], EMPTY.(version := tokens[4]))
  }

  method ParseGoogleCloudURL(s: string) returns (r: Option<GoogleCloudURL>)
    ensures r == Parsed(s)
  {
    var tokens := Split(s, '/');
    if |tokens| < 3 {
      return None;
    }
    if tokens[0] != "https:" || tokens[1] != "" || tokens[2] != "www.googleapis.com" {
      assert |tokens| >= 5 ==> tokens[..4][0] == tokens[0] && tokens[..4][1] == tokens[1] && tokens[..4][2] == tokens[2];
      return None;
    }
    if |tokens| < 5 || tokens[3] != "compute" {
      assert |tokens| >= 5 ==> tokens[..4][3] == tokens[3];
      return None;
    }
    assert tokens[..4] == HOST;
    if tokens[4] != "v1" && tokens[4] != "beta" {
      return None;
    }
    var parsed := EMPTY.(version := tokens[4]);
    var pos := 5;
    while true
      invariant 5 <= pos <= |tokens|
      invariant ParseFields(tokens[pos..], parsed) == Parsed(s)
      decreases |tokens| - pos
    {
      if pos >= |tokens| {
        return None;
      }
      var t := tokens[pos];
      if t == "projects" {
        pos := pos + 1;
        if pos >= |tokens| {
          return None;
        }
        parsed := parsed.(project := tokens[pos]);
        assert tokens[pos - 1..][2..] == tokens[pos + 1..];
      } else if t == "zones" {
        pos := pos + 1;
        if pos >= |tokens| {
          return None;
        }
        parsed := parsed.(zone := tokens[pos]);
        assert tokens[pos - 1..][2..] == tokens[pos + 1..];
      } else if t == "regions" && pos + 2 < |tokens| {
        pos := pos + 1;
        parsed := parsed.(region := tokens[pos]);
        assert tokens[pos - 1..][2..] == tokens[pos + 1..];
      } else if t == "global" {
        parsed := parsed.(global := true);
        assert tokens[pos..][1..] == tokens[pos + 1..];
      } else {
        parsed := parsed.(kind := tokens[pos]);
        pos := pos + 1;
        if pos >= |tokens| {
          return None;
        }
        parsed := parsed.(name := tokens[pos]);
        pos := pos + 1;
        if pos != |tokens| {
          return None;
        } else {
          return Some(parsed);
        }
      }
      pos := pos + 1;
    }
  }

  /** A link that its printed form determines: a known version, no field with a slash, and a kind that
      is not one of the words of the path. The kind "regions" is allowed. */
  predicate WellFormed(u: GoogleCloudURL) {
    && u.version in {"", "v1", "beta"}
    && '/' !in u.project && '/' !in u.region && '/' !in u.zone && '/' !in u.kind && '/' !in u.name
    && u.kind !in {"projects", "zones", "global"}
  }

  lemma PlainFields(u: GoogleCloudURL)
    requires WellFormed(u)
    ensures Plain(HOST + [Defaulted(u).version] + Fields(u), '/')
  {
  }

  lemma ParsesProject(u: GoogleCloudURL, rest: seq<string>, acc: GoogleCloudURL)
    requires acc.project == ""
    ensures ParseFields((if u.project != "" then ["projects", u.project] else []) + rest, acc) ==
            ParseFields(rest, acc.(project := u.project))
  {
    if u.project != "" {
      assert (["projects", u.project] + rest)[2..] == rest;
    } else {
      assert [] + rest == rest;
    }
  }

  lemma ParsesGlobal(u: GoogleCloudURL, rest: seq<string>, acc: GoogleCloudURL)
    requires !acc.global
    ensures ParseFields((if u.global then ["global"] else []) + rest, acc) == ParseFields(rest, acc.(global := u.global))
  {
    if u.global {
      assert (["global"] + rest)[1..] == rest;
    } else {
      assert [] + rest == rest;
    }
  }

  lemma ParsesRegion(u: GoogleCloudURL, rest: seq<string>, acc: GoogleCloudURL)
    requires acc.region == "" && rest != []
    ensures ParseFields((if u.region != "" then ["regions", u.region] else []) + rest, acc) ==
            ParseFields(rest, acc.(region := u.region))
  {
    if u.region != "" {
      assert (["regions", u.region] + rest)[2..] == rest;
    } else {
      assert [] + rest == rest;
    }
  }

  lemma ParsesZone(u: GoogleCloudURL, rest: seq<string>, acc: GoogleCloudURL)
    requires acc.zone == ""
    ensures ParseFields((if u.zone != "" then ["zones", u.zone] else []) + rest, acc) ==
            ParseFields(rest, acc.(zone := u.zone))
  {
    if u.zone != "" {
      assert (["zones", u.zone] + rest)[2..] == rest;
    } else {
      assert [] + rest == rest;
    }
  }

  /** All that matters is how the parser takes the last two words. */
  lemma ParsesFields(u: GoogleCloudURL, version: string)
    ensures ParseFields(Fields(u), EMPTY.(version := version)) ==
            ParseFields([u.kind, u.name], u.(version := version, kind := "", name := ""))
  {
    var a := EMPTY.(version := version);
    var z := (if u.zone != "" then ["zones", u.zone] else []) + [u.kind, u.name];
    var r := (if u.region != "" then ["regions", u.region] else []) + z;
    var g := (if u.global then ["global"] else []) + r;
    var p := (if u.project != "" then ["projects", u.project] else []) + g;
    assert Fields(u) == p;
    ParsesProject(u, g, a);
    ParsesGlobal(u, r, a.(project := u.project));
    ParsesRegion(u, z, a.(project := u.project, global := u.global));
    ParsesZone(u, [u.kind, u.name], a.(project := u.project, global := u.global, region := u.region));
  }

  lemma OneWord(name: string, acc: GoogleCloudURL)
    ensures ParseFields([name], acc) == None
  {
    assert [name][1..] == [];
  }

  lemma LastWords(kind: string, name: string, acc: GoogleCloudURL)
    ensures ParseFields([kind, name], acc) ==
            if kind in {"projects", "zones", "global"} then None else Some(acc.(kind := kind, name := name))
  {
    assert [kind, name][2..] == [];
    assert [kind, name][1..] == [name];
    OneWord(name, acc.(global := true));
  }

  /** A parsed link is well formed. */
  lemma {:induction false} ParseFieldsWellFormed(rest: seq<string>, acc: GoogleCloudURL)
    requires Plain(rest, '/') && ParseFields(rest, acc).Some?
    requires WellFormed(acc.(kind := "", name := ""))
    ensures WellFormed(ParseFields(rest, acc).value) && ParseFields(rest, acc).value.version == acc.version
    decreases |rest|
  {
    if rest[0] == "projects" {
      ParseFieldsWellFormed(rest[2..], acc.(project := rest[1]));
    } else if rest[0] == "zones" {
      ParseFieldsWellFormed(rest[2..], acc.(zone := rest[1]));
    } else if rest[0] == "regions" && |rest| > 2 {
      ParseFieldsWellFormed(rest[2..], acc.(region := rest[1]));
    } else if rest[0] == "global" {
      ParseFieldsWellFormed(rest[1..], acc.(global := true));
    }
  }

  lemma ParsedIsWellFormed(s: string)
    requires Parsed(s).Some?
    ensures WellFormed(Parsed(s).value) && Parsed(s).value.version in {"v1", "beta"}
  {
    var tokens := Split(s, '/');
    SplitIsPlain(s, '/');
    ParseFieldsWellFormed(tokens[5..], EMPTY.(version := tokens[4]));
  }

  lemma PrintedWellFormedParses(u: GoogleCloudURL)
    requires WellFormed(u)
    ensures Parsed(Printed(u)) == Some(Defaulted(u))
  {
    var v := Defaulted(u).version;
    var tokens := HOST + [v] + Fields(u);
    PlainFields(u);
    SplitJoin(tokens, '/');
    assert tokens[..4] == HOST && tokens[5..] == Fields(u);
    ParsesFields(u, v);
    LastWords(u.kind, u.name, u.(version := v, kind := "", name := ""));
  }

  /** Parsing a printed link gives it back, with the default version filled in, exactly if the link is
      well formed. */
  lemma ParsePrinted(u: GoogleCloudURL)
    ensures Parsed(Printed(u)) == Some(Defaulted(u)) <==> WellFormed(u)
  {
    if WellFormed(u) {
      PrintedWellFormedParses(u);
    } else if Parsed(Printed(u)) == Some(Defaulted(u)) {
      ParsedIsWellFormed(Printed(u));
    }
  }

  /** Printing what was parsed loses nothing, whatever the text was. */
  lemma ParsePrintParse(s: string)
    ensures Parsed(s).Some? ==> Parsed(Printed(Parsed(s).value)) == Parsed(s)
  {
    if Parsed(s).Some? {
      ParsedIsWellFormed(s);
      ParsePrinted(Parsed(s).value);
    }
  }
}
