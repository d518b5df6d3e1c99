/** A cluster whose preview exists: what the laws about previews and publications ask for can be met. */
module Example {
  import opened Options
  import opened Addresses
  import opened Manifests
  import opened Recognition
  import opened Git
  import opened Preview
  import opened Convergence

  lemma Cut(a: string, c: char, b: string)
    requires c !in a
    ensures var s := a + ([c] + b);
            IndexOf(s, c) == |a| && s[..|a|] == a && s[|a| + 1..] == b && |s| == |a| + 1 + |b|
    ensures IndexOf(a, c) == |a| && a[..|a|] == a
  {
    IndexOfSplit(a, c, b);
  }

  lemma Hostname()
    ensures ValidHostname("a.b")
  {
    hide IndexOf;
    Cut("a", '.', "b");
    Cut("b", '.', "");
    assert "a.b" == "a" + (['.'] + "b");
    assert ValidLabel("a") && ValidLabel("b");
    assert ValidLabels("b");
  }

  lemma Octets()
    ensures ValidOctets("1.1.1.1", 4)
  {
    hide IndexOf;
    assert ValidOctet("1") by {
      assert "1"[..0] == "";
    }
    Cut("1", '.', "");
    Cut("1", '.', "1");
    Cut("1", '.', "1.1");
    Cut("1", '.', "1.1.1");
    assert "1.1" == "1" + (['.'] + "1");
    assert "1.1.1" == "1" + (['.'] + "1.1");
    assert "1.1.1.1" == "1" + (['.'] + "1.1.1");
    assert ValidOctets("1", 1);
    assert ValidOctets("1.1", 2);
    assert ValidOctets("1.1.1", 3);
  }

  lemma Contact()
    ensures ValidContact("a@b")
  {
    hide IndexOf;
    Cut("a", '@', "b");
    assert "a@b" == "a" + (['@'] + "b");
  }

  lemma Segments(name: string)
    requires name == "r.git" || name == "s"
    ensures ValidSegments("o/" + name)
  {
    hide IndexOf;
    var path := "o/" + name;
    Cut("o", '/', name);
    Cut(name, '/', "");
    assert path == "o" + (['/'] + name);
    assert ValidSegments(name);
  }

  lemma NoTail(url: string)
    requires url != "" && url[|url| - 1] != '#' && url[|url| - 1] != '?'
    ensures Without(Without(url, '#'), '?') == url
  {
  }

  lemma Rest(name: string)
    requires name == "r.git" || name == "s"
    ensures PlainRest("h/o/" + name)
  {
    hide IndexOf, ValidSegments;
    var path := "o/" + name;
    Cut("h", '/', path);
    assert "h/o/" + name == "h" + (['/'] + path);
    Cut("h", ':', "");
    Segments(name);
  }

  lemma Plain(name: string)
    requires name == "r.git" || name == "s"
    ensures PlainUrl("https://h/o/" + name)
  {
    hide Lower, Without, PlainRest;
    var url := "https://h/o/" + name;
    assert url[|url| - 1] == name[|name| - 1];
    NoTail(url);
    assert url[..8] == "https://" && url[8..] == "h/o/" + name;
    LowerScheme();
    Rest(name);
  }

  lemma LowerScheme()
    ensures Lower("https://") == "https://"
  {
  }

  lemma Repository()
    ensures Canonical("https://h/o/r.git").Some?
  {
    hide Parse;
    var id := Identity("h", "", "o", "r");
    assert Proper(id);
    ParseText(id);
    assert Addresses.Text(id) == "https://h/o/r.git";
  }

  /** Valid inputs and addresses: the whole tree of one small cluster renders. */
  lemma Renders()
    ensures RenderTree("https://h/o/r.git", "https://h/o/s", Inputs("a", "a.b", "1.1.1.1", "e", "a@b")).Some?
    ensures Canonical("https://h/o/r.git").Some?
  {
    hide RenderFile, KnownPaths, YamlPaths, ValidHostname, ValidOctets, ValidContact, PlainUrl, Canonical;
    Hostname();
    Octets();
    Contact();
    Plain("r.git");
    Plain("s");
    Repository();
    assert "https://h/o/" + "r.git" == "https://h/o/r.git" && "https://h/o/" + "s" == "https://h/o/s";
  }

  lemma {:induction false} Listing(s: set<Path>) returns (order: seq<Path>)
    ensures forall p :: p in order <==> p in s
  {
    if s == {} {
      order := [];
    } else {
      var p :| p in s;
      var rest := Listing(s - {p});
      order := [p] + rest;
    }
  }

  /** Whatever renders has a first preview. */
  lemma PreviewOf(repo: string, settings: Settings, i: Inputs) returns (q: Request)
    requires RenderTree(repo, settings.bases, i).Some? && Canonical(repo).Some? && settings.revision.Some?
    ensures Listed(q) && q.files.Keys == KnownPaths(i.slug)
    ensures Prepare(q, None, true, None).Ok?
  {
    hide Prepare, RenderTree, KnownPaths, Canonical;
    var order := Listing(RenderTree(repo, settings.bases, i).value.Keys);
    q := FirstRequest(repo, settings, i, order);
    RenderedKeys(repo, settings.bases, i);
    FirstPreviewSucceeds(repo, settings, i, order);
  }

  /** So the small cluster has one too: the laws about prepared previews are not empty. */
  lemma Previews() returns (q: Request)
    ensures Listed(q) && q.files.Keys == KnownPaths("a")
    ensures Prepare(q, None, true, None).Ok?
  {
    hide Prepare, RenderTree, KnownPaths, Canonical;
    Renders();
    q := PreviewOf("https://h/o/r.git", Settings("https://h/o/s", Some("0123456789abcdef0123456789abcdef01234567")),
                   Inputs("a", "a.b", "1.1.1.1", "e", "a@b"));
  }
}
