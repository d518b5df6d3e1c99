/** Forgejo repository identities.

    Two spellings of a clone address name one repository when they parse to one identity, which is
    printed as their canonical form.  Characters outside printable ASCII are refused.
 */
module Addresses {
  import opened Options

  predicate Digit(c: char) {
    '0' <= c <= '9'
  }

  predicate Alnum(c: char) {
    Digit(c) || 'a' <= c <= 'z' || 'A' <= c <= 'Z'
  }

  function LowerChar(c: char): char {
    if 'A' <= c <= 'Z' then (c as int + 32) as char else c
  }

  function Lower(s: string): (r: string)
    ensures |r| == |s| && forall i :: 0 <= i < |r| ==> r[i] == LowerChar(s[i])
  {
    seq(|s|, i requires 0 <= i < |s| => LowerChar(s[i]))
  }

  /** The first position of a character, or the length. */
  function IndexOf(s: string, c: char): (i: nat)
    ensures i <= |s| && c !in s[..i]
    ensures i < |s| ==> s[i] == c
  {
    if s == [] || s[0] == c then 0 else 1 + IndexOf(s[1..], c)
  }

  /** An owner or repository name. */
  predicate Name(s: string) {
    s != [] && Alnum(s[0]) && forall i :: 0 <= i < |s| ==> NameChar(s[i])
  }

  predicate NameChar(c: char) {
    Alnum(c) || c == '_' || c == '.' || c == '-'
  }

  predicate Host(s: string) {
    && s != [] && Alnum(s[0]) && Alnum(s[|s| - 1])
    && forall i :: 0 <= i < |s| ==> Alnum(s[i]) || s[i] == '.' || s[i] == '-'
  }

  predicate Digits(s: string) {
    s != [] && forall i :: 0 <= i < |s| ==> Digit(s[i])
  }

  function Value(s: string): nat
    requires forall i :: 0 <= i < |s| ==> Digit(s[i])
  {
    if s == [] then 0
    else
      assert Digit(s[|s| - 1]);
      10 * Value(s[..|s| - 1]) + (s[|s| - 1] as int - '0' as int)
  }

  /** A port as Python prints it: without leading zeros. */
  function Trimmed(s: string): (r: string)
    requires Digits(s)
    ensures Digits(r) && Value(r) == Value(s)
  {
    if |s| > 1 && s[0] == '0' then TrimZero(s); Trimmed(s[1..]) else s
  }

  lemma {:induction false} TrimZero(s: string)
    requires |s| > 1 && Digits(s) && s[0] == '0'
    ensures Value(s[1..]) == Value(s)
  {
    if |s| > 2 {
      TrimZero(s[..|s| - 1]);
      assert s[1..][..|s[1..]| - 1] == s[..|s| - 1][1..];
    } else {
      assert s[..1][..0] == "" && s[1..][..0] == "";
    }
  }

  predicate Printable(s: string) {
    forall i :: 0 <= i < |s| ==>
      33 <= s[i] as int <= 126 && s[i] != '%' && s[i] != '\\' && s[i] != '?' && s[i] != '#'
  }

  function WithoutGit(s: string): string {
    if |s| >= 4 && Lower(s[|s| - 4..]) == ".git" then s[..|s| - 4] else s
  }

  /** Who a clone address names.  The port is empty when it is the default one. */
  datatype Identity = Identity(host: string, port: string, owner: string, name: string)

  function Netloc(netloc: string): Option<(string, string)> {
    var i := IndexOf(netloc, ':');
    if '@' in netloc || !Host(netloc[..i]) then None
    else if i == |netloc| then Some((Lower(netloc[..i]), ""))
    else if !Digits(netloc[i + 1..]) || Value(netloc[i + 1..]) > 65535 then None
    else Some((Lower(netloc[..i]), if Value(netloc[i + 1..]) == 443 then "" else Trimmed(netloc[i + 1..])))
  }

  function TwoNames(s: string): Option<(string, string)> {
    var i := IndexOf(s, '/');
    if i == |s| || '/' in s[i + 1..] then None
    else
      var owner, name := s[..i], WithoutGit(s[i + 1..]);
      if !Name(owner) || !Name(name) then None else Some((Lower(owner), Lower(name)))
  }

  function Path(path: string): Option<(string, string)> {
    var p := if path != [] && path[|path| - 1] == '/' then path[..|path| - 1] else path;
    if p == [] || p[0] != '/' then None else TwoNames(p[1..])
  }

  /** The repository an address names: HTTPS, one owner, one name, no credentials or query. */
  function Parse(address: string): Option<Identity> {
    if !Printable(address) || |address| < 8 || Lower(address[..8]) != "https://" then None
    else ParseRest(address[8..])
  }

  function ParseRest(rest: string): Option<Identity> {
    var i := IndexOf(rest, '/');
    match Netloc(rest[..i])
    case None => None
    case Some((host, port)) =>
      match Path(rest[i..])
      case None => None
      case Some((owner, name)) => Some(Identity(host, port, owner, name))
  }

  function NetlocText(host: string, port: string): string {
    if port == "" then host else host + ([':'] + port)
  }

  function PathText(owner: string, name: string): string {
    ['/'] + (owner + (['/'] + (name + ".git")))
  }

  /** The canonical spelling of an identity. */
  function Text(id: Identity): string {
    "https://" + (NetlocText(id.host, id.port) + PathText(id.owner, id.name))
  }

  /** The canonical form of a clone address, if it names one owner and one repository. */
  function Canonical(address: string): Option<string> {
    match Parse(address)
    case None => None
    case Some(id) => Some(Text(id))
  }

  // ---- printing and parsing undo each other ----

  /** The identities addresses parse to. */
  predicate Proper(id: Identity) {
    && Host(id.host) && Lower(id.host) == id.host
    && (id.port == "" || ProperPort(id.port))
    && Name(id.owner) && Lower(id.owner) == id.owner
    && Name(id.name) && Lower(id.name) == id.name
  }

  predicate ProperPort(port: string) {
    Digits(port) && Trimmed(port) == port && Value(port) <= 65535 && Value(port) != 443
  }

  lemma LowerName(s: string)
    requires Name(s)
    ensures Name(Lower(s)) && Lower(Lower(s)) == Lower(s)
  {
    forall i | 0 <= i < |s| ensures NameChar(Lower(s)[i]) {
      assert NameChar(s[i]);
    }
  }

  lemma LowerHost(s: string)
    requires Host(s)
    ensures Host(Lower(s)) && Lower(Lower(s)) == Lower(s)
  {
  }

  lemma {:induction false} TrimmedTwice(s: string)
    requires Digits(s)
    ensures Trimmed(Trimmed(s)) == Trimmed(s)
  {
    if |s| > 1 && s[0] == '0' {
      TrimmedTwice(s[1..]);
    }
  }

  lemma ParseProper(address: string)
    requires Parse(address).Some?
    ensures Proper(Parse(address).value)
  {
    var rest := address[8..];
    var i := IndexOf(rest, '/');
    NetlocProper(rest[..i]);
    PathProper(rest[i..]);
  }

  lemma NetlocProper(netloc: string)
    requires Netloc(netloc).Some?
    ensures var (host, port) := Netloc(netloc).value;
            Host(host) && Lower(host) == host && (port == "" || ProperPort(port))
  {
    var i := IndexOf(netloc, ':');
    LowerHost(netloc[..i]);
    if i < |netloc| {
      TrimmedTwice(netloc[i + 1..]);
    }
  }

  lemma PathProper(path: string)
    requires Path(path).Some?
    ensures var (owner, name) := Path(path).value;
            Name(owner) && Lower(owner) == owner && Name(name) && Lower(name) == name
  {
    var s := if path[|path| - 1] == '/' then path[..|path| - 1][1..] else path[1..];
    assert Path(path) == TwoNames(s);
    var i := IndexOf(s, '/');
    LowerName(s[..i]);
    LowerName(WithoutGit(s[i + 1..]));
  }

  lemma IndexOfSplit(a: string, c: char, b: string)
    requires c !in a
    ensures IndexOf(a + ([c] + b), c) == |a|
    ensures IndexOf(a, c) == |a|
  {
    if a != [] {
      assert a[0] in a;
      assert (a + ([c] + b))[1..] == a[1..] + ([c] + b);
      IndexOfSplit(a[1..], c, b);
    }
  }

  lemma Halves(a: string, b: string)
    ensures (a + b)[..|a|] == a && (a + b)[|a|..] == b
  {
  }

  lemma PrintableConcat(a: string, b: string)
    requires Printable(a) && Printable(b)
    ensures Printable(a + b)
  {
  }

  lemma GitAgain(name: string)
    ensures WithoutGit(name + ".git") == name
  {
    Halves(name, ".git");
    assert |name + ".git"| == |name| + 4;
  }

  lemma PlainHost(s: string)
    requires Host(s)
    ensures Printable(s) && '/' !in s && ':' !in s && '@' !in s
  {
  }

  lemma PlainDigits(s: string)
    requires Digits(s)
    ensures Printable(s) && '/' !in s && '@' !in s
    ensures Printable([':'])
  {
  }

  lemma NetlocAgain(host: string, port: string)
    requires Host(host) && Lower(host) == host && (port == "" || ProperPort(port))
    ensures Netloc(NetlocText(host, port)) == Some((host, port))
    ensures Printable(NetlocText(host, port)) && '/' !in NetlocText(host, port)
  {
    hide Printable, Lower;
    PlainHost(host);
    IndexOfSplit(host, ':', port);
    if port == "" {
      assert host[..|host|] == host;
    } else {
      PlainDigits(port);
      PrintableConcat([':'], port);
      PrintableConcat(host, [':'] + port);
      Halves(host, [':'] + port);
      assert NetlocText(host, port)[|host| + 1..] == port;
    }
  }

  lemma NamesAgain(owner: string, name: string)
    requires Name(owner) && Lower(owner) == owner && Name(name) && Lower(name) == name
    ensures TwoNames(owner + (['/'] + (name + ".git"))) == Some((owner, name))
  {
    var rest := name + ".git";
    var s := owner + (['/'] + rest);
    NoSlash(owner);
    NoSlash(name);
    IndexOfSplit(owner, '/', rest);
    Halves(owner, ['/'] + rest);
    assert s[|owner| + 1..] == rest;
    GitAgain(name);
  }

  lemma NoSlash(s: string)
    requires Name(s)
    ensures '/' !in s && Printable(s)
  {
    forall i | 0 <= i < |s| ensures s[i] != '/' {
      assert NameChar(s[i]);
    }
  }

  lemma PathAgain(owner: string, name: string)
    requires Name(owner) && Lower(owner) == owner && Name(name) && Lower(name) == name
    ensures Path(PathText(owner, name)) == Some((owner, name))
  {
    var tail := name + ".git";
    var names := owner + (['/'] + tail);
    var path := ['/'] + names;
    hide TwoNames, Printable, Lower, Name;
    NamesAgain(owner, name);
    Halves(['/'], names);
    LastOf(name, ".git");
    LastOf(['/'], tail);
    LastOf(owner, ['/'] + tail);
    LastOf(['/'], names);
    assert path[|path| - 1] == 't';
  }

  lemma PathPrintable(owner: string, name: string)
    requires Name(owner) && Name(name)
    ensures Printable(PathText(owner, name))
  {
    NoSlash(owner);
    NoSlash(name);
    PrintableConcat(name, ".git");
    PrintableConcat(['/'], name + ".git");
    PrintableConcat(owner, ['/'] + (name + ".git"));
    PrintableConcat(['/'], owner + (['/'] + (name + ".git")));
  }

  lemma LastOf(a: string, b: string)
    requires b != []
    ensures (a + b)[|a + b| - 1] == b[|b| - 1]
  {
  }

  /** Parsing the printed form of an identity gives it back. */
  lemma ParseText(id: Identity)
    requires Proper(id)
    ensures Parse(Text(id)) == Some(id)
  {
    var netloc, path := NetlocText(id.host, id.port), PathText(id.owner, id.name);
    NetlocAgain(id.host, id.port);
    PathAgain(id.owner, id.name);
    PathPrintable(id.owner, id.name);
    PrintableConcat(netloc, path);
    RestAgain(id, netloc, path);
    SchemeAgain(netloc + path);
  }

  lemma RestAgain(id: Identity, netloc: string, path: string)
    requires Netloc(netloc) == Some((id.host, id.port)) && '/' !in netloc
    requires Path(path) == Some((id.owner, id.name)) && path != [] && path[0] == '/'
    ensures ParseRest(netloc + path) == Some(id)
  {
    assert path == ['/'] + path[1..];
    IndexOfSplit(netloc, '/', path[1..]);
    Halves(netloc, path);
  }

  lemma SchemeAgain(rest: string)
    requires Printable(rest)
    ensures Parse("https://" + rest) == ParseRest(rest)
  {
    var scheme := "https://";
    assert Printable(scheme) && Lower(scheme) == scheme;
    PrintableConcat(scheme, rest);
    Halves(scheme, rest);
  }

  /** Canonicalising an address twice is canonicalising it once, and two addresses share a
      canonical form exactly when they name one repository. */
  lemma CanonicalTwice(a: string, b: string)
    requires Canonical(a).Some? && Canonical(b).Some?
    ensures Canonical(Canonical(a).value) == Canonical(a)
    ensures Canonical(a) == Canonical(b) <==> Parse(a) == Parse(b)
  {
    ParseProper(a);
    ParseProper(b);
    ParseText(Parse(a).value);
    ParseText(Parse(b).value);
  }

  // ---- every spelling of an identity, and no other address, names it ----

  /** How an identity may be written: a port with its colon or none, the suffix or not, and a closing
      slash or not.  Letters may be of either case. */
  datatype Spelling = Spelling(port: string, git: bool, slash: bool)

  /** The default port may be left out, any port may have leading zeros, and a name that itself ends in
      the suffix must be followed by it. */
  predicate Fits(id: Identity, sp: Spelling) {
    && (if sp.port == "" then id.port == ""
        else sp.port[0] == ':' && Digits(sp.port[1..])
             && Value(sp.port[1..]) == if Digits(id.port) then Value(id.port) else 443)
    && (!sp.git ==> WithoutGit(id.name) == id.name)
  }

  function NameText(id: Identity, sp: Spelling): string {
    id.name + if sp.git then ".git" else ""
  }

  function Written(id: Identity, sp: Spelling): string {
    ['/'] + (id.owner + (['/'] + NameText(id, sp)))
  }

  function Spelled(id: Identity, sp: Spelling): string {
    "https://" + ((id.host + sp.port) + (Written(id, sp) + if sp.slash then "/" else ""))
  }

  /** An address names a repository exactly when it is, up to letter case, a spelling of it. */
  lemma NamedIff(address: string, id: Identity)
    ensures Parse(address) == Some(id) <==>
              Proper(id) && exists sp :: Fits(id, sp) && Lower(address) == Spelled(id, sp)
  {
    ParseLower(address);
    if Parse(address) == Some(id) {
      hide Parse, Proper, Fits, Spelled;
      ParseProper(address);
      var sp := ParsedSpelling(Lower(address), id);
    }
    if sp :| Proper(id) && Fits(id, sp) && Lower(address) == Spelled(id, sp) {
      hide Parse, Proper, Fits, Spelled;
      SpelledParses(id, sp);
    }
  }

  lemma {:induction false} DecimalUnique(s: string, t: string)
    requires Digits(s) && Digits(t) && Value(s) == Value(t)
    requires (|s| > 1 ==> s[0] != '0') && (|t| > 1 ==> t[0] != '0')
    ensures s == t
  {
    if |s| == 1 && |t| == 1 {
    } else if |s| == 1 || |t| == 1 {
      var l := if |s| == 1 then t else s;
      ValuePositive(l[..|l| - 1]);
    } else {
      DecimalUnique(s[..|s| - 1], t[..|t| - 1]);
      assert s == s[..|s| - 1] + [s[|s| - 1]] && t == t[..|t| - 1] + [t[|t| - 1]];
    }
  }

  lemma {:induction false} ValuePositive(s: string)
    requires Digits(s) && s[0] != '0'
    ensures Value(s) >= 1
  {
    if |s| > 1 {
      ValuePositive(s[..|s| - 1]);
    }
  }

  lemma {:induction false} TrimmedPlain(s: string)
    requires Digits(s)
    ensures |Trimmed(s)| > 1 ==> Trimmed(s)[0] != '0'
  {
    if |s| > 1 && s[0] == '0' {
      TrimmedPlain(s[1..]);
    }
  }

  lemma NetlocSpelled(id: Identity, sp: Spelling)
    requires Proper(id) && Fits(id, sp)
    ensures var netloc := id.host + sp.port;
            Netloc(netloc) == Some((id.host, id.port)) && Printable(netloc) && '/' !in netloc
  {
    hide Printable, Lower, WithoutGit, Name, Value;
    PlainHost(id.host);
    if sp.port == "" {
      IndexOfSplit(id.host, ':', "");
      assert id.host + sp.port == id.host && id.host[..|id.host|] == id.host;
    } else {
      var digits := sp.port[1..];
      assert sp.port == [':'] + digits;
      IndexOfSplit(id.host, ':', digits);
      PlainDigits(digits);
      PrintableConcat([':'], digits);
      PrintableConcat(id.host, sp.port);
      Halves(id.host, sp.port);
      assert (id.host + sp.port)[|id.host| + 1..] == digits;
      TrimmedPlain(digits);
      if id.port != "" {
        TrimmedPlain(id.port);
        DecimalUnique(Trimmed(digits), id.port);
      }
    }
  }

  lemma NameSpelled(id: Identity, sp: Spelling)
    requires Proper(id) && Fits(id, sp)
    ensures var name := NameText(id, sp);
            WithoutGit(name) == id.name && name != [] && name[|name| - 1] != '/' && '/' !in name && Printable(name)
  {
    NoSlash(id.name);
    GitAgain(id.name);
    if sp.git {
      PrintableConcat(id.name, ".git");
    }
  }

  lemma TwoNamesSpelled(id: Identity, sp: Spelling)
    requires Proper(id) && Fits(id, sp)
    ensures TwoNames(id.owner + (['/'] + NameText(id, sp))) == Some((id.owner, id.name))
  {
    hide Printable, Digits, Value, WithoutGit, NameText, Host;
    var name := NameText(id, sp);
    NameSpelled(id, sp);
    NoSlash(id.owner);
    IndexOfSplit(id.owner, '/', name);
    Halves(id.owner, ['/'] + name);
    assert (id.owner + (['/'] + name))[|id.owner| + 1..] == name;
  }

  /** One closing slash is not part of the names. */
  lemma PathOf(names: string, slash: bool)
    requires names != [] && names[|names| - 1] != '/'
    ensures Path((['/'] + names) + if slash then "/" else "") == TwoNames(names)
  {
    var path := ['/'] + names;
    LastOf(['/'], names);
    assert path[1..] == names;
    Halves(path, "/");
    assert path + "" == path;
  }

  lemma PathSpelled(id: Identity, sp: Spelling)
    requires Proper(id) && Fits(id, sp)
    ensures var path := Written(id, sp) + if sp.slash then "/" else "";
            Path(path) == Some((id.owner, id.name)) && Printable(path) && path != [] && path[0] == '/'
  {
    hide Printable, Fits, WithoutGit, NameText, Path, TwoNames;
    var name := NameText(id, sp);
    var names := id.owner + (['/'] + name);
    NameSpelled(id, sp);
    NoSlash(id.owner);
    TwoNamesSpelled(id, sp);
    LastOf(['/'], name);
    LastOf(id.owner, ['/'] + name);
    PathOf(names, sp.slash);
    SlashPrintable();
    PrintableConcat(['/'], name);
    PrintableConcat(id.owner, ['/'] + name);
    PrintableConcat(['/'], names);
    PrintableConcat(['/'] + names, if sp.slash then "/" else "");
  }

  lemma SlashPrintable()
    ensures Printable("/") && Printable("")
  {
  }

  lemma SpelledParses(id: Identity, sp: Spelling)
    requires Proper(id) && Fits(id, sp)
    ensures Parse(Spelled(id, sp)) == Some(id)
  {
    hide Printable, Lower, Fits, Proper, Written, Netloc, Path;
    var netloc, path := id.host + sp.port, Written(id, sp) + if sp.slash then "/" else "";
    NetlocSpelled(id, sp);
    PathSpelled(id, sp);
    PrintableConcat(netloc, path);
    RestAgain(id, netloc, path);
    SchemeAgain(netloc + path);
  }

  // Letter case is irrelevant: every piece of an address is cut at characters that are no letters.

  lemma {:induction false} IndexOfLower(s: string, c: char)
    requires !Alnum(c)
    ensures IndexOf(Lower(s), c) == IndexOf(s, c)
  {
    if s != [] {
      assert Lower(s)[1..] == Lower(s[1..]);
      IndexOfLower(s[1..], c);
    }
  }

  lemma LowerSlice(s: string, i: nat)
    requires i <= |s|
    ensures Lower(s[..i]) == Lower(s)[..i] && Lower(s[i..]) == Lower(s)[i..] && Lower(Lower(s)) == Lower(s)
  {
  }

  lemma LowerChecks(s: string)
    ensures Printable(Lower(s)) == Printable(s) && Host(Lower(s)) == Host(s) && Name(Lower(s)) == Name(s)
    ensures Digits(Lower(s)) == Digits(s) && (Digits(s) ==> Lower(s) == s)
    ensures forall c | !Alnum(c) :: c in Lower(s) <==> c in s
  {
    forall i | 0 <= i < |s| ensures NameChar(Lower(s)[i]) == NameChar(s[i]) && Digit(Lower(s)[i]) == Digit(s[i]) {
    }
    forall c | !Alnum(c) ensures c in Lower(s) <==> c in s {
      if c in s {
        var i :| 0 <= i < |s| && s[i] == c;
        assert Lower(s)[i] == c;
      }
    }
    LowerPrintable(s);
    LowerHosts(s);
  }

  lemma LowerPrintable(s: string)
    ensures Printable(Lower(s)) == Printable(s)
  {
    if Printable(Lower(s)) {
      forall i | 0 <= i < |s| ensures 33 <= s[i] as int <= 126 && s[i] !in {'%', '\\', '?', '#'} {
        assert Lower(s)[i] == LowerChar(s[i]);
      }
    }
  }

  lemma LowerHosts(s: string)
    ensures Host(Lower(s)) == Host(s)
  {
    if Host(Lower(s)) {
      forall i | 0 <= i < |s| ensures Alnum(s[i]) || s[i] == '.' || s[i] == '-' {
        assert Lower(s)[i] == LowerChar(s[i]);
      }
    }
  }

  lemma NetlocLower(s: string)
    ensures Netloc(Lower(s)) == Netloc(s)
  {
    hide Host, Digits, Lower, Value, Trimmed, IndexOf;
    var i := IndexOf(s, ':');
    IndexOfLower(s, ':');
    LowerLength(s);
    LowerSlice(s, i);
    LowerHosts(s[..i]);
    LowerSlice(s[..i], 0);
    PlainAt(s);
    if i < |s| {
      LowerSlice(s, i + 1);
      LowerDigits(s[i + 1..]);
    }
  }

  lemma PlainAt(s: string)
    ensures '@' in Lower(s) <==> '@' in s
  {
    LowerChecks(s);
  }

  lemma LowerDigits(s: string)
    ensures Digits(Lower(s)) == Digits(s) && (Digits(s) ==> Lower(s) == s)
  {
    LowerChecks(s);
  }

  lemma LowerLength(s: string)
    ensures |Lower(s)| == |s|
  {
  }

  lemma TwoNamesLower(s: string)
    ensures TwoNames(Lower(s)) == TwoNames(s)
  {
    hide Name, Lower, WithoutGit, IndexOf;
    var i := IndexOf(s, '/');
    IndexOfLower(s, '/');
    LowerLength(s);
    if i < |s| {
      LowerSlice(s, i);
      LowerSlice(s, i + 1);
      SlashLower(s[i + 1..]);
      NamePartsLower(s[..i], s[i + 1..]);
    }
  }

  lemma SlashLower(s: string)
    ensures '/' in Lower(s) <==> '/' in s
  {
    LowerChecks(s);
  }

  lemma NamePartsLower(owner: string, rest: string)
    ensures Name(Lower(owner)) == Name(owner) && Lower(Lower(owner)) == Lower(owner)
    ensures Name(WithoutGit(Lower(rest))) == Name(WithoutGit(rest))
    ensures Lower(WithoutGit(Lower(rest))) == Lower(WithoutGit(rest))
  {
    hide Name, Lower, WithoutGit;
    LowerChecks(owner);
    LowerSlice(owner, 0);
    GitLower(rest);
    LowerChecks(WithoutGit(rest));
    LowerSlice(WithoutGit(rest), 0);
  }

  lemma GitLower(s: string)
    ensures WithoutGit(Lower(s)) == Lower(WithoutGit(s))
  {
    if |s| >= 4 {
      LowerSlice(s, |s| - 4);
      LowerSlice(s[|s| - 4..], 0);
    }
  }

  lemma PathLower(s: string)
    ensures Path(Lower(s)) == Path(s)
  {
    hide TwoNames, Lower;
    LowerLength(s);
    if s != [] {
      LastLower(s);
      LowerSlice(s, |s| - 1);
      var p := if s[|s| - 1] == '/' then s[..|s| - 1] else s;
      LowerLength(p);
      if p != [] {
        FirstLower(p);
        LowerSlice(p, 1);
        TwoNamesLower(p[1..]);
      }
    }
  }

  lemma LastLower(s: string)
    requires s != []
    ensures |Lower(s)| == |s| && (Lower(s)[|s| - 1] == '/' <==> s[|s| - 1] == '/')
  {
  }

  lemma FirstLower(s: string)
    requires s != []
    ensures |Lower(s)| == |s| && (Lower(s)[0] == '/' <==> s[0] == '/')
  {
  }

  lemma ParseLower(address: string)
    ensures Parse(Lower(address)) == Parse(address) && Lower(Lower(address)) == Lower(address)
  {
    LowerChecks(address);
    LowerSlice(address, 0);
    if |address| >= 8 {
      LowerSlice(address, 8);
      LowerSlice(address[..8], 0);
      var rest := address[8..];
      hide Lower, Netloc, Path, Printable;
      LowerLength(address);
      LowerLength(rest);
      var i := IndexOf(rest, '/');
      IndexOfLower(rest, '/');
      LowerSlice(rest, i);
      NetlocLower(rest[..i]);
      PathLower(rest[i..]);
    } else {
      LowerLength(address);
    }
  }

  // A lower-case address that parses is the spelling read off it.

  lemma ParsedSpelling(address: string, id: Identity) returns (sp: Spelling)
    requires Lower(address) == address && Parse(address) == Some(id)
    ensures Fits(id, sp) && address == Spelled(id, sp)
  {
    hide Lower, ParseRest, Fits, Written, Printable;
    LowerSlice(address, 8);
    Cut(address, 8);
    sp := ParsedRest(address[8..], id);
  }

  lemma Cut(s: string, i: nat)
    requires i <= |s|
    ensures s == s[..i] + s[i..]
  {
  }

  lemma ParsedRest(rest: string, id: Identity) returns (sp: Spelling)
    requires Lower(rest) == rest && ParseRest(rest) == Some(id)
    ensures Fits(id, sp)
    ensures rest == (id.host + sp.port) + (Written(id, sp) + if sp.slash then "/" else "")
  {
    hide Lower, Netloc, Path, WithoutGit, IndexOf;
    var i := IndexOf(rest, '/');
    LowerSlice(rest, i);
    Cut(rest, i);
    var port := ParsedPort(rest[..i], id.host, id.port);
    var git, slash := ParsedPath(rest[i..], id);
    sp := Spelling(port, git, slash);
    SameNames(id, sp);
  }

  lemma SameNames(id: Identity, sp: Spelling)
    ensures Written(id, sp) == Written(id, Spelling("", sp.git, sp.slash))
  {
  }

  lemma ParsedPort(netloc: string, host: string, port: string) returns (written: string)
    requires Lower(netloc) == netloc && Netloc(netloc) == Some((host, port))
    ensures netloc == host + written
    ensures if written == "" then port == ""
            else written[0] == ':' && Digits(written[1..])
                 && Value(written[1..]) == if Digits(port) then Value(port) else 443
  {
    var i := IndexOf(netloc, ':');
    LowerSlice(netloc, i);
    written := netloc[i..];
    if i < |netloc| {
      assert written[1..] == netloc[i + 1..];
    }
  }

  lemma ParsedPath(path: string, id: Identity) returns (git: bool, slash: bool)
    requires Lower(path) == path && Path(path) == Some((id.owner, id.name))
    ensures var sp := Spelling("", git, slash);
            path == Written(id, sp) + if slash then "/" else ""
    ensures !git ==> WithoutGit(id.name) == id.name
  {
    hide TwoNames, WithoutGit, Lower;
    slash := path[|path| - 1] == '/';
    var p := if slash then path[..|path| - 1] else path;
    assert p == ['/'] + p[1..];
    assert path == p + if slash then "/" else "";
    LowerSlice(path, |p|);
    LowerSlice(p, 1);
    git := ParsedNames(p[1..], id);
  }

  lemma ParsedNames(s: string, id: Identity) returns (git: bool)
    requires Lower(s) == s && TwoNames(s) == Some((id.owner, id.name))
    ensures s == id.owner + (['/'] + NameText(id, Spelling("", git, false)))
    ensures !git ==> WithoutGit(id.name) == id.name
  {
    hide Lower, Name, IndexOf, WithoutGit;
    var i := IndexOf(s, '/');
    var rest := s[i + 1..];
    git := WithoutGit(rest) != rest;
    Cut(s, i);
    Cut(s[i..], 1);
    assert s[i..][1..] == rest && s[i..][..1] == ['/'];
    LowerSlice(s, i);
    LowerSlice(s, i + 1);
    StemSpelled(rest);
  }

  lemma StemSpelled(rest: string)
    requires Lower(rest) == rest
    ensures Lower(WithoutGit(rest)) == WithoutGit(rest)
    ensures rest == WithoutGit(rest) + if WithoutGit(rest) == rest then "" else ".git"
  {
    if |rest| >= 4 {
      LowerSlice(rest, |rest| - 4);
      Cut(rest, |rest| - 4);
    }
  }
}
