/**
 * The GitHub backend's URL handling: parsing the repository URL into owner
 * and name with the pattern `github\.com/(.*?)/(.*?)$` (Go RE2 semantics,
 * first match only), and building the tags API URL and a release asset URL
 * from them. Its Provider methods are stubs.
 */
module ProviderGithub {
  import opened Wrappers
  import opened Files
  import opened Provider

  /** The literal part of the pattern in front of the two groups. */
  const Host := "github.com/"

  /** A match of the pattern starts at `i`: the literal is there, and the rest
      of the text can be split as `(.*?)/(.*?)$`, which holds exactly when it
      has no line break (`.` excludes "\n" and `$` is the end of the text) and
      contains a "/". */
  predicate MatchesAt(s: string, i: nat) {
    && i + |Host| <= |s|
    && s[i..i + |Host|] == Host
    && '\n' !in s[i + |Host|..]
    && '/' in s[i + |Host|..]
  }

  /** MatchesAt is no stricter than the pattern: whenever the text from `i` is
      the literal, a group without line break, "/", and a group without line
      break reaching the end, a match starts at `i`. (The converse is
      FirstMatchGroups.) */
  lemma PatternMatchesAt(s: string, i: nat, g1: string, g2: string)
    requires i <= |s| && s[i..] == Host + g1 + "/" + g2
    requires '\n' !in g1 && '\n' !in g2
    ensures MatchesAt(s, i)
  {
    ConcatAssoc(Host, g1, "/", g2);
    var tail := g1 + "/" + g2;
    assert s[i..][..|Host|] == Host;
    assert s[i..i + |Host|] == s[i..][..|Host|];
    assert s[i + |Host|..] == s[i..][|Host|..] == tail;
    assert tail[|g1|] == '/';
  }

  /** `i` is where the first (leftmost) match starts. */
  predicate FirstMatchAt(s: string, i: nat) {
    && MatchesAt(s, i)
    && forall j :: 0 <= j < i ==> !MatchesAt(s, j)
  }

  /** The leftmost start of a match at or after `from`. */
  function FindMatch(s: string, from: nat): (r: Option<nat>)
    requires from <= |s|
    ensures r.Some? ==> from <= r.value <= |s| && MatchesAt(s, r.value)
    ensures r.Some? ==> forall j :: from <= j < r.value ==> !MatchesAt(s, j)
    ensures r.None? ==> forall j :: from <= j ==> !MatchesAt(s, j)
    decreases |s| - from
  {
    if MatchesAt(s, from) then Some(from)
    else if from == |s| then None
    else FindMatch(s, from + 1)
  }

  /** Where the lazy first group stops: at the first occurrence of `c`. */
  function IndexOf(t: string, c: char): (k: nat)
    requires c in t
    ensures k < |t| && t[k] == c && c !in t[..k]
  {
    if t[0] == c then 0
    else
      var k := 1 + IndexOf(t[1..], c);
      assert t[..k] == [t[0]] + t[1..][..k - 1];
      k
  }

  datatype RepositoryInfo = RepositoryInfo(owner: string, name: string)

  /** The zip backend the GitHub provider would delegate to; it is not part of this model. */
  datatype ProviderZip = ProviderZip

  datatype ProviderGithub = ProviderGithub(repoURL: string, zipName: string, zipProvider: Option<ProviderZip>)
  {
    /** repositoryInfo: owner and name from the first match in `repoURL`. */
    function GetRepositoryInfo(): (r: Result<RepositoryInfo>)
      ensures r.Failure? <==> forall j :: 0 <= j ==> !MatchesAt(repoURL, j)
      ensures r.Failure? ==> r.error == Error("Invalid github URL:" + repoURL)
      ensures r.Success? ==>
        && '/' !in r.value.owner && '\n' !in r.value.owner && '\n' !in r.value.name
        && exists i: nat :: FirstMatchAt(repoURL, i) && repoURL[i..] == Host + r.value.owner + "/" + r.value.name
    {
      match FindMatch(repoURL, 0)
      case None => Failure(Error("Invalid github URL:" + repoURL))
      case Some(i) =>
        FirstMatchGroups(repoURL, i);
        Success(SplitOwnerName(repoURL[i + |Host|..]))
    }

    /** tagsURL: the GitHub API URL listing the repository's tags. */
    function TagsURL(): (r: Result<string>)
      ensures GetRepositoryInfo().Failure? ==> r == Failure(GetRepositoryInfo().error)
      ensures GetRepositoryInfo().Success? ==>
        var info := GetRepositoryInfo().value;
        r == Success("https://api.github.com/repos/" + info.owner + "/" + info.name + "/tags")
    {
      match GetRepositoryInfo()
      case Failure(e) => Failure(e)
      case Success(info) => Success("https://api.github.com/repos/" + info.owner + "/" + info.name + "/tags")
    }

    /** zipURL: the download URL of the release asset `zipName` of release `tag`. */
    function ZipURL(tag: string): (r: Result<string>)
      ensures GetRepositoryInfo().Failure? ==> r == Failure(GetRepositoryInfo().error)
      ensures GetRepositoryInfo().Success? ==>
        var info := GetRepositoryInfo().value;
        r == Success("https://github.com/" + info.owner + "/" + info.name + "/releases/download/" + tag + "/" + zipName)
    {
      match GetRepositoryInfo()
      case Failure(e) => Failure(e)
      case Success(info) =>
        Success("https://github.com/" + info.owner + "/" + info.name + "/releases/download/" + tag + "/" + zipName)
    }

    /** Close: nothing to release. */
    function Close(): (r: Outcome)
      ensures r.Pass?
    {
      Pass
    }

    /** GetLatestVersion: a fixed answer. */
    function GetLatestVersion(): (r: Result<string>)
      ensures r == Success("1.0")
    {
      Success("1.0")
    }

    /** Walk: the visitor is never called. */
    function Walk(walkFn: WalkFunc): (r: Outcome)
      ensures r.Pass?
    {
      Pass
    }

    /** Retrieve: reports success without touching `dest`. */
    function Retrieve(src: Path, dest: Path): (d: Delivery)
      ensures d.result.Pass? && d.effect.Untouched?
    {
      Delivery(Pass, Untouched)
    }
  }

  /** NewProviderGithub: a provider for `repoURL` whose releases carry the asset `zipName`. */
  function NewProviderGithub(repoURL: string, zipName: string): (p: ProviderGithub)
    ensures p.repoURL == repoURL && p.zipName == zipName && p.zipProvider.None?
  {
    ProviderGithub(repoURL, zipName, None)
  }

  /** The two groups of a matched tail: the lazy first group stops at the
      first "/", the second takes the rest. */
  function SplitOwnerName(t: string): (r: RepositoryInfo)
    requires '/' in t
    ensures t == r.owner + "/" + r.name && '/' !in r.owner
  {
    var k := IndexOf(t, '/');
    assert t == t[..k] + "/" + t[k + 1..];
    RepositoryInfo(t[..k], t[k + 1..])
  }

  /** The split is the only one whose first part has no "/". */
  lemma SplitOwnerNameOf(owner: string, name: string)
    requires '/' !in owner
    ensures SplitOwnerName(owner + "/" + name) == RepositoryInfo(owner, name)
  {
    var t := owner + "/" + name;
    var r := SplitOwnerName(t);
    assert t[|owner|] == '/';
    assert IndexOf(t, '/') == |owner|;
    assert r.owner == t[..|owner|] == owner;
    assert r.name == t[|owner| + 1..] == name;
  }

  /** The text from a match on is the literal followed by its tail. */
  lemma TailAfterHost(s: string, i: nat)
    requires MatchesAt(s, i)
    ensures s[i..] == Host + s[i + |Host|..]
  {
    assert s[i..] == s[i..i + |Host|] + s[i + |Host|..];
  }

  /** What the two groups of the first match hold. */
  lemma FirstMatchGroups(s: string, i: nat)
    requires FindMatch(s, 0) == Some(i)
    ensures var info := SplitOwnerName(s[i + |Host|..]);
      && FirstMatchAt(s, i)
      && '\n' !in info.owner && '\n' !in info.name
      && s[i..] == Host + info.owner + "/" + info.name
  {
    var t := s[i + |Host|..];
    var info := SplitOwnerName(t);
    TailAfterHost(s, i);
    ConcatAssoc(Host, info.owner, "/", info.name);
  }

  /** Regrouping a concatenation; stated on plain variables it is far cheaper
      for the solver than on the literal. */
  lemma ConcatAssoc(a: string, b: string, c: string, d: string)
    ensures a + (b + c + d) == a + b + c + d
  {
  }

  /** The parse is complete: whenever the first match of the pattern starts at
      `i` and the text from there is "github.com/" + owner + "/" + name with
      no "/" in owner, exactly that owner and name are returned. */
  lemma {:induction false} GetRepositoryInfoOfFirstMatch(p: ProviderGithub, i: nat, owner: string, name: string)
    requires FirstMatchAt(p.repoURL, i)
    requires p.repoURL[i..] == Host + owner + "/" + name
    requires '/' !in owner
    ensures p.GetRepositoryInfo() == Success(RepositoryInfo(owner, name))
  {
    var s := p.repoURL;
    var t := s[i + |Host|..];
    assert FindMatch(s, 0) == Some(i);
    ConcatAssoc(Host, owner, "/", name);
    assert t == owner + "/" + name by {
      assert t == s[i..][|Host|..];
    }
    SplitOwnerNameOf(owner, name);
    assert p.GetRepositoryInfo() == Success(SplitOwnerName(t));
  }

  /** Round trip: the URL of a repository, with a scheme such as "https://" in
      front, parses back to its owner and name. */
  lemma {:induction false} RepositoryURLRoundTrip(scheme: string, owner: string, name: string, zipName: string)
    requires 'g' !in scheme
    requires '/' !in owner && '\n' !in owner && '\n' !in name
    ensures NewProviderGithub(scheme + Host + owner + "/" + name, zipName).GetRepositoryInfo()
            == Success(RepositoryInfo(owner, name))
  {
    var p := NewProviderGithub(scheme + Host + owner + "/" + name, zipName);
    var s := p.repoURL;
    var i := |scheme|;
    var rest := owner + "/" + name;
    ConcatAssoc(scheme, Host + owner, "/", name);
    ConcatAssoc(Host, owner, "/", name);
    assert s == scheme + (Host + rest);
    assert s[i..] == Host + rest;
    assert s[i..][|Host|..] == rest;
    assert rest[|owner|] == '/';
    NoMatchInScheme(scheme, Host + rest);
    GetRepositoryInfoOfFirstMatch(p, i, owner, name);
  }

  /** No match can start inside a prefix without a "g", the first letter of the literal. */
  lemma NoMatchInScheme(scheme: string, u: string)
    requires 'g' !in scheme
    ensures forall j :: 0 <= j < |scheme| ==> !MatchesAt(scheme + u, j)
  {
    var s := scheme + u;
    forall j | 0 <= j < |scheme| ensures !MatchesAt(s, j) {
      assert s[j] == scheme[j];
      if j + |Host| <= |s| {
        assert s[j..j + |Host|][0] == s[j];
      }
    }
  }

  /** The tags URL of "https://github.com/" + owner + "/" + name. */
  lemma TagsURLOfRepository(owner: string, name: string, zipName: string)
    requires '/' !in owner && '\n' !in owner && '\n' !in name
    ensures NewProviderGithub("https://" + Host + owner + "/" + name, zipName).TagsURL()
            == Success("https://api.github.com/repos/" + owner + "/" + name + "/tags")
  {
    RepositoryURLRoundTrip("https://", owner, name, zipName);
  }

  /** The release asset URL of "https://github.com/" + owner + "/" + name. */
  lemma ZipURLOfRepository(owner: string, name: string, zipName: string, tag: string)
    requires '/' !in owner && '\n' !in owner && '\n' !in name
    ensures NewProviderGithub("https://" + Host + owner + "/" + name, zipName).ZipURL(tag)
            == Success("https://github.com/" + owner + "/" + name + "/releases/download/" + tag + "/" + zipName)
  {
    RepositoryURLRoundTrip("https://", owner, name, zipName);
  }

  /** A URL without any match is refused, and both derived URLs pass the same error on. */
  lemma InvalidURLPropagates(p: ProviderGithub, tag: string)
    requires forall j :: 0 <= j ==> !MatchesAt(p.repoURL, j)
    ensures p.GetRepositoryInfo() == Failure(Error("Invalid github URL:" + p.repoURL))
    ensures p.TagsURL() == Failure(Error("Invalid github URL:" + p.repoURL))
    ensures p.ZipURL(tag) == Failure(Error("Invalid github URL:" + p.repoURL))
  {
  }

  /** The GitHub provider as a backend of the Provider interface; Open's answer
      comes from the network and is a parameter. */
  function AsBehaviour(p: ProviderGithub, open: Outcome): (b: Behaviour)
    ensures b.open == open
    ensures b.close == Pass
    ensures b.latest == Success("1.0")
    ensures forall walkFn :: b.walk(walkFn) == Pass
    ensures forall src, dest :: b.retrieve(src, dest) == Delivery(Pass, Untouched)
  {
    Behaviour(open, p.Close(), p.GetLatestVersion(), (walkFn: WalkFunc) => p.Walk(walkFn), (src, dest) => p.Retrieve(src, dest))
  }

  /** The stubs: Close, Walk and Retrieve succeed with no effect (Retrieve leaves
      every file as it is), GetLatestVersion answers "1.0". */
  lemma StubsHaveNoEffect(p: ProviderGithub, open: Outcome, files: map<Path, Bytes>)
    ensures var b := AsBehaviour(p, open);
      && b.close == Pass
      && b.latest == Success("1.0")
      && (forall walkFn :: b.walk(walkFn) == Pass)
      && (forall src, dest :: b.retrieve(src, dest).result == Pass
                              && Delivered(files, dest, b.retrieve(src, dest).effect) == files)
  {
  }
}
