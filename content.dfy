/**
 * The page-signal rules of the content script's `SEOAnalyzer`
 * (src/content/content.js). The DOM is given as plain data: meta nodes as
 * their attribute values, anchors as their resolved `href`, text, `rel` and
 * the hostname `new URL(href)` yields, headings as their levels, bounding
 * boxes as numbers. Every rule is then a function or a method over that data.
 */
module Content {
  import opened Wrappers
  import opened JsString

  // =============================================================== meta tags

  /** One `<meta>` node; `getAttribute` gives `None` (null) for an absent attribute. */
  datatype MetaNode = MetaNode(name: Option<string>, property: Option<string>, content: Option<string>)

  datatype MetaIssue = MetaIssue(tag: string, content: string, issue: string)

  datatype MetaAnalysis = MetaAnalysis(valid: nat, total: nat, missing: seq<string>, issues: seq<MetaIssue>)

  /** The meta names whose absence is reported, in reporting order. */
  const EssentialTags: seq<string> := ["description", "viewport", "robots"]

  /** JavaScript truthiness of an attribute value: present and not empty. */
  predicate Truthy(v: Option<string>)
  {
    v.Some? && v.value != []
  }

  /** `tag.getAttribute('name') || tag.getAttribute('property')`: an empty
      `name` falls through to `property` just as an absent one does. */
  function TagName(t: MetaNode): (n: Option<string>)
    ensures Truthy(n) <==> Truthy(t.name) || Truthy(t.property)
    ensures Truthy(t.name) ==> n == t.name
    ensures !Truthy(t.name) ==> n == t.property
  {
    if Truthy(t.name) then t.name else t.property
  }

  /** The guard `if (name && content)`: only such tags are looked at. */
  predicate Counted(t: MetaNode)
  {
    Truthy(TagName(t)) && Truthy(t.content)
  }

  /** `isValidMetaTag`: the content is non-empty. */
  function IsValidMetaTag(name: string, content: string): (ok: bool)
    ensures ok <==> content != []
  {
    Length(content) > 0
  }

  /** A tag that passes the guard always passes the validity test too. */
  lemma CountedTagIsValid(t: MetaNode)
    requires Counted(t)
    ensures IsValidMetaTag(TagName(t).value, t.content.value)
  {
  }

  /** Number of tags that pass the guard. */
  function CountedTags(ts: seq<MetaNode>): (n: nat)
    ensures n <= |ts|
  {
    if ts == [] then 0
    else CountedTags(ts[..|ts| - 1]) + (if Counted(ts[|ts| - 1]) then 1 else 0)
  }

  /** The lower-cased names of the tags that pass the guard (`foundTags`). */
  function FoundNames(ts: seq<MetaNode>): set<string>
  {
    if ts == [] then {}
    else
      var last := ts[|ts| - 1];
      FoundNames(ts[..|ts| - 1]) + (if Counted(last) then {ToLower(TagName(last).value)} else {})
  }

  /** The entries of `ess`, in order, that are not in `found`. */
  function MissingFrom(ess: seq<string>, found: set<string>): seq<string>
  {
    if ess == [] then []
    else MissingFrom(ess[..|ess| - 1], found) + (if ess[|ess| - 1] in found then [] else [ess[|ess| - 1]])
  }

  /** `a` is `b` with some elements left out, order kept. */
  predicate IsSubsequence<T(==)>(a: seq<T>, b: seq<T>)
    decreases |b|
  {
    if a == [] then true
    else if b == [] then false
    else (a[|a| - 1] == b[|b| - 1] && IsSubsequence(a[..|a| - 1], b[..|b| - 1]))
         || IsSubsequence(a, b[..|b| - 1])
  }

  /** `analyzeMetaTags`: counts every node, counts the guarded ones as valid,
      never reports an issue and lists the missing essential names. */
  method AnalyzeMetaTags(tags: seq<MetaNode>) returns (r: MetaAnalysis)
    ensures r.total == |tags| && r.valid <= r.total
    ensures r.valid == CountedTags(tags)
    ensures r.issues == []
    ensures r.missing == MissingFrom(EssentialTags, FoundNames(tags))
  {
    var valid: nat := 0;
    var issues: seq<MetaIssue> := [];
    var found: set<string> := {};
    for i := 0 to |tags|
      invariant valid == CountedTags(tags[..i]) && valid <= i
      invariant found == FoundNames(tags[..i])
      invariant issues == []
    {
      assert tags[..i + 1][..i] == tags[..i];
      var tag := tags[i];
      var name := TagName(tag);
      if Truthy(name) && Truthy(tag.content) {
        var n, c := name.value, tag.content.value;
        found := found + {ToLower(n)};
        if IsValidMetaTag(n, c) {
          valid := valid + 1;
        } else {
          issues := issues + [MetaIssue(n, c, "Invalid content")];
        }
      }
    }
    assert tags[..|tags|] == tags;
    var missing: seq<string> := [];
    for j := 0 to |EssentialTags|
      invariant missing == MissingFrom(EssentialTags[..j], found)
    {
      assert EssentialTags[..j + 1][..j] == EssentialTags[..j];
      if EssentialTags[j] !in found {
        missing := missing + [EssentialTags[j]];
      }
    }
    assert EssentialTags[..|EssentialTags|] == EssentialTags;
    r := MetaAnalysis(valid, |tags|, missing, issues);
  }

  /** Every node passes the guard exactly when all of them count as valid. */
  lemma {:induction false} AllValidIff(ts: seq<MetaNode>)
    ensures CountedTags(ts) == |ts| <==> forall i :: 0 <= i < |ts| ==> Counted(ts[i])
  {
    if ts != [] {
      var init := ts[..|ts| - 1];
      AllValidIff(init);
      assert forall i :: 0 <= i < |init| ==> init[i] == ts[i];
    }
  }

  /** A name is found exactly when some guarded tag has it, lower-cased. */
  lemma {:induction false} FoundNamesIff(ts: seq<MetaNode>, n: string)
    ensures n in FoundNames(ts) <==>
            exists i :: 0 <= i < |ts| && Counted(ts[i]) && ToLower(TagName(ts[i]).value) == n
  {
    if ts != [] {
      var init := ts[..|ts| - 1];
      FoundNamesIff(init, n);
      assert forall i :: 0 <= i < |init| ==> init[i] == ts[i];
    }
  }

  /** Missing names are exactly the essential names not found... */
  lemma {:induction false} MissingFromMembers(ess: seq<string>, found: set<string>, e: string)
    ensures e in MissingFrom(ess, found) <==> e in ess && e !in found
  {
    if ess != [] {
      MissingFromMembers(ess[..|ess| - 1], found, e);
      assert ess == ess[..|ess| - 1] + [ess[|ess| - 1]];
    }
  }

  lemma {:induction false} SubsequenceOfLonger<T>(a: seq<T>, b: seq<T>, x: T)
    requires IsSubsequence(a, b)
    ensures IsSubsequence(a, b + [x])
  {
    if a != [] {
      assert (b + [x])[..|b + [x]| - 1] == b;
    }
  }

  /** ... and they keep the order of the essential list. */
  lemma {:induction false} MissingFromIsSubsequence(ess: seq<string>, found: set<string>)
    ensures IsSubsequence(MissingFrom(ess, found), ess)
  {
    if ess != [] {
      var init := ess[..|ess| - 1];
      var last := ess[|ess| - 1];
      MissingFromIsSubsequence(init, found);
      assert ess == init + [last];
      var m := MissingFrom(init, found);
      if last in found {
        assert MissingFrom(ess, found) == m;
        SubsequenceOfLonger(m, init, last);
      } else {
        assert MissingFrom(ess, found) == m + [last];
        assert (m + [last])[..|m + [last]| - 1] == m;
      }
    }
  }

  /** An essential name is reported missing exactly when no guarded tag
      carries it in any letter case. */
  lemma EssentialMissingIff(tags: seq<MetaNode>, e: string)
    requires e in EssentialTags
    ensures e in MissingFrom(EssentialTags, FoundNames(tags)) <==>
            forall i :: 0 <= i < |tags| && Counted(tags[i]) ==> ToLower(TagName(tags[i]).value) != e
  {
    MissingFromMembers(EssentialTags, FoundNames(tags), e);
    FoundNamesIff(tags, e);
  }

  // ==================================================================== links

  /** One `<a>` node: `href` is the resolved `link.href` ("" when the attribute
      is absent), `host` the hostname of `new URL(href)`, `None` when that throws. */
  datatype Anchor = Anchor(href: string, textContent: string, rel: string, host: Option<string>)

  datatype LinkFact = LinkFact(url: string, text: string, nofollow: bool)

  /** A broken link; `url` is absent for a missing `href`. */
  datatype BrokenLink = BrokenLink(url: Option<string>, text: string, error: string)

  datatype LinkClass = Internal(fact: LinkFact) | External(fact: LinkFact) | Broken(broken: BrokenLink)

  datatype LinkAnalysis = LinkAnalysis(total: nat, internal: seq<LinkFact>, external: seq<LinkFact>, broken: seq<BrokenLink>)

  const MissingHref := "Missing href attribute"
  const InvalidUrl := "Invalid URL"

  /** Where one anchor lands: the body of the `forEach` callback, one
      clause per branch. */
  function Classify(a: Anchor, pageHost: string): (c: LinkClass)
    ensures a.href == [] ==> c == Broken(BrokenLink(None, Trim(a.textContent), MissingHref))
    ensures a.href != [] && a.host.None? ==> c == Broken(BrokenLink(Some(a.href), Trim(a.textContent), InvalidUrl))
    ensures a.href != [] && a.host.Some? ==>
              !c.Broken?
              && (c.Internal? <==> a.host.value == pageHost)
              && c.fact.url == a.href
              && c.fact.text == Trim(a.textContent)
              && (c.fact.nofollow <==> exists i :: OccursAt(a.rel, "nofollow", i))
  {
    var text := Trim(a.textContent);
    if a.href == [] then Broken(BrokenLink(None, text, MissingHref))
    else match a.host
      case None => Broken(BrokenLink(Some(a.href), text, InvalidUrl))
      case Some(h) =>
        var fact := LinkFact(a.href, text, Includes(a.rel, "nofollow"));
        if h == pageHost then Internal(fact) else External(fact)
  }

  /** The class of every anchor, in document order. */
  function Classes(ls: seq<Anchor>, pageHost: string): (cs: seq<LinkClass>)
    ensures |cs| == |ls| && forall i :: 0 <= i < |ls| ==> cs[i] == Classify(ls[i], pageHost)
  {
    seq(|ls|, i requires 0 <= i < |ls| => Classify(ls[i], pageHost))
  }

  /** The facts of the internal links among `cs`, in order. */
  function Internals(cs: seq<LinkClass>): seq<LinkFact>
  {
    if cs == [] then []
    else
      var c := cs[|cs| - 1];
      Internals(cs[..|cs| - 1]) + (if c.Internal? then [c.fact] else [])
  }

  function Externals(cs: seq<LinkClass>): seq<LinkFact>
  {
    if cs == [] then []
    else
      var c := cs[|cs| - 1];
      Externals(cs[..|cs| - 1]) + (if c.External? then [c.fact] else [])
  }

  function Brokens(cs: seq<LinkClass>): seq<BrokenLink>
  {
    if cs == [] then []
    else
      var c := cs[|cs| - 1];
      Brokens(cs[..|cs| - 1]) + (if c.Broken? then [c.broken] else [])
  }

  /** Every anchor lands in exactly one of the three lists. */
  lemma {:induction false} PartitionSizes(cs: seq<LinkClass>)
    ensures |Internals(cs)| + |Externals(cs)| + |Brokens(cs)| == |cs|
  {
    if cs != [] {
      PartitionSizes(cs[..|cs| - 1]);
    }
  }

  /** An anchor classified internal contributes its fact to `internal`, and
      every fact in `internal` comes from such an anchor. */
  lemma {:induction false} InternalsIff(cs: seq<LinkClass>, f: LinkFact)
    ensures f in Internals(cs) <==> exists i :: 0 <= i < |cs| && cs[i] == Internal(f)
  {
    if cs != [] {
      var init := cs[..|cs| - 1];
      InternalsIff(init, f);
      assert forall i :: 0 <= i < |init| ==> init[i] == cs[i];
    }
  }

  lemma {:induction false} ExternalsIff(cs: seq<LinkClass>, f: LinkFact)
    ensures f in Externals(cs) <==> exists i :: 0 <= i < |cs| && cs[i] == External(f)
  {
    if cs != [] {
      var init := cs[..|cs| - 1];
      ExternalsIff(init, f);
      assert forall i :: 0 <= i < |init| ==> init[i] == cs[i];
    }
  }

  lemma {:induction false} BrokensIff(cs: seq<LinkClass>, b: BrokenLink)
    ensures b in Brokens(cs) <==> exists i :: 0 <= i < |cs| && cs[i] == Broken(b)
  {
    if cs != [] {
      var init := cs[..|cs| - 1];
      BrokensIff(init, b);
      assert forall i :: 0 <= i < |init| ==> init[i] == cs[i];
    }
  }

  /** Visiting one more anchor appends its class's item to that class's list. */
  lemma ListsStep(cs: seq<LinkClass>, i: nat)
    requires i < |cs|
    ensures Internals(cs[..i + 1]) == Internals(cs[..i]) + (if cs[i].Internal? then [cs[i].fact] else [])
    ensures Externals(cs[..i + 1]) == Externals(cs[..i]) + (if cs[i].External? then [cs[i].fact] else [])
    ensures Brokens(cs[..i + 1]) == Brokens(cs[..i]) + (if cs[i].Broken? then [cs[i].broken] else [])
  {
    assert cs[..i + 1][..i] == cs[..i];
  }

  /** `analyzeLinks`: the three lists in document order, sizes adding up. */
  method AnalyzeLinks(links: seq<Anchor>, pageHost: string) returns (r: LinkAnalysis)
    ensures r.total == |links|
    ensures r.internal == Internals(Classes(links, pageHost))
    ensures r.external == Externals(Classes(links, pageHost))
    ensures r.broken == Brokens(Classes(links, pageHost))
    ensures |r.internal| + |r.external| + |r.broken| == r.total
  {
    ghost var cs := Classes(links, pageHost);
    var internal: seq<LinkFact> := [];
    var external: seq<LinkFact> := [];
    var broken: seq<BrokenLink> := [];
    for i := 0 to |links|
      invariant internal == Internals(cs[..i])
      invariant external == Externals(cs[..i])
      invariant broken == Brokens(cs[..i])
    {
      ListsStep(cs, i);
      match Classify(links[i], pageHost)
      case Internal(fact) =>
        internal := internal + [fact];
      case External(fact) =>
        external := external + [fact];
      case Broken(b) =>
        broken := broken + [b];
    }
    assert cs[..|links|] == cs;
    PartitionSizes(cs);
    r := LinkAnalysis(|links|, internal, external, broken);
  }

  // ========================================================= title, description

  const TitleTooShort := "Title is too short (min: 30 characters)"
  const TitleTooLong := "Title is too long (max: 60 characters)"
  const TooManySeparators := "Too many title separators"

  /** `analyzeTitleIssues`. */
  function AnalyzeTitleIssues(title: string): (issues: seq<string>)
    ensures TitleTooShort in issues <==> Length(title) < 30
    ensures TitleTooLong in issues <==> Length(title) > 60
    ensures TooManySeparators in issues <==> CountChar(title, '|') >= 2
    ensures forall m :: m in issues ==> m == TitleTooShort || m == TitleTooLong || m == TooManySeparators
    ensures |issues| <= 2 && !(TitleTooShort in issues && TitleTooLong in issues)
    ensures issues == (if Length(title) < 30 then [TitleTooShort] else if Length(title) > 60 then [TitleTooLong] else [])
                      + (if CountChar(title, '|') >= 2 then [TooManySeparators] else [])
  {
    SplitCharCount(title, '|');
    var lengthIssue :=
      if Length(title) < 30 then [TitleTooShort]
      else if Length(title) > 60 then [TitleTooLong]
      else [];
    lengthIssue + (if '|' in title && |SplitChar(title, '|')| > 2 then [TooManySeparators] else [])
  }

  /** An empty title is only "too short": there is no missing-title issue. */
  lemma EmptyTitleIssues()
    ensures AnalyzeTitleIssues("") == [TitleTooShort]
  {
  }

  const MissingDescription := "Missing meta description"
  const DescriptionTooShort := "Description is too short (min: 120 characters)"
  const DescriptionTooLong := "Description is too long (max: 155 characters)"

  /** `analyzeDescriptionIssues`. */
  function AnalyzeDescriptionIssues(description: string): (issues: seq<string>)
    ensures description == [] ==> issues == [MissingDescription]
    ensures description != [] ==>
              |issues| <= 1
              && (DescriptionTooShort in issues <==> Length(description) < 120)
              && (DescriptionTooLong in issues <==> Length(description) > 155)
              && MissingDescription !in issues
              && forall m :: m in issues ==> m == DescriptionTooShort || m == DescriptionTooLong
    ensures description != [] && 120 <= Length(description) <= 155 ==> issues == []
  {
    if description == [] then [MissingDescription]
    else if Length(description) < 120 then [DescriptionTooShort]
    else if Length(description) > 155 then [DescriptionTooLong]
    else []
  }

  // ================================================================= headings

  /** The digit of an `H1`..`H6` tag name. */
  type HeadingLevel = l: int | 1 <= l <= 6 witness 1

  datatype Header = Header(level: HeadingLevel, text: string)

  /** `headers.filter(h => h.level === 1).length`. */
  function H1Count(hs: seq<Header>): (n: nat)
    ensures n <= |hs|
  {
    if hs == [] then 0
    else H1Count(hs[..|hs| - 1]) + (if hs[|hs| - 1].level == 1 then 1 else 0)
  }

  const MissingH1 := "Missing H1 tag"
  const MultipleH1 := "Multiple H1 tags found"

  /** The H1 part of the issues: at most one issue, and which one is decided
      by the count alone. */
  function H1Issues(h1Count: nat): (issues: seq<string>)
    ensures |issues| <= 1
    ensures MissingH1 in issues <==> h1Count == 0
    ensures MultipleH1 in issues <==> h1Count > 1
    ensures h1Count == 1 <==> issues == []
  {
    if h1Count == 0 then [MissingH1] else if h1Count > 1 then [MultipleH1] else []
  }

  /** The level `prevLevel` holds when header `i` is visited. */
  function PrevLevel(hs: seq<Header>, i: nat): (p: nat)
    requires i < |hs|
    ensures p <= 6
  {
    if i == 0 then 0 else hs[i - 1].level
  }

  predicate SkipsAt(hs: seq<Header>, i: nat)
    requires i < |hs|
  {
    hs[i].level - PrevLevel(hs, i) > 1
  }

  /** The message names both levels after the fixed text. */
  function SkipMessage(prev: nat, level: nat): (m: string)
    ensures SkipPrefix <= m
    ensures m[|SkipPrefix|..] == NatToString(prev) + " to H" + NatToString(level)
  {
    "Skipped heading level: H" + NatToString(prev) + " to H" + NatToString(level)
  }

  const SkipPrefix := "Skipped heading level: H"

  /** A skip message can be read back: it determines both levels. The digits
      of the first level end where " to H" starts, as no digit is a space. */
  lemma SkipMessageInjective(p1: nat, l1: nat, p2: nat, l2: nat)
    requires SkipMessage(p1, l1) == SkipMessage(p2, l2)
    ensures p1 == p2 && l1 == l2
  {
    var a1, a2 := NatToString(p1), NatToString(p2);
    var b1, b2 := NatToString(l1), NatToString(l2);
    var x1, x2 := a1 + " to H" + b1, a2 + " to H" + b2;
    assert x1 == SkipMessage(p1, l1)[|SkipPrefix|..];
    assert x1 == x2;
    FirstSpace(a1, " to H", b1);
    FirstSpace(a2, " to H", b2);
    assert |a1| == |a2|;
    assert a1 == x1[..|a1|] && a2 == x2[..|a2|];
    NatToStringInjective(p1, p2);
    assert b1 == x1[|a1| + 5..] && b2 == x2[|a2| + 5..];
    NatToStringInjective(l1, l2);
  }

  /** In digits followed by a text starting with a space, the first space is
      right after the digits. */
  lemma FirstSpace(a: string, q: string, b: string)
    requires forall i :: 0 <= i < |a| ==> '0' <= a[i] <= '9'
    requires q != [] && q[0] == ' '
    ensures forall i :: 0 <= i < |a| ==> (a + q + b)[i] != ' '
    ensures (a + q + b)[|a|] == ' '
  {
  }

  /** The hierarchy issues, in document order. */
  function SkipIssues(hs: seq<Header>): seq<string>
  {
    if hs == [] then []
    else
      var n := |hs| - 1;
      SkipIssues(hs[..n]) + (if SkipsAt(hs, n) then [SkipMessage(PrevLevel(hs, n), hs[n].level)] else [])
  }

  /** Visiting one more header appends its skip issue, if any. */
  lemma SkipIssuesStep(hs: seq<Header>, i: nat)
    requires i < |hs|
    ensures SkipIssues(hs[..i + 1]) == SkipIssues(hs[..i])
              + (if SkipsAt(hs, i) then [SkipMessage(PrevLevel(hs, i), hs[i].level)] else [])
  {
    assert hs[..i + 1][..i] == hs[..i];
    assert PrevLevel(hs[..i + 1], i) == PrevLevel(hs, i);
  }

  lemma AppendAssoc<T>(a: seq<T>, b: seq<T>, c: seq<T>)
    ensures a + b + c == a + (b + c)
  {
  }

  /** `analyzeHeaderIssues`. */
  method AnalyzeHeaderIssues(headers: seq<Header>) returns (issues: seq<string>)
    ensures issues == H1Issues(H1Count(headers)) + SkipIssues(headers)
    ensures MissingH1 in issues <==> H1Count(headers) == 0
    ensures MultipleH1 in issues <==> H1Count(headers) > 1
  {
    var h1Count := H1Count(headers);
    issues := [];
    if h1Count == 0 {
      issues := issues + [MissingH1];
    } else if h1Count > 1 {
      issues := issues + [MultipleH1];
    }
    ghost var h1Part := issues;
    assert h1Part == H1Issues(h1Count);
    var prevLevel: nat := 0;
    for i := 0 to |headers|
      invariant prevLevel == if i == 0 then 0 else headers[i - 1].level
      invariant issues == h1Part + SkipIssues(headers[..i])
    {
      SkipIssuesStep(headers, i);
      assert prevLevel == PrevLevel(headers, i);
      var level := headers[i].level;
      if level - prevLevel > 1 {
        AppendAssoc(h1Part, SkipIssues(headers[..i]), [SkipMessage(prevLevel, level)]);
        issues := issues + [SkipMessage(prevLevel, level)];
      }
      prevLevel := level;
    }
    assert headers[..|headers|] == headers;
    HeaderIssuesH1(H1Count(headers), headers);
  }

  /** The H1 issues are told apart from the hierarchy issues. */
  lemma HeaderIssuesH1(h1Count: nat, hs: seq<Header>)
    ensures MissingH1 in H1Issues(h1Count) + SkipIssues(hs) <==> h1Count == 0
    ensures MultipleH1 in H1Issues(h1Count) + SkipIssues(hs) <==> h1Count > 1
  {
    SkipIssuesAreSkips(hs);
  }

  /** Visiting a prefix sees the same previous levels. */
  lemma PrefixSkips(hs: seq<Header>, n: nat, i: nat)
    requires i < n <= |hs|
    ensures PrevLevel(hs[..n], i) == PrevLevel(hs, i) && (SkipsAt(hs[..n], i) <==> SkipsAt(hs, i))
  {
  }

  /** Every hierarchy issue starts with "Skipped", so none is an H1 issue. */
  lemma {:induction false} SkipIssuesAreSkips(hs: seq<Header>)
    ensures forall m :: m in SkipIssues(hs) ==> SkipPrefix <= m
  {
    if hs != [] {
      SkipIssuesAreSkips(hs[..|hs| - 1]);
    }
  }

  /** A header whose level jumps by more than one is reported, with both levels... */
  lemma {:induction false} SkipReported(hs: seq<Header>, i: nat)
    requires i < |hs| && SkipsAt(hs, i)
    ensures SkipMessage(PrevLevel(hs, i), hs[i].level) in SkipIssues(hs)
  {
    var n := |hs| - 1;
    if i < n {
      PrefixSkips(hs, n, i);
      SkipReported(hs[..n], i);
    }
  }

  /** ... and each issue reports such a header. */
  lemma {:induction false} SkipIssueHasCause(hs: seq<Header>, m: string)
    requires m in SkipIssues(hs)
    ensures exists i :: 0 <= i < |hs| && SkipsAt(hs, i) && m == SkipMessage(PrevLevel(hs, i), hs[i].level)
  {
    var n := |hs| - 1;
    if m in SkipIssues(hs[..n]) {
      SkipIssueHasCause(hs[..n], m);
      var i :| 0 <= i < n && SkipsAt(hs[..n], i) && m == SkipMessage(PrevLevel(hs[..n], i), hs[..n][i].level);
      PrefixSkips(hs, n, i);
    }
  }

  /** No hierarchy issue exactly when no level jumps by more than one. */
  lemma NoSkipIssuesIff(hs: seq<Header>)
    ensures SkipIssues(hs) == [] <==> forall i :: 0 <= i < |hs| ==> !SkipsAt(hs, i)
  {
    if SkipIssues(hs) != [] {
      SkipIssueHasCause(hs, SkipIssues(hs)[0]);
    }
    forall i | 0 <= i < |hs| && SkipsAt(hs, i)
      ensures SkipIssues(hs) != []
    {
      SkipReported(hs, i);
    }
  }

  /** The previous level starts at 0: a document opening with H2..H6 has
      "Skipped heading level: H0 to H<level>" as its first hierarchy issue. */
  lemma {:induction false} LeadingDeepHeading(hs: seq<Header>)
    requires hs != [] && hs[0].level > 1
    ensures SkipIssues(hs) != [] && SkipIssues(hs)[0] == SkipMessage(0, hs[0].level)
  {
    if |hs| > 1 {
      var n := |hs| - 1;
      PrefixSkips(hs, n, 0);
      LeadingDeepHeading(hs[..n]);
    }
  }

  // =================================================================== counts

  /** `countSyllables`: `text.split(/[aeiou]+/i).length - 1` is the number of
      maximal vowel runs. */
  function CountSyllables(text: string): (n: nat)
    ensures n == RunCount(text, Vowels)
  {
    SplitRunsCount(text, Vowels);
    |SplitRuns(text, Vowels)| - 1
  }

  /** The syllable counts the test suite expects. */
  lemma SyllableExamples()
    ensures CountSyllables("hello") == 2
    ensures CountSyllables("beautiful") == 3
    ensures CountSyllables("optimization") == 5
  {
    HelloRuns();
    BeautifulRuns();
    OptimizationRuns();
  }

  lemma HelloRuns()
    ensures RunCount("hello", Vowels) == 2
  {
  }

  lemma BeautifulTail()
    ensures RunsFrom("tiful", Vowels, true) == 2
  {
    assert "l"[1..] == [];
    assert RunsFrom("l", Vowels, true) == 0;
    assert "ul"[1..] == "l";
    assert RunsFrom("ul", Vowels, false) == 1;
    assert "ful"[1..] == "ul";
    assert RunsFrom("ful", Vowels, true) == 1;
    assert "iful"[1..] == "ful";
    assert RunsFrom("iful", Vowels, false) == 2;
    assert "tiful"[1..] == "iful";
  }

  lemma BeautifulRuns()
    ensures RunCount("beautiful", Vowels) == 3
  {
    BeautifulTail();
  }

  lemma OptimizationTail()
    ensures RunsFrom("ization", Vowels, false) == 3
  {
  }

  lemma OptimizationRuns()
    ensures RunCount("optimization", Vowels) == 5
  {
    OptimizationTail();
    assert "mization"[1..] == "ization";
    assert RunsFrom("mization", Vowels, true) == 3;
    assert "imization"[1..] == "mization";
    assert RunsFrom("imization", Vowels, false) == 4;
    assert "timization"[1..] == "imization";
    assert RunsFrom("timization", Vowels, false) == 4;
    assert "ptimization"[1..] == "timization";
    assert RunsFrom("ptimization", Vowels, true) == 4;
    assert "optimization"[1..] == "ptimization";
    assert RunsFrom("optimization", Vowels, false) == 5;
  }

  /** `text.split(/[.!?]+/).length`: never zero, one more than the runs of
      sentence punctuation (a trailing full stop therefore adds one). */
  function SentenceCount(text: string): (n: nat)
    ensures n >= 1 && n == RunCount(text, SentenceEnds) + 1
  {
    SplitRunsCount(text, SentenceEnds);
    |SplitRuns(text, SentenceEnds)|
  }

  /** `text.split(/\s+/).length`. */
  function WordCount(text: string): (n: nat)
    ensures n >= 1 && n == RunCount(text, Spaces) + 1
  {
    SplitRunsCount(text, Spaces);
    |SplitRuns(text, Spaces)|
  }

  /** The `wordCount` of `analyzeContent`, the split of the trimmed text: for
      text with something besides whitespace it is the number of maximal
      non-whitespace runs; for blank text it is still 1. */
  function ContentWordCount(textContent: string): (n: nat)
    ensures Trim(textContent) == [] ==> n == 1
    ensures Trim(textContent) != [] ==> n == TokenCount(Trim(textContent), Spaces)
  {
    var t := Trim(textContent);
    if t != [] then
      TokensAreRunsPlusOne(t, Spaces);
      WordCount(t)
    else WordCount(t)
  }

  /** Main-content probes, in the order they are tried. */
  const MainSelectors: seq<string> := ["main", "article", "#content", ".content", ".post-content", ".entry-content"]

  /** `getMainContent`: `query` holds the first element of each selector that
      matches anything; the first selector in list order that matches wins,
      else the body. */
  method GetMainContent<E>(query: map<string, E>, body: E) returns (element: E)
    ensures (exists i :: 0 <= i < |MainSelectors| && MainSelectors[i] in query) ==>
              exists i :: 0 <= i < |MainSelectors| && MainSelectors[i] in query
                          && element == query[MainSelectors[i]]
                          && forall j :: 0 <= j < i ==> MainSelectors[j] !in query
    ensures (forall i :: 0 <= i < |MainSelectors| ==> MainSelectors[i] !in query) ==> element == body
  {
    for i := 0 to |MainSelectors|
      invariant forall j :: 0 <= j < i ==> MainSelectors[j] !in query
    {
      var selector := MainSelectors[i];
      if selector in query {
        return query[selector];
      }
    }
    return body;
  }

  // ============================================================ tap targets

  /** `getBoundingClientRect()` dimensions. */
  datatype Rect = Rect(width: real, height: real)

  predicate IsSmallTarget(r: Rect)
  {
    r.width < 48.0 || r.height < 48.0
  }

  function SmallCount(rs: seq<Rect>): (n: nat)
    ensures n <= |rs|
  {
    if rs == [] then 0
    else SmallCount(rs[..|rs| - 1]) + (if IsSmallTarget(rs[|rs| - 1]) then 1 else 0)
  }

  datatype TapTargets = TapTargets(total: nat, smallTargets: nat)

  /** `checkTapTargets` over `[...links, ...buttons]`. */
  method CheckTapTargets(links: seq<Rect>, buttons: seq<Rect>) returns (r: TapTargets)
    ensures r.total == |links| + |buttons|
    ensures r.smallTargets == SmallCount(links + buttons) && r.smallTargets <= r.total
  {
    var elements := links + buttons;
    var smallTargets: nat := 0;
    for i := 0 to |elements|
      invariant smallTargets == SmallCount(elements[..i])
    {
      assert elements[..i + 1][..i] == elements[..i];
      if elements[i].width < 48.0 || elements[i].height < 48.0 {
        smallTargets := smallTargets + 1;
      }
    }
    assert elements[..|elements|] == elements;
    r := TapTargets(|links| + |buttons|, smallTargets);
  }

  /** The small links and the small buttons add up. */
  lemma {:induction false} SmallCountAppend(a: seq<Rect>, b: seq<Rect>)
    ensures SmallCount(a + b) == SmallCount(a) + SmallCount(b)
  {
    if b == [] {
      assert a + b == a;
    } else {
      SmallCountAppend(a, b[..|b| - 1]);
      assert (a + b)[..|a + b| - 1] == a + b[..|b| - 1];
    }
  }

  /** A 48 by 48 target (or larger) is never small; the test suite's
      30 by 30 / 48 by 48 pair gives 1 of 2. */
  lemma TapTargetExamples(w: real, h: real)
    requires w >= 48.0 && h >= 48.0
    ensures !IsSmallTarget(Rect(w, h))
    ensures SmallCount([Rect(30.0, 30.0), Rect(48.0, 48.0)]) == 1
  {
  }

  // ============================================================ performance

  /** Navigation-timing fields, integer milliseconds. */
  datatype Timing = Timing(navigationStart: int, domContentLoadedEventEnd: int, loadEventEnd: int)

  datatype PaintEntry = PaintEntry(name: string, startTime: real)

  /** What `window.performance` offers: its `timing` and its paint entries. */
  datatype PerformanceApi = PerformanceApi(timing: Timing, paint: seq<PaintEntry>)

  datatype PerformanceReport =
    | Unavailable(score: int, message: string)
    | Measured(score: int, loadTime: int, domReady: int, firstPaint: Option<real>)

  /** `calculatePerformanceScore`, which is a constant. */
  const PerformanceScore := 85

  /** `getFirstPaintTime`: the start time of the first 'first-paint' entry. */
  function GetFirstPaintTime(entries: seq<PaintEntry>): (r: Option<real>)
    ensures r.None? <==> forall i :: 0 <= i < |entries| ==> entries[i].name != "first-paint"
    ensures r.Some? ==> exists i :: 0 <= i < |entries| && entries[i].name == "first-paint"
                                   && entries[i].startTime == r.value
                                   && forall j :: 0 <= j < i ==> entries[j].name != "first-paint"
  {
    if entries == [] then None
    else if entries[0].name == "first-paint" then Some(entries[0].startTime)
    else
      var r := GetFirstPaintTime(entries[1..]);
      assert forall i :: 1 <= i < |entries| ==> entries[i] == entries[1..][i - 1];
      r
  }

  /** `analyzePerformance`. */
  function AnalyzePerformance(perf: Option<PerformanceApi>): (r: PerformanceReport)
    ensures perf.None? <==> r.Unavailable?
    ensures perf.None? ==> r.score == 0 && r.message == "Performance API not available"
    ensures perf.Some? ==>
              r.score == PerformanceScore
              && perf.value.timing.navigationStart + r.loadTime == perf.value.timing.loadEventEnd
              && perf.value.timing.navigationStart + r.domReady == perf.value.timing.domContentLoadedEventEnd
              && r.firstPaint == GetFirstPaintTime(perf.value.paint)
  {
    match perf
    case None => Unavailable(0, "Performance API not available")
    case Some(api) =>
      Measured(PerformanceScore,
               api.timing.loadEventEnd - api.timing.navigationStart,
               api.timing.domContentLoadedEventEnd - api.timing.navigationStart,
               GetFirstPaintTime(api.paint))
  }

  /** With the timing events in their natural order, 0 <= domReady <= loadTime;
      before the load event has ended (`loadEventEnd` still 0) `loadTime` is negative. */
  lemma PerformanceOrder(api: PerformanceApi)
    ensures var t := api.timing;
            t.navigationStart <= t.domContentLoadedEventEnd <= t.loadEventEnd ==>
              0 <= AnalyzePerformance(Some(api)).domReady <= AnalyzePerformance(Some(api)).loadTime
    ensures api.timing.loadEventEnd == 0 < api.timing.navigationStart ==> AnalyzePerformance(Some(api)).loadTime < 0
  {
  }

  // ========================================================== overall score

  datatype Category = MetaTagsScore | ContentScore | TechnicalScore | LinksScore | PerformanceSubScore

  datatype SubScores = SubScores(metaTags: int, content: int, technical: int, links: int, performance: int)

  function ScoreOf(s: SubScores, c: Category): int
  {
    match c
    case MetaTagsScore => s.metaTags
    case ContentScore => s.content
    case TechnicalScore => s.technical
    case LinksScore => s.links
    case PerformanceSubScore => s.performance
  }

  /** The weights in hundredths (0.2, 0.3, 0.25, 0.15, 0.1), in `Object.entries` order. */
  const Weights: seq<(Category, nat)> :=
    [(MetaTagsScore, 20), (ContentScore, 30), (TechnicalScore, 25), (LinksScore, 15), (PerformanceSubScore, 10)]

  /** The placeholder sub-scores: 85, 90, 85, 80 and `calculatePerformanceScore`'s 85. */
  const PlaceholderScores := SubScores(85, 90, 85, 80, PerformanceScore)

  function WeightSum(ws: seq<(Category, nat)>): nat
  {
    if ws == [] then 0 else WeightSum(ws[..|ws| - 1]) + ws[|ws| - 1].1
  }

  /** `totalScore` in hundredths after the entries `ws`. */
  function WeightedSum(s: SubScores, ws: seq<(Category, nat)>): int
  {
    if ws == [] then 0
    else WeightedSum(s, ws[..|ws| - 1]) + ScoreOf(s, ws[|ws| - 1].0) * ws[|ws| - 1].1
  }

  /** `Math.round(t / 100)`: round half up, i.e. the floor of t/100 + 1/2. */
  function RoundHundredths(t: int): (r: int)
    ensures 100 * r - 50 <= t < 100 * r + 50
  {
    (t + 50) / 100
  }

  predicate InPercentRange(s: SubScores)
  {
    0 <= s.metaTags <= 100 && 0 <= s.content <= 100 && 0 <= s.technical <= 100
    && 0 <= s.links <= 100 && 0 <= s.performance <= 100
  }

  lemma WeightSumStep(ws: seq<(Category, nat)>, i: nat)
    requires i < |ws|
    ensures WeightSum(ws[..i + 1]) == WeightSum(ws[..i]) + ws[i].1
  {
    assert ws[..i + 1][..i] == ws[..i];
  }

  lemma WeightedSumStep(s: SubScores, ws: seq<(Category, nat)>, i: nat)
    requires i < |ws|
    ensures WeightedSum(s, ws[..i + 1]) == WeightedSum(s, ws[..i]) + ScoreOf(s, ws[i].0) * ws[i].1
  {
    assert ws[..i + 1][..i] == ws[..i];
  }

  lemma WeightsSumToOne()
    ensures WeightSum(Weights) == 100
  {
    WeightSumStep(Weights, 0);
    WeightSumStep(Weights, 1);
    WeightSumStep(Weights, 2);
    WeightSumStep(Weights, 3);
    WeightSumStep(Weights, 4);
    assert Weights[..5] == Weights;
  }

  /** The loop adds each category once, with its weight. */
  lemma WeightedSumClosedForm(s: SubScores)
    ensures WeightedSum(s, Weights) ==
            20 * s.metaTags + 30 * s.content + 25 * s.technical + 15 * s.links + 10 * s.performance
  {
    WeightedSumStep(s, Weights, 0);
    WeightedSumStep(s, Weights, 1);
    WeightedSumStep(s, Weights, 2);
    WeightedSumStep(s, Weights, 3);
    WeightedSumStep(s, Weights, 4);
    assert Weights[..5] == Weights;
  }

  /** `calculateOverallScore`. */
  method CalculateOverallScore(scores: SubScores) returns (score: int)
    ensures score == RoundHundredths(WeightedSum(scores, Weights))
    ensures InPercentRange(scores) ==> 0 <= score <= 100
  {
    var totalScore := 0;
    for i := 0 to |Weights|
      invariant totalScore == WeightedSum(scores, Weights[..i])
    {
      assert Weights[..i + 1][..i] == Weights[..i];
      var (key, weight) := Weights[i];
      totalScore := totalScore + ScoreOf(scores, key) * weight;
    }
    assert Weights[..|Weights|] == Weights;
    score := (totalScore + 50) / 100;
    WeightedSumClosedForm(scores);
  }

  /** With the placeholder sub-scores the report's score is 86 (85.75 rounded);
      the test suite's 90/85/95/80/75 give 87 (86.75 rounded). */
  lemma OverallScoreExamples()
    ensures RoundHundredths(WeightedSum(PlaceholderScores, Weights)) == 86
    ensures RoundHundredths(WeightedSum(SubScores(90, 85, 95, 80, 75), Weights)) == 87
  {
    WeightedSumClosedForm(PlaceholderScores);
    WeightedSumClosedForm(SubScores(90, 85, 95, 80, 75));
  }

  /** Raising one sub-score never lowers the overall score. */
  lemma OverallScoreMonotone(s: SubScores, t: SubScores)
    requires s.metaTags <= t.metaTags && s.content <= t.content && s.technical <= t.technical
    requires s.links <= t.links && s.performance <= t.performance
    ensures RoundHundredths(WeightedSum(s, Weights)) <= RoundHundredths(WeightedSum(t, Weights))
  {
    WeightedSumClosedForm(s);
    WeightedSumClosedForm(t);
  }
}
