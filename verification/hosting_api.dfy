/** The Firebase Hosting API client: the resource shapes it exchanges with the
    backend, and the helpers with logic of their own — name normalisation,
    channel lookup and paginated listing, and the reconciliation of the
    Firebase Auth authorised-domain list with live preview channels.

    The backend is a parameter: a total function from a request to its
    reply. The authorised-domain list that `getAuthDomains` would fetch is an
    input, and the list that would be passed to `updateAuthDomains` is an
    output. */
module HostingApi {
  import opened Wrappers
  import opened JsText

  // ---------------------------------------------------------------------
  // Resource shapes
  // ---------------------------------------------------------------------

  datatype ActingUser = ActingUser(email: string, imageUrl: string)

  datatype ReleaseType = TYPE_UNSPECIFIED | DEPLOY | ROLLBACK | SITE_DISABLE

  datatype VersionStatus =
    | VERSION_STATUS_UNSPECIFIED | CREATED | FINALIZED | DELETED | ABANDONED | EXPIRED | CLONING

  /** Exactly one of a glob or an RE2 regular expression. */
  datatype MatcherPattern = Glob(glob: string) | Regex(regex: string)

  datatype Header = Header(pattern: MatcherPattern, headers: map<string, string>)

  datatype Redirect = Redirect(pattern: MatcherPattern, statusCode: Option<int>, location: string)

  datatype CloudRunRewriteDetails = CloudRunRewriteDetails(serviceId: string, region: Option<string>)

  /** The four rewrite shapes as a tagged union. */
  datatype Rewrite =
    | PathRewrite(pattern: MatcherPattern, path: string)
    | FunctionRewrite(pattern: MatcherPattern, functionName: string)
    | DynamicLinksRewrite(pattern: MatcherPattern, dynamicLinks: bool)
    | CloudRunRewrite(pattern: MatcherPattern, run: CloudRunRewriteDetails)

  datatype TrailingSlashBehavior = TRAILING_SLASH_BEHAVIOR_UNSPECIFIED | ADD | REMOVE

  datatype AppAssociationBehavior = AUTO | NONE

  datatype I18nConfig = I18nConfig(root: string)

  /** Every field is optional; `None` is a key that is not set. */
  datatype ServingConfig = ServingConfig(
    headers: Option<seq<Header>>,
    redirects: Option<seq<Redirect>>,
    rewrites: Option<seq<Rewrite>>,
    cleanUrls: Option<bool>,
    trailingSlashBehavior: Option<TrailingSlashBehavior>,
    appAssociation: Option<AppAssociationBehavior>,
    i18n: Option<I18nConfig>)

  const EmptyServingConfig := ServingConfig(None, None, None, None, None, None, None)

  datatype Version = Version(
    name: string,
    status: VersionStatus,
    config: ServingConfig,
    labels: map<string, string>,
    createTime: string,
    createUser: ActingUser,
    finalizeTime: string,
    finalizeUser: ActingUser,
    deleteTime: string,
    deleteUser: ActingUser,
    fileCount: int,
    versionBytes: int)

  datatype Release = Release(
    name: string,
    version: Version,
    releaseType: ReleaseType,
    releaseTime: string,
    releaseUser: ActingUser,
    message: string)

  datatype Channel = Channel(
    name: string,
    url: string,
    release: Option<Release>,
    createTime: string,
    updateTime: string,
    expireTime: string,
    retainedReleaseCount: int,
    labels: map<string, string>)

  // ---------------------------------------------------------------------
  // Requests, replies and errors
  // ---------------------------------------------------------------------

  /** A failed request; `status` is the HTTP status when a response arrived. */
  datatype RequestError = RequestError(status: Option<int>)

  datatype Reply<T> = Answered(body: T) | Failed(error: RequestError)

  datatype HostingError =
    | Rethrown(original: RequestError)
    | ChannelsNotFound(site: string)

  function ErrorMessage(e: HostingError): (msg: string)
    requires e.ChannelsNotFound?
    ensures Contains(msg, "\"" + e.site + "\"")
  {
    var prefix := "could not find channels for site ";
    var quoted := "\"" + e.site + "\"";
    var msg := prefix + quoted;
    assert msg[|prefix|..|prefix| + |quoted|] == quoted;
    assert MatchesAt(msg, quoted, |prefix|);
    msg
  }

  function ChannelsPath(project: string, site: string): string {
    "/projects/" + project + "/sites/" + site + "/channels"
  }

  function ChannelPath(project: string, site: string, channelId: string): string {
    ChannelsPath(project, site) + "/" + channelId
  }

  // ---------------------------------------------------------------------
  // normalizeName
  // ---------------------------------------------------------------------

  predicate IsNameSeparator(c: char) {
    c == '/' || c == ':' || c == '_' || c == '#'
  }

  /** Every `/`, `:`, `_` and `#` becomes `-`; all other characters stay. */
  function NormalizeName(s: string): (r: string)
    ensures |r| == |s|
    ensures forall i :: 0 <= i < |s| ==> r[i] == (if IsNameSeparator(s[i]) then '-' else s[i])
    ensures forall i :: 0 <= i < |r| ==> !IsNameSeparator(r[i])
  {
    if |s| == 0 then ""
    else [if IsNameSeparator(s[0]) then '-' else s[0]] + NormalizeName(s[1..])
  }

  lemma NormalizeNameIdempotent(s: string)
    ensures NormalizeName(NormalizeName(s)) == NormalizeName(s)
  {
    var once := NormalizeName(s);
    var twice := NormalizeName(once);
    assert forall i :: 0 <= i < |once| ==> twice[i] == once[i];
  }

  // ---------------------------------------------------------------------
  // getChannel
  // ---------------------------------------------------------------------

  /** A 404 becomes "no channel"; every other failure is rethrown as is. */
  function GetChannel(get: string -> Reply<Channel>, project: string, site: string, channelId: string)
    : (r: Result<Option<Channel>, RequestError>)
    ensures var reply := get(ChannelPath(project, site, channelId));
      && (r == Success(None) <==> reply.Failed? && reply.error.status == Some(404))
      && (reply.Answered? ==> r == Success(Some(reply.body)))
      && (reply.Failed? && reply.error.status != Some(404) ==> r == Failure(reply.error))
  {
    match get(ChannelPath(project, site, channelId))
    case Answered(channel) => Success(Some(channel))
    case Failed(e) => if e.status == Some(404) then Success(None) else Failure(e)
  }

  // ---------------------------------------------------------------------
  // listChannels
  // ---------------------------------------------------------------------

  /** One page of the channel listing; an absent body reads as a page with
      neither field. */
  datatype ChannelPage = ChannelPage(channels: Option<seq<Channel>>, nextPageToken: Option<string>)

  /** The backend answering `GET <path>?pageToken=<token>`. */
  type PageFetcher = (string, string) -> Reply<ChannelPage>

  /** `res.body?.nextPageToken || ""`. */
  function NextToken(page: ChannelPage): string {
    page.nextPageToken.GetOr("")
  }

  function PageChannels(page: ChannelPage): seq<Channel> {
    page.channels.GetOr([])
  }

  /** The reply ends the listing: it failed or it carries no next token. */
  predicate Stops(reply: Reply<ChannelPage>) {
    reply.Failed? || NextToken(reply.body) == ""
  }

  /** The chain of requests starting at `token` stops within `fuel` requests. */
  predicate EndsWithin(fetch: PageFetcher, path: string, token: string, fuel: nat)
    decreases fuel
  {
    fuel > 0 &&
    var reply := fetch(path, token);
    Stops(reply) || EndsWithin(fetch, path, NextToken(reply.body), fuel - 1)
  }

  function ListError(site: string, e: RequestError): (err: HostingError)
    ensures e.status == Some(404) <==> err == ChannelsNotFound(site)
    ensures e.status != Some(404) ==> err == Rethrown(e)
  {
    if e.status == Some(404) then ChannelsNotFound(site) else Rethrown(e)
  }

  /** What the listing loop returns when it is at `token`. */
  function Collect(fetch: PageFetcher, path: string, token: string, site: string, fuel: nat)
    : Result<seq<Channel>, HostingError>
    requires EndsWithin(fetch, path, token, fuel)
    decreases fuel
  {
    var reply := fetch(path, token);
    if reply.Failed? then Failure(ListError(site, reply.error))
    else if NextToken(reply.body) == "" then Success(PageChannels(reply.body))
    else
      match Collect(fetch, path, NextToken(reply.body), site, fuel - 1)
      case Failure(e) => Failure(e)
      case Success(rest) => Success(PageChannels(reply.body) + rest)
  }

  /** The listing does not depend on how generous the termination bound is. */
  lemma {:induction false} CollectFuelIrrelevant(fetch: PageFetcher, path: string, token: string,
                                                 site: string, fuel1: nat, fuel2: nat)
    requires EndsWithin(fetch, path, token, fuel1) && EndsWithin(fetch, path, token, fuel2)
    ensures Collect(fetch, path, token, site, fuel1) == Collect(fetch, path, token, site, fuel2)
    decreases fuel1
  {
    var reply := fetch(path, token);
    if !Stops(reply) {
      CollectFuelIrrelevant(fetch, path, NextToken(reply.body), site, fuel1 - 1, fuel2 - 1);
    }
  }

  /** The replies received, in request order, up to and including the one
      that ends the listing. */
  function Trace(fetch: PageFetcher, path: string, token: string, fuel: nat)
    : (t: seq<Reply<ChannelPage>>)
    requires EndsWithin(fetch, path, token, fuel)
    ensures 1 <= |t| <= fuel
    decreases fuel
  {
    var reply := fetch(path, token);
    if Stops(reply) then [reply] else [reply] + Trace(fetch, path, NextToken(reply.body), fuel - 1)
  }

  /** The trace starts with the request for `token`, every reply but the last
      carries a next token, each request uses the token of the reply before
      it, and the last reply ends the listing. */
  lemma {:induction false} TraceIsTokenChain(fetch: PageFetcher, path: string, token: string, fuel: nat)
    requires EndsWithin(fetch, path, token, fuel)
    ensures var t := Trace(fetch, path, token, fuel);
      && t[0] == fetch(path, token)
      && Stops(t[|t| - 1])
      && (forall i :: 0 <= i < |t| - 1 ==> !Stops(t[i]))
      && (forall i, j :: 0 <= i < j < |t| && j == i + 1 && t[i].Answered? ==>
            t[j] == fetch(path, NextToken(t[i].body)))
    decreases fuel
  {
    var reply := fetch(path, token);
    if !Stops(reply) {
      var next := NextToken(reply.body);
      TraceIsTokenChain(fetch, path, next, fuel - 1);
      var rest := Trace(fetch, path, next, fuel - 1);
      var t := Trace(fetch, path, token, fuel);
      assert t == [reply] + rest;
      assert forall i :: 1 <= i < |t| ==> t[i] == rest[i - 1];
    }
  }

  /** The channels of the answered pages of a run of replies, in order. */
  function ConcatPages(t: seq<Reply<ChannelPage>>): seq<Channel> {
    if |t| == 0 then []
    else (if t[0].Answered? then PageChannels(t[0].body) else []) + ConcatPages(t[1..])
  }

  /** The listing is the concatenation of every page's channels in request
      order when the last reply is a page, and the translated error of the
      last reply when that one failed. */
  lemma {:induction false} CollectIsConcatenatedTrace(fetch: PageFetcher, path: string, token: string,
                                                      site: string, fuel: nat)
    requires EndsWithin(fetch, path, token, fuel)
    ensures var t := Trace(fetch, path, token, fuel);
      Collect(fetch, path, token, site, fuel) ==
        if t[|t| - 1].Answered? then Success(ConcatPages(t))
        else Failure(ListError(site, t[|t| - 1].error))
    decreases fuel
  {
    var reply := fetch(path, token);
    var t := Trace(fetch, path, token, fuel);
    if Stops(reply) {
      assert t == [reply];
      assert t[1..] == [];
      if reply.Answered? {
        assert ConcatPages(t) == PageChannels(reply.body) + ConcatPages([]);
        assert ConcatPages(t) == PageChannels(reply.body);
      }
    } else {
      var next := NextToken(reply.body);
      var rest := Trace(fetch, path, next, fuel - 1);
      CollectIsConcatenatedTrace(fetch, path, next, site, fuel - 1);
      assert t == [reply] + rest;
      assert t[1..] == rest;
      assert t[|t| - 1] == rest[|rest| - 1];
      assert ConcatPages(t) == PageChannels(reply.body) + ConcatPages(rest);
    }
  }

  /** A 404 on the very first page is reported as "could not find channels". */
  lemma FirstPageNotFound(fetch: PageFetcher, path: string, site: string, fuel: nat)
    requires fetch(path, "") == Failed(RequestError(Some(404)))
    requires fuel > 0
    ensures EndsWithin(fetch, path, "", fuel)
    ensures Collect(fetch, path, "", site, fuel) == Failure(ChannelsNotFound(site))
  {
  }

  function PrependChannels(cs: seq<Channel>, r: Result<seq<Channel>, HostingError>)
    : Result<seq<Channel>, HostingError>
  {
    match r
    case Failure(e) => Failure(e)
    case Success(rest) => Success(cs + rest)
  }

  lemma PrependChannelsTwice(a: seq<Channel>, b: seq<Channel>, r: Result<seq<Channel>, HostingError>)
    ensures PrependChannels(a, PrependChannels(b, r)) == PrependChannels(a + b, r)
  {
    if r.Success? {
      assert a + (b + r.value) == (a + b) + r.value;
    }
  }

  /** The paginated listing loop: request page after page with the previous
      page's token until the token is empty, accumulating channels.
      `fuel` bounds the number of requests the backend lets the loop make. */
  method ListChannels(fetch: PageFetcher, project: string, site: string, ghost fuel: nat)
    returns (r: Result<seq<Channel>, HostingError>)
    requires EndsWithin(fetch, ChannelsPath(project, site), "", fuel)
    ensures r == Collect(fetch, ChannelsPath(project, site), "", site, fuel)
  {
    var path := ChannelsPath(project, site);
    var channels: seq<Channel> := [];
    var nextPageToken := "";
    ghost var left := fuel;
    assert Collect(fetch, path, "", site, fuel) == PrependChannels([], Collect(fetch, path, "", site, fuel)) by {
      var r := Collect(fetch, path, "", site, fuel);
      if r.Success? { assert [] + r.value == r.value; }
    }
    while true
      invariant EndsWithin(fetch, path, nextPageToken, left)
      invariant Collect(fetch, path, "", site, fuel) ==
        PrependChannels(channels, Collect(fetch, path, nextPageToken, site, left))
      decreases left
    {
      ghost var before := channels;
      var reply := fetch(path, nextPageToken);
      if reply.Failed? {
        return Failure(ListError(site, reply.error));
      }
      var c := reply.body.channels;
      if c.Some? {
        channels := channels + c.value;
      }
      assert channels == before + PageChannels(reply.body);
      var next := NextToken(reply.body);
      if next == "" {
        assert Collect(fetch, path, nextPageToken, site, left) == Success(PageChannels(reply.body));
        return Success(channels);
      }
      PrependChannelsTwice(before, PageChannels(reply.body), Collect(fetch, path, next, site, left - 1));
      nextPageToken := next;
      left := left - 1;
    }
  }

  // ---------------------------------------------------------------------
  // Authorised domains
  // ---------------------------------------------------------------------

  /** What an auth-domain operation does with the list: hand it back
      untouched, or send it to `updateAuthDomains`. */
  datatype AuthUpdate = Unchanged(domains: seq<string>) | Updated(domains: seq<string>)

  /** `url.replace("https://", "")`: the first occurrence, wherever it is. */
  function DomainOf(url: string): string {
    ReplaceFirst(url, "https://", "")
  }

  /** `a` is `b` with some elements deleted, in the same order. */
  predicate IsSubsequence<T(==)>(a: seq<T>, b: seq<T>)
    decreases |b|
  {
    if |a| == 0 then true
    else if |b| == 0 then false
    else if a[0] == b[0] then IsSubsequence(a[1..], b[1..])
    else IsSubsequence(a, b[1..])
  }

  function AddAuthDomain(domains: seq<string>, url: string): (r: AuthUpdate)
    ensures r.Updated? <==> DomainOf(url) !in domains
    ensures DomainOf(url) in r.domains
    ensures domains <= r.domains
    ensures |r.domains| == |domains| + (if r.Updated? then 1 else 0)
  {
    var domain := DomainOf(url);
    if domain in domains then Unchanged(domains) else Updated(domains + [domain])
  }

  /** Adding the same channel twice sends at most one update. */
  lemma AddAuthDomainIdempotent(domains: seq<string>, url: string)
    ensures AddAuthDomain(AddAuthDomain(domains, url).domains, url).Unchanged?
  {
  }

  /** `domains.filter(d => d != target)`. */
  function Without(domains: seq<string>, target: string): (r: seq<string>)
    ensures target !in r
    ensures IsSubsequence(r, domains)
    ensures forall d :: d != target ==> multiset(r)[d] == multiset(domains)[d]
  {
    if |domains| == 0 then []
    else
      assert domains == [domains[0]] + domains[1..];
      if domains[0] == target then Without(domains[1..], target)
      else [domains[0]] + Without(domains[1..], target)
  }

  function RemoveAuthDomain(domains: seq<string>, url: string): (r: AuthUpdate)
    ensures |domains| == 0 <==> r == Unchanged([])
    ensures |domains| > 0 ==> r == Updated(Without(domains, DomainOf(url)))
    ensures r.Unchanged? ==> r.domains == domains
    ensures r.Updated? ==> DomainOf(url) !in r.domains && IsSubsequence(r.domains, domains)
    ensures forall d :: d != DomainOf(url) ==> multiset(r.domains)[d] == multiset(domains)[d]
  {
    if |domains| == 0 then Unchanged(domains) else Updated(Without(domains, DomainOf(url)))
  }

  /** Removing a domain that was just added restores the list that was there. */
  lemma {:induction false} WithoutAppended(domains: seq<string>, d: string)
    requires d !in domains
    ensures Without(domains + [d], d) == domains
  {
    if |domains| > 0 {
      assert (domains + [d])[1..] == domains[1..] + [d];
      WithoutAppended(domains[1..], d);
      assert [domains[0]] + domains[1..] == domains;
    }
  }

  lemma RemoveAfterAdd(domains: seq<string>, url: string)
    requires AddAuthDomain(domains, url).Updated?
    ensures RemoveAuthDomain(AddAuthDomain(domains, url).domains, url) == Updated(domains)
  {
    WithoutAppended(domains, DomainOf(url));
  }

  // ---------------------------------------------------------------------
  // getCleanDomains
  // ---------------------------------------------------------------------

  /** A line terminator, which `.` in a regular expression does not match. */
  predicate IsLineTerminator(c: char) {
    c == '\n' || c == '\r' || c == '\U{2028}' || c == '\U{2029}'
  }

  /** `/firebaseapp.com$/.test(d)`: the domain ends with "firebaseapp", any
      one character other than a line terminator, and "com". */
  predicate EndsWithFirebaseApp(d: string) {
    |d| >= 15 && d[|d| - 15..|d| - 4] == "firebaseapp" && !IsLineTerminator(d[|d| - 4]) &&
    d[|d| - 3..] == "com"
  }

  /** `new RegExp(site + "--", "i").test(d)`. */
  predicate IsPreviewDomainOf(d: string, site: string) {
    ContainsIgnoreCase(d, site + "--")
  }

  /** The keep-or-drop decision for one authorised domain. */
  predicate KeepDomain(d: string, site: string, live: set<string>) {
    EndsWithFirebaseApp(d) || !IsPreviewDomainOf(d, site) || d in live
  }

  /** The domains of the live channels: `channelMap` of the source, built
      channel by channel. */
  function LiveDomains(channels: seq<Channel>): set<string> {
    if |channels| == 0 then {}
    else LiveDomains(channels[..|channels| - 1]) + {DomainOf(channels[|channels| - 1].url)}
  }

  /** The channel map holds exactly the stripped URLs of the channels. */
  lemma {:induction false} LiveDomainsMembers(channels: seq<Channel>, d: string)
    ensures d in LiveDomains(channels) <==> exists i :: 0 <= i < |channels| && DomainOf(channels[i].url) == d
  {
    if |channels| > 0 {
      var init := channels[..|channels| - 1];
      LiveDomainsMembers(init, d);
      assert forall i :: 0 <= i < |init| ==> init[i] == channels[i];
    }
  }

  /** The authorised domains that survive reconciliation, in their order. */
  function CleanDomains(domains: seq<string>, site: string, live: set<string>): seq<string> {
    if |domains| == 0 then []
    else
      var rest := CleanDomains(domains[1..], site, live);
      if KeepDomain(domains[0], site, live) then [domains[0]] + rest else rest
  }

  /** Reconciliation only deletes domains: the result is an order-preserving
      sublist, and each domain keeps all of its occurrences or none. */
  lemma {:induction false} CleanDomainsSublist(domains: seq<string>, site: string, live: set<string>)
    ensures IsSubsequence(CleanDomains(domains, site, live), domains)
    ensures forall d :: multiset(CleanDomains(domains, site, live))[d] == (if KeepDomain(d, site, live) then multiset(domains)[d] else 0)
  {
    if |domains| > 0 {
      CleanDomainsSublist(domains[1..], site, live);
      assert domains == [domains[0]] + domains[1..];
    }
  }

  /** A suffix match always keeps a domain; a live channel's domain is never
      dropped; a domain is dropped exactly when it looks like a preview domain
      of the site, has no live channel and lacks the suffix. */
  lemma CleanDomainsMembership(domains: seq<string>, site: string, live: set<string>, d: string)
    requires d in domains
    ensures EndsWithFirebaseApp(d) ==> d in CleanDomains(domains, site, live)
    ensures d in live ==> d in CleanDomains(domains, site, live)
    ensures d !in CleanDomains(domains, site, live) <==>
      !EndsWithFirebaseApp(d) && IsPreviewDomainOf(d, site) && d !in live
  {
    CleanDomainsSublist(domains, site, live);
    assert multiset(domains)[d] > 0;
  }

  /** A domain without a dash can never look like a preview domain. */
  lemma NoDashNotPreview(d: string, site: string)
    requires '-' !in d
    ensures !IsPreviewDomainOf(d, site)
  {
    var c := Canonical(d);
    var p := Canonical(site + "--");
    forall j | 0 <= j <= |c| ensures !MatchesAt(c, p, j) {
      if j + |p| <= |c| {
        assert p[|site|] == '-';
        assert c[j + |site|] != '-';
        assert c[j..j + |p|][|site|] == c[j + |site|];
      }
    }
  }

  /** Any domain ending in "firebaseapp.com" matches the suffix test. */
  lemma FirebaseAppSuffix(prefix: string)
    ensures EndsWithFirebaseApp(prefix + "firebaseapp.com")
  {
    var d := prefix + "firebaseapp.com";
    assert d[|d| - 15..|d| - 4] == "firebaseapp";
    assert d[|d| - 3..] == "com";
  }

  /** Every domain under the default suffix survives, a stale preview domain
      such as `app--stale.firebaseapp.com` included, because the suffix test
      comes first. */
  lemma CleanDomainsKeepsSuffixedPreview(domains: seq<string>, site: string, live: set<string>, prefix: string)
    requires prefix + "firebaseapp.com" in domains
    ensures prefix + "firebaseapp.com" in CleanDomains(domains, site, live)
  {
    FirebaseAppSuffix(prefix);
    CleanDomainsMembership(domains, site, live, prefix + "firebaseapp.com");
  }

  /** A preview domain of the site (in any letter case) with no live channel
      and no default suffix is dropped; a live one and an unrelated one stay. */
  lemma CleanDomainsDropsStalePreview()
    ensures CleanDomains(["localhost", "APP--stale.web.app", "app--pr1.web.app"], "app", {"app--pr1.web.app"})
         == ["localhost", "app--pr1.web.app"]
  {
    var live := {"app--pr1.web.app"};
    var ds := ["localhost", "APP--stale.web.app", "app--pr1.web.app"];
    NoDashNotPreview("localhost", "app");
    assert "app" + "--" == "app--";
    assert Canonical(ds[1])[0..5] == Canonical("app--");
    assert MatchesAt(Canonical(ds[1]), Canonical("app--"), 0);
    assert !KeepDomain(ds[1], "app", live);
    assert !EndsWithFirebaseApp(ds[1]) by {
      assert ds[1][|ds[1]| - 3..] != "com";
    }
    assert CleanDomains(ds[2..], "app", live) == [ds[2]] by {
      assert ds[2..][1..] == [];
    }
    assert CleanDomains(ds[1..], "app", live) == [ds[2]] by {
      assert ds[1..][1..] == ds[2..];
    }
  }

  /** The `reduce` that records every live channel's domain. */
  method ChannelDomainSet(channels: seq<Channel>) returns (channelMap: set<string>)
    ensures channelMap == LiveDomains(channels)
  {
    channelMap := {};
    for i := 0 to |channels|
      invariant channelMap == LiveDomains(channels[..i])
    {
      assert channels[..i + 1][..i] == channels[..i];
      channelMap := channelMap + {DomainOf(channels[i].url)};
    }
    assert channels[..|channels|] == channels;
  }

  lemma CleanDomainsStep(domains: seq<string>, i: nat, site: string, live: set<string>)
    requires i < |domains|
    ensures CleanDomains(domains[i..], site, live) ==
      (if KeepDomain(domains[i], site, live) then [domains[i]] else []) +
      CleanDomains(domains[i + 1..], site, live)
  {
    assert domains[i..][1..] == domains[i + 1..];
  }

  /** The body of the `forEach` callback: keep a default-suffix domain, drop
      a preview domain of the site without a live channel, keep the rest. */
  method KeepOrDrop(domain: string, site: string, channelMap: set<string>) returns (keep: bool)
    ensures keep == KeepDomain(domain, site, channelMap)
  {
    if EndsWithFirebaseApp(domain) {
      return true;
    }
    if IsPreviewDomainOf(domain, site) && domain !in channelMap {
      return false;
    }
    return true;
  }

  /** The `forEach` that pushes every domain to keep, in order. */
  method KeepCleanDomains(domains: seq<string>, site: string, channelMap: set<string>)
    returns (authDomains: seq<string>)
    ensures authDomains == CleanDomains(domains, site, channelMap)
  {
    authDomains := [];
    for i := 0 to |domains|
      invariant CleanDomains(domains, site, channelMap) ==
        authDomains + CleanDomains(domains[i..], site, channelMap)
    {
      var keep := KeepOrDrop(domains[i], site, channelMap);
      CleanDomainsStep(domains, i, site, channelMap);
      if keep {
        authDomains := authDomains + [domains[i]];
      }
    }
  }

  /** The reconciliation: list the site's channels, collect their domains,
      then keep or drop each authorised domain in order. */
  method GetCleanDomains(fetch: PageFetcher, project: string, site: string, domains: seq<string>,
                         ghost fuel: nat)
    returns (r: Result<seq<string>, HostingError>)
    requires EndsWithin(fetch, ChannelsPath(project, site), "", fuel)
    ensures Collect(fetch, ChannelsPath(project, site), "", site, fuel).Failure? ==>
      r == Failure(Collect(fetch, ChannelsPath(project, site), "", site, fuel).error)
    ensures Collect(fetch, ChannelsPath(project, site), "", site, fuel).Success? ==>
      r == Success(CleanDomains(domains, site, LiveDomains(Collect(fetch, ChannelsPath(project, site), "", site, fuel).value)))
  {
    var listed := ListChannels(fetch, project, site, fuel);
    if listed.Failure? {
      return Failure(listed.error);
    }
    var channelMap := ChannelDomainSet(listed.value);
    var authDomains := KeepCleanDomains(domains, site, channelMap);
    return Success(authDomains);
  }

  /** `cleanAuthState`: the reconciled list is sent as the new list. */
  method CleanAuthState(fetch: PageFetcher, project: string, site: string, domains: seq<string>,
                        ghost fuel: nat)
    returns (r: Result<AuthUpdate, HostingError>)
    requires EndsWithin(fetch, ChannelsPath(project, site), "", fuel)
    ensures Collect(fetch, ChannelsPath(project, site), "", site, fuel).Failure? ==>
      r == Failure(Collect(fetch, ChannelsPath(project, site), "", site, fuel).error)
    ensures Collect(fetch, ChannelsPath(project, site), "", site, fuel).Success? ==>
      r == Success(Updated(CleanDomains(domains, site, LiveDomains(Collect(fetch, ChannelsPath(project, site), "", site, fuel).value))))
  {
    var clean := GetCleanDomains(fetch, project, site, domains, fuel);
    if clean.Failure? {
      return Failure(clean.error);
    }
    return Success(Updated(clean.value));
  }
}
