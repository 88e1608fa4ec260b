/**
 * The integration service: a cache of connected provider keys with its connection
 * events, a memoising registry of provider integrations, routing from a git remote to
 * its integration, grouping of remotes per integration for the multi-remote searches,
 * the best-effort merge of the searches' outcomes, and the per-id cache of the
 * "ignore SSL errors" setting.
 *
 * Provider integration objects are opaque: only their id, the domain they were built
 * with and their identity matter here.
 */
module Integrations {
  import opened Wrappers

  // ---------------------------------------------------------------- provider ids and keys

  const GitHubId := "github"
  const GitLabId := "gitlab"
  const BitbucketId := "bitbucket"
  const AzureDevOpsId := "azureDevOps"
  const GitHubEnterpriseId := "github-enterprise"
  const GitLabSelfHostedId := "gitlab-self-hosted"

  predicate IsHostedProviderId(id: string) {
    id == GitHubId || id == GitLabId || id == BitbucketId || id == AzureDevOpsId
  }

  predicate IsSelfHostedProviderId(id: string) {
    id == GitHubEnterpriseId || id == GitLabSelfHostedId
  }

  /** `get` can build an integration for `id`: a supported id, with a domain if it is self-hosted. */
  predicate Constructible(id: string, domain: Option<string>) {
    IsHostedProviderId(id) || (IsSelfHostedProviderId(id) && domain.Some?)
  }

  /** How a template literal prints an optional string: a missing one prints as "undefined". */
  function TemplateText(domain: Option<string>): string {
    if domain.None? then "undefined" else domain.value
  }

  /** The registry key: `id:domain` for self-hosted ids, the bare id otherwise. */
  function ProviderKey(id: string, domain: Option<string>): string {
    if IsSelfHostedProviderId(id) then id + ":" + TemplateText(domain) else id
  }

  /**
   * Keys do not collide: two requests `get` accepts share a key only when they ask for
   * the same id and, for a self-hosted id, the same domain.
   */
  lemma ProviderKeyInjective(id1: string, domain1: Option<string>, id2: string, domain2: Option<string>)
    requires Constructible(id1, domain1) && Constructible(id2, domain2)
    requires ProviderKey(id1, domain1) == ProviderKey(id2, domain2)
    ensures id1 == id2
    ensures IsSelfHostedProviderId(id1) ==> domain1 == domain2
  {
    var k := ProviderKey(id1, domain1);
    if IsSelfHostedProviderId(id1) && IsSelfHostedProviderId(id2) {
      if id1 != id2 {
        KeyPrefixChar(id1, TemplateText(domain1), 3);
        KeyPrefixChar(id2, TemplateText(domain2), 3);
        assert false;
      }
      assert k[|id1| + 1..] == domain1.value;
      assert k[|id2| + 1..] == domain2.value;
    } else if IsSelfHostedProviderId(id1) || IsSelfHostedProviderId(id2) {
      assert false;
    }
  }

  lemma KeyPrefixChar(id: string, text: string, i: nat)
    requires i < |id|
    ensures (id + ":" + text)[i] == id[i]
  {
  }

  /**
   * A missing domain and the domain "undefined" give the same self-hosted key, and the
   * registry is consulted before the domain is checked.
   */
  lemma ProviderKeyMissingDomain(id: string)
    requires IsSelfHostedProviderId(id)
    ensures ProviderKey(id, None) == ProviderKey(id, Some("undefined")) == id + ":undefined"
  {
  }

  // ---------------------------------------------------------------- remotes and routing

  /** An opaque repository descriptor, as a remote's provider reports it. */
  datatype RepositoryDescriptor = RepositoryDescriptor(owner: string, name: string)

  /** A remote's provider: its remote-provider id, whether it is a custom remote, its domain. */
  datatype RemoteProvider = RemoteProvider(id: string, custom: bool, domain: Option<string>, repoDesc: RepositoryDescriptor)

  /**
   * A git remote; `integration` is what `GitRemote.getIntegration` yields for it, which
   * the multi-remote searches consult.
   */
  datatype GitRemote = GitRemote(name: string, provider: Option<RemoteProvider>, integration: Option<ProviderIntegration>)

  /** The arguments of one `get` call. */
  datatype IntegrationRequest = IntegrationRequest(id: string, domain: Option<string>)

  /** `supports`: the remote-provider ids that have an integration. */
  predicate Supports(remoteId: string) {
    remoteId == "azure-devops" || remoteId == "bitbucket" || remoteId == "github" || remoteId == "gitlab"
  }

  /** The remote-provider id whose remotes an integration id serves. */
  function RemoteProviderIdOf(integrationId: string): string {
    if integrationId == GitHubId || integrationId == GitHubEnterpriseId then "github"
    else if integrationId == GitLabId || integrationId == GitLabSelfHostedId then "gitlab"
    else if integrationId == BitbucketId then "bitbucket"
    else if integrationId == AzureDevOpsId then "azure-devops"
    else ""
  }

  /**
   * The `get` call `getByRemote` makes for a remote's provider, if any. The chosen
   * integration serves the remote's provider id; it is the self-hosted one, under the
   * remote's domain, exactly when the remote is custom and has a domain.
   */
  function RouteRemote(p: RemoteProvider): (r: Option<IntegrationRequest>)
    ensures r.Some? ==> Constructible(r.value.id, r.value.domain)
    ensures r.Some? ==> RemoteProviderIdOf(r.value.id) == p.id
    ensures r.Some? && IsSelfHostedProviderId(r.value.id) ==> p.custom && p.domain.Some?
    ensures (p.id == "github" || p.id == "gitlab") && p.custom && p.domain.Some? ==>
      r.Some? && IsSelfHostedProviderId(r.value.id)
    ensures r.Some? && IsSelfHostedProviderId(r.value.id) ==> r.value.domain == p.domain
    ensures r.Some? && IsHostedProviderId(r.value.id) ==> r.value.domain.None?
  {
    match p.id
    case "azure-devops" => Some(IntegrationRequest(AzureDevOpsId, None))
    case "bitbucket" => Some(IntegrationRequest(BitbucketId, None))
    case "github" =>
      if p.custom && p.domain.Some? then Some(IntegrationRequest(GitHubEnterpriseId, p.domain))
      else Some(IntegrationRequest(GitHubId, None))
    case "gitlab" =>
      if p.custom && p.domain.Some? then Some(IntegrationRequest(GitLabSelfHostedId, p.domain))
      else Some(IntegrationRequest(GitLabId, None))
    case _ => None
  }

  /** `supports(id)` holds exactly for the remotes `getByRemote` finds an integration for. */
  lemma SupportsMatchesRouting(p: RemoteProvider)
    ensures Supports(p.id) <==> RouteRemote(p).Some?
  {
  }

  // ---------------------------------------------------------------- grouping remotes

  /** The multi-remote searches use a remote when it has a provider and an integration. */
  predicate Grouped(r: GitRemote) {
    r.provider.Some? && r.integration.Some?
  }

  /** The integrations of the grouped remotes, each once, in order of first appearance. */
  function FirstSeen(remotes: seq<GitRemote>): seq<ProviderIntegration> {
    if remotes == [] then []
    else
      var seen := FirstSeen(remotes[..|remotes| - 1]);
      var last := remotes[|remotes| - 1];
      if Grouped(last) && last.integration.value !in seen then seen + [last.integration.value] else seen
  }

  /** The repository descriptors of the grouped remotes whose integration is `p`, in input order. */
  function ReposFor(remotes: seq<GitRemote>, p: ProviderIntegration): seq<RepositoryDescriptor> {
    if remotes == [] then []
    else
      var last := remotes[|remotes| - 1];
      ReposFor(remotes[..|remotes| - 1], p)
        + (if Grouped(last) && last.integration.value == p then [last.provider.value.repoDesc] else [])
  }

  /**
   * The grouping loop of `getMyIssuesForRemotes` and `getMyPullRequestsForRemotes`:
   * `order` is the insertion order of the resulting map's keys.
   */
  method GroupByIntegration(remotes: seq<GitRemote>)
    returns (order: seq<ProviderIntegration>, groups: map<ProviderIntegration, seq<RepositoryDescriptor>>)
    ensures order == FirstSeen(remotes)
    ensures forall p :: p in groups <==> p in order
    ensures forall p :: p in groups ==> groups[p] == ReposFor(remotes, p)
  {
    order, groups := [], map[];
    var i := 0;
    while i < |remotes|
      invariant 0 <= i <= |remotes|
      invariant order == FirstSeen(remotes[..i])
      invariant forall p :: p in groups <==> p in order
      invariant forall p :: p in groups ==> groups[p] == ReposFor(remotes[..i], p)
    {
      var remote := remotes[i];
      assert remotes[..i + 1][..i] == remotes[..i];
      if remote.provider.Some? && remote.integration.Some? {
        var integration := remote.integration.value;
        if integration !in groups {
          FirstSeenAbsent(remotes[..i], integration);
          groups := groups[integration := []];
          order := order + [integration];
        }
        groups := groups[integration := groups[integration] + [remote.provider.value.repoDesc]];
      }
      i := i + 1;
    }
    assert remotes[..i] == remotes;
  }

  /** An integration that no grouped remote names has no repositories. */
  lemma {:induction false} FirstSeenAbsent(remotes: seq<GitRemote>, p: ProviderIntegration)
    requires p !in FirstSeen(remotes)
    ensures ReposFor(remotes, p) == []
  {
    if remotes != [] {
      FirstSeenAbsent(remotes[..|remotes| - 1], p);
    }
  }

  /** An integration is a key of the grouping exactly when some grouped remote names it. */
  lemma {:induction false} FirstSeenMembers(remotes: seq<GitRemote>, p: ProviderIntegration)
    ensures p in FirstSeen(remotes) <==>
      exists i :: 0 <= i < |remotes| && Grouped(remotes[i]) && remotes[i].integration.value == p
  {
    if remotes != [] {
      var init := remotes[..|remotes| - 1];
      FirstSeenMembers(init, p);
      if p in FirstSeen(init) {
        var i :| 0 <= i < |init| && Grouped(init[i]) && init[i].integration.value == p;
        assert remotes[i] == init[i];
      }
      if exists i :: 0 <= i < |init| && Grouped(init[i]) && init[i].integration.value == p {
        var i :| 0 <= i < |init| && Grouped(init[i]) && init[i].integration.value == p;
        assert remotes[i] == init[i];
      }
      if exists i :: 0 <= i < |remotes| && Grouped(remotes[i]) && remotes[i].integration.value == p {
        var i :| 0 <= i < |remotes| && Grouped(remotes[i]) && remotes[i].integration.value == p;
        if i < |init| {
          assert init[i] == remotes[i];
        }
      }
    }
  }

  /** No integration is a key twice. */
  lemma {:induction false} FirstSeenDistinct(remotes: seq<GitRemote>)
    ensures forall i, j :: 0 <= i < j < |FirstSeen(remotes)| ==> FirstSeen(remotes)[i] != FirstSeen(remotes)[j]
  {
    if remotes != [] {
      FirstSeenDistinct(remotes[..|remotes| - 1]);
    }
  }

  /** The number of grouped remotes. */
  function CountGrouped(remotes: seq<GitRemote>): nat {
    if remotes == [] then 0
    else CountGrouped(remotes[..|remotes| - 1]) + (if Grouped(remotes[|remotes| - 1]) then 1 else 0)
  }

  /** The total number of descriptors held under the integrations `ps`. */
  function TotalRepos(ps: seq<ProviderIntegration>, remotes: seq<GitRemote>): nat {
    if ps == [] then 0 else TotalRepos(ps[..|ps| - 1], remotes) + |ReposFor(remotes, ps[|ps| - 1])|
  }

  lemma {:induction false} TotalReposStep(ps: seq<ProviderIntegration>, remotes: seq<GitRemote>, r: GitRemote)
    requires forall i, j :: 0 <= i < j < |ps| ==> ps[i] != ps[j]
    ensures TotalRepos(ps, remotes + [r]) ==
      TotalRepos(ps, remotes) + (if Grouped(r) && r.integration.value in ps then 1 else 0)
  {
    var remotes' := remotes + [r];
    assert remotes'[..|remotes'| - 1] == remotes;
    if ps != [] {
      var init := ps[..|ps| - 1];
      TotalReposStep(init, remotes, r);
      assert Grouped(r) && r.integration.value == ps[|ps| - 1] ==> r.integration.value !in init;
      assert Grouped(r) && r.integration.value in ps ==>
        r.integration.value in init || r.integration.value == ps[|ps| - 1];
    }
  }

  /**
   * Every grouped remote's descriptor is held exactly once: the lists under all keys
   * hold, together, as many descriptors as there are grouped remotes.
   */
  lemma {:induction false} GroupingKeepsEveryRepo(remotes: seq<GitRemote>)
    ensures TotalRepos(FirstSeen(remotes), remotes) == CountGrouped(remotes)
  {
    if remotes != [] {
      var init := remotes[..|remotes| - 1];
      var r := remotes[|remotes| - 1];
      assert remotes == init + [r];
      GroupingKeepsEveryRepo(init);
      var seen := FirstSeen(init);
      FirstSeenDistinct(init);
      TotalReposStep(seen, init, r);
      if Grouped(r) && r.integration.value !in seen {
        var p := r.integration.value;
        FirstSeenAbsent(init, p);
        assert (seen + [p])[..|seen + [p]| - 1] == seen;
      }
    }
  }

  // ---------------------------------------------------------------- merging search outcomes

  /** The settled outcome of one provider search: its items (or `undefined`), or a rejection. */
  datatype Settled<T> = Fulfilled(items: Option<seq<T>>) | Rejected

  /** The items of the fulfilled searches, in order; rejected and empty outcomes are dropped. */
  function FlattenFulfilled<T>(results: seq<Settled<T>>): seq<T> {
    if results == [] then []
    else
      (if results[0].Fulfilled? && results[0].items.Some? then results[0].items.value else [])
        + FlattenFulfilled(results[1..])
  }

  lemma {:induction false} FlattenFulfilledAppend<T>(a: seq<Settled<T>>, b: seq<Settled<T>>)
    ensures FlattenFulfilled(a + b) == FlattenFulfilled(a) + FlattenFulfilled(b)
  {
    if a != [] {
      assert (a + b)[1..] == a[1..] + b;
      FlattenFulfilledAppend(a[1..], b);
    } else {
      assert a + b == b;
    }
  }

  /** An item is in the merged result exactly when some fulfilled search returned it. */
  lemma {:induction false} FlattenFulfilledMembers<T>(results: seq<Settled<T>>, x: T)
    ensures x in FlattenFulfilled(results) <==>
      exists i :: 0 <= i < |results| && results[i].Fulfilled? && results[i].items.Some? && x in results[i].items.value
  {
    if results != [] {
      FlattenFulfilledMembers(results[1..], x);
      if exists i :: 0 <= i < |results| && results[i].Fulfilled? && results[i].items.Some? && x in results[i].items.value {
        var i :| 0 <= i < |results| && results[i].Fulfilled? && results[i].items.Some? && x in results[i].items.value;
        if i > 0 {
          assert results[1..][i - 1] == results[i];
        }
      }
      if exists i :: 0 <= i < |results[1..]| && results[1..][i].Fulfilled? && results[1..][i].items.Some? && x in results[1..][i].items.value {
        var i :| 0 <= i < |results[1..]| && results[1..][i].Fulfilled? && results[1..][i].items.Some? && x in results[1..][i].items.value;
        assert results[i + 1] == results[1..][i];
      }
    }
  }

  // ---------------------------------------------------------------- the "ignore SSL errors" setting

  /** `boolean | 'force'`: `Off` is `false`, `On` is `true`. */
  datatype SslErrorsSetting = Off | On | Force

  /** One entry of the `remotes` configuration. */
  datatype RemoteConfig = RemoteConfig(kind: string, domain: Option<string>, ignoreSSLErrors: Option<SslErrorsSetting>)

  function LowerChar(c: char): char {
    if 'A' <= c <= 'Z' then (c as int - 'A' as int + 'a' as int) as char else c
  }

  function ToLowerCase(s: string): string {
    if s == [] then [] else [LowerChar(s[0])] + ToLowerCase(s[1..])
  }

  /** A configured remote applies to an integration when its type and domain match. */
  predicate ConfigMatches(c: RemoteConfig, id: string, domain: Option<string>) {
    ToLowerCase(c.kind) == id && c.domain == domain
  }

  /** `Array.prototype.find`, as the index of the first matching configured remote. */
  function FindRemoteConfig(remotes: seq<RemoteConfig>, id: string, domain: Option<string>): (r: Option<nat>)
    ensures r.Some? ==> r.value < |remotes| && ConfigMatches(remotes[r.value], id, domain)
    ensures forall j :: 0 <= j < |remotes| && (r.None? || j < r.value) ==> !ConfigMatches(remotes[j], id, domain)
  {
    if remotes == [] then None
    else if ConfigMatches(remotes[0], id, domain) then Some(0)
    else
      var rest := FindRemoteConfig(remotes[1..], id, domain);
      if rest.None? then None else Some(rest.value + 1)
  }

  /** `cfg?.ignoreSSLErrors ?? false` for the first matching configured remote. */
  function ConfiguredSslErrors(remotes: Option<seq<RemoteConfig>>, id: string, domain: Option<string>): (r: SslErrorsSetting)
    ensures remotes.None? ==> r == Off
    ensures remotes.Some? && (forall j :: 0 <= j < |remotes.value| ==> !ConfigMatches(remotes.value[j], id, domain)) ==>
      r == Off
    ensures remotes.Some? ==> forall i ::
      (0 <= i < |remotes.value| && ConfigMatches(remotes.value[i], id, domain) &&
       forall j :: 0 <= j < i ==> !ConfigMatches(remotes.value[j], id, domain)) ==>
      r == remotes.value[i].ignoreSSLErrors.GetOr(Off)
  {
    if remotes.None? then Off
    else
      var found := FindRemoteConfig(remotes.value, id, domain);
      if found.None? then Off else remotes.value[found.value].ignoreSSLErrors.GetOr(Off)
  }

  // ---------------------------------------------------------------- the service

  /** A provider integration object; only its id and the domain it was built with are modelled. */
  class ProviderIntegration {
    const id: string
    const domain: Option<string>

    constructor (id: string, domain: Option<string>)
      ensures this.id == id && this.domain == domain
    {
      this.id := id;
      this.domain := domain;
    }
  }

  type ConnectionReason = s: string | s == "connected" || s == "disconnected" witness "connected"

  datatype ConnectionStateChangeEvent = ConnectionStateChangeEvent(key: string, reason: ConnectionReason)

  /** What a `getMy…ForRemotes` call searches: nothing, one integration, or one search per group. */
  datatype SearchPlan =
    | NoSearch
    | SearchOne(integration: ProviderIntegration, repo: RepositoryDescriptor)
    | SearchGroups(order: seq<ProviderIntegration>, repos: map<ProviderIntegration, seq<RepositoryDescriptor>>)

  /** The integrations, in registry order, whose id is among `providerIds` (all when absent). */
  function Selection(keys: seq<string>, integrations: map<string, ProviderIntegration>, providerIds: Option<seq<string>>): seq<ProviderIntegration>
    requires forall k :: k in keys ==> k in integrations
  {
    if keys == [] then []
    else
      var rest := Selection(keys[..|keys| - 1], integrations, providerIds);
      var p := integrations[keys[|keys| - 1]];
      if providerIds.None? || p.id in providerIds.value then rest + [p] else rest
  }

  /** An integration is selected exactly when it is registered and its id is asked for. */
  lemma {:induction false} SelectionMembers(keys: seq<string>, integrations: map<string, ProviderIntegration>,
                                            providerIds: Option<seq<string>>, p: ProviderIntegration)
    requires forall k :: k in keys ==> k in integrations
    ensures p in Selection(keys, integrations, providerIds) <==>
      (exists k :: k in keys && integrations[k] == p) && (providerIds.None? || p.id in providerIds.value)
  {
    if keys != [] {
      var init := keys[..|keys| - 1];
      var last := keys[|keys| - 1];
      SelectionMembers(init, integrations, providerIds, p);
      if exists k :: k in keys && integrations[k] == p {
        var k :| k in keys && integrations[k] == p;
        if k != last {
          assert k in init;
        }
      }
    }
  }

  class IntegrationService {
    /** `_connectedCache`. */
    var connectedCache: set<string>
    /** The connection-state events fired, oldest first. */
    ghost var events: seq<ConnectionStateChangeEvent>
    /** `_integrations`, with `keyOrder` its keys in insertion order. */
    var integrations: map<string, ProviderIntegration>
    var keyOrder: seq<string>
    /** `_ignoreSSLErrors`, keyed by integration id. */
    var ignoreSslCache: map<string, SslErrorsSetting>

    /** Every registered integration sits, once, under the key of the request that built it. */
    ghost predicate Valid()
      reads this`integrations, this`keyOrder
    {
      && (forall i, j :: 0 <= i < j < |keyOrder| ==> keyOrder[i] != keyOrder[j])
      && (forall k :: k in integrations <==> k in keyOrder)
      && (forall k :: k in integrations ==>
            Constructible(integrations[k].id, integrations[k].domain) &&
            ProviderKey(integrations[k].id, integrations[k].domain) == k &&
            (IsHostedProviderId(integrations[k].id) ==> integrations[k].domain.None?))
    }

    constructor ()
      ensures Valid()
      ensures connectedCache == {} && events == []
      ensures integrations == map[] && keyOrder == [] && ignoreSslCache == map[]
    {
      connectedCache := {};
      events := [];
      integrations := map[];
      keyOrder := [];
      ignoreSslCache := map[];
    }

    /** `connected`: only the first connection of a key is recorded and announced. */
    method Connected(key: string)
      modifies this`connectedCache, this`events
      ensures key in old(connectedCache) ==> connectedCache == old(connectedCache) && events == old(events)
      ensures key !in old(connectedCache) ==>
        connectedCache == old(connectedCache) + {key} &&
        events == old(events) + [ConnectionStateChangeEvent(key, "connected")]
    {
      if key in connectedCache {
        return;
      }
      connectedCache := connectedCache + {key};
      events := events + [ConnectionStateChangeEvent(key, "connected")];
    }

    /** `disconnected`: removes the key and always announces it, connected or not. */
    method Disconnected(key: string)
      modifies this`connectedCache, this`events
      ensures connectedCache == old(connectedCache) - {key}
      ensures events == old(events) + [ConnectionStateChangeEvent(key, "disconnected")]
    {
      connectedCache := connectedCache - {key};
      events := events + [ConnectionStateChangeEvent(key, "disconnected")];
    }

    /** `isConnected`: any key connected, or the given key connected. */
    function IsConnected(key: Option<string>): (b: bool)
      reads this`connectedCache
      ensures key.None? ==> (b <==> exists k :: k in connectedCache)
      ensures key.Some? ==> (b <==> key.value in connectedCache)
    {
      if key.None? then |connectedCache| != 0 else key.value in connectedCache
    }

    /**
     * `get`: returns the integration registered under the request's key; on a miss it
     * builds one, registers it under that key and returns it, or throws (registering
     * nothing) when the id is unsupported or a self-hosted id has no domain.
     */
    method Get(id: string, domain: Option<string>) returns (r: Result<ProviderIntegration>)
      requires Valid()
      modifies this`integrations, this`keyOrder
      ensures Valid()
      ensures ProviderKey(id, domain) in old(integrations) ==>
        r == Success(old(integrations)[ProviderKey(id, domain)]) &&
        integrations == old(integrations) && keyOrder == old(keyOrder)
      ensures ProviderKey(id, domain) !in old(integrations) && Constructible(id, domain) ==>
        r.Success? && fresh(r.value) && r.value.id == id &&
        r.value.domain == (if IsSelfHostedProviderId(id) then domain else None) &&
        integrations == old(integrations)[ProviderKey(id, domain) := r.value] &&
        keyOrder == old(keyOrder) + [ProviderKey(id, domain)]
      ensures ProviderKey(id, domain) !in old(integrations) && !Constructible(id, domain) ==>
        r.Failure? && integrations == old(integrations) && keyOrder == old(keyOrder)
      ensures r.Success? && Constructible(id, domain) ==> r.value.id == id
    {
      var key := ProviderKey(id, domain);
      if key in integrations {
        var cached := integrations[key];
        if Constructible(id, domain) {
          ProviderKeyInjective(cached.id, cached.domain, id, domain);
        }
        return Success(cached);
      }
      if IsSelfHostedProviderId(id) {
        if domain.None? {
          return Failure("Domain is required for '" + id + "' integration");
        }
      } else if !IsHostedProviderId(id) {
        return Failure("Provider '" + id + "' is not supported");
      }
      var provider := new ProviderIntegration(id, if IsSelfHostedProviderId(id) then domain else None);
      integrations := integrations[key := provider];
      keyOrder := keyOrder + [key];
      return Success(provider);
    }

    /**
     * `getByRemote`: the integration for the remote's provider, built on first use;
     * none for a remote without a provider or with an unsupported provider id.
     */
    method GetByRemote(remote: GitRemote) returns (r: Option<ProviderIntegration>)
      requires Valid()
      modifies this`integrations, this`keyOrder
      ensures Valid()
      ensures r.None? <==> remote.provider.None? || !Supports(remote.provider.value.id)
      ensures r.Some? ==>
        var request := RouteRemote(remote.provider.value).value;
        ProviderKey(request.id, request.domain) in integrations &&
        integrations[ProviderKey(request.id, request.domain)] == r.value &&
        r.value.id == request.id
      ensures forall k :: k in old(integrations) ==> k in integrations && integrations[k] == old(integrations)[k]
      ensures r.None? ==> integrations == old(integrations) && keyOrder == old(keyOrder)
      ensures r.Some? ==>
        var request := RouteRemote(remote.provider.value).value;
        var key := ProviderKey(request.id, request.domain);
        integrations == old(integrations)[key := r.value] &&
        keyOrder == (if key in old(integrations) then old(keyOrder) else old(keyOrder) + [key])
    {
      if remote.provider.None? {
        return None;
      }
      SupportsMatchesRouting(remote.provider.value);
      var request := RouteRemote(remote.provider.value);
      if request.None? {
        return None;
      }
      var result := Get(request.value.id, request.value.domain);
      assert result.Success?;
      return Some(result.value);
    }

    /**
     * The provider filter of `getMyIssues` and `getMyPullRequests`: the registered
     * integrations whose id is asked for, in registry order, or `None` when there are none.
     */
    method SelectProviders(providerIds: Option<seq<string>>) returns (r: Option<seq<ProviderIntegration>>)
      requires Valid()
      ensures r.None? <==> Selection(keyOrder, integrations, providerIds) == []
      ensures r.Some? ==> r.value == Selection(keyOrder, integrations, providerIds)
    {
      var selected: seq<ProviderIntegration> := [];
      var i := 0;
      while i < |keyOrder|
        invariant 0 <= i <= |keyOrder|
        invariant selected == Selection(keyOrder[..i], integrations, providerIds)
      {
        assert keyOrder[..i + 1][..i] == keyOrder[..i];
        var integration := integrations[keyOrder[i]];
        if providerIds.None? || integration.id in providerIds.value {
          selected := selected + [integration];
        }
        i := i + 1;
      }
      assert keyOrder[..i] == keyOrder;
      if selected == [] {
        return None;
      }
      return Some(selected);
    }

    /**
     * What `getMyIssuesForRemotes` and `getMyPullRequestsForRemotes` search: nothing for
     * no remotes; for one remote, its integration found by `getByRemote`; for several,
     * one search per integration over the grouped repositories.
     */
    method PlanForRemotes(remotes: seq<GitRemote>) returns (plan: SearchPlan)
      requires Valid()
      modifies this`integrations, this`keyOrder
      ensures Valid()
      ensures |remotes| == 0 ==> plan == NoSearch
      ensures |remotes| == 1 ==>
        (plan.NoSearch? <==> remotes[0].provider.None? || !Supports(remotes[0].provider.value.id))
      ensures |remotes| == 1 && !plan.NoSearch? ==>
        var request := RouteRemote(remotes[0].provider.value).value;
        var key := ProviderKey(request.id, request.domain);
        plan.SearchOne? && plan.repo == remotes[0].provider.value.repoDesc &&
        key in integrations && plan.integration == integrations[key] && plan.integration.id == request.id &&
        integrations == old(integrations)[key := plan.integration] &&
        keyOrder == (if key in old(integrations) then old(keyOrder) else old(keyOrder) + [key])
      ensures plan.NoSearch? ==> integrations == old(integrations) && keyOrder == old(keyOrder)
      ensures |remotes| != 1 ==> integrations == old(integrations) && keyOrder == old(keyOrder)
      ensures |remotes| > 1 ==> plan.SearchGroups? && plan.order == FirstSeen(remotes)
      ensures |remotes| > 1 ==> forall p :: p in plan.repos <==> p in plan.order
      ensures |remotes| > 1 ==> forall p :: p in plan.repos ==> plan.repos[p] == ReposFor(remotes, p)
    {
      if |remotes| == 0 {
        return NoSearch;
      }
      if |remotes| == 1 {
        var remote := remotes[0];
        if remote.provider.None? {
          return NoSearch;
        }
        var integration := GetByRemote(remote);
        if integration.None? {
          return NoSearch;
        }
        return SearchOne(integration.value, remote.provider.value.repoDesc);
      }
      var order, groups := GroupByIntegration(remotes);
      return SearchGroups(order, groups);
    }

    /**
     * `ignoreSSLErrors`: the setting cached for the integration's id, else the setting of
     * the first configured remote matching its type and domain (default `false`), which is
     * then cached under the id alone. Later calls with the same id and another domain get
     * the cached setting.
     */
    method IgnoreSslErrors(isWeb: bool, id: string, domain: Option<string>, remotes: Option<seq<RemoteConfig>>)
      returns (setting: SslErrorsSetting)
      modifies this`ignoreSslCache
      ensures isWeb ==> setting == Off && ignoreSslCache == old(ignoreSslCache)
      ensures !isWeb && id in old(ignoreSslCache) ==>
        setting == old(ignoreSslCache)[id] && ignoreSslCache == old(ignoreSslCache)
      ensures !isWeb && id !in old(ignoreSslCache) ==>
        setting == ConfiguredSslErrors(remotes, id, domain) &&
        ignoreSslCache == old(ignoreSslCache)[id := setting]
    {
      if isWeb {
        return Off;
      }
      if id in ignoreSslCache {
        return ignoreSslCache[id];
      }
      setting := ConfiguredSslErrors(remotes, id, domain);
      ignoreSslCache := ignoreSslCache[id := setting];
    }

    /** The configuration-change handler's reset of the "ignore SSL errors" cache. */
    method ClearIgnoreSslErrors()
      modifies this`ignoreSslCache
      ensures ignoreSslCache == map[]
    {
      ignoreSslCache := map[];
    }
  }
}
