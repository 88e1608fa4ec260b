# GitLens integrations core, modelled in Dafny

This project models two pieces of GitLens's integrations layer and proves their contracts.

**GitHub adapters** (`GitHubModels`, in `github_models.dfy`) are pure conversions between GitHub's wire enums and GitLens's own enums:

- the pull-request state (`OPEN`/`CLOSED`/`MERGED` and `opened`/`closed`/`merged`);
- the review decision;
- the mergeable state;
- the commit-file status, where "changed" and "modified" both become `Modified`.

They also include the mappers that turn GitHub pull requests (plain and detailed) and detailed issues into GitLens `PullRequest` and `Issue` values. The enum pairs are proved to be mutual inverses. The mappers' contracts say:

- a textual id is the decimal text of the GitHub number, without leading zeros, and parses back to it;
- fields the code copies keep their values;
- a missing `closedAt`/`mergedAt`/`labels` stays missing;
- the `exists` flags (`repoExists` here) follow repository presence;
- lists keep their length and order;
- the head ref's `repo` is the base repository's name, as the code has it.

`NumberFormat` (`number_format.dfy`) models `String(n)` for the ids, with an independent parser that undoes it.

**The integration service** (`Integrations`, in `integrations.dfy`) is modelled as the class `IntegrationService`. It has five fields, one of them ghost, in three groups:

- the connected-key cache, plus the ghost log of the connection events it fires;
- the registry of provider integrations: a map, plus its keys in insertion order, the way a JavaScript `Map` iterates;
- the per-id "ignore SSL errors" cache.

`Get` memoises. The key is `id:domain` for the self-hosted ids and the bare id otherwise. On a miss it builds the integration, or throws without registering anything when the id is unsupported or a self-hosted id has no domain. The class invariant `Valid` says that every registered integration sits under the key of the request that built it. `ProviderKeyInjective` shows that keys of different requests never collide.

The code looks up the registry before it checks the domain, and a template literal prints a missing domain as `undefined`. So a self-hosted request with no domain returns an integration already registered for the domain "undefined" instead of throwing. The model keeps this behaviour (`ProviderKeyMissingDomain`), as it keeps every other branch of the code.

The rest of the service:

- `RouteRemote` and `GetByRemote` model `getByRemote`.
- `GroupByIntegration` models the grouping loop that `getMyIssuesForRemotes` and `getMyPullRequestsForRemotes` share (`src/plus/integrations/integrationService.ts` lines 201-215 and 271-285). `PlanForRemotes` models the rest of those two methods.
- `SelectProviders` models the provider filter of `getMyIssues` and `getMyPullRequests`.
- `FlattenFulfilled` models the best-effort merge of the provider searches' settled outcomes.

Provider ids come from `providers/models.ts`, which is not part of this model. They are taken as `github`, `gitlab`, `bitbucket`, `azureDevOps`, `github-enterprise` and `gitlab-self-hosted`. The proofs rely only on these being distinct and on no hosted id being longer than the self-hosted key prefixes.

## Model

| member | source | states |
|---|---|---|
| `GitHubModels.FromGitHubPullRequestState` | src/plus/integrations/providers/github/models.ts:206-212 | converting a GitHub state to GitLens's and back gives the GitHub state again |
| `GitHubModels.PullRequestStateRoundTrip` | src/plus/integrations/providers/github/models.ts:206-212 | converting a GitLens state to GitHub's (`ToGitHubPullRequestState`, lines 210-212) and back gives it again, so the two conversions are inverse bijections |
| `GitHubModels.FromGitHubPullRequestReviewDecision` | src/plus/integrations/providers/github/models.ts:214-238 | a GitHub review decision converted to GitLens's enum and back is unchanged |
| `GitHubModels.ReviewDecisionRoundTrip` | src/plus/integrations/providers/github/models.ts:214-238 | a GitLens review decision converted to GitHub's (`ToGitHubPullRequestReviewDecision`, lines 227-238) and back is unchanged |
| `GitHubModels.FromGitHubPullRequestMergeableState` | src/plus/integrations/providers/github/models.ts:240-264 | a GitHub mergeable state converted to GitLens's enum and back is unchanged |
| `GitHubModels.MergeableStateRoundTrip` | src/plus/integrations/providers/github/models.ts:240-264 | a GitLens mergeable state converted to GitHub's (`ToGitHubPullRequestMergeableState`, lines 253-264) and back is unchanged |
| `GitHubModels.FromCommitFileStatus` | src/plus/integrations/providers/github/models.ts:385-402 | a result is an index status that the GitHub status names; no result exactly when the status names no index status (e.g. "unchanged") |
| `GitHubModels.CommitFileStatusCovers` | src/plus/integrations/providers/github/models.ts:388-399 | each of the names of an index status maps to it, so every index status is produced |
| `GitHubModels.CommitFileStatusNotInjective` | src/plus/integrations/providers/github/models.ts:391-393 | "changed" and "modified" both map to Modified |
| `NumberFormat.DecimalString` | src/plus/integrations/providers/github/models.ts:175 | `String(n)` starts with a minus sign exactly for negative numbers, followed by at least one digit and only digits, with no leading zero except for "0" itself |
| `NumberFormat.DecimalRoundTrip` | src/plus/integrations/providers/github/models.ts:175 | parsing the textual id of a number gives the number back |
| `NumberFormat.DecimalStringInjective` | src/plus/integrations/providers/github/models.ts:175 | two numbers with the same textual id are equal |
| `GitHubModels.FromTimestamp` | src/plus/integrations/providers/github/models.ts:181-182 | a closed/merged date is absent exactly when GitHub's timestamp is null, and otherwise is that timestamp |
| `GitHubModels.FromMember` | src/plus/integrations/providers/github/models.ts:315-319 | an account takes its name from the login and keeps avatar and URL |
| `GitHubModels.FromGitHubRefs` | src/plus/integrations/providers/github/models.ts:184-201 | head/base exist exactly when GitHub reports their repository; owner and URL are present exactly when the side exists, and are then that repository's owner login and URL; head `repo` equals base `repo` (taken from `baseRepository`); SHAs, branches and the cross-repository flag are copied |
| `GitHubModels.FromGitHubPullRequest` | src/plus/integrations/providers/github/models.ts:167-204 | id is `String(number)` and parses back to it; node id, title and permalink copied; state converts back to GitHub's; author as `FromMember`; updated date copied; closed/merged dates absent iff null and otherwise the timestamps; refs as `FromGitHubRefs`; no mergeable state, additions, deletions, comment count or other detailed fields |
| `GitHubModels.MapSeq` | src/plus/integrations/providers/github/models.ts:348-352 | `map` keeps length and order and converts each element |
| `GitHubModels.FromReviewRequest` | src/plus/integrations/providers/github/models.ts:307-314 | `isCodeOwner` is `asCodeOwner`; the reviewer's name is the requested reviewer's login, and avatar and URL are copied |
| `GitHubModels.FromGitHubPullRequestDetailed` | src/plus/integrations/providers/github/models.ts:266-321 | id is `String(number)` and parses back to it; mergeable state and review decision present and converting back to GitHub's; review requests and assignees keep length and order, each element mapped by `FromReviewRequest` / `FromMember`; draft, additions, deletions and comment count copied |
| `GitHubModels.DetailedExtendsPlain` | src/plus/integrations/providers/github/models.ts:266-301 | with its detail fields cleared, the detailed mapping equals the plain mapping of the same pull request |
| `GitHubModels.FromLabel` | src/plus/integrations/providers/github/models.ts:356-359 | a label keeps its color and name |
| `GitHubModels.FromGitHubIssueDetailed` | src/plus/integrations/providers/github/models.ts:323-363 | id is `String(number)` and parses back to it; node id, title, URL, created and updated dates copied; author as `FromMember`; state converts back; closed date absent iff null and otherwise the timestamp; labels absent iff `labels` is, otherwise same length and order with the same color and name; assignees mapped in order; comment and reaction counts passed through |
| `Integrations.ProviderKeyInjective` | src/plus/integrations/integrationService.ts:95 | the registry key (`ProviderKey`): two requests `get` can satisfy share a key only when they name the same id and, if self-hosted, the same domain |
| `Integrations.ProviderKeyMissingDomain` | src/plus/integrations/integrationService.ts:95-103 | under `ProviderKey`, a self-hosted id without a domain has the key `id:undefined`, the same as with the domain "undefined" |
| `Integrations.IntegrationService.constructor` | src/plus/integrations/integrationService.ts:39-45 | a new service has no connected keys, no events, an empty registry and an empty SSL cache |
| `Integrations.IntegrationService.Connected` | src/plus/integrations/integrationService.ts:69-77 | an already connected key changes nothing and fires nothing; otherwise the key is added and exactly one "connected" event for it is fired |
| `Integrations.IntegrationService.Disconnected` | src/plus/integrations/integrationService.ts:79-86 | the key is removed, other keys stay, and a "disconnected" event is fired even if the key was not connected |
| `Integrations.IntegrationService.IsConnected` | src/plus/integrations/integrationService.ts:88-90 | with no key: true iff some key is connected; with a key: true iff that key is connected |
| `Integrations.IntegrationService.Get` | src/plus/integrations/integrationService.ts:92-126 | a registered key returns its integration and changes nothing; a constructible miss builds a fresh integration with that id and registers exactly it under the key, last in order; an unsupported id or a self-hosted id without domain throws and changes nothing; the registry invariant is kept |
| `Integrations.RouteRemote` | src/plus/integrations/integrationService.ts:128-150 | the chosen `get` call can succeed and serves the remote's provider id; it is the self-hosted integration under the remote's domain iff a github/gitlab remote is custom and has a domain; otherwise the hosted one |
| `Integrations.SupportsMatchesRouting` | src/plus/integrations/integrationService.ts:290-301 | `supports(id)` (`Supports`) holds exactly when routing finds an integration (so not for bitbucket-server or unknown ids) |
| `Integrations.IntegrationService.GetByRemote` | src/plus/integrations/integrationService.ts:128-150 | none exactly for a remote without a provider or with an unsupported id, and then the registry is unchanged; otherwise the integration registered under the routed key, with the routed id, and the registry changes at most by adding that key last |
| `Integrations.GroupByIntegration` | src/plus/integrations/integrationService.ts:201-215 | keys are the integrations of the remotes with a provider and an integration, in first-seen order; each key holds those remotes' descriptors in input order |
| `Integrations.FirstSeenMembers` | src/plus/integrations/integrationService.ts:203-213 | an integration is a key iff at least one remote with a provider maps to it |
| `Integrations.FirstSeenDistinct` | src/plus/integrations/integrationService.ts:209-213 | no integration is a key twice |
| `Integrations.GroupingKeepsEveryRepo` | src/plus/integrations/integrationService.ts:203-215 | the lists under all keys hold as many descriptors as there are grouped remotes: each is appended exactly once |
| `Integrations.IntegrationService.PlanForRemotes` | src/plus/integrations/integrationService.ts:182-218 | no remotes: no search; one remote: a search iff it has a supported provider, and then a single search, of its own descriptor, with the integration `getByRemote` registers under the routed key; several: one search per group as `GroupByIntegration`; a plan with no search leaves the registry unchanged |
| `Integrations.FlattenFulfilledAppend` | src/plus/integrations/integrationService.ts:178-179 | merging outcomes (`FlattenFulfilled`) is order-preserving concatenation |
| `Integrations.FlattenFulfilledMembers` | src/plus/integrations/integrationService.ts:178-179 | an item is in the merged result of `FlattenFulfilled` iff some fulfilled search returned it; rejected searches contribute nothing |
| `Integrations.IntegrationService.SelectProviders` | src/plus/integrations/integrationService.ts:152-165 | the registered integrations whose id is requested (all when no ids are given), in registry order, or none when that list is empty |
| `Integrations.SelectionMembers` | src/plus/integrations/integrationService.ts:157-161 | an integration is selected iff it is registered and its id is requested |
| `Integrations.FindRemoteConfig` | src/plus/integrations/integrationService.ts:311-313 | the index found is the first configured remote whose lower-cased type is the id and whose domain equals the integration's; none iff no remote matches |
| `Integrations.ConfiguredSslErrors` | src/plus/integrations/integrationService.ts:311-314 | no configured remotes, or none matching: false; otherwise the `ignoreSSLErrors` of the first matching remote, false when unset |
| `Integrations.IntegrationService.IgnoreSslErrors` | src/plus/integrations/integrationService.ts:303-319 | on the web: false, cache untouched; a cached id returns its cached setting whatever the domain; otherwise the matching remote's setting (default false) is returned and cached under the id alone |
| `Integrations.IntegrationService.ClearIgnoreSslErrors` | src/plus/integrations/integrationService.ts:48-52 | the configuration-change handler empties the SSL cache |

## Left out

- Event delivery: `EventEmitter` and the 250 ms `setTimeout` are timing concerns. A fired event is appended to the ghost log at once, in call order.
- Telemetry `sendEvent` calls are side effects with no effect on state.
- `onAuthenticationSessionsChanged` (provider refresh) and `dispose` are host callbacks. Of the configuration subscription, only its effect of clearing the SSL cache is modelled.
- The provider searches (`searchMyIssues`, `searchMyPullRequests`) are remote HTTP calls and `Promise.allSettled` is concurrency. The settled outcomes are an input sequence to `FlattenFulfilled`, and `PlanForRemotes` returns what would be searched.
- Provider integration classes, `ProvidersApi` and `Container` are not part of this model. An integration is an object with its id and the domain it was built with.
- `GitRemote.getIntegration` is not part of this model. Its result is an input field of `GitRemote`.
- PlanForRemotes: for several remotes the registry is unchanged only in this model. There the loop calls `remote.getIntegration()` (`src/plus/integrations/integrationService.ts` line 206), which may itself register integrations; that call is not part of this model.
- `remote?.provider`: remotes are never null in this model.
- The `PullRequest` and `Issue` classes are not part of this model. They are datatypes holding the constructor arguments.
- The adapters never read some fields of the GitHub records (`repository` of a pull request, `isReadByViewer`, `checksUrl`, `nodeId`, `type`, `date`); those fields are left out.
- `new Date(...)` is library date parsing. Timestamps stay opaque strings.
- The `isWeb` environment flag is a parameter of `IgnoreSslErrors`.
- ToLowerCase: lower-cases ASCII letters only, not the full Unicode mapping of `toLowerCase`, because configured remote types are ASCII words.
- DecimalString: numbers are unbounded integers. JavaScript numbers are doubles, printed in exponent notation from 10^21, and fractions and large values are not modelled, because pull-request and issue numbers are small positive integers.
- `GitFileIndexStatus` is defined in `git/models/file`, which is not part of this model. The datatype holds the five statuses the adapter produces.
- The TypeScript overloads that accept one remote or an array become one sequence argument. A single remote is a one-element sequence.
- `src/webviews/apps/plus/shared/components/feature-gate-plus-state.ts` is not part of this model: it is UI markup.
- `src/commands/git/mark-as-not-juicy.ts` is not part of this model: it is a quick-pick command with an empty `steps` stub.
