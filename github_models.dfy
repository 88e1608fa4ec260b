/**
 * The GitHub adapters: conversions between GitHub's wire enums and the extension's
 * own enums, and the mappers that turn GitHub pull-request and issue records into the
 * extension's `PullRequest` and `Issue` values.
 *
 * Timestamps stay opaque strings (the adapters only wrap them in `Date`), and every
 * field a mapper never reads is left out of the input records.
 */
module GitHubModels {
  import opened Wrappers
  import opened NumberFormat

  // ---------------------------------------------------------------- pull-request state

  /** GitHub's `PullRequestState`. */
  type GitHubPullRequestState = s: string | s == "OPEN" || s == "CLOSED" || s == "MERGED"
    witness "OPEN"

  /** The extension's pull-request state. */
  type PullRequestState = s: string | s == "opened" || s == "closed" || s == "merged"
    witness "opened"

  /** `fromGitHubPullRequestState`: converting back gives the GitHub state again. */
  function FromGitHubPullRequestState(state: GitHubPullRequestState): (r: PullRequestState)
    ensures ToGitHubPullRequestState(r) == state
  {
    if state == "MERGED" then "merged" else if state == "CLOSED" then "closed" else "opened"
  }

  function ToGitHubPullRequestState(state: PullRequestState): (r: GitHubPullRequestState) {
    if state == "merged" then "MERGED" else if state == "closed" then "CLOSED" else "OPEN"
  }

  /** `toGitHubPullRequestState` is undone by `fromGitHubPullRequestState`. */
  lemma PullRequestStateRoundTrip(state: PullRequestState)
    ensures FromGitHubPullRequestState(ToGitHubPullRequestState(state)) == state
  {
  }

  // ---------------------------------------------------------------- review decision

  type GitHubPullRequestReviewDecision = s: string
    | s == "CHANGES_REQUESTED" || s == "APPROVED" || s == "REVIEW_REQUIRED"
    witness "APPROVED"

  datatype PullRequestReviewDecision = Approved | ChangesRequested | ReviewRequired

  function FromGitHubPullRequestReviewDecision(decision: GitHubPullRequestReviewDecision): (r: PullRequestReviewDecision)
    ensures ToGitHubPullRequestReviewDecision(r) == decision
  {
    if decision == "APPROVED" then Approved
    else if decision == "CHANGES_REQUESTED" then ChangesRequested
    else ReviewRequired
  }

  function ToGitHubPullRequestReviewDecision(decision: PullRequestReviewDecision): (r: GitHubPullRequestReviewDecision) {
    match decision
    case Approved => "APPROVED"
    case ChangesRequested => "CHANGES_REQUESTED"
    case ReviewRequired => "REVIEW_REQUIRED"
  }

  lemma ReviewDecisionRoundTrip(decision: PullRequestReviewDecision)
    ensures FromGitHubPullRequestReviewDecision(ToGitHubPullRequestReviewDecision(decision)) == decision
  {
  }

  // ---------------------------------------------------------------- mergeable state

  type GitHubPullRequestMergeableState = s: string
    | s == "MERGEABLE" || s == "CONFLICTING" || s == "UNKNOWN"
    witness "UNKNOWN"

  datatype PullRequestMergeableState = Mergeable | Conflicting | Unknown

  function FromGitHubPullRequestMergeableState(state: GitHubPullRequestMergeableState): (r: PullRequestMergeableState)
    ensures ToGitHubPullRequestMergeableState(r) == state
  {
    if state == "MERGEABLE" then Mergeable
    else if state == "CONFLICTING" then Conflicting
    else Unknown
  }

  function ToGitHubPullRequestMergeableState(state: PullRequestMergeableState): (r: GitHubPullRequestMergeableState) {
    match state
    case Mergeable => "MERGEABLE"
    case Conflicting => "CONFLICTING"
    case Unknown => "UNKNOWN"
  }

  lemma MergeableStateRoundTrip(state: PullRequestMergeableState)
    ensures FromGitHubPullRequestMergeableState(ToGitHubPullRequestMergeableState(state)) == state
  {
  }

  // ---------------------------------------------------------------- commit-file status

  /** The index statuses the commit-file adapter produces. */
  datatype GitFileIndexStatus = Added | Modified | Deleted | Renamed | Copied

  /** The GitHub file statuses that name each index status. */
  function StatusNames(status: GitFileIndexStatus): set<string> {
    match status
    case Added => {"added"}
    case Modified => {"changed", "modified"}
    case Deleted => {"removed"}
    case Renamed => {"renamed"}
    case Copied => {"copied"}
  }

  /**
   * `fromCommitFileStatus`: a GitHub file status maps to the index status that it
   * names, and every status that names none (such as "unchanged") to `None`.
   */
  function FromCommitFileStatus(status: string): (r: Option<GitFileIndexStatus>)
    ensures r.Some? ==> status in StatusNames(r.value)
    ensures r.None? ==> forall s: GitFileIndexStatus :: status !in StatusNames(s)
  {
    match status
    case "added" => Some(Added)
    case "changed" => Some(Modified)
    case "modified" => Some(Modified)
    case "removed" => Some(Deleted)
    case "renamed" => Some(Renamed)
    case "copied" => Some(Copied)
    case _ => None
  }

  /** Every index status is produced, by each of the GitHub statuses that name it. */
  lemma CommitFileStatusCovers(status: GitFileIndexStatus, name: string)
    requires name in StatusNames(status)
    ensures FromCommitFileStatus(name) == Some(status)
  {
  }

  /** "changed" and "modified" both become `Modified`: the mapping is not injective. */
  lemma CommitFileStatusNotInjective()
    ensures FromCommitFileStatus("changed") == FromCommitFileStatus("modified") == Some(Modified)
  {
  }

  // ---------------------------------------------------------------- GitHub records

  datatype GitHubMember = GitHubMember(login: string, avatarUrl: string, url: string)

  /** `baseRepository` / `headRepository`: the repository's name, owner login and URL. */
  datatype GitHubRepository = GitHubRepository(name: string, ownerLogin: string, url: string)

  datatype GitHubPullRequest = GitHubPullRequest(
    author: GitHubMember,
    permalink: string,
    number: int,
    id: string,
    title: string,
    state: GitHubPullRequestState,
    updatedAt: string,
    closedAt: Option<string>,
    mergedAt: Option<string>,
    baseRefName: string,
    baseRefOid: string,
    baseRepository: Option<GitHubRepository>,
    headRefName: string,
    headRefOid: string,
    headRepository: Option<GitHubRepository>,
    isCrossRepository: bool)

  datatype GitHubReviewRequest = GitHubReviewRequest(asCodeOwner: bool, requestedReviewer: GitHubMember)

  /** `GitHubDetailedPullRequest` extends `GitHubPullRequest`: `pr` holds the inherited fields. */
  datatype GitHubDetailedPullRequest = GitHubDetailedPullRequest(
    pr: GitHubPullRequest,
    reviewDecision: GitHubPullRequestReviewDecision,
    isDraft: bool,
    totalCommentsCount: int,
    mergeable: GitHubPullRequestMergeableState,
    additions: int,
    deletions: int,
    reviewRequests: seq<GitHubReviewRequest>,
    assignees: seq<GitHubMember>)

  datatype IssueLabel = IssueLabel(color: string, name: string)

  datatype GitHubIssueRepository = GitHubIssueRepository(name: string, ownerLogin: string)

  /** `labels`, `reactions` and `comments` are optional; the last two hold their `totalCount`. */
  datatype GitHubIssueDetailed = GitHubIssueDetailed(
    number: int,
    id: string,
    title: string,
    url: string,
    createdAt: string,
    closed: bool,
    closedAt: Option<string>,
    state: GitHubPullRequestState,
    updatedAt: string,
    author: GitHubMember,
    assignees: seq<GitHubMember>,
    repository: GitHubIssueRepository,
    labels: Option<seq<IssueLabel>>,
    reactions: Option<int>,
    comments: Option<int>)

  // ---------------------------------------------------------------- the extension's records

  /** The remote provider a pull request or issue came from. */
  datatype Provider = Provider(id: string, name: string, domain: string, icon: string)

  datatype Account = Account(name: string, avatarUrl: string, url: string)

  /** One side of a pull request; `repoExists` is the source's `exists` flag. */
  datatype PullRequestRef = PullRequestRef(
    repoExists: bool,
    owner: Option<string>,
    repo: Option<string>,
    sha: string,
    branch: string,
    url: Option<string>)

  datatype PullRequestRefs = PullRequestRefs(head: PullRequestRef, base: PullRequestRef, isCrossRepository: bool)

  datatype PullRequestReviewer = PullRequestReviewer(isCodeOwner: bool, reviewer: Account)

  /** A pull request; the fields after `refs` are set by the detailed mapper only. */
  datatype PullRequest = PullRequest(
    provider: Provider,
    author: Account,
    id: string,
    nodeId: string,
    title: string,
    url: string,
    state: PullRequestState,
    updatedDate: string,
    closedDate: Option<string>,
    mergedDate: Option<string>,
    mergeableState: Option<PullRequestMergeableState>,
    refs: PullRequestRefs,
    isDraft: Option<bool>,
    additions: Option<int>,
    deletions: Option<int>,
    commentsCount: Option<int>,
    reviewDecision: Option<PullRequestReviewDecision>,
    reviewRequests: Option<seq<PullRequestReviewer>>,
    assignees: Option<seq<Account>>)

  datatype IssueRepository = IssueRepository(owner: string, repo: string)

  datatype Issue = Issue(
    provider: Provider,
    id: string,
    nodeId: string,
    title: string,
    url: string,
    createdDate: string,
    closed: bool,
    state: PullRequestState,
    updatedDate: string,
    author: Account,
    repository: IssueRepository,
    assignees: seq<Account>,
    closedDate: Option<string>,
    labels: Option<seq<IssueLabel>>,
    commentsCount: Option<int>,
    reactionsCount: Option<int>)

  // ---------------------------------------------------------------- mappers

  /** `Array.prototype.map`: same length, same order, `f` applied to each element. */
  function MapSeq<A, B>(f: A -> B, s: seq<A>): (r: seq<B>)
    ensures |r| == |s|
    ensures forall i :: 0 <= i < |s| ==> r[i] == f(s[i])
  {
    if s == [] then [] else [f(s[0])] + MapSeq(f, s[1..])
  }

  function FromMember(m: GitHubMember): (a: Account)
    ensures a.name == m.login && a.avatarUrl == m.avatarUrl && a.url == m.url
  {
    Account(m.login, m.avatarUrl, m.url)
  }

  function FromReviewRequest(r: GitHubReviewRequest): (v: PullRequestReviewer)
    ensures v.isCodeOwner == r.asCodeOwner
    ensures v.reviewer.name == r.requestedReviewer.login
    ensures v.reviewer.avatarUrl == r.requestedReviewer.avatarUrl && v.reviewer.url == r.requestedReviewer.url
  {
    PullRequestReviewer(r.asCodeOwner, FromMember(r.requestedReviewer))
  }

  function FromLabel(l: IssueLabel): (r: IssueLabel)
    ensures r.color == l.color && r.name == l.name
  {
    IssueLabel(l.color, l.name)
  }

  /** Maps an optional timestamp: absent stays absent, present stays the same instant. */
  function FromTimestamp(t: Option<string>): (d: Option<string>)
    ensures d.None? <==> t.None?
    ensures d.Some? ==> d.value == t.value
  {
    if t.None? then None else Some(t.value)
  }

  /**
   * The head and base refs both pull requests mappers build. A side exists exactly
   * when GitHub reports its repository; the head's `repo` is the BASE repository's
   * name, as the source has it.
   */
  function FromGitHubRefs(pr: GitHubPullRequest): (r: PullRequestRefs)
    ensures r.head.repoExists <==> pr.headRepository.Some?
    ensures r.base.repoExists <==> pr.baseRepository.Some?
    ensures r.head.owner.Some? <==> r.head.repoExists
    ensures r.head.url.Some? <==> r.head.repoExists
    ensures r.base.owner.Some? <==> r.base.repoExists
    ensures r.base.url.Some? <==> r.base.repoExists
    ensures r.head.repo == r.base.repo
    ensures r.base.repo.Some? <==> pr.baseRepository.Some?
    ensures pr.headRepository.Some? ==> r.head.owner == Some(pr.headRepository.value.ownerLogin)
    ensures pr.headRepository.Some? ==> r.head.url == Some(pr.headRepository.value.url)
    ensures pr.baseRepository.Some? ==> r.base.repo == Some(pr.baseRepository.value.name)
    ensures pr.baseRepository.Some? ==> r.base.owner == Some(pr.baseRepository.value.ownerLogin)
    ensures pr.baseRepository.Some? ==> r.base.url == Some(pr.baseRepository.value.url)
    ensures r.head.sha == pr.headRefOid && r.head.branch == pr.headRefName
    ensures r.base.sha == pr.baseRefOid && r.base.branch == pr.baseRefName
    ensures r.isCrossRepository == pr.isCrossRepository
  {
    var head := pr.headRepository;
    var base := pr.baseRepository;
    PullRequestRefs(
      PullRequestRef(
        head.Some?,
        if head.Some? then Some(head.value.ownerLogin) else None,
        if base.Some? then Some(base.value.name) else None,
        pr.headRefOid,
        pr.headRefName,
        if head.Some? then Some(head.value.url) else None),
      PullRequestRef(
        base.Some?,
        if base.Some? then Some(base.value.ownerLogin) else None,
        if base.Some? then Some(base.value.name) else None,
        pr.baseRefOid,
        pr.baseRefName,
        if base.Some? then Some(base.value.url) else None),
      pr.isCrossRepository)
  }

  /** `fromGitHubPullRequest`. */
  function FromGitHubPullRequest(pr: GitHubPullRequest, provider: Provider): (r: PullRequest)
    ensures r.provider == provider
    ensures r.id == DecimalString(pr.number) && ParseDecimal(r.id) == Some(pr.number)
    ensures r.nodeId == pr.id && r.title == pr.title && r.url == pr.permalink
    ensures ToGitHubPullRequestState(r.state) == pr.state
    ensures r.author == FromMember(pr.author)
    ensures r.updatedDate == pr.updatedAt
    ensures r.closedDate.None? <==> pr.closedAt.None?
    ensures r.mergedDate.None? <==> pr.mergedAt.None?
    ensures r.closedDate == FromTimestamp(pr.closedAt) && r.mergedDate == FromTimestamp(pr.mergedAt)
    ensures r.refs == FromGitHubRefs(pr)
    ensures r.mergeableState.None?
    ensures r.isDraft.None? && r.reviewDecision.None? && r.reviewRequests.None? && r.assignees.None?
    ensures r.additions.None? && r.deletions.None? && r.commentsCount.None?
  {
    DecimalRoundTrip(pr.number);
    PullRequest(
      provider,
      FromMember(pr.author),
      DecimalString(pr.number),
      pr.id,
      pr.title,
      pr.permalink,
      FromGitHubPullRequestState(pr.state),
      pr.updatedAt,
      FromTimestamp(pr.closedAt),
      FromTimestamp(pr.mergedAt),
      None,
      FromGitHubRefs(pr),
      None, None, None, None, None, None, None)
  }

  /** `fromGitHubPullRequestDetailed`. */
  function FromGitHubPullRequestDetailed(d: GitHubDetailedPullRequest, provider: Provider): (r: PullRequest)
    ensures r.id == DecimalString(d.pr.number) && ParseDecimal(r.id) == Some(d.pr.number)
    ensures r.refs == FromGitHubRefs(d.pr)
    ensures r.mergeableState.Some? && ToGitHubPullRequestMergeableState(r.mergeableState.value) == d.mergeable
    ensures r.reviewDecision.Some? && ToGitHubPullRequestReviewDecision(r.reviewDecision.value) == d.reviewDecision
    ensures r.isDraft == Some(d.isDraft) && r.commentsCount == Some(d.totalCommentsCount)
    ensures r.additions == Some(d.additions) && r.deletions == Some(d.deletions)
    ensures r.reviewRequests.Some? && |r.reviewRequests.value| == |d.reviewRequests|
    ensures forall i :: 0 <= i < |d.reviewRequests| ==>
      r.reviewRequests.value[i].isCodeOwner == d.reviewRequests[i].asCodeOwner &&
      r.reviewRequests.value[i].reviewer.name == d.reviewRequests[i].requestedReviewer.login
    ensures forall i :: 0 <= i < |d.reviewRequests| ==>
      r.reviewRequests.value[i] == FromReviewRequest(d.reviewRequests[i])
    ensures r.assignees.Some? && |r.assignees.value| == |d.assignees|
    ensures forall i :: 0 <= i < |d.assignees| ==> r.assignees.value[i].name == d.assignees[i].login
    ensures forall i :: 0 <= i < |d.assignees| ==> r.assignees.value[i] == FromMember(d.assignees[i])
  {
    var pr := d.pr;
    DecimalRoundTrip(pr.number);
    PullRequest(
      provider,
      FromMember(pr.author),
      DecimalString(pr.number),
      pr.id,
      pr.title,
      pr.permalink,
      FromGitHubPullRequestState(pr.state),
      pr.updatedAt,
      FromTimestamp(pr.closedAt),
      FromTimestamp(pr.mergedAt),
      Some(FromGitHubPullRequestMergeableState(d.mergeable)),
      FromGitHubRefs(pr),
      Some(d.isDraft),
      Some(d.additions),
      Some(d.deletions),
      Some(d.totalCommentsCount),
      Some(FromGitHubPullRequestReviewDecision(d.reviewDecision)),
      Some(MapSeq(FromReviewRequest, d.reviewRequests)),
      Some(MapSeq(FromMember, d.assignees)))
  }

  /**
   * The detailed mapper agrees with the plain one on every field the plain one sets;
   * it only adds the mergeable state and the detail fields.
   */
  lemma DetailedExtendsPlain(d: GitHubDetailedPullRequest, provider: Provider)
    ensures FromGitHubPullRequestDetailed(d, provider).(
      mergeableState := None, isDraft := None, additions := None, deletions := None,
      commentsCount := None, reviewDecision := None, reviewRequests := None, assignees := None)
      == FromGitHubPullRequest(d.pr, provider)
  {
  }

  /** `fromGitHubIssueDetailed`. */
  function FromGitHubIssueDetailed(value: GitHubIssueDetailed, provider: Provider): (r: Issue)
    ensures r.provider == provider
    ensures r.id == DecimalString(value.number) && ParseDecimal(r.id) == Some(value.number)
    ensures r.nodeId == value.id && r.title == value.title && r.url == value.url
    ensures r.createdDate == value.createdAt && r.updatedDate == value.updatedAt
    ensures r.author == FromMember(value.author)
    ensures ToGitHubPullRequestState(r.state) == value.state && r.closed == value.closed
    ensures r.closedDate.None? <==> value.closedAt.None?
    ensures r.closedDate == FromTimestamp(value.closedAt)
    ensures r.repository.owner == value.repository.ownerLogin && r.repository.repo == value.repository.name
    ensures |r.assignees| == |value.assignees|
    ensures forall i :: 0 <= i < |value.assignees| ==> r.assignees[i] == FromMember(value.assignees[i])
    ensures r.labels.None? <==> value.labels.None?
    ensures value.labels.Some? ==> |r.labels.value| == |value.labels.value|
    ensures value.labels.Some? ==> forall i :: 0 <= i < |value.labels.value| ==>
      r.labels.value[i].color == value.labels.value[i].color &&
      r.labels.value[i].name == value.labels.value[i].name
    ensures value.labels.Some? ==> forall i :: 0 <= i < |value.labels.value| ==>
      r.labels.value[i] == FromLabel(value.labels.value[i])
    ensures r.commentsCount == value.comments && r.reactionsCount == value.reactions
  {
    DecimalRoundTrip(value.number);
    Issue(
      Provider(provider.id, provider.name, provider.domain, provider.icon),
      DecimalString(value.number),
      value.id,
      value.title,
      value.url,
      value.createdAt,
      value.closed,
      FromGitHubPullRequestState(value.state),
      value.updatedAt,
      FromMember(value.author),
      IssueRepository(value.repository.ownerLogin, value.repository.name),
      MapSeq(FromMember, value.assignees),
      FromTimestamp(value.closedAt),
      if value.labels.None? then None else Some(MapSeq(FromLabel, value.labels.value)),
      value.comments,
      value.reactions)
  }
}
