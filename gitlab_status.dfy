/**
 * The `out` operation of the GitLab commit-status resource for Concourse.
 *
 * `out` decodes a request (a `source` and a `params` object) over a set of defaults,
 * checks the build status and the required fields, opens the git repository named by
 * the request under the directory given as the first program argument, reads its HEAD
 * commit, sets a commit status on GitLab for that commit, and writes an acknowledgement
 * naming the commit. Every step either succeeds or ends the run.
 *
 * git, the GitLab client, standard output and the best-effort ref-file read are the
 * oracles of a `World`; the environment variables are an `Env`. The steps the run
 * takes against that world are recorded, in order, as a trace of `Effect`s: every one
 * is I/O except configuring the client, which only checks the GitLab URL.
 */
module GitlabStatus {
  import opened Wrappers
  import opened SlashPaths

  // ---------------------------------------------------------------------------
  // The request and response records
  // ---------------------------------------------------------------------------

  /** The `source` object: how to reach the GitLab project. */
  datatype Source = Source(gitlabUrl: string, verifySsl: bool, apiKey: string, group: string, project: string)

  /** The `params` object: which status to set and from which repository. */
  datatype Params = Params(statusName: string, buildStatus: string, repo: string)

  datatype OutRequest = OutRequest(source: Source, params: Params)

  datatype Version = Version(ref: string)

  /** The acknowledgement written to standard output. */
  datatype OutResponse = OutResponse(version: Version)

  // ---------------------------------------------------------------------------
  // Decoding: the document's fields overlaid on the defaults
  // ---------------------------------------------------------------------------

  /** The keys of the `source` object as decoded: `None` when the key is absent (or null). */
  datatype SourceFields = SourceFields(
    gitlabUrl: Option<string>, verifySsl: Option<bool>, apiKey: Option<string>,
    group: Option<string>, project: Option<string>)

  /** The keys of the `params` object as decoded. */
  datatype ParamsFields = ParamsFields(statusName: Option<string>, buildStatus: Option<string>, repo: Option<string>)

  /** Standard input: a document of the expected shape, or something that does not decode. */
  datatype Input = Malformed(reason: string) | Document(source: SourceFields, params: ParamsFields)

  /** The request before decoding: TLS verification on, status name "default", every other field empty. */
  const DEFAULTS := OutRequest(Source("", true, "", "", ""), Params("default", "", ""))

  /** `field` is what the decoder left in a struct field that held `before`. */
  ghost predicate Overwrites<T>(field: Option<T>, before: T, after: T)
  {
    after == if field.Some? then field.value else before
  }

  /** Decoding into an existing `source`: a key present in the document replaces its field, an absent one keeps it. */
  function OverlaySource(src: Source, sf: SourceFields): (r: Source)
    ensures Overwrites(sf.gitlabUrl, src.gitlabUrl, r.gitlabUrl)
    ensures Overwrites(sf.verifySsl, src.verifySsl, r.verifySsl)
    ensures Overwrites(sf.apiKey, src.apiKey, r.apiKey)
    ensures Overwrites(sf.group, src.group, r.group)
    ensures Overwrites(sf.project, src.project, r.project)
  {
    Source(sf.gitlabUrl.GetOr(src.gitlabUrl), sf.verifySsl.GetOr(src.verifySsl), sf.apiKey.GetOr(src.apiKey),
           sf.group.GetOr(src.group), sf.project.GetOr(src.project))
  }

  /** Decoding into existing `params`, in the same way. */
  function OverlayParams(params: Params, pf: ParamsFields): (r: Params)
    ensures Overwrites(pf.statusName, params.statusName, r.statusName)
    ensures Overwrites(pf.buildStatus, params.buildStatus, r.buildStatus)
    ensures Overwrites(pf.repo, params.repo, r.repo)
  {
    Params(pf.statusName.GetOr(params.statusName), pf.buildStatus.GetOr(params.buildStatus), pf.repo.GetOr(params.repo))
  }

  /** Decoding into an existing request. */
  function Overlay(req: OutRequest, sf: SourceFields, pf: ParamsFields): OutRequest
  {
    OutRequest(OverlaySource(req.source, sf), OverlayParams(req.params, pf))
  }

  /** The request `out` works on, or the decode failure. */
  function Decoded(input: Input): Result<OutRequest, Failure>
  {
    match input
    case Malformed(reason) => Err(DecodeFailed(reason))
    case Document(sf, pf) => Ok(Overlay(DEFAULTS, sf, pf))
  }

  /** The defaults survive decoding: without `verify_ssl` TLS is verified, without `status_name` the name is "default". */
  lemma DefaultsSurvive(sf: SourceFields, pf: ParamsFields)
    ensures sf.verifySsl.None? ==> Overlay(DEFAULTS, sf, pf).source.verifySsl
    ensures pf.statusName.None? ==> Overlay(DEFAULTS, sf, pf).params.statusName == "default"
    ensures sf.verifySsl == Some(false) ==> !Overlay(DEFAULTS, sf, pf).source.verifySsl
  {
  }

  /**
   * Builds the request as `out` does: the defaults first, then each key the document
   * carries written over its field.
   */
  method ParseInput(input: Input) returns (res: Result<OutRequest, Failure>)
    ensures input.Malformed? ==> res == Err(DecodeFailed(input.reason))
    ensures input.Document? ==> res.Ok? && res.value == Overlay(DEFAULTS, input.source, input.params)
  {
    if input.Malformed? {
      return Err(DecodeFailed(input.reason));
    }
    var sf, pf := input.source, input.params;
    var source, params := DEFAULTS.source, DEFAULTS.params;
    if sf.gitlabUrl.Some? { source := source.(gitlabUrl := sf.gitlabUrl.value); }
    if sf.verifySsl.Some? { source := source.(verifySsl := sf.verifySsl.value); }
    if sf.apiKey.Some? { source := source.(apiKey := sf.apiKey.value); }
    if sf.group.Some? { source := source.(group := sf.group.value); }
    if sf.project.Some? { source := source.(project := sf.project.value); }
    assert source == OverlaySource(DEFAULTS.source, sf);
    if pf.statusName.Some? { params := params.(statusName := pf.statusName.value); }
    if pf.buildStatus.Some? { params := params.(buildStatus := pf.buildStatus.value); }
    if pf.repo.Some? { params := params.(repo := pf.repo.value); }
    var req := OutRequest(source, params);
    return Ok(req);
  }

  // ---------------------------------------------------------------------------
  // Build states and validation
  // ---------------------------------------------------------------------------

  /** GitLab's commit states that a Concourse build may report. */
  datatype BuildState = Pending | Running | Success | Canceled | Failed

  /** The accepted spellings of `build_status`. */
  const BUILD_STATUSES: seq<string> := ["pending", "running", "success", "canceled", "failed"]

  /** The string value of a state, as GitLab's `BuildStateValue` carries it. */
  function StateName(state: BuildState): (s: string)
    ensures s in BUILD_STATUSES
  {
    match state
    case Pending => "pending"
    case Running => "running"
    case Success => "success"
    case Canceled => "canceled"
    case Failed => "failed"
  }

  /** The switch on `build_status`: accepts exactly the five spellings, and names the state spelled. */
  function ParseBuildState(s: string): (r: Option<BuildState>)
    ensures r.Some? <==> s in BUILD_STATUSES
    ensures r.Some? ==> StateName(r.value) == s
  {
    if s == "pending" then Some(Pending)
    else if s == "running" then Some(Running)
    else if s == "success" then Some(Success)
    else if s == "canceled" then Some(Canceled)
    else if s == "failed" then Some(Failed)
    else None
  }

  /** Every state is read back from its name. */
  lemma StateNameRoundTrip(state: BuildState)
    ensures ParseBuildState(StateName(state)) == Some(state)
  {
  }

  /** Why a run ended early. */
  datatype Failure =
    | DecodeFailed(reason: string)
    | InvalidStatus(status: string)
    | Incomplete
    | MissingBaseDir
    | RepoOpen(path: string, reason: string)
    | Head(reason: string)
    | BaseURL(reason: string)
    | Submit(reason: string)
    | Encode(reason: string)
  {
    /** The failures that happen before the run touches the filesystem or the network. */
    predicate BeforeIO()
    {
      DecodeFailed? || InvalidStatus? || Incomplete? || MissingBaseDir?
    }
  }

  /** The completeness test as written: the six fields all non-empty. */
  predicate Complete(req: OutRequest)
  {
    req.params.buildStatus != "" && req.params.repo != "" && req.source.gitlabUrl != ""
    && req.source.apiKey != "" && req.source.group != "" && req.source.project != ""
  }

  /** The five fields besides the build status that must be non-empty. */
  predicate Configured(req: OutRequest)
  {
    req.params.repo != "" && req.source.gitlabUrl != "" && req.source.apiKey != ""
    && req.source.group != "" && req.source.project != ""
  }

  /**
   * The build-status switch, then the completeness test. The status is checked first,
   * so an empty status is an invalid status, and the test's own `BuildStatus == ""`
   * never decides: `Incomplete` is only ever due to the other five fields.
   */
  function Validate(req: OutRequest): (r: Result<BuildState, Failure>)
    ensures r.Ok? <==> req.params.buildStatus in BUILD_STATUSES && Configured(req)
    ensures req.params.buildStatus !in BUILD_STATUSES ==> r == Err(InvalidStatus(req.params.buildStatus))
    ensures req.params.buildStatus in BUILD_STATUSES && !Configured(req) ==> r == Err(Incomplete)
    ensures req.params.buildStatus == "" ==> r == Err(InvalidStatus(""))
    ensures r.Ok? ==> StateName(r.value) == req.params.buildStatus
  {
    match ParseBuildState(req.params.buildStatus)
    case None => Err(InvalidStatus(req.params.buildStatus))
    case Some(state) => if !Complete(req) then Err(Incomplete) else Ok(state)
  }

  // ---------------------------------------------------------------------------
  // Strings the run derives
  // ---------------------------------------------------------------------------

  /** The pipeline values read from the environment; an unset variable reads as "". */
  datatype Env = Env(
    atcExternalUrl: string, buildTeamName: string, buildPipelineName: string,
    buildJobName: string, buildName: string, buildId: string)

  /** Where the repository is opened: the repo directory under the base directory. */
  function RepoPath(base: string, repo: string): string
  {
    Slash(base, repo)
  }

  /** The repository path's segments are the base directory's followed by the repo name's. */
  lemma RepoPathSegments(base: string, repo: string)
    ensures Segments(RepoPath(base, repo)) == Segments(base) + Segments(repo)
    ensures Plain(repo) ==> Segments(RepoPath(base, repo)) == Segments(base) + [repo]
  {
    SegmentsOfSlash(base, repo);
    if Plain(repo) {
      SegmentsOfPlain(repo);
    }
  }

  /** The GitLab project id: the group's namespace path, then the project's name. */
  function ProjectId(group: string, project: string): string
  {
    Slash(group, project)
  }

  /**
   * The project id names the group and project: the project is its last segment when
   * it has no '/', and both are read back exactly when neither has one.
   */
  lemma ProjectIdSegments(group: string, project: string)
    ensures Segments(ProjectId(group, project)) == Segments(group) + Segments(project)
    ensures Plain(group) && Plain(project) ==> Segments(ProjectId(group, project)) == [group, project]
  {
    SegmentsOfSlash(group, project);
    if Plain(group) && Plain(project) {
      SegmentsOfPlain(group);
      SegmentsOfPlain(project);
    }
  }

  /** The link to the Concourse build that set the status. */
  function JobUrl(env: Env): string
  {
    env.atcExternalUrl + "/teams/" + env.buildTeamName + "/pipelines/" + env.buildPipelineName
    + "/jobs/" + env.buildJobName + "/builds/" + env.buildName
  }

  /** The job URL is the external URL followed by the team, pipeline, job and build, each after its keyword. */
  lemma JobUrlSegments(env: Env)
    ensures Segments(JobUrl(env)) == Segments(env.atcExternalUrl)
      + ["teams"] + Segments(env.buildTeamName) + ["pipelines"] + Segments(env.buildPipelineName)
      + ["jobs"] + Segments(env.buildJobName) + ["builds"] + Segments(env.buildName)
  {
    var ext, team, pipeline, job, build := env.atcExternalUrl, env.buildTeamName,
      env.buildPipelineName, env.buildJobName, env.buildName;
    var teams := Slash(Slash(ext, "teams"), team);
    var pipelines := Slash(Slash(teams, "pipelines"), pipeline);
    var jobs := Slash(Slash(pipelines, "jobs"), job);
    JobUrlAsSlashes(env);
    KeywordStep(ext, "teams", team);
    KeywordStep(teams, "pipelines", pipeline);
    KeywordStep(pipelines, "jobs", job);
    KeywordStep(jobs, "builds", build);
  }

  /** When the team, pipeline, job and build names have no '/', they are the job URL's last segments. */
  lemma JobUrlPlainSegments(env: Env)
    requires Plain(env.buildTeamName) && Plain(env.buildPipelineName)
    requires Plain(env.buildJobName) && Plain(env.buildName)
    ensures Segments(JobUrl(env)) == Segments(env.atcExternalUrl)
      + ["teams", env.buildTeamName, "pipelines", env.buildPipelineName,
         "jobs", env.buildJobName, "builds", env.buildName]
  {
    var ext, team, pipeline, job, build := env.atcExternalUrl, env.buildTeamName,
      env.buildPipelineName, env.buildJobName, env.buildName;
    JobUrlSegments(env);
    SegmentsOfPlain(team);
    SegmentsOfPlain(pipeline);
    SegmentsOfPlain(job);
    SegmentsOfPlain(build);
    KeywordListsFlatten(Segments(ext), team, pipeline, job, build);
  }

  /** The job URL's keyword and name segments, one-element lists appended in turn, as one list. */
  lemma KeywordListsFlatten(head: seq<string>, team: string, pipeline: string, job: string, build: string)
    ensures head + ["teams"] + [team] + ["pipelines"] + [pipeline] + ["jobs"] + [job] + ["builds"] + [build]
         == head + ["teams", team, "pipelines", pipeline, "jobs", job, "builds", build]
  {
  }

  /** The job URL's template, written as four `/keyword/name` steps after the external URL. */
  lemma JobUrlAsSlashes(env: Env)
    ensures JobUrl(env) == Slash(Slash(Slash(Slash(Slash(Slash(Slash(Slash(
      env.atcExternalUrl, "teams"), env.buildTeamName), "pipelines"), env.buildPipelineName),
      "jobs"), env.buildJobName), "builds"), env.buildName)
  {
    var teams := env.atcExternalUrl + "/teams/" + env.buildTeamName;
    var pipelines := teams + "/pipelines/" + env.buildPipelineName;
    var jobs := pipelines + "/jobs/" + env.buildJobName;
    SeparatorIsTwoSlashes(env.atcExternalUrl, "/teams/", "teams", env.buildTeamName);
    SeparatorIsTwoSlashes(teams, "/pipelines/", "pipelines", env.buildPipelineName);
    SeparatorIsTwoSlashes(pipelines, "/jobs/", "jobs", env.buildJobName);
    SeparatorIsTwoSlashes(jobs, "/builds/", "builds", env.buildName);
  }

  /** Appending "/keyword/" and a name is two `%s/%s` joins. */
  lemma SeparatorIsTwoSlashes(prefix: string, separator: string, keyword: string, name: string)
    requires separator == "/" + keyword + "/"
    ensures prefix + separator + name == Slash(Slash(prefix, keyword), name)
  {
  }

  /** One `/keyword/name` step adds the keyword and then the name's segments. */
  lemma KeywordStep(prefix: string, keyword: string, name: string)
    requires Plain(keyword)
    ensures Segments(Slash(Slash(prefix, keyword), name)) == Segments(prefix) + [keyword] + Segments(name)
  {
    SegmentsOfSlash(Slash(prefix, keyword), name);
    SegmentsOfSlash(prefix, keyword);
    SegmentsOfPlain(keyword);
  }

  const DESCRIPTION_PREFIX := "Concourse build "

  /** The status description: the fixed prefix and the build's id. */
  function Description(buildId: string): (d: string)
    ensures DESCRIPTION_PREFIX <= d && d[|DESCRIPTION_PREFIX|..] == buildId
  {
    DESCRIPTION_PREFIX + buildId
  }

  /** Different builds get different descriptions. */
  lemma DescriptionNamesBuild(id1: string, id2: string)
    requires Description(id1) == Description(id2)
    ensures id1 == id2
  {
    assert Description(id1)[|DESCRIPTION_PREFIX|..] == id1;
  }

  /** The placeholder Go's `fmt.Sprintf` prints for a `%s` verb that has no operand. */
  const MISSING_OPERAND := "%!s(MISSING)"

  /**
   * The ref-file path as the code computes it: the format has a `%s` verb and no
   * operand, so the path is the same malformed relative path for every repository.
   */
  function RefPathAsWritten(repoPath: string): string
  {
    MISSING_OPERAND + "/.git/ref"
  }

  /** As written, the ref file read never lies inside the repository being reported on. */
  lemma RefPathAsWrittenMissesRepository(repoPath: string)
    requires repoPath != [] && repoPath[0] == '/'
    ensures !(repoPath <= RefPathAsWritten(repoPath))
    ensures RefPathAsWritten(repoPath) == RefPathAsWritten("/data/myrepo")
  {
    assert RefPathAsWritten(repoPath)[0] == '%';
  }

  /** The ref file the read evidently intends: `.git/ref` inside the repository. */
  function RefPath(repoPath: string): string
  {
    repoPath + "/.git/ref"
  }

  /** The intended ref file lies inside the repository: its segments extend the repository path's. */
  lemma RefPathInRepository(repoPath: string)
    ensures repoPath <= RefPath(repoPath)
    ensures Segments(RefPath(repoPath)) == Segments(repoPath) + [".git", "ref"]
  {
    assert "/.git/ref" == "/.git/" + "ref";
    assert RefPath(repoPath) == repoPath + "/.git/" + "ref";
    SeparatorIsTwoSlashes(repoPath, "/.git/", ".git", "ref");
    KeywordStep(repoPath, ".git", "ref");
    SegmentsOfPlain("ref");
  }

  // ---------------------------------------------------------------------------
  // The outside world
  // ---------------------------------------------------------------------------

  /** Whether an oracle call succeeded, and the error it returned if not. */
  datatype Completion = Done | Error(message: string)

  /** An opened git repository: the hash HEAD resolves to, or why it does not resolve. */
  datatype Repository = Repository(head: Result<string, string>)

  /** The GitLab client as configured: token, base URL, and whether certificates go unchecked. */
  datatype Client = Client(apiKey: string, baseUrl: string, insecure: bool)

  /** The options of the commit-status call. */
  datatype StatusOptions = StatusOptions(
    state: BuildState, ref: Option<string>, name: string, targetUrl: string, description: string)

  /** One commit-status call: the client, the project id, the commit and the options. */
  datatype Submission = Submission(client: Client, projectId: string, sha: string, options: StatusOptions)

  /**
   * The calls `out` makes outside itself. `openRepo` stands for `git.PlainOpen`,
   * `readFile` for `ioutil.ReadFile`, `setBaseUrl` for the client's `SetBaseURL`,
   * `submit` for `SetCommitStatus`, and `writeOutput` for encoding to standard output.
   */
  datatype World = World(
    openRepo: string -> Result<Repository, string>,
    readFile: string -> Result<string, string>,
    setBaseUrl: string -> Completion,
    submit: Submission -> Completion,
    writeOutput: OutResponse -> Completion)

  /** One step of the run against the outside world, in the order the run takes them. */
  datatype Effect =
    | OpenRepository(path: string)
    | ResolveHead
    | ConfigureClient(client: Client)
    | ReadRefFile(path: string)
    | SubmitStatus(submission: Submission)
    | WriteAck(ack: OutResponse)

  /** How a run ends: the status that was set and the acknowledgement written, or the failure. */
  datatype Outcome = Succeeded(submission: Submission, ack: OutResponse) | Aborted(failure: Failure)

  /** A run: how it ended and the steps it took. */
  datatype Execution = Execution(outcome: Outcome, trace: seq<Effect>)

  /** The client for a source: certificate checks are skipped exactly when `verify_ssl` is false. */
  function NewClient(source: Source): (c: Client)
    ensures c.insecure <==> !source.verifySsl
    ensures c.apiKey == source.apiKey && c.baseUrl == source.gitlabUrl
  {
    Client(source.apiKey, source.gitlabUrl, !source.verifySsl)
  }

  /** The best-effort read: the file's contents when it could be read, nothing otherwise. */
  function RefOf(contents: Result<string, string>): (ref: Option<string>)
    ensures ref.Some? <==> contents.Ok?
    ensures ref.Some? ==> ref.value == contents.value
  {
    if contents.Ok? then Some(contents.value) else None
  }

  /** What the commit-status call for a request, its state and a commit must carry. */
  ghost predicate Describes(s: Submission, req: OutRequest, state: BuildState, sha: string, ref: Option<string>, env: Env)
  {
    && s.client == NewClient(req.source)
    && s.projectId == ProjectId(req.source.group, req.source.project)
    && s.sha == sha
    && s.options.state == state
    && s.options.ref == ref
    && s.options.name == req.params.statusName
    && s.options.targetUrl == JobUrl(env)
    && s.options.description == Description(env.buildId)
  }

  /** `world` opens `path` as a repository whose HEAD resolves to `sha`. */
  ghost predicate HeadIs(world: World, path: string, sha: string)
  {
    world.openRepo(path).Ok? && world.openRepo(path).value.head == Ok(sha)
  }

  /**
   * The commit HEAD resolves to in the repository at `path`, or "" when the repository
   * does not open or HEAD does not resolve (a run stops before using it then).
   */
  function HeadOf(world: World, path: string): (sha: string)
    ensures world.openRepo(path).Ok? && world.openRepo(path).value.head.Ok? ==> HeadIs(world, path, sha)
  {
    match world.openRepo(path)
    case Err(_) => ""
    case Ok(repository) =>
      match repository.head
      case Err(_) => ""
      case Ok(sha) => sha
  }

  // ---------------------------------------------------------------------------
  // The run
  // ---------------------------------------------------------------------------

  /**
   * The steps of a validated request for the repository at `path`, in order, when none
   * fails: open the repository, resolve HEAD, then the steps from HEAD's commit on.
   */
  function Plan(req: OutRequest, state: BuildState, path: string, env: Env, world: World): (p: seq<Effect>)
    ensures |p| == 6 && p[0] == OpenRepository(path) && p[1] == ResolveHead
    ensures p[2] == ConfigureClient(NewClient(req.source)) && p[3] == ReadRefFile(RefPath(path))
    ensures p[4].SubmitStatus? && p[5] == WriteAck(OutResponse(Version(p[4].submission.sha)))
    ensures forall i :: 0 < i < |p| ==> !p[i].OpenRepository?
    ensures forall i :: 0 <= i < |p| && p[i].SubmitStatus? ==>
              i == 4 && Describes(p[i].submission, req, state, HeadOf(world, path),
                                  RefOf(world.readFile(RefPath(path))), env)
    ensures forall i :: 0 <= i < |p| && p[i].WriteAck? ==>
              i == 5 && p[4].SubmitStatus? && p[i].ack == OutResponse(Version(p[4].submission.sha))
  {
    [OpenRepository(path), ResolveHead] + CommitPlan(req, state, path, HeadOf(world, path), env, world)
  }

  /**
   * The steps from HEAD's commit `sha` on, when none fails: configure the client (no
   * I/O: `NewClient` and `SetBaseURL` only check the URL), read the ref file, submit the
   * status for `sha`, write the acknowledgement naming `sha`.
   */
  function CommitPlan(req: OutRequest, state: BuildState, path: string, sha: string, env: Env, world: World)
    : (p: seq<Effect>)
    ensures |p| == 4 && p[0] == ConfigureClient(NewClient(req.source)) && p[1] == ReadRefFile(RefPath(path))
    ensures p[2].SubmitStatus? && Describes(p[2].submission, req, state, sha, RefOf(world.readFile(RefPath(path))), env)
    ensures p[3] == WriteAck(OutResponse(Version(sha)))
  {
    var client := NewClient(req.source);
    var refPath := RefPath(path);
    var options := StatusOptions(
      state, RefOf(world.readFile(refPath)), req.params.statusName, JobUrl(env), Description(env.buildId));
    [ConfigureClient(client), ReadRefFile(refPath),
     SubmitStatus(Submission(client, ProjectId(req.source.group, req.source.project), sha, options)),
     WriteAck(OutResponse(Version(sha)))]
  }

  /**
   * The specification of `out`: for standard input `input`, program arguments `args`
   * (`args[0]` the program, `args[1]` the base directory), environment `env` and the
   * outside world `world`, how the run ends and which steps it takes in which order.
   * Decoding, validation and the base-directory argument come before any step; what
   * follows is `RunFromRepository` on the repository at `<args[1]>/<repo>`.
   */
  function Run(input: Input, args: seq<string>, env: Env, world: World): (e: Execution)
    ensures e.trace == [] <==> e.outcome.Aborted? && e.outcome.failure.BeforeIO()
    ensures Decoded(input).Err? ==> e == Execution(Aborted(Decoded(input).error), [])
    ensures Decoded(input).Ok? && Validate(Decoded(input).value).Err? ==>
              e == Execution(Aborted(Validate(Decoded(input).value).error), [])
    ensures Decoded(input).Ok? && Validate(Decoded(input).value).Ok? && |args| < 2 ==>
              e == Execution(Aborted(MissingBaseDir), [])
    ensures e.trace != [] <==> Decoded(input).Ok? && Validate(Decoded(input).value).Ok? && |args| >= 2
    ensures Decoded(input).Ok? && Validate(Decoded(input).value).Ok? && |args| >= 2 ==>
              e == RunFromRepository(Decoded(input).value, Validate(Decoded(input).value).value,
                                        RepoPath(args[1], Decoded(input).value.params.repo), env, world)
  {
    match Decoded(input)
    case Err(f) => Execution(Aborted(f), [])
    case Ok(req) =>
      match Validate(req)
      case Err(f) => Execution(Aborted(f), [])
      case Ok(state) =>
        if |args| < 2 then Execution(Aborted(MissingBaseDir), [])
        else RunFromRepository(req, state, RepoPath(args[1], req.params.repo), env, world)
  }

  /**
   * The run from the repository on, for a validated request whose repository is at
   * `path`. It performs a prefix of the plan and stops at the first step that fails;
   * how far it got tells which step that was.
   */
  function RunFromRepository(req: OutRequest, state: BuildState, path: string, env: Env, world: World): (e: Execution)
    ensures e.trace != [] && e.trace <= Plan(req, state, path, env, world)
    ensures e.outcome.Aborted? ==> !e.outcome.failure.BeforeIO()
    ensures |e.trace| == 1 <==> e.outcome.Aborted? && e.outcome.failure.RepoOpen?
    ensures |e.trace| == 1 ==> world.openRepo(path).Err? && e.outcome.failure == RepoOpen(path, world.openRepo(path).error)
    ensures |e.trace| == 2 <==> e.outcome.Aborted? && e.outcome.failure.Head?
    ensures |e.trace| == 2 ==>
              world.openRepo(path).Ok? && world.openRepo(path).value.head == Err(e.outcome.failure.reason)
    ensures |e.trace| > 1 ==> world.openRepo(path).Ok?
    ensures |e.trace| > 2 ==> HeadIs(world, path, HeadOf(world, path))
    ensures |e.trace| == 3 <==> e.outcome.Aborted? && e.outcome.failure.BaseURL?
    ensures |e.trace| == 3 ==> world.setBaseUrl(req.source.gitlabUrl) == Error(e.outcome.failure.reason)
    ensures |e.trace| > 3 ==> world.setBaseUrl(req.source.gitlabUrl) == Done
    ensures |e.trace| != 4
    ensures |e.trace| == 5 <==> e.outcome.Aborted? && e.outcome.failure.Submit?
    ensures |e.trace| == 5 ==> world.submit(e.trace[4].submission) == Error(e.outcome.failure.reason)
    ensures |e.trace| == 6 ==> world.submit(e.trace[4].submission) == Done
    ensures e.outcome.Aborted? && e.outcome.failure.Encode? ==>
              |e.trace| == 6 && world.writeOutput(e.trace[5].ack) == Error(e.outcome.failure.reason)
    ensures e.outcome.Succeeded? ==>
              && |e.trace| == 6
              && e.trace[4] == SubmitStatus(e.outcome.submission)
              && e.trace[5] == WriteAck(e.outcome.ack)
              && world.writeOutput(e.outcome.ack) == Done
  {
    match world.openRepo(path)
    case Err(why) => Execution(Aborted(RepoOpen(path, why)), [OpenRepository(path)])
    case Ok(repository) =>
      match repository.head
      case Err(why) => Execution(Aborted(Head(why)), [OpenRepository(path), ResolveHead])
      case Ok(sha) =>
        var rest := RunFromCommit(req, state, path, sha, env, world);
        Execution(rest.outcome, [OpenRepository(path), ResolveHead] + rest.trace)
  }

  /**
   * The run from HEAD's commit `sha` on. It performs a prefix of the commit plan and
   * stops at the first step that fails: 1 step for a rejected GitLab URL, 3 for a
   * rejected submission, 4 once the submission was accepted.
   */
  function RunFromCommit(req: OutRequest, state: BuildState, path: string, sha: string, env: Env, world: World)
    : (e: Execution)
    ensures e.trace != [] && e.trace <= CommitPlan(req, state, path, sha, env, world)
    ensures e.outcome.Aborted? ==> !e.outcome.failure.BeforeIO()
    ensures e.outcome.Aborted? ==> !e.outcome.failure.RepoOpen? && !e.outcome.failure.Head?
    ensures |e.trace| == 1 <==> e.outcome.Aborted? && e.outcome.failure.BaseURL?
    ensures |e.trace| == 1 ==> world.setBaseUrl(req.source.gitlabUrl) == Error(e.outcome.failure.reason)
    ensures |e.trace| > 1 ==> world.setBaseUrl(req.source.gitlabUrl) == Done
    ensures |e.trace| != 2
    ensures |e.trace| == 3 <==> e.outcome.Aborted? && e.outcome.failure.Submit?
    ensures |e.trace| == 3 ==> world.submit(e.trace[2].submission) == Error(e.outcome.failure.reason)
    ensures |e.trace| == 4 ==> world.submit(e.trace[2].submission) == Done
    ensures e.outcome.Aborted? && e.outcome.failure.Encode? ==>
              |e.trace| == 4 && world.writeOutput(e.trace[3].ack) == Error(e.outcome.failure.reason)
    ensures e.outcome.Succeeded? ==>
              && |e.trace| == 4
              && e.trace[2] == SubmitStatus(e.outcome.submission)
              && e.trace[3] == WriteAck(e.outcome.ack)
              && world.writeOutput(e.outcome.ack) == Done
  {
    var client := NewClient(req.source);
    match world.setBaseUrl(client.baseUrl)
    case Error(why) => Execution(Aborted(BaseURL(why)), [ConfigureClient(client)])
    case Done =>
      var refPath := RefPath(path);
      var options := StatusOptions(
        state, RefOf(world.readFile(refPath)), req.params.statusName, JobUrl(env), Description(env.buildId));
      var submission := Submission(client, ProjectId(req.source.group, req.source.project), sha, options);
      var submitted := [ConfigureClient(client), ReadRefFile(refPath), SubmitStatus(submission)];
      match world.submit(submission)
      case Error(why) => Execution(Aborted(Submit(why)), submitted)
      case Done =>
        var ack := OutResponse(Version(sha));
        match world.writeOutput(ack)
        case Error(why) => Execution(Aborted(Encode(why)), submitted + [WriteAck(ack)])
        case Done => Execution(Succeeded(submission, ack), submitted + [WriteAck(ack)])
  }

  /**
   * `out`, step by step: decode, validate, then open the repository and report from
   * its HEAD, stopping at the first failure.
   */
  method Out(input: Input, args: seq<string>, env: Env, world: World) returns (e: Execution)
    ensures e == Run(input, args, env, world)
  {
    var decoded := ParseInput(input);
    if decoded.Err? {
      return Execution(Aborted(decoded.error), []);
    }
    var req := decoded.value;
    var checked := Validate(req);
    if checked.Err? {
      return Execution(Aborted(checked.error), []);
    }
    if |args| < 2 {
      return Execution(Aborted(MissingBaseDir), []);
    }
    var repoPath := RepoPath(args[1], req.params.repo);
    e := ResolveCommit(req, checked.value, repoPath, env, world);
  }

  /** Opens the repository at `path` and resolves HEAD, recording both, then reports from that commit. */
  method ResolveCommit(req: OutRequest, state: BuildState, path: string, env: Env, world: World) returns (e: Execution)
    ensures e == RunFromRepository(req, state, path, env, world)
  {
    var trace: seq<Effect> := [OpenRepository(path)];
    var openResult := world.openRepo(path);
    if openResult.Err? {
      return Execution(Aborted(RepoOpen(path, openResult.error)), trace);
    }
    var head := openResult.value.head;
    trace := trace + [ResolveHead];
    if head.Err? {
      return Execution(Aborted(Head(head.error)), trace);
    }
    var rest := ReportStatus(req, state, path, head.value, env, world);
    e := Execution(rest.outcome, trace + rest.trace);
  }

  /**
   * Configures the client, reads the ref file, submits the status for `sha` and writes
   * the acknowledgement, recording each step as it is taken.
   */
  method ReportStatus(req: OutRequest, state: BuildState, path: string, sha: string, env: Env, world: World)
    returns (e: Execution)
    ensures e == RunFromCommit(req, state, path, sha, env, world)
  {
    var client := NewClient(req.source);
    var trace: seq<Effect> := [ConfigureClient(client)];
    var configured := world.setBaseUrl(client.baseUrl);
    if configured.Error? {
      return Execution(Aborted(BaseURL(configured.message)), trace);
    }

    var refPath := RefPath(path);
    var contents := world.readFile(refPath);
    trace := trace + [ReadRefFile(refPath)];
    var ref: Option<string> := None;
    if contents.Ok? {
      ref := Some(contents.value);
    }
    var options := StatusOptions(state, ref, req.params.statusName, JobUrl(env), Description(env.buildId));
    var submission := Submission(client, ProjectId(req.source.group, req.source.project), sha, options);
    trace := trace + [SubmitStatus(submission)];
    var submitted := world.submit(submission);
    if submitted.Error? {
      return Execution(Aborted(Submit(submitted.message)), trace);
    }

    var ack := OutResponse(Version(sha));
    trace := trace + [WriteAck(ack)];
    var written := world.writeOutput(ack);
    if written.Error? {
      return Execution(Aborted(Encode(written.message)), trace);
    }
    return Execution(Succeeded(submission, ack), trace);
  }

  // ---------------------------------------------------------------------------
  // Properties of runs
  // ---------------------------------------------------------------------------

  /** The repository path a decoded, validated run with a base-directory argument opens. */
  function RepositoryOf(input: Input, args: seq<string>): string
    requires Decoded(input).Ok? && |args| >= 2
  {
    RepoPath(args[1], Decoded(input).value.params.repo)
  }

  /** Every element of a prefix is the element of the sequence at the same index. */
  lemma PrefixAt<T>(t: seq<T>, p: seq<T>, i: int)
    requires t <= p && 0 <= i < |t|
    ensures t[i] == p[i]
  {
    assert t == p[..|t|];
  }

  /** The first step of a run opens `<args[1]>/<repo>`, and no later step opens anything. */
  lemma OpensRepositoryOnce(input: Input, args: seq<string>, env: Env, world: World)
    ensures var t := Run(input, args, env, world).trace;
      && (t != [] ==> Decoded(input).Ok? && |args| >= 2 && t[0] == OpenRepository(RepositoryOf(input, args)))
      && (forall i :: 0 < i < |t| ==> !t[i].OpenRepository?)
  {
    var e := Run(input, args, env, world);
    if e.trace != [] {
      var req := Decoded(input).value;
      var plan := Plan(req, Validate(req).value, RepositoryOf(input, args), env, world);
      PrefixAt(e.trace, plan, 0);
      forall i | 0 < i < |e.trace| ensures !e.trace[i].OpenRepository? {
        PrefixAt(e.trace, plan, i);
      }
    }
  }

  /** A repository or HEAD failure ends the run before any client is configured or status submitted. */
  lemma RepositoryFailureStopsEarly(input: Input, args: seq<string>, env: Env, world: World)
    ensures var e := Run(input, args, env, world);
      e.outcome.Aborted? && (e.outcome.failure.RepoOpen? || e.outcome.failure.Head?) ==>
        && |e.trace| <= 2
        && forall i :: 0 <= i < |e.trace| ==> !e.trace[i].ConfigureClient? && !e.trace[i].SubmitStatus?
  {
    var e := Run(input, args, env, world);
    if e.outcome.Aborted? && (e.outcome.failure.RepoOpen? || e.outcome.failure.Head?) {
      var req := Decoded(input).value;
      var plan := Plan(req, Validate(req).value, RepositoryOf(input, args), env, world);
      forall i | 0 <= i < |e.trace| ensures !e.trace[i].ConfigureClient? && !e.trace[i].SubmitStatus? {
        PrefixAt(e.trace, plan, i);
      }
    }
  }

  /**
   * A status is submitted at most once, as the fifth step, for the commit HEAD of
   * `<args[1]>/<repo>` resolves to, carrying the request's state, name, project, client,
   * the job URL, the description and the ref read.
   */
  lemma SubmitsHeadOfRepository(input: Input, args: seq<string>, env: Env, world: World)
    ensures var t := Run(input, args, env, world).trace;
      forall i :: 0 <= i < |t| && t[i].SubmitStatus? ==>
        && i == 4 && Decoded(input).Ok? && |args| >= 2
        && var req := Decoded(input).value;
           var path := RepositoryOf(input, args);
           && HeadIs(world, path, t[i].submission.sha)
           && StateName(t[i].submission.options.state) == req.params.buildStatus
           && Describes(t[i].submission, req, t[i].submission.options.state, t[i].submission.sha,
                        RefOf(world.readFile(RefPath(path))), env)
  {
    var e := Run(input, args, env, world);
    if e.trace != [] {
      var req := Decoded(input).value;
      var path := RepositoryOf(input, args);
      var plan := Plan(req, Validate(req).value, path, env, world);
      forall i | 0 <= i < |e.trace| && e.trace[i].SubmitStatus?
        ensures i == 4 && HeadIs(world, path, e.trace[i].submission.sha)
        ensures Describes(e.trace[i].submission, req, Validate(req).value, e.trace[i].submission.sha,
                          RefOf(world.readFile(RefPath(path))), env)
      {
        PrefixAt(e.trace, plan, i);
      }
    }
  }

  /**
   * The acknowledgement is written only as the sixth step, after a submission GitLab
   * accepted, and names exactly the submitted commit.
   */
  lemma AcknowledgesSubmittedCommit(input: Input, args: seq<string>, env: Env, world: World)
    ensures var t := Run(input, args, env, world).trace;
      forall i :: 0 <= i < |t| && t[i].WriteAck? ==>
        && i == 5 && t[4].SubmitStatus? && world.submit(t[4].submission) == Done
        && t[i].ack.version.ref == t[4].submission.sha
  {
    var e := Run(input, args, env, world);
    if e.trace != [] {
      var req := Decoded(input).value;
      var plan := Plan(req, Validate(req).value, RepositoryOf(input, args), env, world);
      forall i | 0 <= i < |e.trace| && e.trace[i].WriteAck?
        ensures i == 5 && e.trace[4].SubmitStatus? && e.trace[i].ack.version.ref == e.trace[4].submission.sha
      {
        PrefixAt(e.trace, plan, i);
        PrefixAt(e.trace, plan, 4);
      }
    }
  }

  /** A successful run has submitted a status and acknowledged exactly that status's commit. */
  lemma SuccessNamesSubmittedCommit(input: Input, args: seq<string>, env: Env, world: World)
    ensures var e := Run(input, args, env, world);
      e.outcome.Succeeded? ==>
        && e.outcome.ack.version.ref == e.outcome.submission.sha
        && world.submit(e.outcome.submission) == Done
        && world.writeOutput(e.outcome.ack) == Done
  {
    var e := Run(input, args, env, world);
    if e.outcome.Succeeded? {
      var req := Decoded(input).value;
      var plan := Plan(req, Validate(req).value, RepositoryOf(input, args), env, world);
      PrefixAt(e.trace, plan, 5);
    }
  }

  /**
   * A valid request whose repository opens, whose HEAD resolves and whose GitLab accepts
   * everything succeeds, acknowledging HEAD's commit after taking all six steps.
   */
  lemma EverythingWorksSucceeds(input: Input, args: seq<string>, env: Env, world: World)
    requires Decoded(input).Ok? && Validate(Decoded(input).value).Ok? && |args| >= 2
    requires world.openRepo(RepositoryOf(input, args)).Ok?
    requires world.openRepo(RepositoryOf(input, args)).value.head.Ok?
    requires forall url :: world.setBaseUrl(url) == Done
    requires forall s :: world.submit(s) == Done
    requires forall ack :: world.writeOutput(ack) == Done
    ensures var e := Run(input, args, env, world);
      && e.outcome.Succeeded?
      && |e.trace| == 6
      && e.outcome.ack == OutResponse(Version(world.openRepo(RepositoryOf(input, args)).value.head.value))
  {
    var e := Run(input, args, env, world);
    var req := Decoded(input).value;
    var plan := Plan(req, Validate(req).value, RepositoryOf(input, args), env, world);
    PrefixAt(e.trace, plan, 5);
  }

  /** A run that fails before its first step ends the same way whatever the filesystem and GitLab would do. */
  lemma EarlyFailureIgnoresWorld(input: Input, args: seq<string>, env: Env, w1: World, w2: World)
    requires Run(input, args, env, w1).trace == []
    ensures Run(input, args, env, w2) == Run(input, args, env, w1)
  {
  }

  /**
   * An unknown build status fails validation before any step; so does a document
   * without a `build_status` key, whose status stays "".
   */
  lemma UnknownStatusRejected(input: Input, args: seq<string>, env: Env, world: World)
    requires input.Document? && input.params.buildStatus.GetOr("") !in BUILD_STATUSES
    ensures Run(input, args, env, world)
         == Execution(Aborted(InvalidStatus(input.params.buildStatus.GetOr(""))), [])
  {
  }

  /**
   * Certificate checks are skipped exactly when the document says `verify_ssl: false`:
   * an absent key leaves them on.
   */
  lemma TlsFollowsVerifySsl(input: Input, args: seq<string>, env: Env, world: World)
    ensures var t := Run(input, args, env, world).trace;
      forall i :: 0 <= i < |t| && t[i].ConfigureClient? ==>
        input.Document? && (t[i].client.insecure <==> input.source.verifySsl == Some(false))
  {
    var e := Run(input, args, env, world);
    if e.trace != [] {
      var req := Decoded(input).value;
      var plan := Plan(req, Validate(req).value, RepositoryOf(input, args), env, world);
      forall i | 0 <= i < |e.trace| && e.trace[i].ConfigureClient?
        ensures e.trace[i].client == NewClient(req.source)
      {
        PrefixAt(e.trace, plan, i);
      }
    }
  }

  /**
   * Whether the ref file can be read never decides how far a run gets: when GitLab's
   * answer does not depend on the ref, two worlds that differ only in the files they
   * can read end their runs at the same step.
   */
  lemma RefFileIsAdvisory(input: Input, args: seq<string>, env: Env, world: World, other: string -> Result<string, string>)
    requires forall s :: world.submit(s) == world.submit(s.(options := s.options.(ref := None)))
    ensures |Run(input, args, env, world.(readFile := other)).trace| == |Run(input, args, env, world).trace|
    ensures Run(input, args, env, world.(readFile := other)).outcome.Succeeded?
         == Run(input, args, env, world).outcome.Succeeded?
  {
  }

  /**
   * The worked example: group "g", project "p", status "success" named "ci", repo "r"
   * under "/data" checked out at "deadbeef", GitLab accepting everything.
   */
  lemma ExampleRun()
    ensures
      var input := Document(
        SourceFields(Some("https://gl.example"), Some(true), Some("tok"), Some("g"), Some("p")),
        ParamsFields(Some("ci"), Some("success"), Some("r")));
      var world := World(
        path => if path == "/data/r" then Ok(Repository(Ok("deadbeef"))) else Err("repository does not exist"),
        path => Err("no such file"),
        url => Done, s => Done, ack => Done);
      var env := Env("https://ci.example", "main", "pl", "job", "7", "42");
      var e := Run(input, ["out", "/data"], env, world);
      && e.outcome.Succeeded?
      && e.outcome.submission.projectId == "g/p"
      && e.outcome.submission.sha == "deadbeef"
      && e.outcome.submission.options.state == Success
      && e.outcome.submission.options.name == "ci"
      && !e.outcome.submission.client.insecure
      && e.outcome.ack == OutResponse(Version("deadbeef"))
      && e.trace[0] == OpenRepository("/data/r")
  {
  }
}
