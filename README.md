# GitLab commit-status resource for Concourse: the `out` operation

This project models `out`, the only operation of the resource that does anything. It
reads a request with a `source` object (GitLab URL, `verify_ssl`, API key, group,
project) and a `params` object (status name, build status, repository directory). It
fills in defaults and checks the build status and the required fields. It then opens the
git repository at `<base>/<repo>`, where the base directory is the first program
argument, and reads the commit HEAD points at. It sets a GitLab commit status on that
commit, with a link to the Concourse build and a description naming the build. Last, it
writes an acknowledgement `{"version":{"ref":<commit>}}`. Any failing step ends the run.

Files:

- `wrappers.dfy`: module `Wrappers`, with `Option` and `Result`.
- `slash_paths.dfy`: module `SlashPaths`. `Slash` is `fmt.Sprintf("%s/%s", a, b)`,
  `Segments` is `strings.Split(s, "/")` and `Join` is its inverse. The lemmas prove that
  joining with '/' concatenates segment lists. The resource never joins a list itself:
  `Join` and the lemmas that it and `Segments` undo each other only show that splitting
  loses nothing.
- `gitlab_status.dfy`: module `GitlabStatus`. It holds the request records, decoding over
  the defaults, the build-state switch, the validator, the derived strings, the outside
  world, and the run. `Run`, `RunFromRepository` and `RunFromCommit` specify the run stage by
  stage, and `Plan` lists the steps of a run in which nothing fails. `Out`, `ResolveCommit`
  and `ReportStatus` are the step-by-step methods proved equal to them.

The outside world is a `World` value whose fields are oracles: `openRepo` (`git.PlainOpen`
followed by `Head()`), `readFile` (the best-effort ref-file read), `setBaseUrl` (the
client's `SetBaseURL`), `submit` (`SetCommitStatus`) and `writeOutput` (the JSON encoder
on standard output). The environment variables are an `Env` record, where an unset
variable reads as "". The program arguments are `args`, and `args[1]` is the base
directory. Each step the run takes against that world is recorded in order as an
`Effect` in the run's trace. Every step is I/O except `ConfigureClient`, which stands for
`gitlab.NewClient` and `SetBaseURL` and only checks the URL. A run's trace is always a
prefix of its plan. The ordering properties are stated over that trace: nothing happens
before validation, the repository is opened once and before the client, and the
acknowledgement comes only after a successful submission.

Three details of the code, and how the model treats them:

- The `BuildStatus == ""` test on line 92 is unreachable, because the status switch on
  lines 85-89 already rejects the empty string. `Validate` keeps the test as written and
  states that it never decides the outcome.
- The base directory is `os.Args[1]`. Extra arguments are ignored. When the argument is
  missing, the Go program panics after validation and before any I/O. This is the
  `MissingBaseDir` failure.
- The ref-file path on line 125 is malformed: it reads `%!s(MISSING)/.git/ref` for every
  run (see Findings). `RefPathAsWritten` models that path. The run itself reads the
  corrected path `<repository>/.git/ref` (`RefPath`), so the `Plan`, `CommitPlan`,
  `RunFromCommit` and `ReportStatus` rows describe the corrected program on that point.

## Model

| member | source | states |
|---|---|---|
| `GitlabStatus.ParseInput` | gitlab-status.go:71-83 | A document that does not decode ends the run with a decode failure. Otherwise the request is the defaults with every present key written over its field. |
| `GitlabStatus.OverlaySource` | gitlab-status.go:80-83 | Decoding the `source` object into an existing record: each key present in the document replaces its field, and each absent key leaves the field as it was. A closed-form reference that `ParseInput` is proved against; the promises about the defaults are proved in `DefaultsSurvive` and `UnknownStatusRejected`. |
| `GitlabStatus.OverlayParams` | gitlab-status.go:80-83 | The same for the `params` object: a present key replaces its field, an absent one leaves it. A closed-form reference that `ParseInput` is proved against; see `DefaultsSurvive` and `UnknownStatusRejected` for what it implies. |
| `GitlabStatus.DefaultsSurvive` | gitlab-status.go:71-78 | Without `verify_ssl`, TLS verification is on. Without `status_name`, the name is "default". An explicit `verify_ssl: false` turns verification off. |
| `GitlabStatus.StateName` | gitlab-status.go:90 | Every GitLab build state's string value is one of the five accepted spellings. |
| `GitlabStatus.ParseBuildState` | gitlab-status.go:85-90 | A status is accepted if and only if it is one of "pending", "running", "success", "canceled", "failed". An accepted status names the state spelled that way. |
| `GitlabStatus.StateNameRoundTrip` | gitlab-status.go:85-90 | Every state is read back from its own name. |
| `GitlabStatus.Validate` | gitlab-status.go:85-95 | The request passes if and only if the status is one of the five and repo, GitLab URL, API key, group and project are all non-empty. An unknown status, including "", is an invalid-status failure even when fields are missing. A known status with a missing field is the incomplete-configuration failure. A pass names the parsed state. |
| `GitlabStatus.UnknownStatusRejected` | gitlab-status.go:71-89 | When a run's status is not one of the five, it ends with the invalid-status failure for that status and takes no step. A document without a `build_status` key is rejected the same way, for the status "". |
| `GitlabStatus.RepoPathSegments` | gitlab-status.go:97 | The repository path's segments are the base directory's segments followed by the repo's. A repo name without '/' is the last segment. |
| `GitlabStatus.ProjectIdSegments` | gitlab-status.go:144 | The project id's segments are the group's segments followed by the project's. When neither contains '/', the id reads back as exactly [group, project]. |
| `GitlabStatus.JobUrlSegments` | gitlab-status.go:131-133 | The job URL's segments are the external URL's, then "teams" and the team name's, "pipelines" and the pipeline name's, "jobs" and the job name's, "builds" and the build name's. |
| `GitlabStatus.JobUrlPlainSegments` | gitlab-status.go:131-133 | When the four names have no '/', the job URL ends in exactly the segments "teams", team, "pipelines", pipeline, "jobs", job, "builds", build. |
| `GitlabStatus.Description` | gitlab-status.go:134 | The description is "Concourse build " followed by exactly the build id. |
| `GitlabStatus.DescriptionNamesBuild` | gitlab-status.go:134 | Two builds with different ids get different descriptions. |
| `GitlabStatus.RefPathAsWrittenMissesRepository` | gitlab-status.go:125 | As written, the ref-file path is the same for every repository. For an absolute repository path, the ref file is never inside the repository. |
| `GitlabStatus.RefPathInRepository` | gitlab-status.go:125 | The corrected ref-file path lies inside the repository: its segments are the repository path's segments followed by ".git", "ref". |
| `GitlabStatus.RefOf` | gitlab-status.go:125-130 | The ref is present exactly when the file could be read, and then it is the file's contents. A closed-form reference used by `ReportStatus` and `CommitPlan`; `RefFileIsAdvisory` proves what the ref does and does not decide. |
| `GitlabStatus.NewClient` | gitlab-status.go:111-119 | The client skips certificate checks exactly when `verify_ssl` is false. It carries the API key and the GitLab URL. A closed-form reference; `TlsFollowsVerifySsl` proves the end-to-end promise about `verify_ssl`. |
| `GitlabStatus.Plan` | gitlab-status.go:97-151 | The six steps of a run in which nothing fails: open the repository, resolve HEAD, configure the client, read the ref file, submit, acknowledge. Only the first opens a repository. The submission is the fifth step and carries HEAD's commit, the request's state, name, project id and client, the job URL, the description and the ref read from the corrected path. The acknowledgement is the sixth step and names the submitted commit. |
| `GitlabStatus.CommitPlan` | gitlab-status.go:110-151 | The four steps from HEAD's commit on: configure the client for the request's source, read the ref file (at the corrected path), submit a status for that commit carrying the request's state, name, project id, the job URL, the description and the ref read, and write the acknowledgement naming that commit. A closed-form reference; the prefix ensures of `RunFromCommit` and `RunFromRepository` (through `Plan`) are what tie the run to it. |
| `GitlabStatus.Run` | gitlab-status.go:69-97 | The trace is empty exactly when the run fails in decoding, validation or the base-directory argument, and each such failure is the one its stage reports. When all three succeed, the trace is non-empty and the run is exactly the repository stage on `<args[1]>/<repo>` with the validated state. |
| `GitlabStatus.RunFromRepository` | gitlab-status.go:97-151 | The trace is a non-empty prefix of the plan, and its length names where the run stopped: 1 for a repository that does not open, 2 for a HEAD that does not resolve (with its error), 3 for a rejected GitLab URL (with its error; past the third step the URL was accepted), 5 for a rejected submission (with GitLab's error), 6 for an acknowledgement written or failing to encode. Past the second step, HEAD resolved. A success has submitted the fifth step and written the sixth. |
| `GitlabStatus.RunFromCommit` | gitlab-status.go:110-151 | From HEAD's commit on, the trace is a non-empty prefix of the commit plan, and its length names where the run stopped: 1 for a rejected GitLab URL (with its error; past the first step the URL was accepted), 3 for a rejected submission (with GitLab's error), 4 once GitLab accepted the submission, whether the acknowledgement was then written or failed to encode. A success has submitted the third step and written the fourth. |
| `GitlabStatus.OpensRepositoryOnce` | gitlab-status.go:97-102 | The first step of any run opens `<args[1]>/<repo>`, and no later step opens a repository. |
| `GitlabStatus.RepositoryFailureStopsEarly` | gitlab-status.go:99-108 | A repository-open or HEAD failure ends the run after at most two steps, with no client configured and no status submitted. |
| `GitlabStatus.SubmitsHeadOfRepository` | gitlab-status.go:105-146 | A status is submitted at most once, as the fifth step. It is for the commit HEAD of `<args[1]>/<repo>` resolves to, and it carries the request's build state, status name, project id and client, the job URL, the description and the ref read from the corrected path. |
| `GitlabStatus.AcknowledgesSubmittedCommit` | gitlab-status.go:143-150 | The acknowledgement is written only as the sixth step, after a submission GitLab accepted, and names exactly the submitted commit. |
| `GitlabStatus.SuccessNamesSubmittedCommit` | gitlab-status.go:143-151 | A successful run's acknowledgement names the submitted commit, and both the submission and the write succeeded. |
| `GitlabStatus.Out` | gitlab-status.go:69-97 | The step-by-step run ends, and takes its steps, exactly as `Run` specifies. |
| `GitlabStatus.ResolveCommit` | gitlab-status.go:97-108 | Opening the repository and resolving HEAD step by step ends, and takes its steps, exactly as `RunFromRepository` specifies. |
| `GitlabStatus.ReportStatus` | gitlab-status.go:110-151 | Configuring the client, reading the ref file (at the corrected path), submitting and acknowledging step by step ends, and takes its steps, exactly as `RunFromCommit` specifies. |
| `GitlabStatus.EverythingWorksSucceeds` | gitlab-status.go:69-151 | A valid request with a base directory, whose repository opens, whose HEAD resolves and whose GitLab accepts everything, takes all six steps and succeeds, acknowledging HEAD's commit. |
| `GitlabStatus.EarlyFailureIgnoresWorld` | gitlab-status.go:85-97 | A run that fails before its first step ends the same way whatever the repository and GitLab would have done. |
| `GitlabStatus.TlsFollowsVerifySsl` | gitlab-status.go:71-119 | Every client a run configures skips certificate checks exactly when the document says `verify_ssl: false`; an absent `verify_ssl` leaves them on. |
| `GitlabStatus.RefFileIsAdvisory` | gitlab-status.go:125-130 | When GitLab's answer does not depend on the ref, a readable or unreadable ref file changes neither how far the run gets nor whether it succeeds. |
| `GitlabStatus.ExampleRun` | gitlab-status.go:69-151 | Example: group "g", project "p", status "success" named "ci", and repo "r" under "/data" at commit "deadbeef" give one submission for "g/p" at "deadbeef" with TLS verified. The acknowledgement is `{"version":{"ref":"deadbeef"}}`. |

## Left out

- Program-name dispatch in `main` and the no-op `check` and `in` operations (lines 45-66) are not modelled. They only print constant output.
- JSON decoding and encoding are not modelled in detail. Go's case-insensitive key matching, duplicate keys, unknown keys and type mismatches are not modelled. Any undecodable input is `Malformed`, and a key that is absent or null is `None`. The acknowledgement's JSON text and a failure half-way through writing it are not modelled: writing is the `writeOutput` oracle.
- `git.PlainOpen` and `Head()` are the `openRepo` oracle. It gives a repository whose HEAD is a hash string or an error. Hash format and detached or unborn HEAD semantics are left to the oracle.
- The GitLab client, `SetBaseURL`, `SetCommitStatus` and the HTTP/TLS transport are not modelled. Only the `insecure` flag on `Client` is kept, along with the oracles for the base-URL check and the submission. `gitlab.NewClient` cannot fail and is a plain function.
- Process environment reads are the `Env` record. `os.Args` is the `args` sequence.
- `log.Fatal` is modelled as the `Failure` datatype. The diagnostic texts and the exit code are not modelled.
- The run reads the ref file at the corrected path `<repository>/.git/ref`. As written, the program reads `%!s(MISSING)/.git/ref` relative to the working directory, so it submits no ref whenever that file is missing, even when the repository's own `.git/ref` exists. Only `RefPathAsWritten` models the as-written path (see Findings).

## Findings

| source | as written | input that shows it | evidently intended | confidence | as-written member | corrected member |
|---|---|---|---|---|---|---|
| gitlab-status.go:125 | `fmt.Sprintf("%s/.git/ref")` has a `%s` verb and no operand, so the path read is `%!s(MISSING)/.git/ref` for every run | any run, e.g. base `/data` and repo `myrepo`: the file read is `%!s(MISSING)/.git/ref`, not `/data/myrepo/.git/ref` | the ref file inside the opened repository, `<base>/<repo>/.git/ref` | not executed; high that the path is malformed, medium on which operand was meant | `GitlabStatus.RefPathAsWrittenMissesRepository` | `GitlabStatus.RefPathInRepository` |
