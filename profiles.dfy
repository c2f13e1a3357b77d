/**
 * The CI profile classes `Local`, `GenericCI`, `TravisCI`, `AppVeyor`, `CircleCI`,
 * `Semaphore`, `JenkinsCI`, `Codeship` and `Bamboo`. Each class body assigns a
 * few upper-case attributes, read from the environment at import time or
 * constant; every other attribute comes from the base class. The environment
 * and the clock are explicit parameters.
 */
module Profiles {
  import opened Wrappers
  import Timestamp

  /** A snapshot of `os.environ`. */
  type Env = map<string, string>

  /** `os.environ.get(key)`. */
  function EnvGet(env: Env, key: string): Option<string> {
    if key in env then Some(env[key]) else None
  }

  datatype Profile = Local | GenericCI | TravisCI | AppVeyor | CircleCI | Semaphore | JenkinsCI | Codeship | Bamboo

  /** The classes that extend `GenericCI` and only rename the service. */
  predicate IsNamedGeneric(p: Profile) {
    p.AppVeyor? || p.CircleCI? || p.Semaphore? || p.JenkinsCI? || p.Codeship? || p.Bamboo?
  }

  /** The attributes a profile reports. */
  datatype Attr = RepoToken | RunAt | ServiceName | ServiceJobId
                | ServiceNumber | ServiceBuildUrl | ServiceBranch | ServicePullRequest

  /**
   * Reading an attribute: `Unbound` when neither the class nor a base class
   * assigns it, otherwise its value, which may be Python's `None`.
   */
  datatype Binding = Unbound | Bound(value: Option<string>)

  /** How deep a class sits below `Local`. */
  function Depth(p: Profile): nat {
    match p
    case Local => 0
    case GenericCI | TravisCI => 1
    case _ => 2
  }

  /** The base class of each profile (`Local` extends only `object`). */
  function Parent(p: Profile): (r: Option<Profile>)
    ensures r.None? <==> p == Local
    ensures r.Some? ==> Depth(r.value) < Depth(p)
  {
    match p
    case Local => None
    case GenericCI | TravisCI => Some(Local)
    case _ => Some(GenericCI)
  }

  /** The service name a `GenericCI` subclass assigns. */
  function ServiceNameOf(p: Profile): string
    requires IsNamedGeneric(p)
  {
    match p
    case AppVeyor => "appveyor"
    case CircleCI => "circle-ci"
    case Semaphore => "semaphore"
    case JenkinsCI => "jenkins-ci"
    case Codeship => "codeship"
    case Bamboo => "bamboo"
  }

  /** The attributes each class body assigns itself; `runAt` is the `RUN_AT` string. */
  function Own(p: Profile, a: Attr, env: Env, runAt: string): (r: Binding)
    ensures a == ServiceName ==> r.Bound?
    ensures a == RunAt ==> (r.Bound? <==> p == Local)
    ensures a == RepoToken ==> (r.Bound? <==> p == Local || p == TravisCI)
    ensures a == ServiceJobId ==> (r.Bound? <==> p == TravisCI)
    ensures IsBuildAttr(a) ==> (r.Bound? <==> p == GenericCI)
  {
    match (p, a)
    case (Local, RepoToken) => Bound(EnvGet(env, "COVERALLS_REPO_TOKEN"))
    case (Local, RunAt) => Bound(Some(runAt))
    case (Local, ServiceName) => Bound(Some("coveralls_multi_ci"))
    case (GenericCI, ServiceName) => Bound(EnvGet(env, "CI_NAME"))
    case (GenericCI, ServiceNumber) => Bound(EnvGet(env, "CI_BUILD_NUMBER"))
    case (GenericCI, ServiceBuildUrl) => Bound(EnvGet(env, "CI_BUILD_URL"))
    case (GenericCI, ServiceBranch) => Bound(EnvGet(env, "CI_BRANCH"))
    case (GenericCI, ServicePullRequest) => Bound(EnvGet(env, "CI_PULL_REQUEST"))
    case (TravisCI, RepoToken) => Bound(None)
    case (TravisCI, ServiceName) => Bound(Some("travis-ci"))
    case (TravisCI, ServiceJobId) => Bound(EnvGet(env, "TRAVIS_JOB_ID"))
    case (_, ServiceName) => if IsNamedGeneric(p) then Bound(Some(ServiceNameOf(p))) else Unbound
    case _ => Unbound
  }

  /** The build attributes only `GenericCI` assigns. */
  predicate IsBuildAttr(a: Attr) {
    a.ServiceNumber? || a.ServiceBuildUrl? || a.ServiceBranch? || a.ServicePullRequest?
  }

  /**
   * Attribute lookup: the class's own assignment, else the base class's, up to
   * `Local`. An own assignment shadows every inherited one; every class sees
   * `Local`'s `RUN_AT`; an attribute is unbound exactly when no class on the
   * chain assigns it.
   */
  function Resolve(p: Profile, a: Attr, env: Env, runAt: string): (r: Binding)
    decreases Depth(p)
    ensures Own(p, a, env, runAt).Bound? ==> r == Own(p, a, env, runAt)
    ensures a == RunAt ==> r == Bound(Some(runAt))
    ensures r.Unbound? <==> (a == ServiceJobId && p != TravisCI)
                            || (IsBuildAttr(a) && (p == Local || p == TravisCI))
  {
    match Own(p, a, env, runAt)
    case Bound(v) => Bound(v)
    case Unbound =>
      match Parent(p)
      case None => Unbound
      case Some(q) => Resolve(q, a, env, runAt)
  }

  /** Every attribute an instance of a profile reports. */
  datatype Fields = Fields(repoToken: Binding, runAt: Binding, serviceName: Binding, serviceJobId: Binding,
                           serviceNumber: Binding, serviceBuildUrl: Binding, serviceBranch: Binding,
                           servicePullRequest: Binding)

  /** The attributes of profile `p` in a module imported under `env` at time `now`. */
  function ProfileFields(p: Profile, env: Env, now: Timestamp.DateTime): (r: Fields)
    requires Timestamp.Valid(now)
    ensures r.runAt == Bound(Some(Timestamp.FormatRunAt(now)))
    ensures r.repoToken.Bound? && r.serviceName.Bound?
    ensures r.serviceJobId.Bound? <==> p == TravisCI
  {
    var runAt := Timestamp.FormatRunAt(now);
    Fields(Resolve(p, RepoToken, env, runAt), Resolve(p, RunAt, env, runAt),
           Resolve(p, ServiceName, env, runAt), Resolve(p, ServiceJobId, env, runAt),
           Resolve(p, ServiceNumber, env, runAt), Resolve(p, ServiceBuildUrl, env, runAt),
           Resolve(p, ServiceBranch, env, runAt), Resolve(p, ServicePullRequest, env, runAt))
  }

  /**
   * The same attributes written as one flat table per profile, with no
   * inheritance: a repo-token policy plus the fields read from the environment.
   */
  function FieldTable(p: Profile, env: Env, now: Timestamp.DateTime): Fields
    requires Timestamp.Valid(now)
  {
    var runAt := Bound(Some(Timestamp.FormatRunAt(now)));
    var token := Bound(EnvGet(env, "COVERALLS_REPO_TOKEN"));
    match p
    case Local =>
      Fields(token, runAt, Bound(Some("coveralls_multi_ci")), Unbound, Unbound, Unbound, Unbound, Unbound)
    case TravisCI =>
      Fields(Bound(None), runAt, Bound(Some("travis-ci")), Bound(EnvGet(env, "TRAVIS_JOB_ID")),
             Unbound, Unbound, Unbound, Unbound)
    case GenericCI => BuildFields(token, runAt, EnvGet(env, "CI_NAME"), env)
    case AppVeyor => BuildFields(token, runAt, Some("appveyor"), env)
    case CircleCI => BuildFields(token, runAt, Some("circle-ci"), env)
    case Semaphore => BuildFields(token, runAt, Some("semaphore"), env)
    case JenkinsCI => BuildFields(token, runAt, Some("jenkins-ci"), env)
    case Codeship => BuildFields(token, runAt, Some("codeship"), env)
    case Bamboo => BuildFields(token, runAt, Some("bamboo"), env)
  }

  /** A row of the flat table for a profile that reads the `CI_*` build variables. */
  function BuildFields(token: Binding, runAt: Binding, name: Option<string>, env: Env): Fields {
    Fields(token, runAt, Bound(name), Unbound,
           Bound(EnvGet(env, "CI_BUILD_NUMBER")), Bound(EnvGet(env, "CI_BUILD_URL")),
           Bound(EnvGet(env, "CI_BRANCH")), Bound(EnvGet(env, "CI_PULL_REQUEST")))
  }

  /** Inheritance resolves every attribute of every profile as the flat table says. */
  lemma ResolutionMatchesTable(p: Profile, env: Env, now: Timestamp.DateTime)
    requires Timestamp.Valid(now)
    ensures ProfileFields(p, env, now) == FieldTable(p, env, now)
  {
  }

  /**
   * The named subclasses of `GenericCI` override only the service name, with a
   * constant, and inherit every other attribute, including the repo token of `Local`.
   */
  lemma NamedGenericInherits(p: Profile, a: Attr, env: Env, runAt: string)
    requires IsNamedGeneric(p)
    ensures a != ServiceName ==> Resolve(p, a, env, runAt) == Resolve(GenericCI, a, env, runAt)
    ensures Resolve(p, ServiceName, env, runAt) == Bound(Some(ServiceNameOf(p)))
    ensures Resolve(p, RepoToken, env, runAt) == Bound(EnvGet(env, "COVERALLS_REPO_TOKEN"))
  {
  }

  /**
   * Travis CI reports no repo token even when `COVERALLS_REPO_TOKEN` is set,
   * names itself `travis-ci`, takes its job id from `TRAVIS_JOB_ID`, and has
   * none of the `CI_*` build fields, because it extends `Local`.
   */
  lemma TravisFields(env: Env, now: Timestamp.DateTime)
    requires Timestamp.Valid(now)
    ensures var f := ProfileFields(TravisCI, env, now);
            && f.repoToken == Bound(None)
            && f.serviceName == Bound(Some("travis-ci"))
            && f.serviceJobId == Bound(EnvGet(env, "TRAVIS_JOB_ID"))
            && f.serviceNumber == Unbound && f.serviceBuildUrl == Unbound
            && f.serviceBranch == Unbound && f.servicePullRequest == Unbound
  {
  }

  /**
   * The generic profile takes its service name from `CI_NAME` and its build
   * number, build URL, branch and pull request from the `CI_*` variables; the
   * repo token is `Local`'s, and it has no job id.
   */
  lemma GenericFields(env: Env, now: Timestamp.DateTime)
    requires Timestamp.Valid(now)
    ensures var f := ProfileFields(GenericCI, env, now);
            && f.repoToken == Bound(EnvGet(env, "COVERALLS_REPO_TOKEN"))
            && f.serviceName == Bound(EnvGet(env, "CI_NAME"))
            && f.serviceJobId == Unbound
            && f.serviceNumber == Bound(EnvGet(env, "CI_BUILD_NUMBER"))
            && f.serviceBuildUrl == Bound(EnvGet(env, "CI_BUILD_URL"))
            && f.serviceBranch == Bound(EnvGet(env, "CI_BRANCH"))
            && f.servicePullRequest == Bound(EnvGet(env, "CI_PULL_REQUEST"))
  {
  }

  /**
   * The fallback profile names itself `coveralls_multi_ci`, reports
   * `COVERALLS_REPO_TOKEN` and nothing that a CI service would supply.
   */
  lemma LocalFields(env: Env, now: Timestamp.DateTime)
    requires Timestamp.Valid(now)
    ensures var f := ProfileFields(Local, env, now);
            && f.repoToken == Bound(EnvGet(env, "COVERALLS_REPO_TOKEN"))
            && f.serviceName == Bound(Some("coveralls_multi_ci"))
            && f.serviceJobId == Unbound && f.serviceNumber == Unbound && f.serviceBuildUrl == Unbound
            && f.serviceBranch == Unbound && f.servicePullRequest == Unbound
  {
  }

  /** Every profile inherits the one `RUN_AT` string `Local` computed at import. */
  lemma RunAtShared(p: Profile, env: Env, now: Timestamp.DateTime)
    requires Timestamp.Valid(now)
    ensures ProfileFields(p, env, now).runAt == Bound(Some(Timestamp.FormatRunAt(now)))
    ensures Timestamp.MatchesLayout(ProfileFields(p, env, now).runAt.value.value)
  {
  }

  /** `source_files()`: this version measures no file and reports an empty mapping. */
  function SourceFiles(): (r: map<string, string>)
    ensures |r| == 0
  {
    map[]
  }
}
