/**
 * `select_ci`: the if/elif chain that picks one profile from the environment
 * snapshot, and the instance it builds. The chain is also written as an
 * ordered table of markers, first match wins, with the `CI_NAME` fallback.
 */
module Detection {
  import opened Wrappers
  import Timestamp
  import opened Profiles

  /** `select_ci`'s branch order. */
  function Select(env: Env): (p: Profile)
    ensures (p.TravisCI? || p.AppVeyor? || p.CircleCI? || p.Semaphore? || p.Codeship?) ==> "CI" in env
    ensures p.JenkinsCI? ==> "JENKINS_URL" in env
    ensures p.Bamboo? ==> "bamboo.buildNumber" in env
    ensures p.Codeship? ==> "CI_NAME" in env && env["CI_NAME"] == "codeship"
    ensures p.GenericCI? ==> "CI_NAME" in env
    ensures p.Local? ==> "CI_NAME" !in env
  {
    if "CI" in env && "TRAVIS" in env then TravisCI
    else if "CI" in env && "APPVEYOR" in env then AppVeyor
    else if "CI" in env && "CIRCLECI" in env then CircleCI
    else if "CI" in env && "SEMAPHORE" in env then Semaphore
    else if "JENKINS_URL" in env then JenkinsCI
    else if "CI" in env && EnvGet(env, "CI_NAME") == Some("codeship") then Codeship
    else if "bamboo.buildNumber" in env then Bamboo
    else if "CI_NAME" in env then GenericCI
    else Local
  }

  /** A profile instance: its class attributes, `source_files` and `git`. */
  datatype Instance = Instance(profile: Profile, fields: Fields, sourceFiles: map<string, string>, git: GitStats)

  /** What `git_stats` returns; it is not part of this model and is passed in. */
  datatype GitStats = NoRepository
                    | GitStats(head: map<string, string>, branch: string, remotes: seq<(string, string)>)

  /**
   * `select_ci()`: instantiate the selected class. The choice reads the
   * environment at call time (`callEnv`); the class attributes were read when
   * the module was imported (`importEnv`). The instance reports those
   * attributes, no source files, and the git record it was given.
   */
  function SelectCI(importEnv: Env, callEnv: Env, now: Timestamp.DateTime, git: GitStats): (r: Instance)
    requires Timestamp.Valid(now)
    ensures r.profile == Select(callEnv)
    ensures r.fields == FieldTable(r.profile, importEnv, now)
    ensures |r.sourceFiles| == 0 && r.git == git
  {
    var p := Select(callEnv);
    ResolutionMatchesTable(p, importEnv, now);
    Instance(p, ProfileFields(p, importEnv, now), SourceFiles(), git)
  }

  /**
   * The two reads of the environment can disagree: whenever `CI_NAME` was
   * unset at import but the call selects the generic profile, that profile's
   * service name was read as `None`.
   */
  lemma StaleImportEnvironment(importEnv: Env, callEnv: Env, now: Timestamp.DateTime, git: GitStats)
    requires Timestamp.Valid(now)
    requires "CI_NAME" !in importEnv && Select(callEnv) == GenericCI
    ensures SelectCI(importEnv, callEnv, now, git).fields.serviceName == Bound(None)
  {
  }

  /** The condition one branch of the chain tests. */
  datatype Marker = Present(key: string) | PresentWithCI(key: string) | EqualsWithCI(key: string, value: string)

  predicate Holds(m: Marker, env: Env) {
    match m
    case Present(k) => k in env
    case PresentWithCI(k) => "CI" in env && k in env
    case EqualsWithCI(k, v) => "CI" in env && k in env && env[k] == v
  }

  datatype Rule = Rule(marker: Marker, profile: Profile)

  /** The officially supported services, in the order they are tried. */
  const Precedence: seq<Rule> := [
    Rule(PresentWithCI("TRAVIS"), TravisCI),
    Rule(PresentWithCI("APPVEYOR"), AppVeyor),
    Rule(PresentWithCI("CIRCLECI"), CircleCI),
    Rule(PresentWithCI("SEMAPHORE"), Semaphore),
    Rule(Present("JENKINS_URL"), JenkinsCI),
    Rule(EqualsWithCI("CI_NAME", "codeship"), Codeship),
    Rule(Present("bamboo.buildNumber"), Bamboo)
  ]

  /** The profile of the first rule whose marker holds. */
  function FirstMatch(rules: seq<Rule>, env: Env): Option<Profile> {
    if rules == [] then None
    else if Holds(rules[0].marker, env) then Some(rules[0].profile)
    else FirstMatch(rules[1..], env)
  }

  /** Table-driven detection: the first marker that holds, else `GenericCI` when `CI_NAME` is set, else `Local`. */
  function Detect(env: Env): Profile {
    match FirstMatch(Precedence, env)
    case Some(p) => p
    case None => if "CI_NAME" in env then GenericCI else Local
  }

  /** The if/elif chain and the precedence table choose the same profile for every environment. */
  lemma SelectMatchesTable(env: Env)
    ensures Select(env) == Detect(env)
  {
    forall k | 0 <= k < |Precedence|
      ensures FirstMatch(Precedence[k..], env)
              == if Holds(Precedence[k].marker, env) then Some(Precedence[k].profile)
                 else FirstMatch(Precedence[k + 1..], env)
    {
      assert Precedence[k..][1..] == Precedence[k + 1..];
    }
    var bamboo := if "bamboo.buildNumber" in env then Some(Bamboo) else None;
    var codeship := if "CI" in env && EnvGet(env, "CI_NAME") == Some("codeship") then Some(Codeship) else bamboo;
    var jenkins := if "JENKINS_URL" in env then Some(JenkinsCI) else codeship;
    var semaphore := if "CI" in env && "SEMAPHORE" in env then Some(Semaphore) else jenkins;
    var circle := if "CI" in env && "CIRCLECI" in env then Some(CircleCI) else semaphore;
    var appveyor := if "CI" in env && "APPVEYOR" in env then Some(AppVeyor) else circle;
    assert Precedence[7..] == [];
    assert FirstMatch(Precedence[6..], env) == bamboo;
    assert FirstMatch(Precedence[5..], env) == codeship;
    assert FirstMatch(Precedence[4..], env) == jenkins;
    assert FirstMatch(Precedence[3..], env) == semaphore;
    assert FirstMatch(Precedence[2..], env) == circle;
    assert FirstMatch(Precedence[1..], env) == appveyor;
    assert Precedence[0..] == Precedence;
  }

  /** First match wins: the rule chosen is one whose marker holds and no earlier marker holds. */
  lemma {:induction false} FirstMatchIsFirst(rules: seq<Rule>, env: Env)
    ensures FirstMatch(rules, env).None? <==> forall i :: 0 <= i < |rules| ==> !Holds(rules[i].marker, env)
    ensures FirstMatch(rules, env).Some? ==>
              exists k :: && 0 <= k < |rules| && Holds(rules[k].marker, env)
                          && FirstMatch(rules, env) == Some(rules[k].profile)
                          && forall j :: 0 <= j < k ==> !Holds(rules[j].marker, env)
  {
    if rules != [] && !Holds(rules[0].marker, env) {
      FirstMatchIsFirst(rules[1..], env);
      if FirstMatch(rules[1..], env).Some? {
        var k :| && 0 <= k < |rules[1..]| && Holds(rules[1..][k].marker, env)
                 && FirstMatch(rules[1..], env) == Some(rules[1..][k].profile)
                 && forall j :: 0 <= j < k ==> !Holds(rules[1..][j].marker, env);
        assert Holds(rules[k + 1].marker, env);
        assert forall j :: 0 <= j < k + 1 ==> !Holds(rules[j].marker, env) by {
          forall j | 0 <= j < k + 1 ensures !Holds(rules[j].marker, env) {
            if j > 0 { assert rules[j] == rules[1..][j - 1]; }
          }
        }
      } else {
        forall i | 0 <= i < |rules| ensures !Holds(rules[i].marker, env) {
          if i > 0 { assert rules[i] == rules[1..][i - 1]; }
        }
      }
    }
  }

  /** When the markers of two branches both hold, the later branch is never taken. */
  lemma EarlierBranchWins(env: Env, i: nat, j: nat)
    requires i < j < |Precedence|
    requires Holds(Precedence[i].marker, env) && Holds(Precedence[j].marker, env)
    ensures Select(env) != Precedence[j].profile
  {
  }

  /** With `CI` and `TRAVIS` both set, Travis CI is chosen whatever else is set. */
  lemma TravisFirst(env: Env)
    requires "CI" in env && "TRAVIS" in env
    ensures Select(env) == TravisCI
  {
  }

  /** Jenkins and Bamboo are recognised without `CI`; the other services are not. */
  lemma JenkinsAndBambooWithoutCI(env: Env)
    requires "CI" !in env
    ensures "JENKINS_URL" in env ==> Select(env) == JenkinsCI
    ensures "JENKINS_URL" !in env && "bamboo.buildNumber" in env ==> Select(env) == Bamboo
    ensures Select(env) in {JenkinsCI, Bamboo, GenericCI, Local}
  {
  }

  /**
   * Without `CI`, an environment that names `codeship` in `CI_NAME` (and has
   * neither Jenkins nor Bamboo marker) falls through to the generic profile,
   * which, when the module was imported under that same environment, still
   * reports the service name `codeship`.
   */
  lemma CodeshipWithoutCIIsGeneric(env: Env, now: Timestamp.DateTime, git: GitStats)
    requires Timestamp.Valid(now)
    requires "CI" !in env && "JENKINS_URL" !in env && "bamboo.buildNumber" !in env
    requires "CI_NAME" in env && env["CI_NAME"] == "codeship"
    ensures Select(env) == GenericCI
    ensures SelectCI(env, env, now, git).fields.serviceName == Bound(Some("codeship"))
  {
  }

  /**
   * The fallback: `GenericCI` exactly when no service marker holds and
   * `CI_NAME` is set, `Local` exactly when neither. When the module was
   * imported under the environment `select_ci` reads, the generic profile's
   * service name is then never `None`.
   */
  lemma Fallback(env: Env, now: Timestamp.DateTime, git: GitStats)
    requires Timestamp.Valid(now)
    ensures Select(env) == GenericCI <==>
              (forall i :: 0 <= i < |Precedence| ==> !Holds(Precedence[i].marker, env)) && "CI_NAME" in env
    ensures Select(env) == Local <==>
              (forall i :: 0 <= i < |Precedence| ==> !Holds(Precedence[i].marker, env)) && "CI_NAME" !in env
    ensures var r := SelectCI(env, env, now, git);
            r.profile == GenericCI ==> r.fields.serviceName == Bound(Some(env["CI_NAME"]))
  {
    SelectMatchesTable(env);
    FirstMatchIsFirst(Precedence, env);
  }
}
