/** Kubeconfig slicing and the iTerm2 profile of each cluster (k8s/main.go
    over the records of k8s/struct.go). Reading and writing YAML, the EKS
    calls and user.Current are outside the model: the user name is a
    parameter and writing a sliced file always succeeds. */
module K8s {

  import opened Wrappers
  import opened GoStrings
  import Iterm

  datatype ClusterInfo = ClusterInfo(certificateAuthority: string, certificateAuthorityData: string, server: string)

  datatype Cluster = Cluster(cluster: ClusterInfo, name: string)

  datatype ContextInfo = ContextInfo(cluster: string, namespace: string, user: string)

  datatype Context = Context(context: ContextInfo, name: string)

  datatype Env = Env(name: string, value: string)

  datatype Exec = Exec(apiVersion: string, args: seq<string>, command: string, env: seq<Env>)

  datatype UserT = UserT(clientCertificate: string, clientCertificateData: string,
                         clientKey: string, clientKeyData: string, exec: Exec)

  datatype User = User(name: string, user: UserT)

  /** A kubeconfig file. Preferences is an empty record in the source and
      carries nothing, so it has no field here. */
  datatype KubeConfig = KubeConfig(
    apiVersion: string,
    clusters: seq<Cluster>,
    contexts: seq<Context>,
    kind: string,
    users: seq<User>,
    currentContext: string)

  // ---------------------------------------------------------------------
  // GetCluster

  function ClusterName(c: Cluster): string { c.name }
  function ContextName(c: Context): string { c.name }
  function UserName(u: User): string { u.name }

  /** xs[i] is the first entry named name. */
  predicate FirstNamedAt<T>(xs: seq<T>, nameOf: T -> string, name: string, i: int) {
    && 0 <= i < |xs|
    && nameOf(xs[i]) == name
    && forall m :: 0 <= m < i ==> nameOf(xs[m]) != name
  }

  /** The first entry named name, as a list of at most one entry. */
  function FirstNamed<T>(xs: seq<T>, nameOf: T -> string, name: string): seq<T>
    decreases |xs|
  {
    if |xs| == 0 then []
    else if nameOf(xs[0]) == name then [xs[0]]
    else FirstNamed(xs[1..], nameOf, name)
  }

  lemma {:induction false} FirstNamedIsFirst<T>(xs: seq<T>, nameOf: T -> string, name: string, i: int)
    requires FirstNamedAt(xs, nameOf, name, i)
    ensures FirstNamed(xs, nameOf, name) == [xs[i]]
    decreases |xs|
  {
    if i > 0 {
      assert nameOf(xs[0]) != name;
      assert FirstNamedAt(xs[1..], nameOf, name, i - 1);
      FirstNamedIsFirst(xs[1..], nameOf, name, i - 1);
    }
  }

  lemma {:induction false} FirstNamedNone<T>(xs: seq<T>, nameOf: T -> string, name: string)
    requires forall m :: 0 <= m < |xs| ==> nameOf(xs[m]) != name
    ensures FirstNamed(xs, nameOf, name) == []
    decreases |xs|
  {
    if |xs| > 0 {
      assert nameOf(xs[0]) != name;
      FirstNamedNone(xs[1..], nameOf, name);
    }
  }

  /** At most one entry, none exactly when no entry has the name, and
      otherwise the first that has it. */
  lemma {:induction false} FirstNamedSpec<T>(xs: seq<T>, nameOf: T -> string, name: string)
    ensures |FirstNamed(xs, nameOf, name)| <= 1
    ensures FirstNamed(xs, nameOf, name) == [] <==> forall m :: 0 <= m < |xs| ==> nameOf(xs[m]) != name
    ensures FirstNamed(xs, nameOf, name) != [] ==>
              exists i :: FirstNamedAt(xs, nameOf, name, i) && FirstNamed(xs, nameOf, name) == [xs[i]]
    decreases |xs|
  {
    if |xs| > 0 {
      if nameOf(xs[0]) == name {
        assert FirstNamedAt(xs, nameOf, name, 0);
      } else {
        FirstNamedSpec(xs[1..], nameOf, name);
        if FirstNamed(xs[1..], nameOf, name) != [] {
          var i :| FirstNamedAt(xs[1..], nameOf, name, i) && FirstNamed(xs[1..], nameOf, name) == [xs[1..][i]];
          assert FirstNamedAt(xs, nameOf, name, i + 1);
        } else {
          forall m | 0 <= m < |xs|
            ensures nameOf(xs[m]) != name
          {
            if m > 0 {
              assert xs[m] == xs[1..][m - 1];
            }
          }
        }
      }
    }
  }

  /** The kubeconfig of one cluster: the header copied, the current
      context set to the name, and the first cluster, context and user of
      that name. */
  function Slice(k: KubeConfig, name: string): KubeConfig {
    KubeConfig(
      apiVersion := k.apiVersion,
      clusters := FirstNamed(k.clusters, ClusterName, name),
      contexts := FirstNamed(k.contexts, ContextName, name),
      kind := k.kind,
      users := FirstNamed(k.users, UserName, name),
      currentContext := name)
  }

  /** What a slice holds: at most one entry of each kind, the first of
      that name, and a cluster exactly when the original has one of that
      name. */
  lemma SliceShape(k: KubeConfig, name: string)
    ensures var s := Slice(k, name);
      && s.currentContext == name && s.apiVersion == k.apiVersion && s.kind == k.kind
      && |s.clusters| <= 1 && |s.contexts| <= 1 && |s.users| <= 1
      && (s.clusters == [] <==> forall m :: 0 <= m < |k.clusters| ==> k.clusters[m].name != name)
      && (s.clusters != [] ==> exists i :: FirstNamedAt(k.clusters, ClusterName, name, i) && s.clusters == [k.clusters[i]])
      && (s.contexts != [] ==> exists i :: FirstNamedAt(k.contexts, ContextName, name, i) && s.contexts == [k.contexts[i]])
      && (s.users == [] <==> forall m :: 0 <= m < |k.users| ==> k.users[m].name != name)
      && (s.users != [] ==> exists i :: FirstNamedAt(k.users, UserName, name, i) && s.users == [k.users[i]])
  {
    FirstNamedSpec(k.clusters, ClusterName, name);
    FirstNamedSpec(k.contexts, ContextName, name);
    FirstNamedSpec(k.users, UserName, name);
  }

  /** KubeConfig.GetCluster: three searches that stop at the first match;
      found reports whether a cluster of that name exists. */
  method GetCluster(k: KubeConfig, name: string) returns (config: KubeConfig, found: bool)
    ensures config == Slice(k, name)
    ensures found <==> exists i :: 0 <= i < |k.clusters| && k.clusters[i].name == name
  {
    config := KubeConfig(k.apiVersion, [], [], k.kind, [], name);
    found := false;
    var i := 0;
    while i < |k.clusters|
      invariant 0 <= i <= |k.clusters|
      invariant config == KubeConfig(k.apiVersion, [], [], k.kind, [], name) && !found
      invariant forall m :: 0 <= m < i ==> k.clusters[m].name != name
    {
      if k.clusters[i].name == name {
        config := config.(clusters := config.clusters + [k.clusters[i]]);
        found := true;
        FirstNamedIsFirst(k.clusters, ClusterName, name, i);
        break;
      }
      i := i + 1;
    }
    if !found {
      FirstNamedNone(k.clusters, ClusterName, name);
    }
    ghost var afterClusters := config;
    i := 0;
    while i < |k.contexts|
      invariant 0 <= i <= |k.contexts|
      invariant config == afterClusters
      invariant forall m :: 0 <= m < i ==> k.contexts[m].name != name
    {
      if k.contexts[i].name == name {
        config := config.(contexts := config.contexts + [k.contexts[i]]);
        FirstNamedIsFirst(k.contexts, ContextName, name, i);
        break;
      }
      i := i + 1;
    }
    if config.contexts == [] {
      FirstNamedNone(k.contexts, ContextName, name);
    }
    ghost var afterContexts := config;
    i := 0;
    while i < |k.users|
      invariant 0 <= i <= |k.users|
      invariant config == afterContexts
      invariant forall m :: 0 <= m < i ==> k.users[m].name != name
    {
      if k.users[i].name == name {
        config := config.(users := config.users + [k.users[i]]);
        FirstNamedIsFirst(k.users, UserName, name, i);
        break;
      }
      i := i + 1;
    }
    if config.users == [] {
      FirstNamedNone(k.users, UserName, name);
    }
  }

  // ---------------------------------------------------------------------
  // name, AWSProfile, Print

  const MultipleClusters := "Cannot handle multiple cluster definitions"
  const AwsProfileKey := "AWS_PROFILE"

  /** KubeConfig.name: the only cluster's name. */
  function Name(k: KubeConfig): Result<string> {
    if |k.clusters| != 1 then Failure(MultipleClusters) else Ok(k.clusters[0].name)
  }

  /** env[i] is the first entry for key. */
  predicate FirstEnvFor(env: seq<Env>, key: string, i: int) {
    && 0 <= i < |env|
    && env[i].name == key
    && forall m :: 0 <= m < i ==> env[m].name != key
  }

  /** The value of the first entry for key, if any. */
  function LookupEnv(env: seq<Env>, key: string): (r: Option<string>)
    ensures r.None? <==> forall i :: 0 <= i < |env| ==> env[i].name != key
    ensures r.Some? ==> exists i :: FirstEnvFor(env, key, i) && r.value == env[i].value
    decreases |env|
  {
    if |env| == 0 then None
    else if env[0].name == key then
      assert FirstEnvFor(env, key, 0);
      Some(env[0].value)
    else
      var r := LookupEnv(env[1..], key);
      if r.Some? then
        var i :| FirstEnvFor(env[1..], key, i) && r.value == env[1..][i].value;
        assert FirstEnvFor(env, key, i + 1);
        r
      else
        r
  }

  /** KubeConfig.AWSProfile: the AWS_PROFILE the first user's exec plugin
      sets, or "" without one. Reading the first user of a config without
      users is Go's index out of range. */
  function AWSProfile(k: KubeConfig): Result<string> {
    if |k.clusters| != 1 then Failure(MultipleClusters)
    else if |k.users| == 0 then Failure("index out of range")
    else
      match LookupEnv(k.users[0].user.exec.env, AwsProfileKey)
      case Some(v) => Ok(v)
      case None => Ok("")
  }

  /** The first AWS_PROFILE entry's value is the answer, and "" when the
      first user's environment has none. */
  lemma AWSProfileOf(k: KubeConfig)
    requires |k.clusters| == 1 && |k.users| > 0
    ensures var env := k.users[0].user.exec.env;
      && AWSProfile(k).Ok?
      && ((forall i :: 0 <= i < |env| ==> env[i].name != AwsProfileKey) ==> AWSProfile(k).value == "")
      && (forall i :: FirstEnvFor(env, AwsProfileKey, i) ==> AWSProfile(k).value == env[i].value)
  {
    var env := k.users[0].user.exec.env;
    forall i | FirstEnvFor(env, AwsProfileKey, i)
      ensures AWSProfile(k).value == env[i].value
    {
      var found := LookupEnv(env, AwsProfileKey);
      assert found.Some?;
      var j :| FirstEnvFor(env, AwsProfileKey, j) && found.value == env[j].value;
      FirstEnvUnique(env, AwsProfileKey, i, j);
    }
  }

  lemma FirstEnvUnique(env: seq<Env>, key: string, i: int, j: int)
    requires FirstEnvFor(env, key, i) && FirstEnvFor(env, key, j)
    ensures i == j
  {
  }

  /** The file name of a sliced kubeconfig: the cluster name with every
      '/' and ':' turned into '-'. */
  function DestinationFile(dest: string, clusterName: string): string {
    dest + "/" + ReplaceAll(ReplaceAll(clusterName, "/", "-"), ":", "-") + ".yml"
  }

  /** The file sits directly in dest, and its name keeps the cluster
      name's length and characters except that '/' and ':' become '-'. */
  lemma DestinationFileShape(dest: string, clusterName: string)
    ensures var f := DestinationFile(dest, clusterName);
      && |f| == |dest| + 1 + |clusterName| + 4
      && f[..|dest| + 1] == dest + "/" && f[|f| - 4..] == ".yml"
      && forall m :: 0 <= m < |clusterName| ==>
           f[|dest| + 1 + m] == if clusterName[m] == '/' || clusterName[m] == ':' then '-' else clusterName[m]
  {
    var once := ReplaceAll(clusterName, "/", "-");
    var twice := ReplaceAll(once, ":", "-");
    ReplaceAllChar(clusterName, '/', '-');
    ReplaceAllChar(once, ':', '-');
    var f := DestinationFile(dest, clusterName);
    assert f == dest + "/" + twice + ".yml";
    forall m | 0 <= m < |clusterName|
      ensures f[|dest| + 1 + m] == if clusterName[m] == '/' || clusterName[m] == ':' then '-' else clusterName[m]
    {
      assert f[|dest| + 1 + m] == twice[m];
    }
  }

  /** KubeConfig.Print: the file a single-cluster kubeconfig is written to. */
  function Print(k: KubeConfig, dest: string): Result<string> {
    if |k.clusters| != 1 then Failure(MultipleClusters) else Ok(DestinationFile(dest, k.clusters[0].name))
  }

  // ---------------------------------------------------------------------
  // Profile, Profiles

  const EnvHead := "/usr/bin/env KUBECONFIG="
  const AwsProfileHead := " AWS_PROFILE="
  const LoginHead := " /usr/bin/login -fp "
  const AwsProfileTag := "aws-profile="

  /** The command of a cluster's profile. */
  function KubeCommand(path: string, awsProfile: string, username: string): string {
    var withProfile := if awsProfile != "" then EnvHead + path + AwsProfileHead + awsProfile else EnvHead + path;
    withProfile + LoginHead + username
  }

  /** The "Tags" entry of a cluster's profile. */
  function KubeTags(awsProfile: string): string {
    if awsProfile != "" then "k8s" + "," + AwsProfileTag + awsProfile else "k8s"
  }

  /** The configuration section a cluster's profile is made from. */
  function KubeSection(path: string, awsProfile: string, username: string): Iterm.Config {
    map["Tags" := KubeTags(awsProfile), "Command" := KubeCommand(path, awsProfile, username)]
  }

  /** KubeConfig.Profile(path): the profile of a single-cluster kubeconfig. */
  function KubeProfile(k: KubeConfig, path: string, username: string, env: Iterm.Environment): Result<Iterm.Profile> {
    if |k.clusters| != 1 then Failure(MultipleClusters)
    else
      var awsProfile :- AWSProfile(k);
      Iterm.NewProfile("k8s-" + Base(k.clusters[0].name), KubeSection(path, awsProfile, username), env)
  }

  /** KubeConfig.Profile: the command and the tag list grow by the AWS
      profile when the user's exec plugin sets one. */
  method Profile(k: KubeConfig, path: string, username: string, env: Iterm.Environment)
    returns (r: Result<Iterm.Profile>)
    ensures r == KubeProfile(k, path, username, env)
  {
    if |k.clusters| != 1 {
      return Failure(MultipleClusters);
    }
    var tags := "k8s";
    var cmd := EnvHead + path;
    var name := Base(k.clusters[0].name);
    var awsProfile := AWSProfile(k);
    if awsProfile.Failure? {
      return Failure(awsProfile.reason);
    }
    if awsProfile.value != "" {
      cmd := cmd + AwsProfileHead + awsProfile.value;
      tags := tags + "," + AwsProfileTag + awsProfile.value;
    }
    cmd := cmd + LoginHead + username;
    r := Iterm.NewProfile("k8s-" + name, map["Tags" := tags, "Command" := cmd], env);
  }

  /** The section's tags: the timestamp, then "k8s", then the AWS profile tag. */
  lemma KubeSectionTags(path: string, awsProfile: string, username: string, now: string)
    requires ',' !in awsProfile
    ensures Iterm.Tags(KubeSection(path, awsProfile, username), now)
            == Ok([now, "k8s"] + if awsProfile != "" then [AwsProfileTag + awsProfile] else [])
  {
    var tail: seq<string> := if awsProfile != "" then [AwsProfileTag + awsProfile] else [];
    var c := KubeSection(path, awsProfile, username);
    assert c == map["Tags" := KubeTags(awsProfile), "Command" := KubeCommand(path, awsProfile, username)];
    assert Iterm.Tags(c, now) == Ok([now] + Split(KubeTags(awsProfile), ',')) by {
      SectionTags(KubeTags(awsProfile), KubeCommand(path, awsProfile, username), now);
    }
    KubeTagsSplit(awsProfile);
    if awsProfile != "" {
      assert Split(KubeTags(awsProfile), ',') == ["k8s", AwsProfileTag + awsProfile];
      assert [now] + ["k8s", AwsProfileTag + awsProfile] == [now, "k8s"] + tail;
    } else {
      assert Split(KubeTags(awsProfile), ',') == ["k8s"];
      assert [now] + ["k8s"] == [now, "k8s"] + tail;
    }
  }

  /** The "Tags" entry splits into "k8s" and the aws-profile tag. */
  lemma KubeTagsSplit(awsProfile: string)
    requires ',' !in awsProfile
    ensures Split(KubeTags(awsProfile), ',') == ["k8s"] + if awsProfile != "" then [AwsProfileTag + awsProfile] else []
  {
    if awsProfile != "" {
      assert ',' !in AwsProfileTag + awsProfile;
      assert KubeTags(awsProfile) == "k8s" + [','] + (AwsProfileTag + awsProfile);
      SplitHead("k8s", AwsProfileTag + awsProfile, ',');
      SplitNoSep(AwsProfileTag + awsProfile, ',');
    } else {
      SplitNoSep("k8s", ',');
    }
  }

  /** A section holding only "Tags" and "Command" is tagged with the
      timestamp and the comma-separated items of "Tags". */
  lemma SectionTags(tags: string, command: string, now: string)
    ensures Iterm.Tags(map["Tags" := tags, "Command" := command], now) == Ok([now] + Split(tags, ','))
  {
    var c := map["Tags" := tags, "Command" := command];
    assert Iterm.TimestampsEnabled(c);
    assert "sso_account_id" !in c && "source_profile" !in c && "tags" !in c;
    assert Iterm.SplitField(c, "role_arn", ':', 4) == Ok([]);
    assert Iterm.SplitField(c, "azure_app_id_uri", '#', 1) == Ok([]);
    assert Iterm.SplitField(c, "azure_default_role_arn", ':', 5) == Ok([]);
    var e: seq<string> := [];
    var items := Split(tags, ',');
    assert Iterm.ListAt(c, "Tags") == items;
    assert Iterm.ListAt(c, "tags") == e;
    assert Iterm.Tags(c, now) == Ok([now] + e + e + e + e + e + items + e);
    assert [now] + e + e + e + e + e + items + e == [now] + items;
  }

  /** A single-cluster kubeconfig with a user always yields a profile,
      named after the last element of the cluster name and running the
      environment command. */
  lemma KubeProfileIdentity(k: KubeConfig, path: string, username: string, env: Iterm.Environment)
    requires |k.clusters| == 1 && |k.users| > 0
    ensures var r := KubeProfile(k, path, username, env);
      && r.Ok?
      && r.value.name == "k8s-" + Base(k.clusters[0].name)
      && r.value.command == KubeCommand(path, AWSProfile(k).value, username)
      && r.value.customCommand == "Yes"
  {
    KubeProfileIs(k, path, username, env);
    KubeSectionProfileIdentity("k8s-" + Base(k.clusters[0].name), path, AWSProfile(k).value, username, env);
  }

  /** The profile of a kube section runs the section's command. */
  lemma KubeSectionProfileIdentity(name: string, path: string, awsProfile: string, username: string, env: Iterm.Environment)
    ensures var r := Iterm.NewProfile(name, KubeSection(path, awsProfile, username), env);
      && r.Ok? && r.value.name == name
      && r.value.command == KubeCommand(path, awsProfile, username)
      && r.value.customCommand == "Yes"
  {
    var c := KubeSection(path, awsProfile, username);
    Iterm.NewProfileSucceeds(name, c, env);
    Iterm.NewProfileIdentity(name, c, env);
  }

  /** Its tags are the timestamp, "k8s" and, with an AWS profile, the
      aws-profile tag naming it. */
  lemma KubeProfileTags(k: KubeConfig, path: string, username: string, env: Iterm.Environment)
    requires |k.clusters| == 1 && |k.users| > 0
    requires ',' !in AWSProfile(k).value
    ensures var r := KubeProfile(k, path, username, env);
      var awsProfile := AWSProfile(k).value;
      && r.Ok?
      && r.value.tags == [env.now, "k8s"] + (if awsProfile != "" then [AwsProfileTag + awsProfile] else [])
  {
    var awsProfile := AWSProfile(k).value;
    var name := "k8s-" + Base(k.clusters[0].name);
    var c := KubeSection(path, awsProfile, username);
    KubeProfileIs(k, path, username, env);
    KubeSectionProfileTags(name, path, awsProfile, username, env);
  }

  /** The profile of a kube section carries the section's tags. */
  lemma KubeSectionProfileTags(name: string, path: string, awsProfile: string, username: string, env: Iterm.Environment)
    requires ',' !in awsProfile
    ensures var r := Iterm.NewProfile(name, KubeSection(path, awsProfile, username), env);
      && r.Ok?
      && r.value.tags == [env.now, "k8s"] + (if awsProfile != "" then [AwsProfileTag + awsProfile] else [])
  {
    var c := KubeSection(path, awsProfile, username);
    KubeSectionTags(path, awsProfile, username, env.now);
    Iterm.NewProfileTags(name, c, env, [env.now, "k8s"] + (if awsProfile != "" then [AwsProfileTag + awsProfile] else []));
  }

  /** With one cluster and a user, the profile is NewProfile of the
      kube section. */
  lemma KubeProfileIs(k: KubeConfig, path: string, username: string, env: Iterm.Environment)
    requires |k.clusters| == 1 && |k.users| > 0
    ensures AWSProfile(k).Ok?
    ensures KubeProfile(k, path, username, env)
      == Iterm.NewProfile("k8s-" + Base(k.clusters[0].name), KubeSection(path, AWSProfile(k).value, username), env)
  {
  }

  /** name, AWSProfile, Profile and Print all abort unless the kubeconfig
      holds exactly one cluster; AWSProfile and Profile also need a user. */
  lemma SingleClusterGuards(k: KubeConfig, path: string, username: string, env: Iterm.Environment)
    ensures Name(k).Ok? <==> |k.clusters| == 1
    ensures Print(k, path).Ok? <==> |k.clusters| == 1
    ensures AWSProfile(k).Ok? <==> |k.clusters| == 1 && |k.users| > 0
    ensures KubeProfile(k, path, username, env).Ok? <==> |k.clusters| == 1 && |k.users| > 0
  {
    if |k.clusters| == 1 && |k.users| > 0 {
      KubeProfileIs(k, path, username, env);
      KubeSectionProfileIdentity("k8s-" + Base(k.clusters[0].name), path, AWSProfile(k).value, username, env);
    }
  }

  const DryRunDir := "dry/run/path/"

  /** The profile of the cluster named name: its slice, the path of its
      file (a fixed directory in dry mode), and the slice's profile. */
  function ClusterProfile(k: KubeConfig, name: string, dest: string, dry: bool,
                          username: string, env: Iterm.Environment): Result<Iterm.Profile>
  {
    var slice := Slice(k, name);
    var clusterName :- Name(slice);
    var path :- if dry then Ok(DryRunDir + clusterName) else Print(slice, dest);
    KubeProfile(slice, path, username, env)
  }

  /** The profiles of clusters i and later, in cluster order. */
  function KubeProfilesFrom(k: KubeConfig, dest: string, dry: bool, username: string,
                            env: Iterm.Environment, i: nat): Result<seq<Iterm.Profile>>
    requires i <= |k.clusters|
    decreases |k.clusters| - i
  {
    if i == |k.clusters| then Ok([])
    else
      var prof :- ClusterProfile(k, k.clusters[i].name, dest, dry, username, env);
      var rest :- KubeProfilesFrom(k, dest, dry, username, env, i + 1);
      Ok([prof] + rest)
  }

  /** The body of KubeConfig.Profiles' loop for the cluster named name:
      slice the kubeconfig, find where its file goes, build its profile. */
  method ProfileOfCluster(k: KubeConfig, name: string, dest: string, dry: bool, username: string, env: Iterm.Environment)
    returns (r: Result<Iterm.Profile>)
    requires exists i :: 0 <= i < |k.clusters| && k.clusters[i].name == name
    ensures r == ClusterProfile(k, name, dest, dry, username, env)
  {
    var slice, found := GetCluster(k, name);
    if !found {
      assert false;
      return Failure("Cluster not found");
    }
    var clusterName := Name(slice);
    if clusterName.Failure? {
      return Failure(clusterName.reason);
    }
    var path := DryRunDir + clusterName.value;
    if !dry {
      var printed := Print(slice, dest);
      if printed.Failure? {
        return Failure(printed.reason);
      }
      path := printed.value;
    }
    r := Profile(slice, path, username, env);
  }

  /** KubeConfig.Profiles(dest, dry): one profile per cluster. */
  method Profiles(k: KubeConfig, dest: string, dry: bool, username: string, env: Iterm.Environment)
    returns (r: Result<seq<Iterm.Profile>>)
    ensures r == KubeProfilesFrom(k, dest, dry, username, env, 0)
  {
    var ret: seq<Iterm.Profile> := [];
    PrependNothing(KubeProfilesFrom(k, dest, dry, username, env, 0));
    var i := 0;
    while i < |k.clusters|
      invariant 0 <= i <= |k.clusters|
      invariant KubeProfilesFrom(k, dest, dry, username, env, 0)
                == Prepend(ret, KubeProfilesFrom(k, dest, dry, username, env, i))
    {
      var cluster := k.clusters[i];
      var profile := ProfileOfCluster(k, cluster.name, dest, dry, username, env);
      KubeProfilesFromStep(k, dest, dry, username, env, i, ret);
      if profile.Failure? {
        return Failure(profile.reason);
      }
      ret := ret + [profile.value];
      i := i + 1;
    }
    assert ret + [] == ret;
    return Ok(ret);
  }

  /** One step of the loop of Profiles: a failing cluster ends the list
      with its failure; otherwise its profile moves into the prefix. */
  lemma KubeProfilesFromStep(k: KubeConfig, dest: string, dry: bool, username: string,
                             env: Iterm.Environment, i: nat, done: seq<Iterm.Profile>)
    requires i < |k.clusters|
    ensures var p := ClusterProfile(k, k.clusters[i].name, dest, dry, username, env);
      && (p.Failure? ==> KubeProfilesFrom(k, dest, dry, username, env, i) == Failure(p.reason))
      && (p.Ok? ==> Prepend(done, KubeProfilesFrom(k, dest, dry, username, env, i))
                    == Prepend(done + [p.value], KubeProfilesFrom(k, dest, dry, username, env, i + 1)))
  {
    var p := ClusterProfile(k, k.clusters[i].name, dest, dry, username, env);
    if p.Ok? {
      PrependStep(done, [p.value], KubeProfilesFrom(k, dest, dry, username, env, i + 1));
    }
  }

  /** Every cluster's slice has exactly that one cluster, so the only way
      for a cluster's profile to fail is a kubeconfig without a user of
      the cluster's name. */
  lemma ClusterProfileFails(k: KubeConfig, i: nat, dest: string, dry: bool, username: string, env: Iterm.Environment)
    requires i < |k.clusters|
    ensures ClusterProfile(k, k.clusters[i].name, dest, dry, username, env).Failure?
            <==> forall m :: 0 <= m < |k.users| ==> k.users[m].name != k.clusters[i].name
  {
    var name := k.clusters[i].name;
    var slice := Slice(k, name);
    SliceShape(k, name);
    assert slice.clusters != [];
    var path := if dry then DryRunDir + name else DestinationFile(dest, name);
    assert slice.clusters[0].name == name;
    SingleClusterGuards(slice, path, username, env);
  }

  /** A user of the given name. */
  predicate HasUser(k: KubeConfig, name: string) {
    exists m :: 0 <= m < |k.users| && k.users[m].name == name
  }

  /** Profiles succeeds exactly when every cluster has a user of its name. */
  lemma {:induction false} KubeProfilesSucceed(k: KubeConfig, dest: string, dry: bool, username: string,
                                               env: Iterm.Environment, i: nat)
    requires i <= |k.clusters|
    ensures KubeProfilesFrom(k, dest, dry, username, env, i).Ok?
            <==> forall c :: i <= c < |k.clusters| ==> HasUser(k, k.clusters[c].name)
    decreases |k.clusters| - i
  {
    if i < |k.clusters| {
      KubeProfilesStep(k, dest, dry, username, env, i);
      KubeProfilesSucceed(k, dest, dry, username, env, i + 1);
      UsersFromStep(k, i);
    }
  }

  /** Every cluster from i on has a user exactly when cluster i does and
      every cluster after it does. */
  lemma UsersFromStep(k: KubeConfig, i: nat)
    requires i < |k.clusters|
    ensures (forall c :: i <= c < |k.clusters| ==> HasUser(k, k.clusters[c].name))
            <==> HasUser(k, k.clusters[i].name) && forall c :: i + 1 <= c < |k.clusters| ==> HasUser(k, k.clusters[c].name)
  {
  }

  /** Clusters i and later succeed when cluster i and those after it do. */
  lemma KubeProfilesStep(k: KubeConfig, dest: string, dry: bool, username: string,
                         env: Iterm.Environment, i: nat)
    requires i < |k.clusters|
    ensures KubeProfilesFrom(k, dest, dry, username, env, i).Ok?
            <==> HasUser(k, k.clusters[i].name) && KubeProfilesFrom(k, dest, dry, username, env, i + 1).Ok?
  {
    ClusterProfileFails(k, i, dest, dry, username, env);
  }

  /** Then it yields one profile per cluster, in cluster order. */
  lemma {:induction false} KubeProfilesAt(k: KubeConfig, dest: string, dry: bool, username: string,
                                          env: Iterm.Environment, i: nat, c: nat)
    requires i <= c < |k.clusters|
    requires KubeProfilesFrom(k, dest, dry, username, env, i).Ok?
    ensures var r := KubeProfilesFrom(k, dest, dry, username, env, i).value;
      && |r| == |k.clusters| - i
      && ClusterProfile(k, k.clusters[c].name, dest, dry, username, env).Ok?
      && r[c - i] == ClusterProfile(k, k.clusters[c].name, dest, dry, username, env).value
    decreases |k.clusters| - i
  {
    KubeProfilesCons(k, dest, dry, username, env, i);
    var r := KubeProfilesFrom(k, dest, dry, username, env, i).value;
    var p := ClusterProfile(k, k.clusters[i].name, dest, dry, username, env).value;
    var rest := KubeProfilesFrom(k, dest, dry, username, env, i + 1).value;
    if c > i {
      KubeProfilesAt(k, dest, dry, username, env, i + 1, c);
      ConsAt(p, rest, c - i);
    } else {
      if i + 1 < |k.clusters| {
        KubeProfilesAt(k, dest, dry, username, env, i + 1, i + 1);
      } else {
        assert rest == [];
      }
      ConsAt(p, rest, 0);
    }
  }

  /** A successful list is cluster i's profile followed by the rest. */
  lemma KubeProfilesCons(k: KubeConfig, dest: string, dry: bool, username: string,
                         env: Iterm.Environment, i: nat)
    requires i < |k.clusters|
    requires KubeProfilesFrom(k, dest, dry, username, env, i).Ok?
    ensures var p := ClusterProfile(k, k.clusters[i].name, dest, dry, username, env);
      var rest := KubeProfilesFrom(k, dest, dry, username, env, i + 1);
      && p.Ok? && rest.Ok?
      && KubeProfilesFrom(k, dest, dry, username, env, i).value == [p.value] + rest.value
  {
  }

  /** In dry mode a cluster's profile reads the kubeconfig from the fixed
      directory and carries the cluster name's last element. */
  lemma DryClusterProfile(k: KubeConfig, i: nat, username: string, env: Iterm.Environment)
    requires i < |k.clusters| && HasUser(k, k.clusters[i].name)
    ensures var name := k.clusters[i].name;
      var r := ClusterProfile(k, name, "", true, username, env);
      && r.Ok?
      && r.value.name == "k8s-" + Base(name)
      && r.value.command == KubeCommand(DryRunDir + name, AWSProfile(Slice(k, name)).value, username)
  {
    var name := k.clusters[i].name;
    var slice := Slice(k, name);
    SliceShape(k, name);
    assert slice.clusters != [] && slice.clusters[0].name == name;
    KubeProfileIdentity(slice, DryRunDir + name, username, env);
  }

  /** The command starts by pointing KUBECONFIG at the path. */
  lemma KubeCommandStartsWithPath(path: string, awsProfile: string, username: string)
    ensures HasPrefix(KubeCommand(path, awsProfile, username), EnvHead + path)
  {
    var head := EnvHead + path;
    var cmd := KubeCommand(path, awsProfile, username);
    if awsProfile != "" {
      assert cmd == head + (AwsProfileHead + awsProfile + LoginHead + username);
    } else {
      assert cmd == head + (LoginHead + username);
    }
  }
}
