/** The AWS shared-config reader (aws/main.go): each named section of
    ~/.aws/config gives an iTerm2 profile that logs in with that profile,
    and a section without a source_profile also gives a `login-` profile. */
module Aws {
  import opened Wrappers
  import opened GoStrings
  import Iterm
  import EstateCommands

  type Config = Iterm.Config

  const CommandKey := "Command"
  const SourceKey := "source_profile"
  const AzureKey := "azure_tenant_id"
  const ProfilePrefix := "profile "
  const LoginPrefix := "login-"

  const EnvHead := "/usr/bin/env AWS_PROFILE="
  const LoginHead := " /usr/bin/login -fp "
  const BashHead := "bash -c 'AWS_PROFILE="
  const PathHead := " PATH="
  const CertsHead := " NODE_EXTRA_CA_CERTS="
  const AzureLogin := " aws-azure-login --no-prompt"
  const ToolMissing := "Cannot find executable"

  /** What add and loginCmd read from the machine: the current user's
      name, the directory exec.LookPath finds aws-azure-login in (None
      when it is not on the PATH) and $NODE_EXTRA_CA_CERTS. */
  datatype Host = Host(username: string, toolDir: Option<string>, caCerts: string)

  /** The command of a section's own profile. */
  function EnvCommand(name: string, username: string): string {
    EnvHead + name + LoginHead + username
  }

  /** loginCmd's Azure command before its `|| sleep 60` fallback. */
  function AzureCommand(name: string, dir: string, caCerts: string): string {
    (BashHead + name) + (PathHead + dir + CertsHead + caCerts + AzureLogin)
  }

  /** loginCmd, told whether the section has azure_tenant_id: nothing
      for a section without it; otherwise
      the aws-azure-login call, which ends the process when the tool is
      not installed. */
  function LoginCommand(name: string, azure: bool, host: Host): Result<string> {
    if !azure then Ok("")
    else if host.toolDir.None? then Failure(ToolMissing)
    else Ok(AzureCommand(name, host.toolDir.value, host.caCerts) + EstateCommands.SleepSuffix)
  }

  /** The login command is empty exactly for non-Azure sections, fails
      exactly when the Azure tool is missing, and otherwise starts with
      the profile assignment and ends with the sleep fallback that
      generateCommands strips. */
  lemma LoginCommandCases(name: string, azure: bool, host: Host)
    ensures LoginCommand(name, azure, host) == Ok("") <==> !azure
    ensures LoginCommand(name, azure, host).Failure? <==> azure && host.toolDir.None?
    ensures azure && host.toolDir.Some? ==>
      var cmd := LoginCommand(name, azure, host).value;
      && HasPrefix(cmd, BashHead + name)
      && HasSuffix(cmd, AzureLogin + EstateCommands.SleepSuffix)
  {
    if azure && host.toolDir.Some? {
      var middle := PathHead + host.toolDir.value + CertsHead + host.caCerts;
      assert LoginCommand(name, azure, host).value == ((BashHead + name) + (middle + AzureLogin)) + EstateCommands.SleepSuffix;
      Ends(BashHead + name, middle, AzureLogin, EstateCommands.SleepSuffix);
    }
  }

  /** The ends of a + (m + l) + s. */
  lemma Ends(a: string, m: string, l: string, s: string)
    ensures HasPrefix((a + (m + l)) + s, a)
    ensures HasSuffix((a + (m + l)) + s, l + s)
  {
    var x := (a + (m + l)) + s;
    assert x == (a + m) + (l + s);
    assert x[..|a|] == a;
    assert x[|a + m|..] == l + s;
  }

  /** The profiles add appends for the section name, in order: the
      section's own profile, whose config has Command set to the env
      command, and, when there is no source_profile, the `login-`
      profile. */
  function AddedProfiles(name: string, c: Config, host: Host, env: Iterm.Environment): Result<seq<Iterm.Profile>> {
    var first := c[CommandKey := EnvCommand(name, host.username)];
    var profile :- Iterm.NewProfile(name, first, env);
    if SourceKey in first then Ok([profile])
    else
      var rest :- LoginProfiles(name, first, host, env);
      Ok([profile] + rest)
  }

  /** The `login-` profile, whose config has Command replaced by the
      login command. */
  function LoginProfiles(name: string, c: Config, host: Host, env: Iterm.Environment): Result<seq<Iterm.Profile>> {
    var login :- LoginCommand(name, AzureKey in c, host);
    var loginProfile :- Iterm.NewProfile(LoginPrefix + name, c[CommandKey := login], env);
    Ok([loginProfile])
  }

  /** add: appends the section's profiles to p and returns the section's
      config as it mutates it: Command holds the env command when there
      is a source_profile and the login command otherwise. */
  method Add(p: Iterm.Profiles, name: string, config: Config, host: Host, env: Iterm.Environment)
    returns (r: Result<Config>)
    modifies p
    ensures r.Ok? <==> AddedProfiles(name, config, host, env).Ok?
    ensures r.Failure? ==> AddedProfiles(name, config, host, env) == Failure(r.reason)
    ensures r.Ok? ==> p.profiles == old(p.profiles) + AddedProfiles(name, config, host, env).value
    ensures r.Ok? && SourceKey in config ==> r.value == config[CommandKey := EnvCommand(name, host.username)]
    ensures r.Ok? && SourceKey !in config ==>
      LoginCommand(name, AzureKey in config, host).Ok? && r.value == config[CommandKey := LoginCommand(name, AzureKey in config, host).value]
  {
    var c := config[CommandKey := EnvCommand(name, host.username)];
    var profile := Iterm.NewProfile(name, c, env);
    if profile.Failure? {
      return Failure(profile.reason);
    }
    AddedProfilesOk(name, config, host, env);
    ghost var before := p.profiles;
    p.Add(profile.value);
    if SourceKey !in c {
      r := AddLogin(p, name, c, host, env);
      if r.Ok? {
        UpdateTwice(config, CommandKey, EnvCommand(name, host.username), LoginCommand(name, AzureKey in c, host).value);
        assert p.profiles == before + ([profile.value] + LoginProfiles(name, c, host, env).value);
      }
    } else {
      r := Ok(c);
    }
  }

  /** Once the section's own profile is built, what add contributes is
      that profile, followed by the login profile when there is no
      source_profile. */
  lemma AddedProfilesOk(name: string, config: Config, host: Host, env: Iterm.Environment)
    requires Iterm.NewProfile(name, config[CommandKey := EnvCommand(name, host.username)], env).Ok?
    ensures var c := config[CommandKey := EnvCommand(name, host.username)];
      var first := Iterm.NewProfile(name, c, env).value;
      AddedProfiles(name, config, host, env)
        == if SourceKey in config then Ok([first]) else Prepend([first], LoginProfiles(name, c, host, env))
  {
  }

  lemma UpdateTwice(m: map<string, string>, k: string, a: string, b: string)
    ensures m[k := a][k := b] == m[k := b]
  {
  }

  /** The second half of add, for a section without a source_profile:
      Command becomes the login command and the `login-` profile is
      appended. */
  method AddLogin(p: Iterm.Profiles, name: string, c: Config, host: Host, env: Iterm.Environment)
    returns (r: Result<Config>)
    modifies p
    ensures r.Ok? <==> LoginProfiles(name, c, host, env).Ok?
    ensures r.Failure? ==> LoginProfiles(name, c, host, env) == Failure(r.reason)
    ensures r.Ok? ==> p.profiles == old(p.profiles) + LoginProfiles(name, c, host, env).value
    ensures r.Ok? ==> LoginCommand(name, AzureKey in c, host).Ok? && r.value == c[CommandKey := LoginCommand(name, AzureKey in c, host).value]
  {
    var login := LoginCommand(name, AzureKey in c, host);
    if login.Failure? {
      return Failure(login.reason);
    }
    var loginConfig := c[CommandKey := login.value];
    var loginProfile := Iterm.NewProfile(LoginPrefix + name, loginConfig, env);
    if loginProfile.Failure? {
      return Failure(loginProfile.reason);
    }
    p.Add(loginProfile.value);
    r := Ok(loginConfig);
  }

  /** Setting a key that neither Tags nor the AllowTitleSetting check
      reads does not change whether NewProfile fails. */
  lemma NewProfileFailureIgnores(name: string, c: Config, key: string, v: string, env: Iterm.Environment)
    requires key !in Iterm.TagKeys && key != "AllowTitleSetting"
    ensures Iterm.NewProfile(name, c[key := v], env).Failure? <==> Iterm.NewProfile(name, c, env).Failure?
  {
    var d := c[key := v];
    assert forall k :: k in Iterm.TagKeys ==> (k in d <==> k in c) && (k in c ==> d[k] == c[k]);
  }

  /** add fails exactly when the section's profile cannot be built, or,
      for a section without a source_profile, when the Azure tool is
      missing or the login profile cannot be built. */
  lemma AddedProfilesFail(name: string, c: Config, host: Host, env: Iterm.Environment)
    ensures AddedProfiles(name, c, host, env).Failure? <==>
      || Iterm.NewProfile(name, c, env).Failure?
      || (SourceKey !in c && AzureKey in c && host.toolDir.None?)
  {
    var first := c[CommandKey := EnvCommand(name, host.username)];
    NewProfileFailureIgnores(name, c, CommandKey, EnvCommand(name, host.username), env);
    if SourceKey !in c {
      LoginProfilesShape(name, first, host, env);
      NewProfileFailureIgnores(LoginPrefix + name, first, CommandKey, EnvCommand(name, host.username), env);
      NewProfileFailureIgnores(LoginPrefix + name, c, CommandKey, EnvCommand(name, host.username), env);
      NewProfileIgnoresName(name, LoginPrefix + name, c, env);
    }
  }

  /** Whether NewProfile fails does not depend on the profile's name. */
  lemma NewProfileIgnoresName(name: string, other: string, c: Config, env: Iterm.Environment)
    ensures Iterm.NewProfile(name, c, env).Failure? <==> Iterm.NewProfile(other, c, env).Failure?
  {
  }

  /** add appends one profile for a section with a source_profile and two
      otherwise, the first named after the section and the second after
      its login profile. */
  lemma AddedProfilesShape(name: string, c: Config, host: Host, env: Iterm.Environment)
    requires AddedProfiles(name, c, host, env).Ok?
    ensures var r := AddedProfiles(name, c, host, env).value;
      && |r| == (if SourceKey in c then 1 else 2)
      && r[0].name == name && r[0].guid == name
      && (SourceKey !in c ==> r[1].name == LoginPrefix + name && r[1].guid == LoginPrefix + name)
  {
    var first := c[CommandKey := EnvCommand(name, host.username)];
    assert Iterm.NewProfile(name, first, env).Ok?;
    AddedProfilesOk(name, c, host, env);
    Iterm.NewProfileIdentity(name, first, env);
    if SourceKey !in c {
      LoginProfilesShape(name, first, host, env);
    }
  }

  /** Unless the section sets its own lower-case `command` (which
      NewProfile prefers), the section's profile runs the env command and
      the login profile runs the login command. */
  lemma AddedProfilesCommands(name: string, c: Config, host: Host, env: Iterm.Environment)
    requires AddedProfiles(name, c, host, env).Ok? && "command" !in c
    ensures var r := AddedProfiles(name, c, host, env).value;
      && |r| > 0 && r[0].command == EnvCommand(name, host.username) && r[0].customCommand == "Yes"
      && (SourceKey !in c ==>
           |r| == 2 && LoginCommand(name, AzureKey in c, host).Ok?
           && r[1].command == LoginCommand(name, AzureKey in c, host).value)
  {
    var first := c[CommandKey := EnvCommand(name, host.username)];
    assert Iterm.NewProfile(name, first, env).Ok?;
    AddedProfilesOk(name, c, host, env);
    Iterm.NewProfileIdentity(name, first, env);
    if SourceKey !in c {
      var login := LoginCommand(name, AzureKey in first, host).value;
      Iterm.NewProfileIdentity(LoginPrefix + name, first[CommandKey := login], env);
    }
  }

  lemma LoginProfilesShape(name: string, c: Config, host: Host, env: Iterm.Environment)
    ensures var r := LoginProfiles(name, c, host, env);
      && (r.Failure? <==> (AzureKey in c && host.toolDir.None?) || Iterm.NewProfile(LoginPrefix + name, c, env).Failure?)
      && (r.Ok? ==> |r.value| == 1 && r.value[0].name == LoginPrefix + name && r.value[0].guid == LoginPrefix + name)
  {
    var login := LoginCommand(name, AzureKey in c, host);
    if login.Ok? {
      NewProfileFailureIgnores(LoginPrefix + name, c, CommandKey, login.value, env);
      if Iterm.NewProfile(LoginPrefix + name, c[CommandKey := login.value], env).Ok? {
        Iterm.NewProfileIdentity(LoginPrefix + name, c[CommandKey := login.value], env);
      }
    }
  }

  // ---------------------------------------------------------------------
  // Profiles: every section of the config file

  /** What add contributes for the section called name: nothing for
      the unnamed section, otherwise the profiles of its name with a
      leading "profile " stripped. */
  function SectionProfiles(sections: map<string, Config>, name: string, host: Host, env: Iterm.Environment)
    : Result<seq<Iterm.Profile>>
    requires name in sections
  {
    if name == "" then Ok([]) else AddedProfiles(TrimPrefix(name, ProfilePrefix), sections[name], host, env)
  }

  /** The contribution of each section, in `order`. */
  function SectionResults(sections: map<string, Config>, order: seq<string>, host: Host, env: Iterm.Environment)
    : (r: seq<Result<seq<Iterm.Profile>>>)
    requires forall m :: 0 <= m < |order| ==> order[m] in sections
    ensures |r| == |order|
  {
    seq(|order|, m requires 0 <= m < |order| => SectionProfiles(sections, order[m], host, env))
  }

  /** Profiles: the profiles of every section of the parsed config file,
      visiting the sections in `order` (Go's map iteration order); the
      first section that fails ends the process. */
  method Profiles(sections: map<string, Config>, order: seq<string>, host: Host, env: Iterm.Environment)
    returns (r: Result<seq<Iterm.Profile>>)
    requires IsEnumeration(order, sections.Keys)
    ensures r == ConcatFrom(SectionResults(sections, order, host, env), 0)
  {
    var prof := new Iterm.Profiles();
    r := VisitSections(prof, sections, order, host, env);
    PrependNothing(ConcatFrom(SectionResults(sections, order, host, env), 0));
  }

  /** The loop of Profiles over the sections in `order`, appending to
      prof. */
  method VisitSections(prof: Iterm.Profiles, sections: map<string, Config>, order: seq<string>, host: Host, env: Iterm.Environment)
    returns (r: Result<seq<Iterm.Profile>>)
    requires forall m :: 0 <= m < |order| ==> order[m] in sections
    modifies prof
    ensures r == Prepend(old(prof.profiles), ConcatFrom(SectionResults(sections, order, host, env), 0))
  {
    ghost var parts := SectionResults(sections, order, host, env);
    var i := 0;
    while i < |order|
      invariant 0 <= i <= |order|
      invariant Prepend(old(prof.profiles), ConcatFrom(parts, 0)) == Prepend(prof.profiles, ConcatFrom(parts, i))
    {
      var failed := VisitSection(prof, sections, order, i, host, env);
      if failed.Some? {
        return Failure(failed.value);
      }
      i := i + 1;
    }
    assert prof.profiles + [] == prof.profiles;
    return Ok(prof.profiles);
  }

  /** The body of the Profiles loop for section order[i]: the unnamed
      section is skipped, any other is added under its trimmed name;
      the failure of add, if any, is returned. */
  method VisitSection(prof: Iterm.Profiles, sections: map<string, Config>, order: seq<string>, i: nat,
                      host: Host, env: Iterm.Environment)
    returns (failed: Option<string>)
    requires i < |order| && forall m :: 0 <= m < |order| ==> order[m] in sections
    modifies prof
    ensures var parts := SectionResults(sections, order, host, env);
      && (failed.Some? ==> ConcatFrom(parts, i) == Failure(failed.value))
      && (failed.None? ==> Prepend(old(prof.profiles), ConcatFrom(parts, i)) == Prepend(prof.profiles, ConcatFrom(parts, i + 1)))
  {
    ghost var parts := SectionResults(sections, order, host, env);
    ConcatFromStep(parts, i, prof.profiles);
    var name := order[i];
    failed := None;
    if name != "" {
      var tName := TrimPrefix(name, ProfilePrefix);
      var added := Add(prof, tName, sections[name], host, env);
      if added.Failure? {
        failed := Some(added.reason);
      }
    } else {
      assert prof.profiles + [] == prof.profiles;
    }
  }

  /** How many profiles add gives for the section called name: none
      for the unnamed section, one for a section with a source_profile,
      two for any other. */
  function SectionSize(sections: map<string, Config>, name: string): nat
    requires name in sections
  {
    if name == "" then 0 else if SourceKey in sections[name] then 1 else 2
  }

  /** How many profiles the sections from i give. */
  function ProfileCount(sections: map<string, Config>, order: seq<string>, i: nat): nat
    requires i <= |order| && forall m :: 0 <= m < |order| ==> order[m] in sections
    decreases |order| - i
  {
    if i == |order| then 0 else SectionSize(sections, order[i]) + ProfileCount(sections, order, i + 1)
  }

  /** The number of named sections from i. */
  function NamedCount(order: seq<string>, i: nat): nat
    requires i <= |order|
    decreases |order| - i
  {
    if i == |order| then 0
    else (if order[i] == "" then 0 else 1) + NamedCount(order, i + 1)
  }

  /** A successful section contributes SectionSize profiles. */
  lemma SectionLength(sections: map<string, Config>, name: string, host: Host, env: Iterm.Environment)
    requires name in sections && SectionProfiles(sections, name, host, env).Ok?
    ensures |SectionProfiles(sections, name, host, env).value| == SectionSize(sections, name)
  {
    if name != "" {
      AddedProfilesShape(TrimPrefix(name, ProfilePrefix), sections[name], host, env);
    }
  }

  /** Parts of SectionSize each add up to ProfileCount, which lies
      between one and two per named section. */
  lemma {:induction false} CountOfSizes(sections: map<string, Config>, order: seq<string>,
                                       parts: seq<Result<seq<Iterm.Profile>>>, i: nat)
    requires |parts| == |order| && i <= |order| && forall m :: 0 <= m < |order| ==> order[m] in sections
    requires forall m :: i <= m < |order| ==> parts[m].Ok? && |parts[m].value| == SectionSize(sections, order[m])
    ensures LengthBetween(parts, i, |order|) == ProfileCount(sections, order, i)
    ensures NamedCount(order, i) <= ProfileCount(sections, order, i) <= 2 * NamedCount(order, i)
    decreases |order| - i
  {
    if i < |order| {
      CountOfSizes(sections, order, parts, i + 1);
    }
  }

  /** When Profiles succeeds it gives one profile per named section with
      a source_profile and two per other named section, so between one
      and two per named section. */
  lemma ProfilesCount(sections: map<string, Config>, order: seq<string>, host: Host, env: Iterm.Environment)
    requires forall m :: 0 <= m < |order| ==> order[m] in sections
    requires ConcatFrom(SectionResults(sections, order, host, env), 0).Ok?
    ensures |ConcatFrom(SectionResults(sections, order, host, env), 0).value| == ProfileCount(sections, order, 0)
    ensures NamedCount(order, 0) <= ProfileCount(sections, order, 0) <= 2 * NamedCount(order, 0)
  {
    var parts := SectionResults(sections, order, host, env);
    if |order| == 0 {
      assert ConcatFrom(parts, 0) == Ok([]);
    } else {
      ConcatFromContents(parts, 0, 0);
      forall m | 0 <= m < |order|
        ensures |parts[m].value| == SectionSize(sections, order[m])
      {
        SectionLength(sections, order[m], host, env);
      }
      CountOfSizes(sections, order, parts, 0);
    }
  }

  /** Profiles fails exactly when add fails on some named section. */
  lemma ProfilesFail(sections: map<string, Config>, order: seq<string>, host: Host, env: Iterm.Environment)
    requires forall m :: 0 <= m < |order| ==> order[m] in sections
    ensures ConcatFrom(SectionResults(sections, order, host, env), 0).Failure? <==>
      exists m :: 0 <= m < |order| && order[m] != "" &&
        AddedProfiles(TrimPrefix(order[m], ProfilePrefix), sections[order[m]], host, env).Failure?
  {
    var parts := SectionResults(sections, order, host, env);
    ConcatFromFails(parts, 0);
    assert forall m :: 0 <= m < |order| ==> parts[m] == SectionProfiles(sections, order[m], host, env);
  }

  /** Each named section's profiles appear in the list, in section
      order. */
  lemma ProfilesHoldSection(sections: map<string, Config>, order: seq<string>, host: Host, env: Iterm.Environment, m: nat)
    requires forall n :: 0 <= n < |order| ==> order[n] in sections
    requires m < |order| && order[m] != ""
    requires ConcatFrom(SectionResults(sections, order, host, env), 0).Ok?
    ensures var parts := SectionResults(sections, order, host, env);
      && (forall n :: 0 <= n < |order| ==> parts[n].Ok?)
      && parts[m] == AddedProfiles(TrimPrefix(order[m], ProfilePrefix), sections[order[m]], host, env)
      && var start := LengthBetween(parts, 0, m);
         && start + |parts[m].value| <= |ConcatFrom(parts, 0).value|
         && ConcatFrom(parts, 0).value[start..start + |parts[m].value|] == parts[m].value
  {
    var parts := SectionResults(sections, order, host, env);
    assert parts[m] == AddedProfiles(TrimPrefix(order[m], ProfilePrefix), sections[order[m]], host, env) by {
      SectionResultAt(sections, order, host, env, m);
    }
    ConcatFromContents(parts, 0, m);
  }

  /** The contribution of a named section is its AddedProfiles. */
  lemma SectionResultAt(sections: map<string, Config>, order: seq<string>, host: Host, env: Iterm.Environment, m: nat)
    requires forall n :: 0 <= n < |order| ==> order[n] in sections
    requires m < |order| && order[m] != ""
    ensures SectionResults(sections, order, host, env)[m]
      == AddedProfiles(TrimPrefix(order[m], ProfilePrefix), sections[order[m]], host, env)
  {
  }
}
