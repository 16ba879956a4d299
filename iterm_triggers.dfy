/** The iTerm2 triggers every generated profile carries, and the
    package-install commands they type (iterm/triggers.go). The viper flag
    `aws_open_device_sso` and the two home-expanded key paths are inputs. */
module ItermTriggers {

  import opened GoStrings

  /** The iTerm2 trigger actions the profiles use, named as iTerm2 names them. */
  datatype TriggerAction = SendTextTrigger | PasswordTrigger | MuteCoprocessTrigger

  datatype Trigger = Trigger(action: TriggerAction, parameter: string, partial: bool, regex: string)

  const NotFoundHead := "^(bash|/bin/sh): "
  const NotFoundTail := ": (command )?not found"

  /** The shell's "command not found" message for `name`. */
  function NotFound(name: string): string {
    NotFoundHead + name + NotFoundTail
  }

  /** The message pattern tells command names apart: two names give the
      same pattern only when they are the same name. */
  lemma NotFoundInjective(a: string, b: string)
    ensures NotFound(a) == NotFound(b) <==> a == b
  {
    if NotFound(a) == NotFound(b) {
      assert |a| == |b|;
      assert NotFound(a)[|NotFoundHead|..|NotFoundHead| + |a|] == a;
      assert NotFound(b)[|NotFoundHead|..|NotFoundHead| + |b|] == b;
    }
  }

  /** The package name yum knows `name` by: openssh-client is the one
      package it calls differently. */
  function YumPackage(name: string): string {
    if name == "openssh-client" then "openssh-clients" else name
  }

  const YumHead := "(yum install --assumeyes "

  function Yum(name: string): string {
    YumHead + YumPackage(name) + ")"
  }

  const ApkHead := "apk add --no-cache "

  function Apk(name: string): string {
    ApkHead + name
  }

  /** Distinct package names give distinct apk commands. */
  lemma ApkInjective(a: string, b: string)
    ensures Apk(a) == Apk(b) <==> a == b
  {
    if Apk(a) == Apk(b) {
      assert Apk(a)[|ApkHead|..] == a;
      assert Apk(b)[|ApkHead|..] == b;
    }
  }

  const AptGetHead := "(apt-get update && apt-get --yes --no-install-recommends install "

  function AptGet(name: string): string {
    AptGetHead + name + ")"
  }

  /** The three package managers tried in turn, joined by " || ". */
  function Apt(name: string): string {
    Join([AptGet(name), Yum(name), Apk(name)], " || ")
  }

  /** The apt-get, yum and apk commands, in that order, each separated by " || ". */
  lemma AptTriesThree(name: string)
    ensures Apt(name) == AptGet(name) + " || " + Yum(name) + " || " + Apk(name)
  {
    var commands := [AptGet(name), Yum(name), Apk(name)];
    assert commands[1..][1..] == [Apk(name)];
    assert Join(commands[1..], " || ") == Yum(name) + " || " + Apk(name);
  }

  /** yum renames only openssh-client: every other package name reaches the
      command unchanged, so the yum command for openssh-client is the one
      for openssh-clients. */
  lemma YumRenamesOnlyOpensshClient(name: string)
    ensures name != "openssh-client" ==> Yum(name) == "(yum install --assumeyes " + name + ")"
    ensures Yum("openssh-client") == Yum("openssh-clients")
    ensures Yum(name) == Yum("openssh-clients") ==> name in {"openssh-client", "openssh-clients"}
  {
    var head := YumHead;
    assert name != "openssh-client" ==> YumPackage(name) == name;
    if Yum(name) == Yum("openssh-clients") {
      var s := Yum(name);
      assert s[|head|..|s| - 1] == YumPackage(name);
      assert Yum("openssh-clients")[|head|..|s| - 1] == "openssh-clients";
    }
  }

  /** Types the install command for `package` when the shell reports that
      `command` is missing. */
  function InstallTrigger(package: string, command: string): (r: Trigger)
    ensures r.action == SendTextTrigger && !r.partial
  {
    Trigger(SendTextTrigger, Apt(package), false, NotFound(command))
  }

  const DeviceSsoCommand := "open \"https://device.sso.ap-southeast-1.amazonaws.com/?user_code=\\1\""
  const DeviceCodePattern := "^([A-Z]{4}-[A-Z]{4})"

  /** Opens the AWS device-authorisation page for a code printed by `aws sso login`. */
  const DeviceSsoTrigger := Trigger(MuteCoprocessTrigger, DeviceSsoCommand, false, DeviceCodePattern)

  const PassphrasePrompt := "^Enter passphrase for (key ')?"

  /** The passphrase prompts for the two default keys: partial triggers
      that hand the key name to the password manager. */
  function PasswordTriggers(idRsa: string, idEd25519: string): (r: seq<Trigger>)
    ensures |r| == 2 && r[0].partial && r[1].partial
    ensures r[0].action == PasswordTrigger && r[1].action == PasswordTrigger
  {
    [ Trigger(PasswordTrigger, "id_rsa", true, PassphrasePrompt + idRsa),
      Trigger(PasswordTrigger, "id_ed25519", true, PassphrasePrompt + idEd25519) ]
  }

  /** The package to install for each command the shell may report missing:
      ssh-add, git and ping, in that order. */
  const MissingCommands: seq<(string, string)> :=
    [("openssh-client", "ssh-add"), ("git", "git"), ("iputils-ping", "ping")]

  /** One install trigger per entry of MissingCommands. */
  function InstallTriggers(): (r: seq<Trigger>)
    ensures |r| == 3 && forall j :: 0 <= j < |r| ==> !r[j].partial && r[j].action == SendTextTrigger
    ensures forall j :: 0 <= j < |r| ==> r[j] == InstallTrigger(MissingCommands[j].0, MissingCommands[j].1)
  {
    seq(|MissingCommands|, j requires 0 <= j < |MissingCommands| =>
      InstallTrigger(MissingCommands[j].0, MissingCommands[j].1))
  }

  /** The install triggers answer different messages and type different
      commands: no two share a regex or a parameter. */
  lemma InstallTriggersDistinct()
    ensures forall i, j :: 0 <= i < j < |InstallTriggers()| ==>
      InstallTriggers()[i].regex != InstallTriggers()[j].regex
      && InstallTriggers()[i].parameter != InstallTriggers()[j].parameter
  {
    var t := InstallTriggers();
    var fixedLength := |AptGetHead| + 1 + |" || "| + |YumHead| + 1 + |" || "| + |ApkHead|;
    forall k | 0 <= k < 3
      ensures t[k].regex == NotFound(MissingCommands[k].1)
      ensures |t[k].parameter| == fixedLength + 2 * |MissingCommands[k].0| + |YumPackage(MissingCommands[k].0)|
    {
      AptTriesThree(MissingCommands[k].0);
    }
    assert YumPackage("openssh-client") == "openssh-clients";
    assert YumPackage("git") == "git" && YumPackage("iputils-ping") == "iputils-ping";
    NotFoundInjective("ssh-add", "git");
    NotFoundInjective("ssh-add", "ping");
    NotFoundInjective("git", "ping");
  }

  const AutoLogoutPrompt := "^# timed out waiting for input: auto-logout"
  const TerraformInitPrompt := "^This module is not yet installed. Run \"terraform init\" to install all modules"
  const PermissionDeniedPrompt := "^zsh: permission denied: .*"
  const SetUpstreamPrompt := "^To push the current branch and set the remote as upstream"
  const SetUpstreamCommand := "git push --set-upstream origin $(git rev-parse --abbrev-ref HEAD)"

  /** The remaining fixed replies: auto-logout, terraform init, chmod, git push. */
  function ShellTriggers(): (r: seq<Trigger>)
    ensures |r| == 4 && forall j :: 0 <= j < |r| ==> !r[j].partial && r[j].action == SendTextTrigger
  {
    [ Trigger(SendTextTrigger, "top\\r", false, AutoLogoutPrompt),
      Trigger(SendTextTrigger, "terraform init", false, TerraformInitPrompt),
      Trigger(SendTextTrigger, "chmod +x !:0 && !!", false, PermissionDeniedPrompt),
      Trigger(SendTextTrigger, SetUpstreamCommand, false, SetUpstreamPrompt) ]
  }

  /** The nine triggers every profile gets, in order. */
  function FixedTriggers(idRsa: string, idEd25519: string): (r: seq<Trigger>)
    ensures |r| == 9
    ensures r[1..3] == PasswordTriggers(idRsa, idEd25519)
    ensures forall j :: 0 <= j < |r| && r[j].partial ==> j == 1 || j == 2
    ensures forall j :: 0 <= j < |r| ==> r[j].action != MuteCoprocessTrigger
  {
    var shell := ShellTriggers();
    [shell[0]] + PasswordTriggers(idRsa, idEd25519) + InstallTriggers() + shell[1..]
  }

  /** Triggers(profile) in the source; the profile name it is given is not
      used. The device-code trigger comes first when the flag is set. */
  function Triggers(openDeviceSso: bool, idRsa: string, idEd25519: string): (r: seq<Trigger>)
    ensures |r| == if openDeviceSso then 10 else 9
    ensures openDeviceSso ==> r[0] == DeviceSsoTrigger
    ensures DeviceSsoTrigger in r <==> openDeviceSso
    ensures r[|r| - 9..] == FixedTriggers(idRsa, idEd25519)
  {
    var ret := if openDeviceSso then [DeviceSsoTrigger] else [];
    ret + FixedTriggers(idRsa, idEd25519)
  }

  /** Exactly two triggers are partial: the passphrase prompts, which feed
      the password manager the key name and match the expanded key path. */
  lemma PassphraseTriggers(openDeviceSso: bool, idRsa: string, idEd25519: string)
    ensures var r := Triggers(openDeviceSso, idRsa, idEd25519);
            var k := if openDeviceSso then 1 else 0;
            && r[k + 1] == Trigger(PasswordTrigger, "id_rsa", true, PassphrasePrompt + idRsa)
            && r[k + 2] == Trigger(PasswordTrigger, "id_ed25519", true, PassphrasePrompt + idEd25519)
            && (forall j :: 0 <= j < |r| && r[j].partial ==> j == k + 1 || j == k + 2)
  {
    var r := Triggers(openDeviceSso, idRsa, idEd25519);
    var fixed := FixedTriggers(idRsa, idEd25519);
    var prompts := PasswordTriggers(idRsa, idEd25519);
    var k := if openDeviceSso then 1 else 0;
    assert |r| == k + 9 && r[k..] == fixed;
    assert fixed[1..3] == prompts;
    assert r[k + 1] == fixed[1] == prompts[0];
    assert r[k + 2] == fixed[2] == prompts[1];
    assert forall j :: 0 <= j < k ==> r[j] == DeviceSsoTrigger;
    ShiftedPartial(r, fixed, k);
  }

  /** Partial triggers of a list that is k non-partial triggers followed by
      a list whose only partial entries are at 1 and 2 sit at k+1 and k+2. */
  lemma ShiftedPartial(r: seq<Trigger>, fixed: seq<Trigger>, k: nat)
    requires k <= |r| && r[k..] == fixed
    requires forall j :: 0 <= j < |fixed| && fixed[j].partial ==> j == 1 || j == 2
    requires forall j :: 0 <= j < k ==> !r[j].partial
    ensures forall j :: 0 <= j < |r| && r[j].partial ==> j == k + 1 || j == k + 2
  {
    forall j | k <= j < |r|
      ensures r[j] == fixed[j - k]
    {
    }
  }


}
