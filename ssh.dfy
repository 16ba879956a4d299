/** The SSH config reader (ssh/main.go): every plain `Host name` line of
    ~/.ssh/config gives a profile that runs `ssh name`, tagged with the
    address `ssh -G name` reports. */
module Ssh {
  import opened Wrappers
  import opened GoStrings
  import Iterm

  const HostPrefix := "Host "
  const HostnamePrefix := "hostname "
  const SshHead := "ssh "
  const SshTag := "ssh"
  const CommandKey := "Command"
  const IndexOutOfRange := "index out of range"

  // ---------------------------------------------------------------------
  // hostIP: the address in `ssh -G host` output

  /** The address on the first "hostname " line from lines[i] on, or ""
      when there is none; a "hostname " line without a second field is
      Go's index out of range. */
  function HostnameFrom(lines: seq<string>, i: nat): Result<string>
    requires i <= |lines|
    decreases |lines| - i
  {
    if i == |lines| then Ok("")
    else if HasPrefix(lines[i], HostnamePrefix) then
      var fields := Fields(lines[i]);
      if |fields| < 2 then Failure(IndexOutOfRange) else Ok(fields[1])
    else HostnameFrom(lines, i + 1)
  }

  /** hostIP, given what `ssh -G host` printed (None when it failed). */
  function HostIPOf(stdout: Option<string>): Result<string> {
    if stdout.None? then Ok("") else HostnameFrom(Split(stdout.value, '\n'), 0)
  }

  /** Line i is the first line starting with "hostname ". */
  predicate FirstHostnameAt(lines: seq<string>, i: int) {
    && 0 <= i < |lines|
    && HasPrefix(lines[i], HostnamePrefix)
    && forall j :: 0 <= j < i ==> !HasPrefix(lines[j], HostnamePrefix)
  }

  /** From i on, HostnameFrom reads the first "hostname " line: its
      second field, a failure when it has none, and "" when there is no
      such line. */
  lemma {:induction false} HostnameFromSpec(lines: seq<string>, i: nat)
    requires i <= |lines|
    ensures var r := HostnameFrom(lines, i);
      && ((forall j :: i <= j < |lines| ==> !HasPrefix(lines[j], HostnamePrefix)) ==> r == Ok(""))
      && forall k :: i <= k < |lines| && HasPrefix(lines[k], HostnamePrefix)
                     && (forall j :: i <= j < k ==> !HasPrefix(lines[j], HostnamePrefix)) ==>
           r == (if |Fields(lines[k])| < 2 then Failure(IndexOutOfRange) else Ok(Fields(lines[k])[1]))
    decreases |lines| - i
  {
    if i < |lines| {
      HostnameFromSpec(lines, i + 1);
    }
  }

  /** No line starts with "hostname ". */
  predicate NoHostname(lines: seq<string>) {
    forall j :: 0 <= j < |lines| ==> !HasPrefix(lines[j], HostnamePrefix)
  }

  /** hostIP is "" exactly when ssh -G failed or printed no address
      line, and otherwise the non-empty second field of the first
      "hostname " line, or a failure when that line has none. */
  lemma HostIPCases(stdout: Option<string>)
    ensures var r := HostIPOf(stdout);
      && (r == Ok("") <==> stdout.None? || NoHostname(Split(stdout.value, '\n')))
      && forall k :: stdout.Some? && FirstHostnameAt(Split(stdout.value, '\n'), k) ==>
           var fields := Fields(Split(stdout.value, '\n')[k]);
           r == (if |fields| < 2 then Failure(IndexOutOfRange) else Ok(fields[1]))
  {
    if stdout.Some? {
      HostnameCases(Split(stdout.value, '\n'));
    }
  }

  /** The same, over the lines of the output. */
  lemma HostnameCases(lines: seq<string>)
    ensures var r := HostnameFrom(lines, 0);
      && (r == Ok("") <==> NoHostname(lines))
      && forall k :: FirstHostnameAt(lines, k) ==>
           r == (if |Fields(lines[k])| < 2 then Failure(IndexOutOfRange) else Ok(Fields(lines[k])[1]))
  {
    HostnameFromSpec(lines, 0);
    if !NoHostname(lines) {
      var j :| 0 <= j < |lines| && HasPrefix(lines[j], HostnamePrefix);
      FirstHostnameExists(lines, j);
      var k :| FirstHostnameAt(lines, k);
      var fields := Fields(lines[k]);
      if |fields| >= 2 {
        assert |fields[1]| > 0;
      }
    }
  }

  /** A line starting with "hostname " means there is a first one. */
  lemma {:induction false} FirstHostnameExists(lines: seq<string>, j: nat)
    requires j < |lines| && HasPrefix(lines[j], HostnamePrefix)
    ensures exists k :: FirstHostnameAt(lines, k)
    decreases j
  {
    if !FirstHostnameAt(lines, j) {
      var i :| 0 <= i < j && HasPrefix(lines[i], HostnamePrefix);
      FirstHostnameExists(lines, i);
    }
  }

  /** hostIP: scans the output line by line and returns on the first
      "hostname " line. */
  method HostIP(stdout: Option<string>) returns (r: Result<string>)
    ensures r == HostIPOf(stdout)
  {
    if stdout.None? {
      return Ok("");
    }
    var lines := Split(stdout.value, '\n');
    var i := 0;
    while i < |lines|
      invariant 0 <= i <= |lines|
      invariant HostnameFrom(lines, 0) == HostnameFrom(lines, i)
    {
      if HasPrefix(lines[i], HostnamePrefix) {
        var fields := Fields(lines[i]);
        if |fields| < 2 {
          return Failure(IndexOutOfRange);
        }
        return Ok(fields[1]);
      }
      i := i + 1;
    }
    return Ok("");
  }

  // ---------------------------------------------------------------------
  // Profiles: the Host lines of the config file

  /** A line Profiles turns into a profile: it starts with "Host ", has
      no wildcard and has exactly two whitespace-separated fields. */
  predicate IsHostLine(line: string) {
    HasPrefix(line, HostPrefix) && !Contains(line, "*") && |Fields(line)| == 2
  }

  /** The section NewProfile is given for a host. */
  function HostConfig(host: string): Iterm.Config {
    map[CommandKey := SshHead + host]
  }

  /** What one line of the config contributes: nothing unless it is a
      host line, otherwise the host's profile with its tags replaced by
      "ssh" and the host's address; sshG gives what `ssh -G host`
      prints. */
  function LineProfiles(line: string, sshG: string -> Option<string>, env: Iterm.Environment)
    : Result<seq<Iterm.Profile>>
  {
    if !IsHostLine(line) then Ok([])
    else
      var host := Fields(line)[1];
      var p :- Iterm.NewProfile(host, HostConfig(host), env);
      var ip :- HostIPOf(sshG(host));
      Ok([p.(tags := [SshTag, ip])])
  }

  /** The contribution of each line, in file order. */
  function LineResults(lines: seq<string>, sshG: string -> Option<string>, env: Iterm.Environment)
    : (r: seq<Result<seq<Iterm.Profile>>>)
    ensures |r| == |lines|
  {
    seq(|lines|, m requires 0 <= m < |lines| => LineProfiles(lines[m], sshG, env))
  }

  /** The profile of a host line. */
  method HostProfile(line: string, sshG: string -> Option<string>, env: Iterm.Environment)
    returns (r: Result<Iterm.Profile>)
    requires IsHostLine(line)
    ensures LineProfiles(line, sshG, env) == (if r.Failure? then Failure(r.reason) else Ok([r.value]))
  {
    var fields := Fields(line);
    var host := fields[1];
    var p := Iterm.NewProfile(host, map[CommandKey := SshHead + host], env);
    if p.Failure? {
      return Failure(p.reason);
    }
    var prof := p.value;
    var ip := HostIP(sshG(host));
    if ip.Failure? {
      return Failure(ip.reason);
    }
    prof := prof.(tags := [SshTag, ip.value]);
    return Ok(prof);
  }

  /** Profiles: one profile per host line of the config text data, in
      line order. */
  method Profiles(data: string, sshG: string -> Option<string>, env: Iterm.Environment)
    returns (r: Result<seq<Iterm.Profile>>)
    ensures r == ConcatFrom(LineResults(Split(data, '\n'), sshG, env), 0)
  {
    var lines := Split(data, '\n');
    ghost var parts := LineResults(lines, sshG, env);
    var ret: seq<Iterm.Profile> := [];
    PrependNothing(ConcatFrom(parts, 0));
    var i := 0;
    while i < |lines|
      invariant 0 <= i <= |lines|
      invariant ConcatFrom(parts, 0) == Prepend(ret, ConcatFrom(parts, i))
    {
      var part := VisitLine(lines[i], sshG, env);
      ConcatFromStep(parts, i, ret);
      if part.Failure? {
        return Failure(part.reason);
      }
      ret := ret + part.value;
      i := i + 1;
    }
    assert ret + [] == ret;
    return Ok(ret);
  }

  /** The body of the loop of Profiles: a host line's profile, or
      nothing. */
  method VisitLine(line: string, sshG: string -> Option<string>, env: Iterm.Environment)
    returns (r: Result<seq<Iterm.Profile>>)
    ensures r == LineProfiles(line, sshG, env)
  {
    if HasPrefix(line, HostPrefix) && !Contains(line, "*") && |Fields(line)| == 2 {
      var p := HostProfile(line, sshG, env);
      if p.Failure? {
        return Failure(p.reason);
      }
      return Ok([p.value]);
    }
    return Ok([]);
  }

  /** A line contributes nothing exactly when it is not a host line. */
  lemma LineProfilesSkip(line: string, sshG: string -> Option<string>, env: Iterm.Environment)
    ensures LineProfiles(line, sshG, env) == Ok([]) <==> !IsHostLine(line)
  {
  }

  /** A host line's profile is named after the host, runs `ssh host`
      and carries exactly the tags "ssh" and the host's address; it
      fails only when reading the address does. */
  lemma HostLineProfile(line: string, sshG: string -> Option<string>, env: Iterm.Environment)
    requires IsHostLine(line)
    ensures var host := Fields(line)[1];
      var r := LineProfiles(line, sshG, env);
      && (r.Failure? <==> HostIPOf(sshG(host)).Failure?)
      && (r.Ok? ==>
           && |r.value| == 1
           && r.value[0].name == host && r.value[0].guid == host
           && r.value[0].command == SshHead + host && r.value[0].customCommand == "Yes"
           && r.value[0].tags == [SshTag, HostIPOf(sshG(host)).value])
  {
    var host := Fields(line)[1];
    Iterm.NewProfileSucceeds(host, HostConfig(host), env);
    Iterm.NewProfileIdentity(host, HostConfig(host), env);
  }

  /** The number of host lines before line m. */
  function HostLinesBefore(lines: seq<string>, m: nat): nat
    requires m <= |lines|
  {
    if m == 0 then 0 else HostLinesBefore(lines, m - 1) + (if IsHostLine(lines[m - 1]) then 1 else 0)
  }

  lemma {:induction false} LengthIsHostLines(lines: seq<string>, parts: seq<Result<seq<Iterm.Profile>>>, m: nat)
    requires |parts| == |lines| && m <= |lines|
    requires forall n :: 0 <= n < m ==> parts[n].Ok? && |parts[n].value| == (if IsHostLine(lines[n]) then 1 else 0)
    ensures LengthBetween(parts, 0, m) == HostLinesBefore(lines, m)
  {
    if m > 0 {
      LengthIsHostLines(lines, parts, m - 1);
      LengthSplit(parts, 0, m - 1, m);
      assert LengthBetween(parts, m - 1, m) == |parts[m - 1].value| + LengthBetween(parts, m, m);
    }
  }

  /** When Profiles succeeds it holds one profile per host line, and the
      profile of host line m comes right after those of the host lines
      before it. */
  lemma ProfilesHoldHosts(lines: seq<string>, sshG: string -> Option<string>, env: Iterm.Environment, m: nat)
    requires m < |lines| && IsHostLine(lines[m])
    requires ConcatFrom(LineResults(lines, sshG, env), 0).Ok?
    ensures var parts := LineResults(lines, sshG, env);
      var r := ConcatFrom(parts, 0).value;
      && parts[m].Ok? && |parts[m].value| == 1
      && |r| == HostLinesBefore(lines, |lines|)
      && HostLinesBefore(lines, m) < |r|
      && r[HostLinesBefore(lines, m)] == parts[m].value[0]
  {
    var parts := LineResults(lines, sshG, env);
    ConcatFromContents(parts, 0, m);
    forall n | 0 <= n < |lines|
      ensures |parts[n].value| == (if IsHostLine(lines[n]) then 1 else 0)
    {
      if IsHostLine(lines[n]) {
        HostLineProfile(lines[n], sshG, env);
      } else {
        LineProfilesSkip(lines[n], sshG, env);
      }
    }
    LengthIsHostLines(lines, parts, m);
    LengthIsHostLines(lines, parts, |lines|);
  }

  lemma {:induction false} LengthSplit(parts: seq<Result<seq<Iterm.Profile>>>, i: nat, m: nat, n: nat)
    requires i <= m <= n <= |parts| && forall k :: i <= k < n ==> parts[k].Ok?
    ensures LengthBetween(parts, i, n) == LengthBetween(parts, i, m) + LengthBetween(parts, m, n)
    decreases m - i
  {
    if i < m {
      LengthSplit(parts, i + 1, m, n);
    }
  }

  /** Profiles fails exactly when reading the address of some host line
      fails. */
  lemma ProfilesFail(data: string, sshG: string -> Option<string>, env: Iterm.Environment)
    ensures var lines := Split(data, '\n');
      ConcatFrom(LineResults(lines, sshG, env), 0).Failure? <==>
        exists m :: 0 <= m < |lines| && IsHostLine(lines[m]) && HostIPOf(sshG(Fields(lines[m])[1])).Failure?
  {
    var lines := Split(data, '\n');
    var parts := LineResults(lines, sshG, env);
    ConcatFromFails(parts, 0);
    forall m | 0 <= m < |lines|
      ensures parts[m].Failure? <==> IsHostLine(lines[m]) && HostIPOf(sshG(Fields(lines[m])[1])).Failure?
    {
      if IsHostLine(lines[m]) {
        HostLineProfile(lines[m], sshG, env);
      }
    }
  }
}
