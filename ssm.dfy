/** The Systems Manager reader (ssm/main.go): for every named section of
    ~/.aws/config, each EC2 instance that Systems Manager knows and that
    carries a Name tag gives an iTerm2 profile whose Alt-A shortcut logs
    in and opens an `ssm` session. The AWS calls are inputs (a Lookup per
    profile); instances shared between profiles are remembered in a map
    of instance IDs that every profile updates. */
module Ssm {
  import opened Wrappers
  import opened GoStrings
  import Iterm

  type Config = Iterm.Config

  const AsgKey := "aws:autoscaling:groupName"
  const NameKey := "Name"
  const RegionKey := "region"
  const ProfilePrefix := "profile "
  const InitialTextKey := "Initial Text"
  const CustomCommandKey := "Custom Command"
  const TagsKey := "Tags"

  datatype Tag = Tag(key: string, value: string)
  datatype Instance = Instance(id: string, tags: seq<Tag>)
  datatype Account = Account(id: string, aliases: seq<string>)

  /** What the AWS calls answer for one profile: the caller's account and
      its aliases (None when loading the configuration, STS or IAM fails),
      the instances of the pages that were read, in order, and whether
      reading a further page failed. */
  datatype Lookup = Lookup(account: Option<Account>, instances: seq<Instance>, pageFailed: bool)

  /** The iTerm2 side: the environment every profile shares and the
      action code of iterm.KeyboardSendText. */
  datatype Settings = Settings(env: Iterm.Environment, sendText: int)

  /** The account alias: the first IAM alias, else the account ID. */
  function AccountAlias(a: Account): string {
    if |a.aliases| != 0 then a.aliases[0] else a.id
  }

  // ---------------------------------------------------------------------
  // The tag loop of one instance

  /** The name found so far and the autoscaling groups seen so far. */
  datatype Scan = Scan(name: string, asgs: set<string>)

  /** The tag loop from tag i on, as written: a tag whose value is a seen
      group is skipped; a group tag marks its value seen; a Name tag sets
      the name. */
  function ScanTags(tags: seq<Tag>, i: nat, name: string, asgs: set<string>): Scan
    requires i <= |tags|
    decreases |tags| - i
  {
    if i == |tags| then Scan(name, asgs)
    else
      var t := tags[i];
      if t.value in asgs then ScanTags(tags, i + 1, name, asgs)
      else ScanTags(tags, i + 1,
                    if t.key == NameKey then t.value else name,
                    if t.key == AsgKey then asgs + {t.value} else asgs)
  }

  /** The values of the autoscaling-group tags from tag i on. */
  function GroupsFrom(tags: seq<Tag>, i: nat): set<string> {
    set j | i <= j < |tags| && tags[j].key == AsgKey :: tags[j].value
  }

  /** The loop in place: start from no name and the groups seen so far. */
  method ScanInstanceTags(tags: seq<Tag>, seen: set<string>) returns (name: string, asgs: set<string>)
    ensures Scan(name, asgs) == ScanTags(tags, 0, "", seen)
  {
    name := "";
    asgs := seen;
    var i := 0;
    while i < |tags|
      invariant i <= |tags|
      invariant ScanTags(tags, i, name, asgs) == ScanTags(tags, 0, "", seen)
    {
      var tag := tags[i];
      if tag.value !in asgs {
        if tag.key == AsgKey {
          asgs := asgs + {tag.value};
        }
        if tag.key == NameKey {
          name := tag.value;
        }
      }
      i := i + 1;
    }
  }

  /** Every group tag ends up seen, and nothing else is added. */
  lemma {:induction false} ScanTagsGroups(tags: seq<Tag>, i: nat, name: string, asgs: set<string>)
    requires i <= |tags|
    ensures ScanTags(tags, i, name, asgs).asgs == asgs + GroupsFrom(tags, i)
    decreases |tags| - i
  {
    if i < |tags| {
      var t := tags[i];
      var next := if t.value in asgs || t.key != AsgKey then asgs else asgs + {t.value};
      ScanTagsGroups(tags, i + 1, if t.value !in asgs && t.key == NameKey then t.value else name, next);
      assert GroupsFrom(tags, i) == GroupsFrom(tags, i + 1) + (if t.key == AsgKey then {t.value} else {});
    }
  }

  /** When every tag value is already a seen group, nothing changes. */
  lemma {:induction false} ScanTagsAllSeen(tags: seq<Tag>, i: nat, name: string, asgs: set<string>)
    requires i <= |tags|
    requires forall j :: i <= j < |tags| ==> tags[j].value in asgs
    ensures ScanTags(tags, i, name, asgs) == Scan(name, asgs)
    decreases |tags| - i
  {
    if i < |tags| {
      ScanTagsAllSeen(tags, i + 1, name, asgs);
    }
  }

  /** The last Name tag from i on gives the name (the starting name when
      there is none), provided no group tag and no seen value interferes. */
  lemma {:induction false} ScanTagsLastName(tags: seq<Tag>, i: nat, name: string, asgs: set<string>)
    requires i <= |tags|
    requires forall j :: i <= j < |tags| ==> tags[j].key != AsgKey && tags[j].value !in asgs
    ensures (forall j :: i <= j < |tags| ==> tags[j].key != NameKey) ==>
      ScanTags(tags, i, name, asgs).name == name
    ensures forall j :: (i <= j < |tags| && tags[j].key == NameKey &&
        (forall k :: j < k < |tags| ==> tags[k].key != NameKey)) ==>
      ScanTags(tags, i, name, asgs).name == tags[j].value
    decreases |tags| - i
  {
    if i < |tags| {
      var t := tags[i];
      ScanTagsLastName(tags, i + 1, if t.key == NameKey then t.value else name, asgs);
    }
  }

  // ---------------------------------------------------------------------
  // The instance loop of one profile

  /** The instance IDs known so far (shared with the caller) and the
      groups seen so far (local to the profile). */
  datatype Seen = Seen(ids: map<string, string>, asgs: set<string>)

  /** One instance: the name it produces a profile for, if any. */
  datatype Step = Step(produced: Option<string>, seen: Seen)

  /** One pass of the instance loop, as written: a known ID is skipped;
      otherwise the tags are scanned, and a named instance is produced and
      remembered under its ID. */
  function InstanceStep(inst: Instance, st: Seen): Step {
    if inst.id in st.ids then Step(None, st)
    else
      var s := ScanTags(inst.tags, 0, "", st.asgs);
      if s.name == "" then Step(None, st.(asgs := s.asgs))
      else Step(Some(s.name), Seen(st.ids[inst.id := s.name], s.asgs))
  }

  /** The names produced from instance i on, and the final state. */
  datatype Walk = Walk(names: seq<string>, seen: Seen)

  function ScanFrom(instances: seq<Instance>, i: nat, st: Seen): Walk
    requires i <= |instances|
    decreases |instances| - i
  {
    if i == |instances| then Walk([], st)
    else
      var s := InstanceStep(instances[i], st);
      var rest := ScanFrom(instances, i + 1, s.seen);
      Walk((if s.produced.Some? then [s.produced.value] else []) + rest.names, rest.seen)
  }

  /** A produced instance was unknown, is named, and is remembered under
      its ID; an instance that produces nothing leaves the IDs alone. */
  lemma InstanceStepCases(inst: Instance, st: Seen)
    ensures var r := InstanceStep(inst, st);
      && (r.produced.Some? <==> inst.id !in st.ids && ScanTags(inst.tags, 0, "", st.asgs).name != "")
      && (r.produced.Some? ==> r.produced.value != "" && r.seen.ids == st.ids[inst.id := r.produced.value])
      && (r.produced.None? ==> r.seen.ids == st.ids)
      && st.asgs <= r.seen.asgs
  {
    if inst.id !in st.ids {
      ScanTagsGroups(inst.tags, 0, "", st.asgs);
    }
  }

  /** Every produced name is remembered under an instance ID that was not
      known before: known entries stay, and the number of new IDs is the
      number of profiles. So no instance yields two profiles. */
  lemma {:induction false} ScanFromIds(instances: seq<Instance>, i: nat, st: Seen)
    requires i <= |instances|
    ensures var r := ScanFrom(instances, i, st);
      && (forall k :: k in st.ids ==> k in r.seen.ids && r.seen.ids[k] == st.ids[k])
      && |r.seen.ids| == |st.ids| + |r.names|
      && (forall k :: 0 <= k < |r.names| ==> r.names[k] != "")
    decreases |instances| - i
  {
    if i < |instances| {
      var s := InstanceStep(instances[i], st);
      InstanceStepCases(instances[i], st);
      ScanFromIds(instances, i + 1, s.seen);
      if s.produced.Some? {
        assert st.ids[instances[i].id := s.produced.value].Keys == st.ids.Keys + {instances[i].id};
      }
    }
  }

  // ---------------------------------------------------------------------
  // The profile of one instance

  /** The command Alt-A runs: `ssm <name>` with the profile's credentials. */
  function BashCommand(profile: string, name: string): string {
    "bash -c 'AWS_PROFILE=" + profile + " ssm " + name + "'"
  }

  /** The text Alt-A types: log in with SSO, then run the command. */
  function LoginText(profile: string, name: string): string {
    "AWS_PROFILE=" + profile + " aws sso login && " + BashCommand(profile, name) + "\n"
  }

  function ProfileName(alias: string, region: string, name: string): string {
    alias + ":" + region + ":ssm-" + name
  }

  function InstanceConfig(profile: string, name: string, alias: string, accountId: string): Config {
    map[InitialTextKey := BashCommand(profile, name),
        CustomCommandKey := "No",
        TagsKey := "AWS, " + alias + ",account=" + accountId]
  }

  /** The profile of a named instance: iterm.NewProfile on the instance's
      config, with the Alt-A shortcut replaced. */
  function SsmProfile(profile: string, region: string, alias: string, accountId: string, name: string, s: Settings): Iterm.Profile {
    var c := InstanceConfig(profile, name, alias, accountId);
    var title := ProfileName(alias, region, name);
    Iterm.NewProfileSucceeds(title, c, s.env);
    var p := Iterm.NewProfile(title, c, s.env).value;
    p.(keyboardMap := p.keyboardMap[Iterm.AltAKey := Iterm.KeyboardMap(s.sendText, LoginText(profile, name), 0)])
  }

  /** An instance profile is named `<alias>:<region>:ssm-<name>` and runs
      no command of its own: NewProfile does not read "Initial Text". */
  lemma SsmProfileIdentity(profile: string, region: string, alias: string, accountId: string, name: string, s: Settings)
    ensures var p := SsmProfile(profile, region, alias, accountId, name, s);
      && p.name == ProfileName(alias, region, name) && p.guid == p.name
      && p.badgeText == p.name
      && p.command == "" && p.customCommand == ""
  {
    var c := InstanceConfig(profile, name, alias, accountId);
    var title := ProfileName(alias, region, name);
    Iterm.NewProfileSucceeds(title, c, s.env);
    Iterm.NewProfileIdentity(title, c, s.env);
    assert Iterm.CommandOf(c) == None;
  }

  /** Alt-A types the login and ssm command, the split shortcuts stay, and
      the tags are the timestamp, "AWS", the alias (after a space, from the
      split on ',') and the account. */
  lemma SsmProfileContents(profile: string, region: string, alias: string, accountId: string, name: string, s: Settings)
    requires ',' !in alias && ',' !in accountId
    ensures var p := SsmProfile(profile, region, alias, accountId, name, s);
      && p.keyboardMap.Keys == {Iterm.SplitHorizontalKey, Iterm.SplitVerticalKey, Iterm.AltAKey}
      && p.keyboardMap[Iterm.AltAKey] == Iterm.KeyboardMap(s.sendText, LoginText(profile, name), 0)
      && p.keyboardMap[Iterm.SplitHorizontalKey] == Iterm.SplitHorizontalMap
      && p.keyboardMap[Iterm.SplitVerticalKey] == Iterm.SplitVerticalMap
      && p.tags == [s.env.now, "AWS", " " + alias, "account=" + accountId]
  {
    var c := InstanceConfig(profile, name, alias, accountId);
    var title := ProfileName(alias, region, name);
    assert Iterm.Tags(c, s.env.now) == Ok([s.env.now, "AWS", " " + alias, "account=" + accountId]) by {
      InstanceTags(profile, name, alias, accountId, s.env.now);
    }
    Iterm.NewProfileSucceeds(title, c, s.env);
    Iterm.NewProfileContents(title, c, s.env);
  }

  /** The "Tags" entry splits on ',' into "AWS", the alias after a space,
      and the account; the timestamp comes first. */
  lemma InstanceTags(profile: string, name: string, alias: string, accountId: string, now: string)
    requires ',' !in alias && ',' !in accountId
    ensures Iterm.Tags(InstanceConfig(profile, name, alias, accountId), now)
      == Ok([now, "AWS", " " + alias, "account=" + accountId])
  {
    var c := InstanceConfig(profile, name, alias, accountId);
    var tail := "account=" + accountId;
    assert ',' !in tail by {
      assert forall k :: 0 <= k < |tail| ==> if k < 8 then tail[k] == "account="[k] else tail[k] == accountId[k - 8];
    }
    var mid := " " + alias;
    assert ',' !in mid by {
      assert forall k :: 0 <= k < |mid| ==> if k < 1 then mid[k] == ' ' else mid[k] == alias[k - 1];
    }
    assert Split(c[TagsKey], ',') == ["AWS", mid, tail] by {
      assert c[TagsKey] == "AWS" + [','] + (mid + [','] + tail);
      SplitHead("AWS", mid + [','] + tail, ',');
      SplitHead(mid, tail, ',');
      SplitNoSep(tail, ',');
      assert ["AWS"] + ([mid] + [tail]) == ["AWS", mid, tail];
    }
    assert Iterm.Tags(c, now) == Ok([now] + ["AWS", mid, tail]) by {
      TagsOfInstanceConfig(BashCommand(profile, name), c[TagsKey], now);
    }
    assert [now] + ["AWS", mid, tail] == [now, "AWS", mid, tail];
  }

  /** Of the keys Tags reads, an instance config has only "Tags". */
  lemma TagsOfInstanceConfig(initial: string, tags: string, now: string)
    ensures Iterm.Tags(map[InitialTextKey := initial, CustomCommandKey := "No", TagsKey := tags], now)
      == Ok([now] + Split(tags, ','))
  {
    var c := map[InitialTextKey := initial, CustomCommandKey := "No", TagsKey := tags];
    assert "timestamps" !in c && "sso_account_id" !in c && "source_profile" !in c;
    assert "role_arn" !in c && "azure_app_id_uri" !in c && "azure_default_role_arn" !in c;
    assert "tags" !in c;
    var e: seq<string> := [];
    assert Iterm.SplitField(c, "role_arn", ':', 4) == Ok(e);
    assert Iterm.SplitField(c, "azure_app_id_uri", '#', 1) == Ok(e);
    assert Iterm.SplitField(c, "azure_default_role_arn", ':', 5) == Ok(e);
    assert Iterm.ListAt(c, "tags") == e;
    assert Iterm.Tags(c, now) == Ok([now] + e + e + e + e + e + Iterm.ListAt(c, "Tags") + e);
    assert [now] + e + e + e + e + e + Iterm.ListAt(c, "Tags") + e == [now] + Split(tags, ',');
  }

  /** The profiles of the produced names, in order. */
  function InstanceProfiles(profile: string, region: string, alias: string, accountId: string, names: seq<string>, s: Settings): (r: seq<Iterm.Profile>)
    ensures |r| == |names|
  {
    seq(|names|, k requires 0 <= k < |names| => SsmProfile(profile, region, alias, accountId, names[k], s))
  }

  /** What generateForProfile returns: the profiles, and the shared map of
      instance IDs. */
  datatype Generated = Generated(profiles: seq<Iterm.Profile>, ids: map<string, string>)

  /** generateForProfile: nothing when the account cannot be read; the
      profiles of the produced names, or nothing when a page failed, and
      in either case the IDs remembered on the way. */
  function ForProfile(profile: string, region: string, lookup: Lookup, ids: map<string, string>, s: Settings): Generated {
    if lookup.account.None? then Generated([], ids)
    else
      var account := lookup.account.value;
      var walk := ScanFrom(lookup.instances, 0, Seen(ids, {}));
      if lookup.pageFailed then Generated([], walk.seen.ids)
      else Generated(InstanceProfiles(profile, region, AccountAlias(account), account.id, walk.names, s), walk.seen.ids)
  }

  /** The instance loop, appending the profile of each produced name. */
  method VisitInstances(instances: seq<Instance>, known: map<string, string>, profile: string, region: string,
                        alias: string, accountId: string, s: Settings)
    returns (ret: seq<Iterm.Profile>, ids: map<string, string>)
    ensures var walk := ScanFrom(instances, 0, Seen(known, {}));
      ret == InstanceProfiles(profile, region, alias, accountId, walk.names, s) && ids == walk.seen.ids
  {
    ret := [];
    ids := known;
    var asgs: set<string> := {};
    ghost var done: seq<string> := [];
    var i := 0;
    while i < |instances|
      invariant i <= |instances|
      invariant done + ScanFrom(instances, i, Seen(ids, asgs)).names == ScanFrom(instances, 0, Seen(known, {})).names
      invariant ScanFrom(instances, i, Seen(ids, asgs)).seen == ScanFrom(instances, 0, Seen(known, {})).seen
      invariant ret == InstanceProfiles(profile, region, alias, accountId, done, s)
    {
      WalkStep(instances, i, Seen(ids, asgs), done);
      var produced;
      produced, ids, asgs := VisitInstance(instances[i], ids, asgs);
      if produced.Some? {
        var p := SsmProfile(profile, region, alias, accountId, produced.value, s);
        InstanceProfilesSnoc(profile, region, alias, accountId, done, produced.value, s);
        ret := ret + [p];
        done := done + [produced.value];
      }
      i := i + 1;
    }
  }

  /** One instance of the loop: skip a known ID, scan the tags, and
      remember a named instance. */
  method VisitInstance(inst: Instance, known: map<string, string>, seen: set<string>)
    returns (produced: Option<string>, ids: map<string, string>, asgs: set<string>)
    ensures Step(produced, Seen(ids, asgs)) == InstanceStep(inst, Seen(known, seen))
  {
    produced, ids, asgs := None, known, seen;
    if inst.id !in ids {
      var name;
      name, asgs := ScanInstanceTags(inst.tags, asgs);
      if name != "" {
        produced := Some(name);
        ids := ids[inst.id := name];
      }
    }
  }

  /** One step of the walk, for the loop invariant of VisitInstances. */
  lemma WalkStep(instances: seq<Instance>, i: nat, st: Seen, done: seq<string>)
    requires i < |instances|
    ensures var s := InstanceStep(instances[i], st);
      var rest := ScanFrom(instances, i + 1, s.seen);
      && (s.produced.Some? ==> (done + [s.produced.value]) + rest.names == done + ScanFrom(instances, i, st).names)
      && (s.produced.None? ==> done + rest.names == done + ScanFrom(instances, i, st).names)
      && rest.seen == ScanFrom(instances, i, st).seen
  {
    var s := InstanceStep(instances[i], st);
    var rest := ScanFrom(instances, i + 1, s.seen);
    if s.produced.Some? {
      assert (done + [s.produced.value]) + rest.names == done + ([s.produced.value] + rest.names);
    } else {
      assert [] + rest.names == rest.names;
    }
  }

  lemma InstanceProfilesSnoc(profile: string, region: string, alias: string, accountId: string,
                             names: seq<string>, name: string, s: Settings)
    ensures InstanceProfiles(profile, region, alias, accountId, names + [name], s)
      == InstanceProfiles(profile, region, alias, accountId, names, s) + [SsmProfile(profile, region, alias, accountId, name, s)]
  {
  }

  /** generateForProfile, with the AWS answers given. */
  method GenerateForProfile(profile: string, region: string, lookup: Lookup, known: map<string, string>, s: Settings)
    returns (ret: seq<Iterm.Profile>, ids: map<string, string>)
    ensures Generated(ret, ids) == ForProfile(profile, region, lookup, known, s)
  {
    if lookup.account.None? {
      return [], known;
    }
    var account := lookup.account.value;
    var alias := account.id;
    if |account.aliases| != 0 {
      alias := account.aliases[0];
    }
    ret, ids := VisitInstances(lookup.instances, known, profile, region, alias, account.id, s);
    if lookup.pageFailed {
      ret := [];
    }
  }

  /** A profile's result: no profile without an account; otherwise one
      per produced name, none after a page failure; and every produced
      name took an instance ID nobody knew, so the shared map grows by at
      least the number of profiles and keeps what it held. */
  lemma ForProfileIds(profile: string, region: string, lookup: Lookup, ids: map<string, string>, s: Settings)
    ensures var g := ForProfile(profile, region, lookup, ids, s);
      && (lookup.account.None? ==> g == Generated([], ids))
      && (lookup.pageFailed ==> g.profiles == [])
      && (lookup.account.Some? && !lookup.pageFailed ==>
            |g.profiles| == |ScanFrom(lookup.instances, 0, Seen(ids, {})).names|)
      && (forall k :: k in ids ==> k in g.ids && g.ids[k] == ids[k])
      && |ids| + |g.profiles| <= |g.ids|
  {
    if lookup.account.Some? {
      ScanFromIds(lookup.instances, 0, Seen(ids, {}));
    }
  }

  // ---------------------------------------------------------------------
  // Generate: the sections of the AWS config

  function RegionOf(c: Config): string {
    if RegionKey in c then c[RegionKey] else ""
  }

  /** Generate from the section order[i] on. Sections are visited one
      after another, each with the IDs the earlier ones left; a section
      that yields no profile still leaves its IDs in the shared map. */
  function GenerateFrom(sections: map<string, Config>, order: seq<string>, i: nat, ids: map<string, string>,
                        aws: string -> Lookup, s: Settings): Generated
    requires i <= |order| && forall k :: 0 <= k < |order| ==> order[k] in sections
    decreases |order| - i
  {
    if i == |order| then Generated([], ids)
    else if order[i] == "" then GenerateFrom(sections, order, i + 1, ids, aws, s)
    else
      var profile := TrimPrefix(order[i], ProfilePrefix);
      var g := ForProfile(profile, RegionOf(sections[order[i]]), aws(profile), ids, s);
      var rest := GenerateFrom(sections, order, i + 1, g.ids, aws, s);
      Generated(g.profiles + rest.profiles, rest.ids)
  }

  /** Generate over the parsed config; aws answers the AWS calls of a
      profile and order is the iteration order of the sections. */
  method Generate(sections: map<string, Config>, order: seq<string>, aws: string -> Lookup, s: Settings)
    returns (ret: seq<Iterm.Profile>)
    requires IsEnumeration(order, sections.Keys)
    ensures ret == GenerateFrom(sections, order, 0, map[], aws, s).profiles
  {
    ret := [];
    var instances: map<string, string> := map[];
    var i := 0;
    while i < |order|
      invariant i <= |order|
      invariant ret + GenerateFrom(sections, order, i, instances, aws, s).profiles
        == GenerateFrom(sections, order, 0, map[], aws, s).profiles
    {
      var name := order[i];
      GenerateStep(sections, order, i, instances, aws, s, ret);
      if name != "" {
        var profile := TrimPrefix(name, ProfilePrefix);
        var region := RegionOf(sections[name]);
        var profiles, profileInstances := GenerateForProfile(profile, region, aws(profile), instances, s);
        ret := ret + profiles;
        instances := profileInstances;
      }
      i := i + 1;
    }
  }

  /** One step of the loop of Generate. */
  lemma GenerateStep(sections: map<string, Config>, order: seq<string>, i: nat, ids: map<string, string>,
                     aws: string -> Lookup, s: Settings, done: seq<Iterm.Profile>)
    requires i < |order| && forall k :: 0 <= k < |order| ==> order[k] in sections
    ensures var profile := TrimPrefix(order[i], ProfilePrefix);
      var g := ForProfile(profile, RegionOf(sections[order[i]]), aws(profile), ids, s);
      && (order[i] == "" ==> GenerateFrom(sections, order, i, ids, aws, s) == GenerateFrom(sections, order, i + 1, ids, aws, s))
      && (order[i] != "" ==> done + GenerateFrom(sections, order, i, ids, aws, s).profiles
                             == (done + g.profiles) + GenerateFrom(sections, order, i + 1, g.ids, aws, s).profiles)
  {
    var profile := TrimPrefix(order[i], ProfilePrefix);
    var g := ForProfile(profile, RegionOf(sections[order[i]]), aws(profile), ids, s);
    var rest := GenerateFrom(sections, order, i + 1, g.ids, aws, s);
    assert done + (g.profiles + rest.profiles) == (done + g.profiles) + rest.profiles;
  }

  /** Across the sections, remembered IDs are never replaced and every
      profile took a fresh instance ID: at most one profile per instance. */
  lemma {:induction false} GenerateFromIds(sections: map<string, Config>, order: seq<string>, i: nat,
                                           ids: map<string, string>, aws: string -> Lookup, s: Settings)
    requires i <= |order| && forall k :: 0 <= k < |order| ==> order[k] in sections
    ensures var g := GenerateFrom(sections, order, i, ids, aws, s);
      && (forall k :: k in ids ==> k in g.ids && g.ids[k] == ids[k])
      && |ids| + |g.profiles| <= |g.ids|
    decreases |order| - i
  {
    if i < |order| {
      if order[i] == "" {
        GenerateFromIds(sections, order, i + 1, ids, aws, s);
      } else {
        var profile := TrimPrefix(order[i], ProfilePrefix);
        var g := ForProfile(profile, RegionOf(sections[order[i]]), aws(profile), ids, s);
        ForProfileIds(profile, RegionOf(sections[order[i]]), aws(profile), ids, s);
        GenerateFromIds(sections, order, i + 1, g.ids, aws, s);
      }
    }
  }

  /** A section named "" yields nothing; any other section is read as the
      profile without its "profile " prefix, in the section's region (""
      when it has none). */
  lemma GenerateFromSection(sections: map<string, Config>, order: seq<string>, i: nat,
                            ids: map<string, string>, aws: string -> Lookup, s: Settings)
    requires i < |order| && forall k :: 0 <= k < |order| ==> order[k] in sections
    ensures var profile := TrimPrefix(order[i], ProfilePrefix);
      var region := if RegionKey in sections[order[i]] then sections[order[i]][RegionKey] else "";
      var g := ForProfile(profile, region, aws(profile), ids, s);
      && (order[i] == "" ==> GenerateFrom(sections, order, i, ids, aws, s) == GenerateFrom(sections, order, i + 1, ids, aws, s))
      && (order[i] != "" ==>
            && (HasPrefix(order[i], ProfilePrefix) ==> order[i] == ProfilePrefix + profile)
            && GenerateFrom(sections, order, i, ids, aws, s).profiles
               == g.profiles + GenerateFrom(sections, order, i + 1, g.ids, aws, s).profiles)
  {
  }

  // ---------------------------------------------------------------------
  // The group check

  /** As written, the group check skips only the group tag: a second
      instance of a seen group still has its Name tag read and still
      yields a profile. */
  lemma AsWrittenRepeatsGroup(id1: string, id2: string, group: string, name: string, ids: map<string, string>)
    requires id1 != id2 && id1 !in ids && id2 !in ids
    requires name != "" && name != group
    ensures var tags := [Tag(AsgKey, group), Tag(NameKey, name)];
      ScanFrom([Instance(id1, tags), Instance(id2, tags)], 0, Seen(ids, {})).names == [name, name]
  {
    var tags := [Tag(AsgKey, group), Tag(NameKey, name)];
    var insts := [Instance(id1, tags), Instance(id2, tags)];
    assert AsgKey != NameKey;
    var none: set<string> := {};
    assert none + {group} == {group};
    assert ScanTags(tags, 2, name, {group}) == Scan(name, {group});
    assert ScanTags(tags, 1, "", {group}) == ScanTags(tags, 2, name, {group});
    assert ScanTags(tags, 0, "", {}) == ScanTags(tags, 1, "", {group});
    assert ScanTags(tags, 0, "", {group}) == ScanTags(tags, 1, "", {group});
    var st1 := Seen(ids[id1 := name], {group});
    assert InstanceStep(insts[0], Seen(ids, {})) == Step(Some(name), st1);
    var st2 := Seen(st1.ids[id2 := name], {group});
    assert InstanceStep(insts[1], st1) == Step(Some(name), st2);
    assert ScanFrom(insts, 2, st2).names == [];
    assert ScanFrom(insts, 1, st1).names == [name] + [];
    assert ScanFrom(insts, 0, Seen(ids, {})).names == [name] + [name];
  }

  /** The last Name tag's value from tag i on, or name when there is none. */
  function NameFrom(tags: seq<Tag>, i: nat, name: string): string
    requires i <= |tags|
    decreases |tags| - i
  {
    if i == |tags| then name
    else NameFrom(tags, i + 1, if tags[i].key == NameKey then tags[i].value else name)
  }

  /** The intended check: an instance of a seen group is not processed;
      otherwise its groups become seen and its last Name tag names it. */
  function InstanceStepOnce(inst: Instance, st: Seen): Step {
    if inst.id in st.ids || GroupsFrom(inst.tags, 0) * st.asgs != {} then Step(None, st)
    else
      var name := NameFrom(inst.tags, 0, "");
      var asgs := st.asgs + GroupsFrom(inst.tags, 0);
      if name == "" then Step(None, st.(asgs := asgs))
      else Step(Some(name), Seen(st.ids[inst.id := name], asgs))
  }

  /** The instance loop with the intended check; picked lists the
      instances that yield a profile. */
  datatype Picked = Picked(picked: seq<Instance>, seen: Seen)

  function ScanOnceFrom(instances: seq<Instance>, i: nat, st: Seen): Picked
    requires i <= |instances|
    decreases |instances| - i
  {
    if i == |instances| then Picked([], st)
    else
      var s := InstanceStepOnce(instances[i], st);
      var rest := ScanOnceFrom(instances, i + 1, s.seen);
      Picked((if s.produced.Some? then [instances[i]] else []) + rest.picked, rest.seen)
  }

  /** With the intended check, no two instances that yield a profile share
      an autoscaling group, and neither shares one seen before. */
  lemma {:induction false} OneProfilePerGroup(instances: seq<Instance>, i: nat, st: Seen)
    requires i <= |instances|
    ensures var r := ScanOnceFrom(instances, i, st);
      && st.asgs <= r.seen.asgs
      && (forall j :: 0 <= j < |r.picked| ==> GroupsFrom(r.picked[j].tags, 0) * st.asgs == {})
      && (forall j :: 0 <= j < |r.picked| ==> GroupsFrom(r.picked[j].tags, 0) <= r.seen.asgs)
      && (forall j, k :: 0 <= j < k < |r.picked| ==>
            GroupsFrom(r.picked[j].tags, 0) * GroupsFrom(r.picked[k].tags, 0) == {})
    decreases |instances| - i
  {
    if i < |instances| {
      var s := InstanceStepOnce(instances[i], st);
      OneProfilePerGroup(instances, i + 1, s.seen);
      var rest := ScanOnceFrom(instances, i + 1, s.seen);
      var r := ScanOnceFrom(instances, i, st);
      if s.produced.Some? {
        var g := GroupsFrom(instances[i].tags, 0);
        assert r.picked == [instances[i]] + rest.picked;
        assert s.seen.asgs == st.asgs + g;
        forall j | 0 <= j < |rest.picked|
          ensures GroupsFrom(rest.picked[j].tags, 0) * g == {}
        {
          assert GroupsFrom(rest.picked[j].tags, 0) * s.seen.asgs == {};
        }
        forall j, k | 0 <= j < k < |r.picked|
          ensures GroupsFrom(r.picked[j].tags, 0) * GroupsFrom(r.picked[k].tags, 0) == {}
        {
          if j == 0 {
            assert r.picked[k] == rest.picked[k - 1];
          } else {
            assert r.picked[j] == rest.picked[j - 1] && r.picked[k] == rest.picked[k - 1];
          }
        }
      }
    }
  }
}
