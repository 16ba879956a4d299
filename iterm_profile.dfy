/** iTerm2 dynamic-profile records and the operations that build, query
    and post-process them (iterm/profile.go). The clock, the smart-selection
    rule list, the device-SSO flag and the expanded key paths are inputs
    gathered in Environment. */
module Iterm {

  import opened Wrappers
  import opened GoStrings
  import ItermTriggers

  /** The background colour classes Colors chooses between: red for
      production, blue for Kubernetes, black otherwise. */
  datatype Color = Red | Blue | Black

  datatype KeyboardMap = KeyboardMap(action: int, text: string, version: int)

  /** Go's zero KeyboardMap, what reading a missing key of a map yields. */
  const ZeroKeyboardMap := KeyboardMap(0, "", 0)

  datatype SmartSelectionRuleAction = SmartSelectionRuleAction(action: int, parameter: string, title: string)

  datatype SmartSelectionRule = SmartSelectionRule(
    actions: seq<SmartSelectionRuleAction>, notes: string, precision: string, regex: string)

  datatype Profile = Profile(
    allowTitleSetting: bool,
    badgeText: string,
    command: string,
    customCommand: string,
    customDirectory: string,
    customWindowTitle: string,
    flashingBell: bool,
    guid: string,
    keyboardMap: map<string, KeyboardMap>,
    name: string,
    silenceBell: bool,
    smartSelectionRules: seq<SmartSelectionRule>,
    tags: seq<string>,
    titleComponents: int,
    triggers: seq<ItermTriggers.Trigger>,
    unlimitedScrollback: bool,
    backgroundColor: Color,
    boundHosts: seq<string>,
    normalFont: string,
    transparency: int,
    initialUseTransparency: bool)

  /** A configuration section: string keys to string values. */
  type Config = map<string, string>

  /** What NewProfile reads from outside its arguments: the current time
      already formatted as RFC 3339, the smart-selection rules (built-in
      and user file) and the trigger list. The triggers do not depend on
      the profile: they are ItermTriggers.Triggers of the
      aws_open_device_sso flag and the two home-expanded key paths. */
  datatype Environment = Environment(
    now: string,
    rules: seq<SmartSelectionRule>,
    triggers: seq<ItermTriggers.Trigger>)

  /** Alt-A: types the login command of the source profile. */
  const AltAKey := "0x61-0x80000"
  /** Alt-A with an empty modifier: runs `aws sso login`. */
  const SsoLoginKey := "0x61-0x80000-0x0"
  /** Shift-Cmd-underscore and Shift-Cmd-bar: split the pane. */
  const SplitHorizontalKey := "0x5f-0x120000"
  const SplitVerticalKey := "0x7c-0x120000"

  const SplitHorizontalText := "Split Horizontally with Current Profile\nSplit Horizontally with Current Profile"
  const SplitVerticalText := "Split Vertically with Current Profile\nSplit Vertically with Current Profile"

  const SplitHorizontalMap := KeyboardMap(25, SplitHorizontalText, 0)
  const SplitVerticalMap := KeyboardMap(25, SplitVerticalText, 0)
  const SsoLoginMap := KeyboardMap(12, "aws sso login", 1)

  /** The keyboard entry that sends `login-<source>` to the session. */
  function LoginMap(source: string): KeyboardMap {
    KeyboardMap(28, "login-" + source, 0)
  }

  // ---------------------------------------------------------------------
  // Lookups

  /** Profile.HasTag: a scan of the tag list for an exact match. */
  function HasTag(tags: seq<string>, needle: string): (r: bool)
    ensures r <==> needle in tags
  {
    if |tags| == 0 then false
    else tags[0] == needle || HasTag(tags[1..], needle)
  }

  /** A tag of the form `key=value` with exactly one '='. */
  predicate IsTagFor(tag: string, key: string) {
    var parts := Split(tag, '=');
    |parts| == 2 && parts[0] == key
  }

  /** The value part of a `key=value` tag. */
  function TagValue(tag: string): string
    requires |Split(tag, '=')| == 2
  {
    Split(tag, '=')[1]
  }

  /** Profile.FindTag: the value of the first tag that splits on '=' into
      exactly two parts, the first of them `key`. */
  function FindTag(tags: seq<string>, key: string): (r: Option<string>)
    ensures r.None? <==> forall i :: 0 <= i < |tags| ==> !IsTagFor(tags[i], key)
    ensures r.Some? ==> exists i :: 0 <= i <= |tags| && FirstTagFor(tags, key, i) && r.value == TagValue(tags[i])
  {
    if |tags| == 0 then None
    else if IsTagFor(tags[0], key) then
      assert FirstTagFor(tags, key, 0);
      Some(TagValue(tags[0]))
    else
      var r := FindTag(tags[1..], key);
      if r.Some? then
        var i :| 0 <= i <= |tags[1..]| && FirstTagFor(tags[1..], key, i) && r.value == TagValue(tags[1..][i]);
        assert FirstTagFor(tags, key, i + 1);
        r
      else
        r
  }

  /** tags[i] is the first `key=value` tag of the list. */
  predicate FirstTagFor(tags: seq<string>, key: string, i: int) {
    && 0 <= i < |tags|
    && IsTagFor(tags[i], key)
    && forall j :: 0 <= j < i ==> !IsTagFor(tags[j], key)
  }

  /** A tag written as key '=' value, with no other '=', is found by its key. */
  lemma FindTagOfPair(key: string, value: string, rest: seq<string>)
    requires '=' !in key && '=' !in value
    ensures FindTag([key + "=" + value] + rest, key) == Some(value)
  {
    var tag := key + "=" + value;
    SplitJoin([key, value], '=');
    assert Join([key, value], ['=']) == tag;
    assert Split(tag, '=') == [key, value];
  }

  /** A tag without '=' or with more than one is passed over. */
  lemma FindTagSkipsMalformed(tag: string, rest: seq<string>, key: string)
    requires Count(tag, '=') != 1
    ensures FindTag([tag] + rest, key) == FindTag(rest, key)
  {
    assert ([tag] + rest)[1..] == rest;
  }

  /** Profiles.FindGUID: the first profile with the given GUID. */
  function FindGUID(ps: seq<Profile>, guid: string): (r: Option<Profile>)
    ensures r.None? <==> forall i :: 0 <= i < |ps| ==> ps[i].guid != guid
    ensures r.Some? ==> exists i :: FirstWithGUID(ps, guid, i) && r.value == ps[i]
  {
    if |ps| == 0 then None
    else if ps[0].guid == guid then
      assert FirstWithGUID(ps, guid, 0);
      Some(ps[0])
    else
      var r := FindGUID(ps[1..], guid);
      if r.Some? then
        var i :| FirstWithGUID(ps[1..], guid, i) && r.value == ps[1..][i];
        assert FirstWithGUID(ps, guid, i + 1);
        r
      else
        r
  }

  /** ps[i] is the first profile whose GUID is guid. */
  predicate FirstWithGUID(ps: seq<Profile>, guid: string, i: int) {
    && 0 <= i < |ps|
    && ps[i].guid == guid
    && forall j :: 0 <= j < i ==> ps[j].guid != guid
  }

  // ---------------------------------------------------------------------
  // Tags

  /** The timestamp tag is added unless "timestamps" is present and does
      not parse as true (a value that is not a boolean also disables it). */
  predicate TimestampsEnabled(c: Config) {
    "timestamps" !in c || ParseBool(c["timestamps"]) == Some(true)
  }

  /** `parts[index]` of the value at key split on sep, as a one-element
      list; nothing when the key is absent; a failure (Go's index out of
      range) when the value has too few parts. */
  function SplitField(c: Config, key: string, sep: char, index: nat): (r: Result<seq<string>>)
    ensures key !in c ==> r == Ok([])
    ensures key in c ==> (r.Failure? <==> Count(c[key], sep) < index)
    ensures key in c && r.Ok? ==> r.value == [Split(c[key], sep)[index]]
  {
    if key !in c then Ok([])
    else
      var parts := Split(c[key], sep);
      if |parts| <= index then Failure("index out of range splitting " + key)
      else Ok([parts[index]])
  }

  /** The comma-separated list at key, or nothing when key is absent. */
  function ListAt(c: Config, key: string): seq<string> {
    if key in c then Split(c[key], ',') else []
  }

  /** Tags: the tag list of a new profile. */
  function Tags(c: Config, now: string): (r: Result<seq<string>>)
    ensures r.Failure? <==>
      || ("role_arn" in c && Count(c["role_arn"], ':') < 4)
      || ("azure_app_id_uri" in c && Count(c["azure_app_id_uri"], '#') < 1)
      || ("azure_default_role_arn" in c && Count(c["azure_default_role_arn"], ':') < 5)
  {
    var timestamp := if TimestampsEnabled(c) then [now] else [];
    var account := if "sso_account_id" in c then ["account=" + c["sso_account_id"]] else [];
    var source := if "source_profile" in c then ["source-profile=" + c["source_profile"], c["source_profile"]] else [];
    var role :- SplitField(c, "role_arn", ':', 4);
    var azureAccount :- SplitField(c, "azure_app_id_uri", '#', 1);
    var azureRole :- SplitField(c, "azure_default_role_arn", ':', 5);
    Ok(timestamp + account + source + role + azureAccount + azureRole + ListAt(c, "Tags") + ListAt(c, "tags"))
  }

  /** With the timestamp on, it is the first tag. */
  lemma TagsStartWithTimestamp(c: Config, now: string)
    requires TimestampsEnabled(c) && Tags(c, now).Ok?
    ensures |Tags(c, now).value| > 0 && Tags(c, now).value[0] == now
  {
  }

  /** A config holding only keys Tags ignores produces just the timestamp
      tag, or nothing when timestamps are off. */
  lemma {:induction false} TagsOfOtherKeys(c: Config, now: string)
    requires forall k :: k in c ==> k !in TagKeys - {"timestamps"}
    ensures Tags(c, now) == Ok(if TimestampsEnabled(c) then [now] else [])
  {
    assert "sso_account_id" !in c && "source_profile" !in c && "role_arn" !in c;
    assert "azure_app_id_uri" !in c && "azure_default_role_arn" !in c;
    assert "Tags" !in c && "tags" !in c;
    assert SplitField(c, "role_arn", ':', 4) == Ok([]);
    assert SplitField(c, "azure_app_id_uri", '#', 1) == Ok([]);
    assert SplitField(c, "azure_default_role_arn", ':', 5) == Ok([]);
    assert ListAt(c, "Tags") == [] && ListAt(c, "tags") == [];
    var timestamp := if TimestampsEnabled(c) then [now] else [];
    assert Tags(c, now) == Ok(timestamp + [] + [] + [] + [] + [] + [] + []);
    assert timestamp + [] + [] + [] + [] + [] + [] + [] == timestamp;
  }

  /** The keys Tags reads. */
  const TagKeys: set<string> := {"timestamps", "sso_account_id", "source_profile", "role_arn",
                                 "azure_app_id_uri", "azure_default_role_arn", "Tags", "tags"}

  /** sso_account_id alone, timestamps off: the single `account=` tag. */
  lemma TagsOfAccount(id: string, now: string)
    ensures Tags(map["timestamps" := "false", "sso_account_id" := id], now) == Ok(["account=" + id])
  {
    var c := map["timestamps" := "false", "sso_account_id" := id];
    assert ParseBool("false") == Some(false);
    assert !TimestampsEnabled(c);
    assert SplitField(c, "role_arn", ':', 4) == Ok([]);
    assert SplitField(c, "azure_app_id_uri", '#', 1) == Ok([]);
    assert SplitField(c, "azure_default_role_arn", ':', 5) == Ok([]);
    assert ListAt(c, "Tags") == [] && ListAt(c, "tags") == [];
    assert Tags(c, now) == Ok([] + ["account=" + id] + [] + [] + [] + [] + [] + []);
    assert [] + ["account=" + id] + [] + [] + [] + [] + [] + [] == ["account=" + id];
  }

  /** source_profile alone, timestamps off: the `source-profile=` tag,
      then the bare source name. */
  lemma TagsOfSource(source: string, now: string)
    ensures Tags(map["timestamps" := "false", "source_profile" := source], now)
            == Ok(["source-profile=" + source, source])
  {
    var c := map["timestamps" := "false", "source_profile" := source];
    assert ParseBool("false") == Some(false);
    assert !TimestampsEnabled(c);
    assert SplitField(c, "role_arn", ':', 4) == Ok([]);
    assert SplitField(c, "azure_app_id_uri", '#', 1) == Ok([]);
    assert SplitField(c, "azure_default_role_arn", ':', 5) == Ok([]);
    assert ListAt(c, "Tags") == [] && ListAt(c, "tags") == [];
    assert Tags(c, now) == Ok([] + [] + ["source-profile=" + source, source] + [] + [] + [] + [] + []);
    assert [] + [] + ["source-profile=" + source, source] + [] + [] + [] + [] + [] == ["source-profile=" + source, source];
  }

  /** Several keys at once, timestamps on: the timestamp, then the account
      tag, then the two source-profile tags, then the "Tags" items, in
      that order. */
  lemma TagsOfSeveralKeys(account: string, source: string, items: string, now: string)
    ensures Tags(map["sso_account_id" := account, "source_profile" := source, "Tags" := items], now)
            == Ok([now, "account=" + account, "source-profile=" + source, source] + Split(items, ','))
  {
    var c := map["sso_account_id" := account, "source_profile" := source, "Tags" := items];
    assert TimestampsEnabled(c);
    assert "role_arn" !in c && "azure_app_id_uri" !in c && "azure_default_role_arn" !in c && "tags" !in c;
    var e: seq<string> := [];
    assert SplitField(c, "role_arn", ':', 4) == Ok(e);
    assert SplitField(c, "azure_app_id_uri", '#', 1) == Ok(e);
    assert SplitField(c, "azure_default_role_arn", ':', 5) == Ok(e);
    assert ListAt(c, "Tags") == Split(items, ',') && ListAt(c, "tags") == e;
    var head := [now] + ["account=" + account] + ["source-profile=" + source, source];
    assert Tags(c, now) == Ok(head + e + e + e + Split(items, ',') + e);
    assert head + e + e + e + Split(items, ',') + e == head + Split(items, ',');
    assert head == [now, "account=" + account, "source-profile=" + source, source];
  }

  /** The IAM service prefix of an ARN splits into its three fields. */
  lemma SplitIamPrefix(rest: string)
    ensures Split("arn:aws:iam:" + rest, ':') == ["arn", "aws", "iam"] + Split(rest, ':')
  {
    var t2 := "iam" + [':'] + rest;
    var t1 := "aws" + [':'] + t2;
    assert "arn:aws:iam:" + rest == "arn" + [':'] + t1;
    var s := Split(rest, ':');
    assert Split(t2, ':') == ["iam"] + s by {
      SplitHead("iam", rest, ':');
    }
    assert Split(t1, ':') == ["aws"] + (["iam"] + s) by {
      SplitHead("aws", t2, ':');
    }
    assert Split("arn" + [':'] + t1, ':') == ["arn"] + (["aws"] + (["iam"] + s)) by {
      SplitHead("arn", t1, ':');
    }
    assert ["arn"] + (["aws"] + (["iam"] + s)) == ["arn", "aws", "iam"] + s;
  }

  /** An IAM ARN `arn:aws:iam::<account>:<resource>` has six ':'-separated
      fields, the region field empty. */
  lemma SplitIamArn(account: string, resource: string)
    requires ':' !in account && ':' !in resource
    ensures Split("arn:aws:iam::" + account + ":" + resource, ':') == ["arn", "aws", "iam", "", account, resource]
  {
    var tail := account + ":" + resource;
    assert Split(tail, ':') == [account, resource] by {
      SplitNoSep(resource, ':');
      SplitHead(account, resource, ':');
    }
    var t3 := [':'] + tail;
    assert Split(t3, ':') == ["", account, resource] by {
      SplitHead("", tail, ':');
      assert "" + [':'] + tail == t3;
    }
    var arn := "arn:aws:iam::" + account + ":" + resource;
    assert arn == "arn:aws:iam:" + t3;
    assert Split(arn, ':') == ["arn", "aws", "iam"] + Split(t3, ':') by {
      SplitIamPrefix(t3);
    }
  }

  /** role_arn alone, timestamps off: the account number, the fifth
      ':'-separated field of an ARN `arn:aws:iam::<account>:<resource>`. */
  lemma TagsOfRoleArn(account: string, resource: string, now: string)
    requires ':' !in account && ':' !in resource
    ensures Tags(map["timestamps" := "false", "role_arn" := "arn:aws:iam::" + account + ":" + resource], now)
            == Ok([account])
  {
    var arn := "arn:aws:iam::" + account + ":" + resource;
    var c := map["timestamps" := "false", "role_arn" := arn];
    assert ParseBool("false") == Some(false);
    assert !TimestampsEnabled(c);
    SplitIamArn(account, resource);
    assert SplitField(c, "role_arn", ':', 4) == Ok([account]);
    assert SplitField(c, "azure_app_id_uri", '#', 1) == Ok([]);
    assert SplitField(c, "azure_default_role_arn", ':', 5) == Ok([]);
    assert ListAt(c, "Tags") == [] && ListAt(c, "tags") == [];
    assert Tags(c, now) == Ok([] + [] + [] + [account] + [] + [] + [] + []);
    assert [] + [] + [] + [account] + [] + [] + [] + [] == [account];
  }

  /** azure_default_role_arn alone, timestamps off: the sixth field, the
      resource part of `arn:aws:iam::<account>:<resource>`. */
  lemma TagsOfAzureRole(account: string, resource: string, now: string)
    requires ':' !in account && ':' !in resource
    ensures Tags(map["timestamps" := "false", "azure_default_role_arn" := "arn:aws:iam::" + account + ":" + resource], now)
            == Ok([resource])
  {
    var arn := "arn:aws:iam::" + account + ":" + resource;
    var c := map["timestamps" := "false", "azure_default_role_arn" := arn];
    assert ParseBool("false") == Some(false);
    assert !TimestampsEnabled(c);
    SplitIamArn(account, resource);
    assert SplitField(c, "role_arn", ':', 4) == Ok([]);
    assert SplitField(c, "azure_app_id_uri", '#', 1) == Ok([]);
    assert SplitField(c, "azure_default_role_arn", ':', 5) == Ok([resource]);
    assert ListAt(c, "Tags") == [] && ListAt(c, "tags") == [];
    assert Tags(c, now) == Ok([] + [] + [] + [] + [] + [resource] + [] + []);
    assert [] + [] + [] + [] + [] + [resource] + [] + [] == [resource];
  }

  /** azure_app_id_uri alone, timestamps off: the part after '#'. */
  lemma TagsOfAzureAppId(uri: string, account: string, now: string)
    requires '#' !in uri && '#' !in account
    ensures Tags(map["timestamps" := "false", "azure_app_id_uri" := uri + "#" + account], now) == Ok([account])
  {
    var c := map["timestamps" := "false", "azure_app_id_uri" := uri + "#" + account];
    assert ParseBool("false") == Some(false);
    assert !TimestampsEnabled(c);
    SplitJoin([uri, account], '#');
    assert Join([uri, account], ['#']) == uri + "#" + account;
    assert SplitField(c, "role_arn", ':', 4) == Ok([]);
    assert SplitField(c, "azure_app_id_uri", '#', 1) == Ok([account]);
    assert SplitField(c, "azure_default_role_arn", ':', 5) == Ok([]);
    assert ListAt(c, "Tags") == [] && ListAt(c, "tags") == [];
    assert Tags(c, now) == Ok([] + [] + [] + [] + [account] + [] + [] + []);
    assert [] + [] + [] + [] + [account] + [] + [] + [] == [account];
  }

  /** Tags alone, timestamps off: its comma-separated items, in order. */
  lemma TagsOfList(items: seq<string>, now: string)
    requires |items| > 0 && forall k :: 0 <= k < |items| ==> ',' !in items[k]
    ensures Tags(map["timestamps" := "false", "Tags" := Join(items, [','])], now) == Ok(items)
  {
    var joined := Join(items, [',']);
    var c := map["timestamps" := "false", "Tags" := joined];
    TagsOfListConfig(c, now);
    SplitJoin(items, ',');
    ListOfJoined(c, joined, items);
  }

  lemma ListOfJoined(c: Config, joined: string, items: seq<string>)
    requires c == map["timestamps" := "false", "Tags" := joined]
    requires Split(joined, ',') == items
    ensures ListAt(c, "Tags") + ListAt(c, "tags") == items
  {
    assert "tags" !in c;
    assert ListAt(c, "tags") == [];
    assert ListAt(c, "Tags") == items;
  }

  /** Without timestamps and with no key but the two tag lists, the tags
      are the "Tags" items followed by the "tags" items. */
  lemma TagsOfListConfig(c: Config, now: string)
    requires "timestamps" in c && c["timestamps"] == "false"
    requires forall k :: k in c ==> k in {"timestamps", "Tags", "tags"}
    ensures Tags(c, now) == Ok(ListAt(c, "Tags") + ListAt(c, "tags"))
  {
    assert ParseBool("false") == Some(false);
    assert !TimestampsEnabled(c);
    assert "sso_account_id" !in c && "source_profile" !in c;
    assert "role_arn" !in c && "azure_app_id_uri" !in c && "azure_default_role_arn" !in c;
    assert SplitField(c, "role_arn", ':', 4) == Ok([]);
    assert SplitField(c, "azure_app_id_uri", '#', 1) == Ok([]);
    assert SplitField(c, "azure_default_role_arn", ':', 5) == Ok([]);
    var e: seq<string> := [];
    var lists := ListAt(c, "Tags") + ListAt(c, "tags");
    assert Tags(c, now) == Ok(e + e + e + e + e + e + ListAt(c, "Tags") + ListAt(c, "tags"));
    assert e + e + e + e + e + e == e;
    assert e + ListAt(c, "Tags") + ListAt(c, "tags") == lists;
  }

  // ---------------------------------------------------------------------
  // Keyboard map, colours, new profiles

  /** CreateKeyboardMap: the two split shortcuts always, the login
      shortcut with a source profile, the SSO login shortcut with an SSO
      account; nothing else. */
  function CreateKeyboardMap(c: Config): (r: map<string, KeyboardMap>)
    ensures SplitHorizontalKey in r && r[SplitHorizontalKey] == SplitHorizontalMap
    ensures SplitVerticalKey in r && r[SplitVerticalKey] == SplitVerticalMap
    ensures AltAKey in r <==> "source_profile" in c
    ensures AltAKey in r ==> r[AltAKey] == LoginMap(c["source_profile"])
    ensures SsoLoginKey in r <==> "sso_account_id" in c
    ensures SsoLoginKey in r ==> r[SsoLoginKey] == SsoLoginMap
    ensures r.Keys <= {SplitHorizontalKey, SplitVerticalKey, AltAKey, SsoLoginKey}
  {
    var maps := map[SplitHorizontalKey := SplitHorizontalMap, SplitVerticalKey := SplitVerticalMap];
    var withLogin := if "source_profile" in c then maps[AltAKey := LoginMap(c["source_profile"])] else maps;
    if "sso_account_id" in c then withLogin[SsoLoginKey := SsoLoginMap] else withLogin
  }

  /** isProd: an explicit non-production marker wins over a production one. */
  predicate IsProd(name: string) {
    if Contains(name, "nonprd") then false
    else if Contains(name, "nonprod") then false
    else if Contains(name, "prod") then true
    else Contains(name, "prd")
  }

  /** The order of the checks in IsProd matters: every "nonprod" name also
      contains "prod" and every "nonprd" name "prd", so without the first
      two checks such names would count as production. */
  lemma NonProdMarkersContainProdMarkers(name: string)
    ensures Contains(name, "nonprod") ==> Contains(name, "prod")
    ensures Contains(name, "nonprd") ==> Contains(name, "prd")
    ensures IsProd(name) <==> (Contains(name, "prod") || Contains(name, "prd"))
                              && !Contains(name, "nonprod") && !Contains(name, "nonprd")
  {
    if Contains(name, "nonprod") {
      ContainsAt(name, "nonprod");
      var i :| OccursAt(name, "nonprod", i);
      assert OccursAt(name, "prod", i + 3) by {
        assert name[i + 3..i + 7] == name[i..i + 7][3..7];
      }
      ContainsAt(name, "prod");
    }
    if Contains(name, "nonprd") {
      ContainsAt(name, "nonprd");
      var i :| OccursAt(name, "nonprd", i);
      assert OccursAt(name, "prd", i + 3) by {
        assert name[i + 3..i + 6] == name[i..i + 6][3..6];
      }
      ContainsAt(name, "prd");
    }
  }

  /** The colour Colors assigns. */
  function ColorOf(name: string, tags: seq<string>): (r: Color)
    ensures r == Red <==> IsProd(name)
    ensures r == Blue <==> !IsProd(name) && "k8s" in tags
  {
    if IsProd(name) then Red
    else if HasTag(tags, "k8s") then Blue
    else Black
  }

  /** Profile.Colors: sets the background colour and nothing else. */
  function Colors(p: Profile): (r: Profile)
    ensures r.backgroundColor == ColorOf(p.name, p.tags)
    ensures r.(backgroundColor := p.backgroundColor) == p
  {
    p.(backgroundColor := ColorOf(p.name, p.tags))
  }

  /** The Command override: "command" is read after "Command" and wins. */
  function CommandOf(c: Config): Option<string> {
    if "command" in c then Some(c["command"])
    else if "Command" in c then Some(c["Command"])
    else None
  }

  const RecycleDirectory := "Recycle"
  const DefaultFont := "Monaco 12"

  /** NewProfile: a profile named name from a config section. It fails
      when Tags fails or when AllowTitleSetting is not a boolean (Go's
      log.Fatal). */
  function NewProfile(name: string, c: Config, env: Environment): (r: Result<Profile>)
    ensures r.Failure? <==>
      Tags(c, env.now).Failure? || ("AllowTitleSetting" in c && ParseBool(c["AllowTitleSetting"]).None?)
  {
    var tags :- Tags(c, env.now);
    if "AllowTitleSetting" in c && ParseBool(c["AllowTitleSetting"]).None? then
      Failure("Value is not convertable to bool")
    else
      var command := CommandOf(c);
      var prof := Profile(
        allowTitleSetting := "AllowTitleSetting" in c && ParseBool(c["AllowTitleSetting"]).value,
        badgeText := if "BadgeText" in c then c["BadgeText"] else name,
        command := if command.Some? then command.value else "",
        customCommand := if command.Some? then "Yes" else "",
        customDirectory := RecycleDirectory,
        customWindowTitle := name,
        flashingBell := true,
        guid := name,
        keyboardMap := CreateKeyboardMap(c),
        name := name,
        silenceBell := true,
        smartSelectionRules := env.rules,
        tags := tags,
        titleComponents := 32,
        triggers := env.triggers,
        unlimitedScrollback := true,
        backgroundColor := Black,
        boundHosts := [],
        normalFont := DefaultFont,
        transparency := 0,
        initialUseTransparency := false);
      Ok(Colors(prof))
  }

  /** A generated profile is named, identified and titled by its section
      name; BadgeText overrides the badge, `command` wins over `Command`,
      and AllowTitleSetting is read as a boolean. */
  lemma NewProfileIdentity(name: string, c: Config, env: Environment)
    requires NewProfile(name, c, env).Ok?
    ensures var p := NewProfile(name, c, env).value;
      && p.name == name && p.guid == name && p.customWindowTitle == name
      && p.badgeText == (if "BadgeText" in c then c["BadgeText"] else name)
      && (p.command, p.customCommand) == (match CommandOf(c) case Some(cmd) => (cmd, "Yes") case None => ("", ""))
      && p.allowTitleSetting == ("AllowTitleSetting" in c && ParseBool(c["AllowTitleSetting"]) == Some(true))
  {
  }

  /** A generated profile carries the section's tags, keyboard map, the
      shared rules and triggers, and the colour its name and tags select. */
  lemma NewProfileContents(name: string, c: Config, env: Environment)
    requires NewProfile(name, c, env).Ok?
    ensures var p := NewProfile(name, c, env).value;
      && p.tags == Tags(c, env.now).value
      && p.keyboardMap == CreateKeyboardMap(c)
      && p.smartSelectionRules == env.rules
      && p.triggers == env.triggers
      && p.backgroundColor == ColorOf(name, p.tags)
  {
  }

  /** The settings every generated profile shares. */
  lemma NewProfileDefaults(name: string, c: Config, env: Environment)
    requires NewProfile(name, c, env).Ok?
    ensures var p := NewProfile(name, c, env).value;
      && p.customDirectory == RecycleDirectory
      && p.titleComponents == 32 && !p.initialUseTransparency && p.transparency == 0
      && p.flashingBell && p.silenceBell && p.unlimitedScrollback && p.normalFont == DefaultFont
      && p.boundHosts == []
  {
  }

  /** A section whose role and Azure keys are absent and which sets no
      AllowTitleSetting always yields a profile. */
  lemma NewProfileSucceeds(name: string, c: Config, env: Environment)
    requires "role_arn" !in c && "azure_app_id_uri" !in c && "azure_default_role_arn" !in c
    requires "AllowTitleSetting" !in c
    ensures NewProfile(name, c, env).Ok?
  {
  }

  /** A section whose tags succeed and which has none of the keys that can
      fail yields a profile with those tags. */
  lemma NewProfileTags(name: string, c: Config, env: Environment, tags: seq<string>)
    requires "role_arn" !in c && "azure_app_id_uri" !in c && "azure_default_role_arn" !in c
    requires "AllowTitleSetting" !in c
    requires Tags(c, env.now) == Ok(tags)
    ensures NewProfile(name, c, env).Ok? && NewProfile(name, c, env).value.tags == tags
  {
    NewProfileSucceeds(name, c, env);
    NewProfileContents(name, c, env);
  }

  // ---------------------------------------------------------------------
  // Source profiles and the profile tree

  /** A profile without a `source-profile=` tag is a source profile. */
  predicate IsSource(p: Profile) {
    forall k :: 0 <= k < |p.tags| ==> !HasPrefix(p.tags[k], "source-profile=")
  }

  /** Profiles.SourceProfiles: the GUIDs of the source profiles, in list order. */
  function SourceProfiles(ps: seq<Profile>): (r: seq<string>)
    ensures |r| <= |ps|
    ensures forall g :: g in r <==> exists i :: SourceAt(ps, i, g)
  {
    if |ps| == 0 then []
    else
      var init := ps[..|ps| - 1];
      var last := ps[|ps| - 1];
      var r := SourceProfiles(init) + (if IsSource(last) then [last.guid] else []);
      assert forall i, g :: SourceAt(init, i, g) ==> SourceAt(ps, i, g);
      assert forall i, g :: SourceAt(ps, i, g) && i < |ps| - 1 ==> SourceAt(init, i, g);
      assert IsSource(last) ==> SourceAt(ps, |ps| - 1, last.guid);
      r
  }

  /** One profile gives its GUID exactly when it is a source profile. */
  lemma SourceProfilesOne(p: Profile)
    ensures SourceProfiles([p]) == if IsSource(p) then [p.guid] else []
  {
    assert [p][..0] == [];
  }

  /** The GUIDs of a + b are those of a followed by those of b: one entry
      per source profile, in list order. */
  lemma {:induction false} SourceProfilesAppend(a: seq<Profile>, b: seq<Profile>)
    ensures SourceProfiles(a + b) == SourceProfiles(a) + SourceProfiles(b)
    decreases |b|
  {
    if |b| == 0 {
      assert a + b == a;
    } else {
      var init := b[..|b| - 1];
      assert (a + b)[..|a + b| - 1] == a + init;
      assert (a + b)[|a + b| - 1] == b[|b| - 1];
      SourceProfilesAppend(a, init);
    }
  }

  /** ps[i] is a source profile with GUID g. */
  predicate SourceAt(ps: seq<Profile>, i: int, g: string) {
    0 <= i < |ps| && IsSource(ps[i]) && ps[i].guid == g
  }

  /** strings.Split(tag, "=")[1]: the text after the first '=' up to the
      next one. */
  function EqualsField(tag: string): string
    requires '=' in tag
  {
    var i :| 0 <= i < |tag| && tag[i] == '=';
    CountPositive(tag, '=', i);
    Split(tag, '=')[1]
  }

  lemma {:induction false} CountPositive(s: string, c: char, i: nat)
    requires i < |s| && s[i] == c
    ensures Count(s, c) >= 1
    decreases i
  {
    if i > 0 {
      CountPositive(s[1..], c, i - 1);
    }
  }

  /** A `<key>=` prefix puts an '=' in the tag. */
  lemma PrefixHasEquals(tag: string, key: string)
    requires HasPrefix(tag, key + "=")
    ensures '=' in tag
  {
    assert tag[|key|] == (key + "=")[|key|];
  }

  /** The parent named by a `source-profile=` tag. */
  function ParentOf(tag: string): string
    requires HasPrefix(tag, "source-profile=")
  {
    PrefixHasEquals(tag, "source-profile");
    EqualsField(tag)
  }

  /** Adds guid as a child of every parent named by one of tags. */
  function AddChildren(tree: map<string, seq<string>>, guid: string, tags: seq<string>): map<string, seq<string>>
    decreases |tags|
  {
    if |tags| == 0 then tree
    else
      var tree := if HasPrefix(tags[0], "source-profile=") then
        var parent := ParentOf(tags[0]);
        tree[parent := if parent in tree then tree[parent] + [guid] else [guid]]
      else tree;
      AddChildren(tree, guid, tags[1..])
  }

  /** Profiles.ProfileTree: each parent to the GUIDs of its children. */
  function ProfileTree(ps: seq<Profile>): map<string, seq<string>>
  {
    if |ps| == 0 then map[]
    else AddChildren(ProfileTree(ps[..|ps| - 1]), ps[|ps| - 1].guid, ps[|ps| - 1].tags)
  }

  /** One guid per tag of tags that names parent. */
  function TagChildren(guid: string, tags: seq<string>, parent: string): seq<string>
  {
    if |tags| == 0 then []
    else
      (if HasPrefix(tags[0], "source-profile=") && ParentOf(tags[0]) == parent then [guid] else [])
      + TagChildren(guid, tags[1..], parent)
  }

  /** The children of parent read off the list profile by profile, tag by
      tag: the reference definition ProfileTree is checked against. */
  function Children(ps: seq<Profile>, parent: string): seq<string>
  {
    if |ps| == 0 then []
    else Children(ps[..|ps| - 1], parent) + TagChildren(ps[|ps| - 1].guid, ps[|ps| - 1].tags, parent)
  }

  lemma {:induction false} AddChildrenSpec(tree: map<string, seq<string>>, guid: string, tags: seq<string>, parent: string)
    ensures var t := AddChildren(tree, guid, tags);
            && (parent in t <==> parent in tree || |TagChildren(guid, tags, parent)| > 0)
            && (parent in t ==> t[parent] == (if parent in tree then tree[parent] else []) + TagChildren(guid, tags, parent))
    decreases |tags|
  {
    if |tags| > 0 {
      var next := if HasPrefix(tags[0], "source-profile=") then
        var p := ParentOf(tags[0]);
        tree[p := if p in tree then tree[p] + [guid] else [guid]]
      else tree;
      AddChildrenSpec(next, guid, tags[1..], parent);
    }
  }

  /** ProfileTree has a key exactly for the parents with a child, and maps
      it to its children in list order (a child tagged twice appears twice). */
  lemma {:induction false} ProfileTreeIsChildren(ps: seq<Profile>, parent: string)
    ensures parent in ProfileTree(ps) <==> |Children(ps, parent)| > 0
    ensures parent in ProfileTree(ps) ==> ProfileTree(ps)[parent] == Children(ps, parent)
    decreases |ps|
  {
    if |ps| > 0 {
      var init := ps[..|ps| - 1];
      ProfileTreeIsChildren(init, parent);
      AddChildrenSpec(ProfileTree(init), ps[|ps| - 1].guid, ps[|ps| - 1].tags, parent);
    }
  }

  /** After Add, looking up the new profile's GUID finds the earlier
      profile with that GUID if there is one, and the new profile otherwise. */
  lemma {:induction false} FindGUIDAfterAppend(ps: seq<Profile>, p: Profile)
    ensures FindGUID(ps + [p], p.guid) == (if FindGUID(ps, p.guid).Some? then FindGUID(ps, p.guid) else Some(p))
    decreases |ps|
  {
    if |ps| > 0 {
      assert (ps + [p])[1..] == ps[1..] + [p];
      FindGUIDAfterAppend(ps[1..], p);
    }
  }

  // ---------------------------------------------------------------------
  // Keyboard-map propagation

  /** A profile UpdateKeyboardMaps rewrites: tagged "k8s", with an
      `aws-profile=` tag naming its AWS profile. */
  predicate Linked(p: Profile) {
    HasTag(p.tags, "k8s") && FindTag(p.tags, "aws-profile").Some?
  }

  /** A profile's Alt-A entry, Go's zero value when the key is absent. */
  function AltAEntry(p: Profile): KeyboardMap {
    if AltAKey in p.keyboardMap then p.keyboardMap[AltAKey] else ZeroKeyboardMap
  }

  /** The entry a linked profile copies from ps: the Alt-A entry of the
      first profile whose GUID its aws-profile tag names, zero when there
      is none (Go reads the map of an empty Profile). */
  function SourceEntry(ps: seq<Profile>, awsProfile: string): KeyboardMap {
    match FindGUID(ps, awsProfile)
    case Some(src) => AltAEntry(src)
    case None => ZeroKeyboardMap
  }

  /** The body of the UpdateKeyboardMaps loop for profile i. */
  function KeyboardStep(ps: seq<Profile>, i: nat): (r: seq<Profile>)
    requires i < |ps|
    ensures |r| == |ps|
    ensures forall k :: 0 <= k < |ps| && k != i ==> r[k] == ps[k]
  {
    var p := ps[i];
    if !Linked(p) then ps
    else
      var entry := SourceEntry(ps, FindTag(p.tags, "aws-profile").value);
      ps[i := p.(keyboardMap := p.keyboardMap[AltAKey := entry])]
  }

  /** The loop run from profile i to the end. */
  function KeyboardMapsFrom(ps: seq<Profile>, i: nat): (r: seq<Profile>)
    requires i <= |ps|
    ensures |r| == |ps|
    decreases |ps| - i
  {
    if i == |ps| then ps else KeyboardMapsFrom(KeyboardStep(ps, i), i + 1)
  }

  /** Profiles.UpdateKeyboardMaps on a list of profiles. */
  function KeyboardMapsUpdated(ps: seq<Profile>): seq<Profile> {
    KeyboardMapsFrom(ps, 0)
  }

  /** q differs from p at most in the Alt-A entry of its keyboard map, and
      not at all unless p is linked. */
  predicate Related(p: Profile, q: Profile) {
    && q == p.(keyboardMap := q.keyboardMap)
    && q.keyboardMap - {AltAKey} == p.keyboardMap - {AltAKey}
    && (!Linked(p) ==> q == p)
  }

  /** q is what UpdateKeyboardMaps makes of ps[k]: related to it and, when
      it is linked, holding the Alt-A entry of its AWS profile; that entry
      is known when the AWS profile is absent or is not linked itself. */
  predicate Settled(ps: seq<Profile>, k: int, q: Profile)
    requires 0 <= k < |ps|
  {
    && Related(ps[k], q)
    && (Linked(ps[k]) ==>
          var aws := FindTag(ps[k].tags, "aws-profile").value;
          && AltAKey in q.keyboardMap
          && (FindGUID(ps, aws).None? ==> q.keyboardMap[AltAKey] == ZeroKeyboardMap)
          && (FindGUID(ps, aws).Some? && !Linked(FindGUID(ps, aws).value) ==>
                q.keyboardMap[AltAKey] == AltAEntry(FindGUID(ps, aws).value)))
  }

  /** Related lists: the same length, related element by element. */
  predicate RelatedLists(ps: seq<Profile>, qs: seq<Profile>) {
    |ps| == |qs| && forall k :: 0 <= k < |ps| ==> Related(ps[k], qs[k])
  }

  /** Looking a GUID up in a related list finds the related profile. */
  lemma {:induction false} FindGUIDRelated(ps: seq<Profile>, qs: seq<Profile>, guid: string)
    requires RelatedLists(ps, qs)
    ensures FindGUID(qs, guid).Some? <==> FindGUID(ps, guid).Some?
    ensures FindGUID(ps, guid).Some? ==> Related(FindGUID(ps, guid).value, FindGUID(qs, guid).value)
    decreases |ps|
  {
    if |ps| > 0 {
      assert Related(ps[0], qs[0]);
      if ps[0].guid != guid {
        FindGUIDRelated(ps[1..], qs[1..], guid);
      }
    }
  }

  /** One step of the loop on a state related to the original list, at a
      profile not yet visited, settles that profile. */
  lemma StepSettlesAt(ps: seq<Profile>, qs: seq<Profile>, i: nat)
    requires RelatedLists(ps, qs) && i < |qs| && qs[i] == ps[i]
    ensures Settled(ps, i, KeyboardStep(qs, i)[i])
  {
    var p := ps[i];
    if Linked(p) {
      var aws := FindTag(p.tags, "aws-profile").value;
      FindGUIDRelated(ps, qs, aws);
      var q := KeyboardStep(qs, i)[i];
      assert q.keyboardMap == p.keyboardMap[AltAKey := SourceEntry(qs, aws)];
      assert q.keyboardMap - {AltAKey} == p.keyboardMap - {AltAKey};
    }
  }

  /** ... and keeps the state related to the original list. */
  lemma StepSettles(ps: seq<Profile>, qs: seq<Profile>, i: nat)
    requires RelatedLists(ps, qs) && i < |qs| && qs[i] == ps[i]
    ensures RelatedLists(ps, KeyboardStep(qs, i))
    ensures Settled(ps, i, KeyboardStep(qs, i)[i])
  {
    var r := KeyboardStep(qs, i);
    StepSettlesAt(ps, qs, i);
    forall k | 0 <= k < |ps|
      ensures Related(ps[k], r[k])
    {
      if k != i {
        assert r[k] == qs[k];
      }
    }
  }

  /** The profiles of qs before i are settled against ps. */
  predicate SettledBefore(ps: seq<Profile>, qs: seq<Profile>, i: nat)
    requires |qs| == |ps| && i <= |qs|
  {
    forall k :: 0 <= k < i ==> Settled(ps, k, qs[k])
  }

  /** The profiles of qs from i on are those of ps. */
  predicate UntouchedFrom(ps: seq<Profile>, qs: seq<Profile>, i: nat)
    requires |qs| == |ps|
  {
    forall k :: i <= k < |qs| ==> qs[k] == ps[k]
  }

  /** The state after one more step of the loop keeps the loop's invariant. */
  lemma StepKeepsSettled(ps: seq<Profile>, qs: seq<Profile>, i: nat)
    requires RelatedLists(ps, qs) && i < |qs|
    requires UntouchedFrom(ps, qs, i) && SettledBefore(ps, qs, i)
    ensures RelatedLists(ps, KeyboardStep(qs, i))
    ensures UntouchedFrom(ps, KeyboardStep(qs, i), i + 1)
    ensures SettledBefore(ps, KeyboardStep(qs, i), i + 1)
  {
    var next := KeyboardStep(qs, i);
    StepSettles(ps, qs, i);
    forall k | 0 <= k < i
      ensures Settled(ps, k, next[k])
    {
      assert next[k] == qs[k];
    }
  }

  /** Running the loop from i, with the profiles before i settled and the
      rest untouched, settles every profile. */
  lemma {:induction false} KeyboardMapsFromSettles(ps: seq<Profile>, qs: seq<Profile>, i: nat)
    requires RelatedLists(ps, qs) && i <= |qs|
    requires UntouchedFrom(ps, qs, i) && SettledBefore(ps, qs, i)
    ensures SettledBefore(ps, KeyboardMapsFrom(qs, i), |ps|)
    decreases |qs| - i
  {
    if i < |qs| {
      StepKeepsSettled(ps, qs, i);
      KeyboardMapsFromSettles(ps, KeyboardStep(qs, i), i + 1);
    }
  }

  /** UpdateKeyboardMaps keeps the list's length and changes nothing but
      the Alt-A entry of linked profiles. A linked profile gets the Alt-A
      entry of the first profile with the GUID its aws-profile tag names
      (when that profile is not linked itself), or the zero entry when no
      profile has that GUID. */
  lemma KeyboardMapsUpdatedSettles(ps: seq<Profile>)
    ensures |KeyboardMapsUpdated(ps)| == |ps|
    ensures forall k :: 0 <= k < |ps| ==> Settled(ps, k, KeyboardMapsUpdated(ps)[k])
  {
    KeyboardMapsFromSettles(ps, ps, 0);
    assert SettledBefore(ps, KeyboardMapsUpdated(ps), |ps|);
  }

  // ---------------------------------------------------------------------
  // Account smart-selection rules

  /** An `account=<id>` tag. */
  predicate IsAccountTag(tag: string) {
    HasPrefix(tag, "account=")
  }

  /** The account id of an `account=` tag. */
  function AccountId(tag: string): string
    requires IsAccountTag(tag)
  {
    PrefixHasEquals(tag, "account");
    EqualsField(tag)
  }

  /** The accounts map after the tags of one profile named name: each
      account tag of a non-login profile writes name := id, the last one
      staying. */
  function TagAccounts(accounts: map<string, string>, name: string, tags: seq<string>): map<string, string>
  {
    if |tags| == 0 then accounts
    else
      var before := TagAccounts(accounts, name, tags[..|tags| - 1]);
      var tag := tags[|tags| - 1];
      if IsAccountTag(tag) && !HasPrefix(name, "login-") then before[name := AccountId(tag)] else before
  }

  /** The accounts map of UpdateAWSSmartSelectionRules: profile name to
      account id. */
  function Accounts(ps: seq<Profile>): map<string, string>
  {
    if |ps| == 0 then map[]
    else TagAccounts(Accounts(ps[..|ps| - 1]), ps[|ps| - 1].name, ps[|ps| - 1].tags)
  }

  /** The accounts map after one more tag. */
  lemma TagAccountsSnoc(accounts: map<string, string>, name: string, tags: seq<string>, j: nat)
    requires j < |tags|
    ensures TagAccounts(accounts, name, tags[..j + 1])
            == var before := TagAccounts(accounts, name, tags[..j]);
               if IsAccountTag(tags[j]) && !HasPrefix(name, "login-") then before[name := AccountId(tags[j])] else before
    ensures j + 1 == |tags| ==> tags[..j + 1] == tags
  {
    assert tags[..j + 1][..j] == tags[..j];
  }

  /** The accounts map after one more profile. */
  lemma AccountsSnoc(ps: seq<Profile>, i: nat)
    requires i < |ps|
    ensures Accounts(ps[..i + 1]) == TagAccounts(Accounts(ps[..i]), ps[i].name, ps[i].tags)
    ensures i + 1 == |ps| ==> ps[..i + 1] == ps
  {
    assert ps[..i + 1][..i] == ps[..i];
  }

  /** A profile that contributes to the accounts map: not a login profile,
      with at least one account tag. */
  predicate CarriesAccount(p: Profile) {
    !HasPrefix(p.name, "login-") && exists j :: 0 <= j < |p.tags| && IsAccountTag(p.tags[j])
  }

  /** p is profile i of ps, carries an account and is called name. */
  predicate AccountProfileAt(ps: seq<Profile>, i: int, name: string) {
    0 <= i < |ps| && ps[i].name == name && CarriesAccount(ps[i])
  }

  lemma {:induction false} TagAccountsKeys(accounts: map<string, string>, name: string, tags: seq<string>)
    ensures TagAccounts(accounts, name, tags).Keys
            == accounts.Keys + (if !HasPrefix(name, "login-") && exists j :: 0 <= j < |tags| && IsAccountTag(tags[j]) then {name} else {})
    ensures forall k :: k in accounts && k != name ==> TagAccounts(accounts, name, tags)[k] == accounts[k]
    decreases |tags|
  {
    if |tags| > 0 {
      var init := tags[..|tags| - 1];
      TagAccountsKeys(accounts, name, init);
      if exists j :: 0 <= j < |init| && IsAccountTag(init[j]) {
        var j :| 0 <= j < |init| && IsAccountTag(init[j]);
        assert tags[j] == init[j];
      }
      if exists j :: 0 <= j < |tags| && IsAccountTag(tags[j]) {
        var j :| 0 <= j < |tags| && IsAccountTag(tags[j]);
        if j < |tags| - 1 {
          assert init[j] == tags[j];
        }
      }
    }
  }

  /** The accounts map is keyed by exactly the names of the non-login
      profiles that carry an account tag. */
  lemma {:induction false} AccountsKeys(ps: seq<Profile>, name: string)
    ensures name in Accounts(ps) <==> exists i :: AccountProfileAt(ps, i, name)
    decreases |ps|
  {
    if |ps| > 0 {
      var init := ps[..|ps| - 1];
      var last := ps[|ps| - 1];
      AccountsKeys(init, name);
      TagAccountsKeys(Accounts(init), last.name, last.tags);
      assert Accounts(ps).Keys == Accounts(init).Keys + (if CarriesAccount(last) then {last.name} else {});
      if exists i :: AccountProfileAt(init, i, name) {
        var i :| AccountProfileAt(init, i, name);
        assert AccountProfileAt(ps, i, name);
      }
      if exists i :: AccountProfileAt(ps, i, name) {
        var i :| AccountProfileAt(ps, i, name);
        if i < |ps| - 1 {
          assert AccountProfileAt(init, i, name);
        } else {
          assert name == last.name && CarriesAccount(last);
        }
      }
      if name in Accounts(ps) && name !in Accounts(init) {
        assert AccountProfileAt(ps, |ps| - 1, name);
      }
    }
  }

  /** tags[j] is the last account tag of the list. */
  predicate LastAccountTag(tags: seq<string>, j: int) {
    && 0 <= j < |tags|
    && IsAccountTag(tags[j])
    && forall k :: j < k < |tags| ==> !IsAccountTag(tags[k])
  }

  /** ps[i] is the last profile called name that carries an account. */
  predicate LastAccountProfile(ps: seq<Profile>, i: int, name: string) {
    && AccountProfileAt(ps, i, name)
    && forall k :: i < k < |ps| ==> !AccountProfileAt(ps, k, name)
  }

  /** A login profile, or one without account tags, leaves the map alone. */
  lemma {:induction false} TagAccountsNone(accounts: map<string, string>, name: string, tags: seq<string>)
    requires HasPrefix(name, "login-") || forall j :: 0 <= j < |tags| ==> !IsAccountTag(tags[j])
    ensures TagAccounts(accounts, name, tags) == accounts
    decreases |tags|
  {
    if |tags| > 0 {
      TagAccountsNone(accounts, name, tags[..|tags| - 1]);
    }
  }

  /** Later tags overwrite earlier ones: a non-login profile with account
      tags records the id of its last one. */
  lemma {:induction false} TagAccountsValue(accounts: map<string, string>, name: string, tags: seq<string>)
    requires !HasPrefix(name, "login-") && exists j :: 0 <= j < |tags| && IsAccountTag(tags[j])
    ensures name in TagAccounts(accounts, name, tags)
    ensures exists j :: LastAccountTag(tags, j) && TagAccounts(accounts, name, tags)[name] == AccountId(tags[j])
    decreases |tags|
  {
    var n := |tags| - 1;
    if IsAccountTag(tags[n]) {
      assert LastAccountTag(tags, n);
    } else {
      var init := tags[..n];
      assert TagAccounts(accounts, name, tags) == TagAccounts(accounts, name, init);
      var j :| 0 <= j < |tags| && IsAccountTag(tags[j]);
      assert init[j] == tags[j];
      TagAccountsValue(accounts, name, init);
      var i :| LastAccountTag(init, i) && TagAccounts(accounts, name, init)[name] == AccountId(init[i]);
      LastAccountTagSnoc(tags, i);
    }
  }

  lemma LastAccountTagSnoc(tags: seq<string>, i: int)
    requires |tags| > 0 && !IsAccountTag(tags[|tags| - 1]) && LastAccountTag(tags[..|tags| - 1], i)
    ensures LastAccountTag(tags, i) && tags[i] == tags[..|tags| - 1][i]
  {
  }

  /** The last profile, when it is not a name-carrying profile, leaves the
      entry for name as the profiles before it made it. */
  lemma AccountsUnchanged(ps: seq<Profile>, name: string)
    requires |ps| > 0 && !AccountProfileAt(ps, |ps| - 1, name) && name in Accounts(ps)
    ensures name in Accounts(ps[..|ps| - 1]) && Accounts(ps)[name] == Accounts(ps[..|ps| - 1])[name]
  {
    var init := ps[..|ps| - 1];
    var last := ps[|ps| - 1];
    assert Accounts(ps) == TagAccounts(Accounts(init), last.name, last.tags);
    TagAccountsKeys(Accounts(init), last.name, last.tags);
    if last.name == name {
      TagAccountsNone(Accounts(init), name, last.tags);
    }
  }

  lemma LastAccountProfileSnoc(ps: seq<Profile>, i: int, name: string)
    requires |ps| > 0 && !AccountProfileAt(ps, |ps| - 1, name) && LastAccountProfile(ps[..|ps| - 1], i, name)
    ensures LastAccountProfile(ps, i, name) && ps[i] == ps[..|ps| - 1][i]
  {
    forall k | i < k < |ps|
      ensures !AccountProfileAt(ps, k, name)
    {
      if k < |ps| - 1 {
        assert ps[k] == ps[..|ps| - 1][k];
        assert !AccountProfileAt(ps[..|ps| - 1], k, name);
      }
    }
  }

  /** A last profile that carries an account and is called name sets the
      entry from its last account tag. */
  lemma AccountsOfLast(init: seq<Profile>, last: Profile, name: string)
    requires last.name == name && CarriesAccount(last)
    ensures name in Accounts(init + [last])
    ensures exists j :: LastAccountTag(last.tags, j) && Accounts(init + [last])[name] == AccountId(last.tags[j])
  {
    var ps := init + [last];
    assert ps[..|ps| - 1] == init;
    assert Accounts(ps) == TagAccounts(Accounts(init), last.name, last.tags);
    TagAccountsValue(Accounts(init), name, last.tags);
  }

  /** The id recorded for a name comes from the last account tag of the
      last non-login profile of that name: the loop overwrites earlier
      entries. */
  lemma {:induction false} AccountsValue(ps: seq<Profile>, name: string)
    requires name in Accounts(ps)
    ensures exists i, j :: LastAccountProfile(ps, i, name) && LastAccountTag(ps[i].tags, j)
                           && Accounts(ps)[name] == AccountId(ps[i].tags[j])
    decreases |ps|
  {
    var n := |ps| - 1;
    if AccountProfileAt(ps, n, name) {
      assert ps == ps[..n] + [ps[n]];
      AccountsOfLast(ps[..n], ps[n], name);
      var j :| LastAccountTag(ps[n].tags, j) && Accounts(ps)[name] == AccountId(ps[n].tags[j]);
      assert LastAccountProfile(ps, n, name);
    } else {
      var init := ps[..n];
      AccountsUnchanged(ps, name);
      AccountsValue(init, name);
      var i, j :| LastAccountProfile(init, i, name) && LastAccountTag(init[i].tags, j)
                  && Accounts(init)[name] == AccountId(init[i].tags[j]);
      LastAccountProfileSnoc(ps, i, name);
    }
  }

  const NotifyTitle := "Notify the AWS account name"
  const NotifyCommandHead := "osascript -e 'display notification \""
  const NotifyCommandMiddle := "\" with title \""
  const NotifyCommandTail := "\"'"
  const NotesHead := "AWS account ID for "

  /** The rule added for an account: selecting its id shows a notification
      with the profile name. */
  function AccountRule(name: string, id: string): SmartSelectionRule {
    var notify := NotifyCommandHead + name + NotifyCommandMiddle + id + NotifyCommandTail;
    SmartSelectionRule([SmartSelectionRuleAction(2, notify, NotifyTitle)], NotesHead + name, "very_high", id)
  }

  /** The rules built by the loop over the accounts map, visited in order. */
  function AccountRules(order: seq<string>, accounts: map<string, string>): (r: seq<SmartSelectionRule>)
    requires forall k :: 0 <= k < |order| ==> order[k] in accounts
    ensures |r| == |order|
    decreases |order|
  {
    if |order| == 0 then []
    else AccountRules(order[..|order| - 1], accounts) + [AccountRule(order[|order| - 1], accounts[order[|order| - 1]])]
  }

  /** Rule k is the rule of the k-th visited account. */
  lemma {:induction false} AccountRulesAt(order: seq<string>, accounts: map<string, string>, k: int)
    requires forall m :: 0 <= m < |order| ==> order[m] in accounts
    requires 0 <= k < |order|
    ensures AccountRules(order, accounts)[k] == AccountRule(order[k], accounts[order[k]])
    decreases |order|
  {
    if k < |order| - 1 {
      AccountRulesAt(order[..|order| - 1], accounts, k);
    }
  }

  /** The elements of a sequence without repetitions are as many as its length. */
  lemma {:induction false} DistinctCardinality(order: seq<string>)
    requires forall i, j :: 0 <= i < j < |order| ==> order[i] != order[j]
    ensures |set k | 0 <= k < |order| :: order[k]| == |order|
    decreases |order|
  {
    if |order| > 0 {
      var init := order[..|order| - 1];
      DistinctCardinality(init);
      var s := set k | 0 <= k < |init| :: init[k];
      var t := set k | 0 <= k < |order| :: order[k];
      assert t == s + {order[|order| - 1]};
      assert order[|order| - 1] !in s;
    }
  }

  /** An enumeration of a set has as many elements as the set. */
  lemma EnumerationLength(order: seq<string>, keys: set<string>)
    requires IsEnumeration(order, keys)
    ensures |order| == |keys|
  {
    DistinctCardinality(order);
    assert (set k | 0 <= k < |order| :: order[k]) == keys;
  }

  /** One rule per account: as many rules as distinct account names, and
      for each name a rule built from it and its id. */
  lemma AccountRulesCoverAccounts(order: seq<string>, accounts: map<string, string>)
    requires IsEnumeration(order, accounts.Keys)
    ensures |AccountRules(order, accounts)| == |accounts|
    ensures forall name :: name in accounts ==>
              exists k :: 0 <= k < |order| && order[k] == name && AccountRules(order, accounts)[k] == AccountRule(name, accounts[name])
  {
    EnumerationLength(order, accounts.Keys);
    forall name | name in accounts
      ensures exists k :: 0 <= k < |order| && order[k] == name && AccountRules(order, accounts)[k] == AccountRule(name, accounts[name])
    {
      var k :| 0 <= k < |order| && order[k] == name;
      AccountRulesAt(order, accounts, k);
    }
  }

  /** The rule for each account matches the id of the last account tag of
      the last non-login profile with that name. */
  lemma AccountRulesMatchLastTags(ps: seq<Profile>, order: seq<string>, name: string)
    requires IsEnumeration(order, Accounts(ps).Keys) && name in Accounts(ps)
    ensures exists k, i, j :: 0 <= k < |order| && order[k] == name
              && LastAccountProfile(ps, i, name) && LastAccountTag(ps[i].tags, j)
              && AccountRules(order, Accounts(ps))[k] == AccountRule(name, AccountId(ps[i].tags[j]))
  {
    AccountsValue(ps, name);
    var i, j :| LastAccountProfile(ps, i, name) && LastAccountTag(ps[i].tags, j)
                && Accounts(ps)[name] == AccountId(ps[i].tags[j]);
    var k :| 0 <= k < |order| && order[k] == name;
    AccountRulesAt(order, Accounts(ps), k);
  }

  /** An account rule matches the account id with very high precision and
      names the profile in its notes. */
  lemma AccountRuleMatchesId(name: string, id: string)
    ensures AccountRule(name, id).regex == id && AccountRule(name, id).precision == "very_high"
    ensures AccountRule(name, id).notes == NotesHead + name
    ensures |AccountRule(name, id).actions| == 1 && AccountRule(name, id).actions[0].action == 2
  {
  }

  /** Every profile with rules appended after its own. */
  function WithRules(ps: seq<Profile>, rules: seq<SmartSelectionRule>): (r: seq<Profile>)
    ensures |r| == |ps|
    ensures forall i :: 0 <= i < |ps| ==>
              r[i].smartSelectionRules == ps[i].smartSelectionRules + rules
              && r[i].(smartSelectionRules := ps[i].smartSelectionRules) == ps[i]
  {
    seq(|ps|, i requires 0 <= i < |ps| => ps[i].(smartSelectionRules := ps[i].smartSelectionRules + rules))
  }

  // ---------------------------------------------------------------------
  // The profile list

  /** Go's Profiles: the list of generated profiles, updated in place. */
  class Profiles {
    var profiles: seq<Profile>

    constructor ()
      ensures profiles == []
    {
      profiles := [];
    }

    /** Profiles.Add: appends one profile. */
    method Add(prof: Profile)
      modifies this
      ensures profiles == old(profiles) + [prof]
    {
      profiles := profiles + [prof];
    }

    /** Profiles.UpdateKeyboardMaps: every linked profile copies the Alt-A
        entry of its AWS profile, in list order. */
    method UpdateKeyboardMaps()
      modifies this
      ensures profiles == KeyboardMapsUpdated(old(profiles))
    {
      var i := 0;
      while i < |profiles|
        invariant 0 <= i <= |profiles|
        invariant KeyboardMapsFrom(profiles, i) == KeyboardMapsUpdated(old(profiles))
      {
        var profile := profiles[i];
        if HasTag(profile.tags, "k8s") {
          var awsProfile := FindTag(profile.tags, "aws-profile");
          if awsProfile.Some? {
            var source := FindGUID(profiles, awsProfile.value);
            var entry := if source.Some? then AltAEntry(source.value) else ZeroKeyboardMap;
            profiles := profiles[i := profile.(keyboardMap := profile.keyboardMap[AltAKey := entry])];
          }
        }
        i := i + 1;
      }
    }

    /** Profiles.UpdateAWSSmartSelectionRules: collects the accounts map,
        builds one rule per account (visiting the map in `order`) and
        appends the rules to every profile. */
    method UpdateAWSSmartSelectionRules(order: seq<string>)
      requires IsEnumeration(order, Accounts(profiles).Keys)
      modifies this
      ensures profiles == WithRules(old(profiles), AccountRules(order, Accounts(old(profiles))))
    {
      var accounts: map<string, string> := map[];
      var i := 0;
      while i < |profiles|
        invariant 0 <= i <= |profiles| && profiles == old(profiles)
        invariant accounts == Accounts(profiles[..i])
      {
        var profile := profiles[i];
        var j := 0;
        while j < |profile.tags|
          invariant 0 <= j <= |profile.tags| && profiles == old(profiles)
          invariant accounts == TagAccounts(Accounts(profiles[..i]), profile.name, profile.tags[..j])
        {
          var tag := profile.tags[j];
          if IsAccountTag(tag) && !HasPrefix(profile.name, "login-") {
            accounts := accounts[profile.name := AccountId(tag)];
          }
          TagAccountsSnoc(Accounts(profiles[..i]), profile.name, profile.tags, j);
          j := j + 1;
        }
        assert profile.tags[..j] == profile.tags;
        AccountsSnoc(profiles, i);
        i := i + 1;
      }
      assert profiles[..i] == profiles;

      var ssr: seq<SmartSelectionRule> := [];
      var k := 0;
      while k < |order|
        invariant 0 <= k <= |order|
        invariant ssr == AccountRules(order[..k], accounts)
      {
        var name := order[k];
        ssr := ssr + [AccountRule(name, accounts[name])];
        assert order[..k + 1][..k] == order[..k];
        k := k + 1;
      }
      assert order[..k] == order;

      i := 0;
      while i < |profiles|
        invariant 0 <= i <= |profiles| && |profiles| == |old(profiles)|
        invariant forall m :: 0 <= m < i ==> profiles[m] == old(profiles)[m].(smartSelectionRules := old(profiles)[m].smartSelectionRules + ssr)
        invariant forall m :: i <= m < |profiles| ==> profiles[m] == old(profiles)[m]
      {
        profiles := profiles[i := profiles[i].(smartSelectionRules := profiles[i].smartSelectionRules + ssr)];
        i := i + 1;
      }
      assert profiles == WithRules(old(profiles), ssr);
    }
  }
}
