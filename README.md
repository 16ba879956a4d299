# germ profile generation, in Dafny

germ generates iTerm2 dynamic profiles from the configuration a developer
already has: the sections of `~/.aws/config`, the clusters of a kubeconfig,
the `Host` lines of `~/.ssh/config` and the EC2 instances that AWS Systems
Manager can reach. This project models the deterministic layer under that
glue. It covers two steps:

- turning a configuration record into a profile record (name, GUID, command,
  tags, keyboard shortcuts, colour, triggers);
- post-processing the profile list (propagating keyboard shortcuts to linked
  Kubernetes profiles, adding an account smart-selection rule to every
  profile, grouping profiles by their source profile).

The `generate -c` estate commands, the `germ new` credential-file reader and
the trigger strings are modelled as well.

Every input the program reads from the machine or the network is a parameter
of the model. This includes file contents, parsed INI, YAML and CSV records,
the current time and user, `exec.LookPath`, environment variables, viper
settings, command output and AWS API answers.

Modules follow the source files:

| module | file | source |
|---|---|---|
| `Wrappers` | wrappers.dfy | `Option`/`Result`, and the concatenation of per-item results that fails at the first failure |
| `GoStrings` | gostrings.dfy | the Go library functions the core calls: `strings.Split`, `Fields`, `ReplaceAll`, `TrimPrefix`, `strconv.ParseBool`, `filepath.Base` |
| `Iterm` | iterm_profile.dfy | iterm/profile.go; `Profile` is a datatype, and the mutable `Profiles` list is a class |
| `ItermTriggers` | iterm_triggers.dfy | iterm/triggers.go |
| `EstateCommands` | estate_commands.dfy | cmd/cmd.go |
| `K8s` | k8s.dfy | k8s/main.go over the types of k8s/struct.go |
| `Aws` | aws.dfy | aws/main.go |
| `Ssh` | ssh.dfy | ssh/main.go |
| `Ssm` | ssm.dfy | ssm/main.go |
| `Credentials` | credentials.dfy | cmd/new.go |

Conventions:

- A Go `panic`, a `log.Fatal` and an index out of range all end the process.
  The model calls that `Failure(reason)`.
- Go's map iteration order is not fixed. Where the program iterates a map,
  the model takes an `order` that enumerates the keys, and every property
  holds for any such order. This covers the parsed INI sections, the profile
  tree and the accounts map.
- An imperative Go function is a Dafny `method` with its loop. It is proved
  equal to a specification function, and the properties are lemmas about
  that function.

## Model

| member | source | states |
|---|---|---|
| `Iterm.HasTag` | iterm/profile.go:82-89 | true exactly when the needle is one of the tags |
| `Iterm.FindTag` | iterm/profile.go:91-106 | no value exactly when no tag splits on "=" into the key and one value; otherwise the value of the first tag that does |
| `Iterm.FindTagOfPair` | iterm/profile.go:91-106 | a leading `key=value` tag whose key and value hold no "=" is found, with its value |
| `Iterm.FindTagSkipsMalformed` | iterm/profile.go:91-106 | a tag with no "=" or with several is ignored: the search goes on past it |
| `Iterm.FindGUID` | iterm/profile.go:108-115 | nothing exactly when no profile has the GUID; otherwise the first profile that has it |
| `Iterm.FindGUIDAfterAppend` | iterm/profile.go:108-115 | after appending a profile, looking up its GUID still finds the earlier holder, and finds the new profile only when there was none |
| `Iterm.SplitField` | iterm/profile.go:221-236 | an absent key adds no tag; a present one fails, as Go's index panic, exactly when its value has fewer separators than the index; otherwise it adds that one field |
| `Iterm.Tags` | iterm/profile.go:202-249 | fails exactly when role_arn has fewer than 4 ':', azure_app_id_uri has no '#', or azure_default_role_arn has fewer than 5 ':' |
| `Iterm.TagsStartWithTimestamp` | iterm/profile.go:205-209 | when timestamps are on (key absent, or a true value), the first tag is the current time |
| `Iterm.TagsOfOtherKeys` | iterm/profile.go:202-249 | a config without any key Tags reads gives only the timestamp, or nothing when timestamps are off |
| `Iterm.TagsOfAccount` | iterm/profile.go:211-213 | sso_account_id gives the single tag `account=<id>` |
| `Iterm.TagsOfSource` | iterm/profile.go:215-219 | source_profile gives `source-profile=<v>` followed by `<v>` |
| `Iterm.TagsOfSeveralKeys` | iterm/profile.go:202-249 | with timestamps on and sso_account_id, source_profile and Tags set, the tags are the timestamp, the account tag, the two source-profile tags, then the Tags items, in that order |
| `Iterm.TagsOfRoleArn` | iterm/profile.go:221-224 | an IAM role ARN gives its account (the fifth ':' field) |
| `Iterm.TagsOfAzureAppId` | iterm/profile.go:226-230 | azure_app_id_uri gives the text after its '#' |
| `Iterm.TagsOfAzureRole` | iterm/profile.go:232-236 | azure_default_role_arn gives its sixth ':' field, the role resource |
| `Iterm.TagsOfList` | iterm/profile.go:238-246 | joining comma-free items with ',' under "Tags" gives back exactly those items |
| `Iterm.TagsOfListConfig` | iterm/profile.go:238-246 | the comma-split "Tags" items come before the "tags" items |
| `Iterm.CreateKeyboardMap` | iterm/profile.go:460-490 | always the two split shortcuts; Alt-A opens `login-<source_profile>` exactly when source_profile is set; the SSO-login key exactly when sso_account_id is set; no other key |
| `Iterm.NonProdMarkersContainProdMarkers` | iterm/profile.go:595-612 | a name is production exactly when it contains "prod" or "prd" and neither "nonprod" nor "nonprd" |
| `Iterm.ColorOf` | iterm/profile.go:614-636 | red exactly for production names; blue exactly for other names tagged "k8s"; black otherwise |
| `Iterm.Colors` | iterm/profile.go:614-636 | sets the background to ColorOf and changes nothing else |
| `Iterm.NewProfile` | iterm/profile.go:146-200 | fails exactly when Tags fails or AllowTitleSetting is not a Go boolean |
| `Iterm.NewProfileIdentity` | iterm/profile.go:146-197 | name, GUID and window title are the name; the badge is BadgeText if set, else the name; "command" wins over "Command" and sets CustomCommand "Yes", and with neither both stay empty; title setting is allowed only by a true AllowTitleSetting |
| `Iterm.NewProfileContents` | iterm/profile.go:146-200 | tags are Tags' result, keys are CreateKeyboardMap's, rules and triggers are the shared ones, and the colour is ColorOf the name and tags |
| `Iterm.NewProfileDefaults` | iterm/profile.go:146-168 | the fixed settings: "Recycle" directory, title components 32, no transparency, bells, unlimited scrollback, the default font, no bound hosts |
| `Iterm.NewProfileSucceeds` | iterm/profile.go:146-200 | a config without ARN, app-id or AllowTitleSetting keys always yields a profile |
| `Iterm.NewProfileTags` | iterm/profile.go:146-200 | such a profile carries exactly the tags Tags computes |
| `Iterm.SourceProfiles` | iterm/profile.go:558-573 | a GUID is listed exactly when some profile without a `source-profile=` tag carries it |
| `Iterm.SourceProfilesOne` | iterm/profile.go:560-570 | one profile contributes its GUID when it is a source profile and nothing otherwise |
| `Iterm.SourceProfilesAppend` | iterm/profile.go:558-573 | the GUIDs of a + b are those of a followed by those of b, so the list has one entry per source profile, in profile order |
| `Iterm.AddChildrenSpec` | iterm/profile.go:575-593 | one profile's tags extend the tree: each parent they name gets the GUID appended once per naming tag, and other parents are untouched |
| `Iterm.ProfileTreeIsChildren` | iterm/profile.go:575-593 | a parent is in the tree exactly when some profile names it, and maps to its children's GUIDs in list order |
| `Iterm.KeyboardStep` | iterm/profile.go:533-554 | one pass of the loop changes only the profile at its index |
| `Iterm.KeyboardMapsFromSettles` | iterm/profile.go:530-556 | running the loop from any point where earlier profiles are settled and later ones are untouched settles every profile |
| `Iterm.KeyboardMapsUpdatedSettles` | iterm/profile.go:530-556 | after the update, each profile differs from its original at most in the Alt-A entry, and only when it is tagged "k8s" with an `aws-profile=` tag; then Alt-A is the zero entry when no profile has that GUID, and the named profile's entry when that profile is not itself linked |
| `Iterm.Profiles.UpdateKeyboardMaps` | iterm/profile.go:530-556 | the in-place loop leaves the list the keyboard-map update describes |
| `Iterm.TagAccountsKeys` | iterm/profile.go:495-507 | one profile's tags add its name to the accounts map exactly when it is not a `login-` profile and has an `account=` tag; other entries stay |
| `Iterm.AccountsKeys` | iterm/profile.go:495-507 | a name is in the accounts map exactly when some non-login profile of that name carries an `account=` tag |
| `Iterm.TagAccountsNone` | iterm/profile.go:497-505 | a `login-` profile, or one without `account=` tags, leaves the accounts map unchanged |
| `Iterm.TagAccountsValue` | iterm/profile.go:497-506 | a non-login profile with `account=` tags records the id of its last one, because later tags overwrite |
| `Iterm.AccountsValue` | iterm/profile.go:495-507 | the id recorded for a name is the `=`-field of the last `account=` tag of the last non-login profile of that name |
| `Iterm.AccountRules` | iterm/profile.go:509-523 | one rule per account visited |
| `Iterm.AccountRulesAt` | iterm/profile.go:509-523 | the k-th rule is the rule of the k-th visited account |
| `Iterm.AccountRulesCoverAccounts` | iterm/profile.go:509-523 | exactly one rule per distinct account name, each built from that name and its entry in the accounts map |
| `Iterm.AccountRulesMatchLastTags` | iterm/profile.go:495-523 | each account's rule is built from the id in the last `account=` tag of the last non-login profile of that name |
| `Iterm.AccountRuleMatchesId` | iterm/profile.go:509-523 | a rule's regex is the account id at precision "very_high", its notes name the profile, and it has a single action |
| `Iterm.WithRules` | iterm/profile.go:525-527 | every profile keeps its existing rules as a prefix, gains the same rule list after them, and is otherwise unchanged |
| `Iterm.Profiles.UpdateAWSSmartSelectionRules` | iterm/profile.go:492-528 | the in-place update appends the account rules, computed from the list before the update, to every profile |
| `Iterm.Profiles.Add` | iterm/profile.go:78-80 | the profile is appended and nothing else changes |
| `GoStrings.ParseBool` | iterm/profile.go:187-197 | true for exactly 1, t, T, TRUE, true, True; false for exactly 0, f, F, FALSE, false, False; an error for anything else |
| `ItermTriggers.NotFoundInjective` | iterm/triggers.go:14-16 | two command names give the same not-found regex exactly when they are the same name |
| `ItermTriggers.YumRenamesOnlyOpensshClient` | iterm/triggers.go:111-121 | only "openssh-client" is renamed, to "openssh-clients"; every other name passes through, so no other two names coincide |
| `ItermTriggers.ApkInjective` | iterm/triggers.go:123-125 | two package names give the same apk command exactly when they are the same name |
| `ItermTriggers.AptTriesThree` | iterm/triggers.go:127-135 | apt-get, then yum, then apk, joined by " \|\| " |
| `ItermTriggers.InstallTrigger` | iterm/triggers.go:78-92 | an install trigger sends text and is not partial |
| `ItermTriggers.PasswordTriggers` | iterm/triggers.go:66-77 | two partial password triggers |
| `ItermTriggers.InstallTriggers` | iterm/triggers.go:78-92 | the three install triggers for ssh-add, git and ping, each sending its apt line |
| `ItermTriggers.InstallTriggersDistinct` | iterm/triggers.go:78-92 | no two install triggers share a regex or a command |
| `ItermTriggers.ShellTriggers` | iterm/triggers.go:60-108 | the four shell triggers send text and are not partial |
| `ItermTriggers.FixedTriggers` | iterm/triggers.go:60-108 | nine triggers; the password pair at positions 1 and 2 are the only partial ones; none mutes the coprocess |
| `ItermTriggers.Triggers` | iterm/triggers.go:39-109 | 10 triggers with the device-SSO one first when the flag is set, 9 otherwise; the device-SSO trigger appears exactly when the flag is set; the last nine are always the fixed list |
| `ItermTriggers.PassphraseTriggers` | iterm/triggers.go:66-77 | the id_rsa and id_ed25519 passphrase triggers sit at positions k+1 and k+2, after the optional device-SSO trigger (k is 1 with it, 0 without) and the auto-logout trigger, whose regexes embed the expanded key paths; they are the only partial triggers |
| `EstateCommands.SkipSpacesSpan` | cmd/cmd.go:71 | skipping `\s*` passes over RE2 space characters only and stops at the end or on a non-space |
| `EstateCommands.MatchesFromAt` | cmd/cmd.go:71-72 | the scan finds `{{\s*\.Region\s*}}` exactly when the expression matches at some offset |
| `EstateCommands.PlaceholderMentionsRegion` | cmd/cmd.go:71-72 | any occurrence of `{{ .Region }}` counts as a match |
| `EstateCommands.NoBraceNoRegion` | cmd/cmd.go:71-93 | a command without '{' never matches and renders to exactly one string |
| `EstateCommands.GenerateTemplate` | cmd/cmd.go:63-96 | one rendering per region, in region order, exactly when the command mentions the region; otherwise exactly one rendering |
| `EstateCommands.RenderPlain` | cmd/cmd.go:85-93 | a command without the profile placeholder renders unchanged |
| `EstateCommands.ChildRenders` | cmd/cmd.go:55-56 | the child template renders to `AWS_PROFILE=<child> ` followed by the rendered command, and so by the command itself when it has no '{' |
| `EstateCommands.LoginCommandDropsSleep` | cmd/cmd.go:51 | a trailing " \|\| sleep 60'" on the login command becomes "'" |
| `EstateCommands.ChildCommandsBlock` | cmd/cmd.go:55-57 | child c's renderings sit after those of the children before it; every child contributes the same number |
| `EstateCommands.SourceBlock` | cmd/cmd.go:44-57 | one source's block: its login command, then its children's renderings; failure when the `login-` profile is missing |
| `EstateCommands.VisitSources` | cmd/cmd.go:41-59 | the loop over sources gives their blocks one after another, stopping at the first failure |
| `EstateCommands.GenerateCommands` | cmd/cmd.go:38-61 | for the sources of the profile tree in any visiting order: each source's login command, then its children's renderings; a failure when a login profile is missing |
| `EstateCommands.EstateFromFails` | cmd/cmd.go:45-49 | with every source having a child, the visit fails exactly when some source visited has no login profile |
| `EstateCommands.EstateFails` | cmd/cmd.go:45-49 | generateCommands panics exactly when some source in the tree has no `login-<source>` profile |
| `EstateCommands.EstateBlocks` | cmd/cmd.go:41-59 | each source's block starts with its login command, emitted once, followed by its children's commands, and the blocks follow the visiting order |
| `K8s.FirstNamedSpec` | k8s/main.go:30-50 | a search loop keeps at most one entry: the first with the name, or none when no entry has it |
| `K8s.SliceShape` | k8s/main.go:20-53 | the slice's current context is the name; it copies version and kind; it holds at most one cluster, context and user, each the first with that name |
| `K8s.GetCluster` | k8s/main.go:20-53 | the method builds that slice and reports found exactly when a cluster has the name |
| `K8s.LookupEnv` | k8s/main.go:184-190 | nothing exactly when no entry has the key; otherwise the value of the first that does |
| `K8s.AWSProfileOf` | k8s/main.go:178-191 | with one cluster, the first user's value of its first AWS_PROFILE entry, or "" when there is none |
| `K8s.DestinationFileShape` | k8s/main.go:224-228 | dest, "/", the cluster name with every '/' and ':' replaced by '-', then ".yml" |
| `K8s.Profile` | k8s/main.go:145-176 | the method growing the command and tag strings step by step yields the profile KubeProfile describes |
| `K8s.KubeSectionTags` | k8s/main.go:152-172 | for a comma-free aws profile p, the section's tags are the timestamp, "k8s", then `aws-profile=<p>` when p is not "" |
| `K8s.KubeProfileIdentity` | k8s/main.go:145-176 | the profile is named `k8s-` plus the base of the cluster name and runs the kube command as a custom command |
| `K8s.KubeProfileTags` | k8s/main.go:152-172 | for a comma-free aws profile p, the profile carries exactly the timestamp, "k8s" and, when set, `aws-profile=<p>` |
| `K8s.KubeProfileIs` | k8s/main.go:145-176 | the profile is NewProfile of the `k8s-` name over the Tags/Command section |
| `K8s.KubeCommandStartsWithPath` | k8s/main.go:155-171 | the command starts by setting KUBECONFIG to the given path |
| `K8s.SingleClusterGuards` | k8s/main.go:135-150 | name and Print succeed exactly with one cluster, and AWSProfile and Profile exactly with one cluster and at least one user (the guards at lines 136, 146, 179, 217) |
| `K8s.ProfileOfCluster` | k8s/main.go:116-129 | one pass of the cluster loop: slice, dry-run path or printed file, then the profile |
| `K8s.Profiles` | k8s/main.go:113-133 | the loop over clusters gives their profiles in cluster order, or the first failure |
| `K8s.ClusterProfileFails` | k8s/main.go:116-129 | a cluster's profile fails exactly when no user shares the cluster's name |
| `K8s.KubeProfilesSucceed` | k8s/main.go:113-133 | Profiles succeeds exactly when every cluster has a user of its name |
| `K8s.KubeProfilesAt` | k8s/main.go:113-133 | when it succeeds there is one profile per cluster, and the c-th is that cluster's profile |
| `K8s.DryClusterProfile` | k8s/main.go:124-127 | in dry mode the kubeconfig path is `dry/run/path/<cluster name>` |
| `Aws.LoginCommandCases` | aws/main.go:58-80 | "" exactly for a section without azure_tenant_id; a failure exactly when the Azure tool is not found; otherwise `bash -c 'AWS_PROFILE=<name> ...` ending in `aws-azure-login --no-prompt \|\| sleep 60'` |
| `Aws.Add` | aws/main.go:39-56 | appends exactly the section's profiles; fails exactly when they cannot be built; the caller's config ends with Command set to the env command when there is a source_profile, and to the login command otherwise |
| `Aws.AddLogin` | aws/main.go:51-55 | the second half of add: Command becomes the login command and the `login-` profile is appended |
| `Aws.AddedProfilesFail` | aws/main.go:39-56 | add fails exactly when the section's profile cannot be built, or the section lacks source_profile and has azure_tenant_id without the tool installed |
| `Aws.AddedProfilesShape` | aws/main.go:47-55 | one profile named after the section when it has a source_profile, and otherwise a second named `login-<name>` |
| `Aws.AddedProfilesCommands` | aws/main.go:47-53 | unless the section sets "command", the first profile runs `/usr/bin/env AWS_PROFILE=<name> /usr/bin/login -fp <user>`, and the login profile runs loginCmd's command |
| `Aws.LoginProfilesShape` | aws/main.go:51-55 | the login profile fails exactly when the Azure tool is missing or the profile cannot be built; otherwise it is one profile named `login-<name>` |
| `Aws.Profiles` | aws/main.go:16-37 | the profiles of every section, in the visiting order, stopping at the first failing section |
| `Aws.VisitSections` | aws/main.go:28-34 | the section loop appends each section's profiles in order |
| `Aws.VisitSection` | aws/main.go:29-33 | the unnamed section adds nothing; any other section is added under its name without the leading "profile " |
| `Aws.SectionLength` | aws/main.go:28-34 | a section contributes no profile when unnamed, one with a source_profile, two otherwise |
| `Aws.ProfilesCount` | aws/main.go:28-36 | the result holds that many profiles: between one and two per named section |
| `Aws.ProfilesFail` | aws/main.go:28-34 | Profiles fails exactly when add fails on some named section |
| `Aws.ProfilesHoldSection` | aws/main.go:28-36 | each named section's profiles appear as one contiguous block, after the blocks of the sections before it |
| `Ssh.HostnameFromSpec` | ssh/main.go:95-103 | from any line on, the result is read off the first "hostname " line: its second field, Go's index panic when it has none, "" when there is no such line |
| `Ssh.HostIPCases` | ssh/main.go:75-104 | "" exactly when `ssh -G` failed or printed no "hostname " line; otherwise the first such line's second field, which is never empty, or Go's index panic when that line has only one field |
| `Ssh.HostIP` | ssh/main.go:75-104 | the early-return line scan computes that value |
| `Ssh.HostProfile` | ssh/main.go:59-69 | a host line's profile, with its tags replaced by "ssh" and the host's address |
| `Ssh.VisitLine` | ssh/main.go:41-69 | a line gives nothing unless it is a host line, and then its host's profile |
| `Ssh.Profiles` | ssh/main.go:28-73 | one profile per host line, in line order, or the first failure |
| `Ssh.LineProfilesSkip` | ssh/main.go:41-57 | a line contributes nothing exactly when it does not start with "Host ", contains '*', or does not have exactly two fields |
| `Ssh.HostLineProfile` | ssh/main.go:59-67 | a host line's profile is named after the host, runs `ssh <host>` as a custom command and has exactly the tags "ssh" and the host's address; it fails only when reading the address does |
| `Ssh.ProfilesHoldHosts` | ssh/main.go:40-72 | the result has one profile per host line, and host line m's profile sits after those of the host lines before it |
| `Ssh.ProfilesFail` | ssh/main.go:40-70 | Profiles fails exactly when reading the address of some host line fails |
| `Ssm.ScanInstanceTags` | ssm/main.go:152-172 | the tag loop yields the name and group set the tag-scan function describes |
| `Ssm.ScanTagsGroups` | ssm/main.go:154-172 | the groups seen afterwards are the earlier ones plus every group tag of the instance |
| `Ssm.ScanTagsAllSeen` | ssm/main.go:155-161 | an instance whose every tag value is a seen group keeps no name and changes nothing |
| `Ssm.ScanTagsLastName` | ssm/main.go:167-171 | without group interference, the last Name tag names the instance, and no Name tag keeps it unnamed |
| `Ssm.InstanceStepCases` | ssm/main.go:145-202 | an instance yields a profile exactly when its ID is unknown and its scan finds a name; it is then remembered under its ID; otherwise the known IDs stay as they were |
| `Ssm.ScanFromIds` | ssm/main.go:137-203 | known IDs are kept, every produced name is non-empty and took a new ID, so no instance yields two profiles |
| `Ssm.VisitInstance` | ssm/main.go:145-202 | one pass of the instance loop, as the step function describes |
| `Ssm.VisitInstances` | ssm/main.go:137-203 | the instance loop yields the profile of every produced name, in order, and the updated ID map |
| `Ssm.SsmProfileIdentity` | ssm/main.go:182-189 | the profile is named `<alias>:<region>:ssm-<name>` and runs no custom command ("Initial Text" is not read) |
| `Ssm.SsmProfileContents` | ssm/main.go:182-194 | Alt-A types `AWS_PROFILE=<p> aws sso login && <command>\n`, the split shortcuts stay, and, for a comma-free alias and account id, the tags are the timestamp, "AWS", the alias and `account=<id>` |
| `Ssm.InstanceTags` | ssm/main.go:186 | for a comma-free alias and account id, the "Tags" entry splits into "AWS", " <alias>" and `account=<id>` |
| `Ssm.GenerateForProfile` | ssm/main.go:89-207 | no profile when the account cannot be read; otherwise the instance loop runs with the first IAM alias (else the account ID) as alias, and a failed page drops the profiles but keeps the IDs recorded |
| `Ssm.ForProfileIds` | ssm/main.go:89-207 | no profiles without an account or after a page failure; otherwise one per produced name; the shared ID map keeps its entries and grows by at least the number of profiles |
| `Ssm.Generate` | ssm/main.go:28-84 | the sections visited one after another, sharing the ID map, with their profiles concatenated |
| `Ssm.GenerateFromIds` | ssm/main.go:44-77 | across sections no remembered ID is replaced and every profile took a fresh ID: at most one profile per instance |
| `Ssm.GenerateFromSection` | ssm/main.go:44-49 | the unnamed section yields nothing; any other is read as a profile named without "profile ", in the section's region, or "" when it has none |
| `Ssm.AsWrittenRepeatsGroup` | ssm/main.go:154-172 | as written, two unknown instances of one autoscaling group, each named, both yield a profile |
| `Ssm.OneProfilePerGroup` | ssm/main.go:154-172 | with the intended check, no two instances that yield a profile share an autoscaling group, and none shares a group seen before |
| `Credentials.ExportAWSFields` | cmd/new.go:118-120 | the line is `export`, `AWS_ACCESS_KEY_ID=<a>`, `AWS_SECRET_ACCESS_KEY=<s>` as three shell words, when the values hold no white space |
| `Credentials.ReadKeysCases` | cmd/new.go:56-95 | a branch succeeds exactly when the records hold both headers in row 0 at its columns and a row 1 wide enough; it then exports row 1's cells; a wrong access header is the header panic |
| `Credentials.HandleFileCases` | cmd/new.go:54-100 | a `credentials*` name uses columns 2 and 3 and an `accessKeys*` name columns 0 and 1, either only for a path ending in "csv"; any other file is refused |
| `Credentials.CredentialsFile` | cmd/new.go:56-74 | the console's five-column credentials.csv yields the export line of its key and secret |
| `Credentials.AccessKeysFile` | cmd/new.go:76-95 | the two-column accessKeys.csv yields the export line of its key and secret |
| `Credentials.RootKeyFileRefused` | cmd/new.go:96-98 | a rootkey.csv file is refused whatever it holds |
| `Credentials.BaseOfName` | cmd/new.go:55 | the base of `<dir>/<name>` is the name |
| `Credentials.FindPasswordCases` | cmd/new.go:39-52 | with a file argument the prompt is never read and the result is handleFile's; with none it is the typed secret |

## Left out

- File, home-directory and OS I/O are inputs. This covers reading `~/.aws/config`, `~/.ssh/config`, kubeconfigs and CSV files, and `homedir.Expand`. Its failure panics at iterm/triggers.go:40-48, and the two expanded key paths are parameters instead.
- The INI, YAML, JSON and CSV parsers are not modelled. The model starts from the parsed sections or records. The INI parse error paths (aws/main.go:19-25, ssm/main.go:31-35) return no profiles and are not modelled.
- `slurpCsv` is not modelled. Its read or parse panic is the `Failure` of the `csv` parameter.
- `terminal.ReadPassword` is not modelled. The typed secret, or its failure, is the `typed` parameter.
- The keychain write of `germ new` is not modelled.
- `time.Now`, `user.Current`, `exec.LookPath`, `os.Getenv` and viper's `aws_open_device_sso` are parameters. `user.Current` failing (a `log.Fatal`) is not modelled.
- `Aws.LoginCommand` takes the directory of the found tool as given. `filepath.Dir`'s path cleaning is not modelled.
- The smart-selection rule list and the trigger list every profile gets are one shared input. `SmartSelectionRules`, `loadUserSSR`, iterm/ssr.go and `profileTriggers` build them from files.
- `NewProfilesFromFile` is file and JSON I/O, so it is not modelled.
- `SmartSelectionRule`, `KeyboardMap` and trigger actions are modelled by the fields the core reads. The action code of `iterm.KeyboardSendText` is not shown in the source, so it is a parameter.
- Colours are the enum {Red, Blue, Black}, not float components.
- Go's `text/template` engine is replaced by substituting the literal placeholders `{{ .Profile }}` and `{{ .Region }}`. Other template syntax is not modelled. The region list is a parameter.
- The region regex itself is modelled exactly.
- From k8s/main.go, these are not modelled: `Load`, the file write in `Print`, `SplitFiles`, the package-level `Profiles` loader and `GenerateK8sFromAWS` with its EKS calls.
- The kubeconfig `Preferences` field is not modelled. `GetCluster` copies it unchanged.
- The `Extensions` fields of a cluster and of a context (k8s/struct.go:17-24 and 33-40) are not modelled. No modelled operation reads or changes them; they are carried along with their record.
- These AWS SDK calls are not modelled: loading the configuration, STS, IAM, SSM pagination and `DescribeInstances`. For each profile their answers are a `Lookup`: the account, the instances of the pages read, and whether a later page failed.
- The nil dereference after a `DescribeInstances` error is not modelled. Neither is the index panic on a reservation without instances (ssm/main.go:138-154). Each instance's tags are given directly.
- `Ssm.Generate` is modelled as a sequential fold. The goroutines, `WaitGroup`, the two mutexes and their races are not modelled.
- Concurrently, the real program may let two profiles both claim an instance before either records it. The model visits profiles one after another, in the section order.
- The `failedProfiles` warning and every log message are not modelled.
- Aws.Add: states nothing about the profile list when add fails. The Go process ends there (`log.Fatal`), so that state is never observed.
- Iterm.KeyboardMapsUpdatedSettles: does not say which entry a profile gets when the profile it names is itself linked. That entry depends on whether the loop has already rewritten the named profile.
- Credentials.RootKeyFileRefused: follows the code. The rootkey.csv case of cmd/new_test.go:38-46 expects an export line, but `handleFile` panics on that file name.
- cmd/root.go, cmd/generate.go, cmd/default.go, cmd/update.go, cmd/sso.go, cmd/kubeconfig.go, cmd/delete.go, cmd/list.go and cmd/ecr.go are CLI wiring, HTTP downloads and output formatting, so they are not modelled.
- aws-sso/cache.go is tied to the SSO SDK, so it is not modelled.
- iterm/names.go is file storage plus random names, so it is not modelled.
- keychain, vault and vim are wrappers or trivial constructors, so they are not modelled.

## Findings

| source | as written | input that shows it | evidently intended | confidence | as-written member | corrected member |
|---|---|---|---|---|---|---|
| ssm/main.go:154-172 | the autoscaling-group check skips only the tag whose value is a seen group, so the instance's Name tag is still read and the instance still yields a profile | two unknown instances of one group, each with tags [aws:autoscaling:groupName=g, Name=n] | per the comment at lines 157-158, an instance of an already-seen group is not processed again, so each group yields at most one profile | not executed | `Ssm.AsWrittenRepeatsGroup` | `Ssm.OneProfilePerGroup` |

The rest of the model (`Ssm.ScanTags`, `Ssm.Generate`) follows the code as written. It does so because that is what the program does. The intended check, `Ssm.InstanceStepOnce` with `Ssm.ScanOnceFrom`, stands beside it with its property proved.
