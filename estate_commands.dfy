/** `germ cmd` (cmd/cmd.go): the shell commands that run one command in
    every AWS profile of the estate, logging in once per source profile.
    Go's text/template engine is replaced by placeholder substitution and
    the region list (aws.Regions) is a parameter. */
module EstateCommands {

  import opened Wrappers
  import opened GoStrings
  import opened Iterm

  // ---------------------------------------------------------------------
  // generateTemplate

  /** RE2's \s class: tab, newline, form feed, carriage return, space. */
  predicate IsPerlSpace(c: char) {
    c == '\t' || c == '\n' || c == '\U{C}' || c == '\r' || c == ' '
  }

  /** The first offset at or after i that does not hold a \s character. */
  function SkipSpaces(s: string, i: nat): (j: nat)
    requires i <= |s|
    ensures i <= j <= |s|
    decreases |s| - i
  {
    if i < |s| && IsPerlSpace(s[i]) then SkipSpaces(s, i + 1) else i
  }

  /** SkipSpaces passes over \s characters only, and stops at the end of
      the string or on a character outside the class. */
  lemma {:induction false} SkipSpacesSpan(s: string, i: nat)
    requires i <= |s|
    ensures forall k :: i <= k < SkipSpaces(s, i) ==> IsPerlSpace(s[k])
    ensures SkipSpaces(s, i) == |s| || !IsPerlSpace(s[SkipSpaces(s, i)])
    decreases |s| - i
  {
    if i < |s| && IsPerlSpace(s[i]) {
      SkipSpacesSpan(s, i + 1);
    }
  }

  const RegionField := ".Region"

  /** The expression {{\s*\.Region\s*}} matches command at offset i. */
  predicate RegionAt(command: string, i: nat)
    requires i <= |command|
  {
    && i + 2 <= |command| && command[i] == '{' && command[i + 1] == '{'
    && var j := SkipSpaces(command, i + 2);
       && OccursAt(command, RegionField, j)
       && var k := SkipSpaces(command, j + |RegionField|);
          k + 2 <= |command| && command[k] == '}' && command[k + 1] == '}'
  }

  /** The expression matches command at offset i or later. */
  predicate MatchesFrom(command: string, i: nat)
    requires i <= |command|
    decreases |command| - i
  {
    RegionAt(command, i) || (i < |command| && MatchesFrom(command, i + 1))
  }

  /** regexRegion.MatchString(command). */
  predicate MentionsRegion(command: string) {
    MatchesFrom(command, 0)
  }

  /** The scan finds exactly the offsets where the expression matches. */
  lemma {:induction false} MatchesFromAt(command: string, i: nat)
    requires i <= |command|
    ensures MatchesFrom(command, i) <==> exists j :: i <= j <= |command| && RegionAt(command, j)
    decreases |command| - i
  {
    if i < |command| {
      MatchesFromAt(command, i + 1);
      if exists j :: i <= j <= |command| && RegionAt(command, j) {
        var j :| i <= j <= |command| && RegionAt(command, j);
        if j > i {
          assert exists j' :: i + 1 <= j' <= |command| && RegionAt(command, j');
        }
      }
    }
  }

  const ProfilePlaceholder := "{{ .Profile }}"
  const RegionPlaceholder := "{{ .Region }}"

  /** The template executed with the profile only. */
  function RenderProfile(command: string, profile: string): string {
    ReplaceAll(command, ProfilePlaceholder, profile)
  }

  /** The template executed with the profile and one region. */
  function RenderRegion(command: string, profile: string, region: string): string {
    RenderProfile(ReplaceAll(command, RegionPlaceholder, region), profile)
  }

  /** What generateTemplate returns: one rendering per region, in region
      order, when the command mentions the region, and one rendering
      otherwise. */
  function TemplateOutputs(command: string, profile: string, regions: seq<string>): seq<string>
  {
    if MentionsRegion(command) then
      seq(|regions|, k requires 0 <= k < |regions| => RenderRegion(command, profile, regions[k]))
    else [RenderProfile(command, profile)]
  }

  /** generateTemplate(command, profile), with the regions given. */
  method GenerateTemplate(command: string, profile: string, regions: seq<string>) returns (ret: seq<string>)
    ensures MentionsRegion(command) ==>
              |ret| == |regions| && forall k :: 0 <= k < |regions| ==> ret[k] == RenderRegion(command, profile, regions[k])
    ensures !MentionsRegion(command) ==> ret == [RenderProfile(command, profile)]
    ensures ret == TemplateOutputs(command, profile, regions)
  {
    ret := [];
    if MentionsRegion(command) {
      var k := 0;
      while k < |regions|
        invariant 0 <= k <= |regions| && |ret| == k
        invariant forall m :: 0 <= m < k ==> ret[m] == RenderRegion(command, profile, regions[m])
      {
        ret := ret + [RenderRegion(command, profile, regions[k])];
        k := k + 1;
      }
    } else {
      ret := ret + [RenderProfile(command, profile)];
    }
  }

  /** The region placeholder written with single spaces is matched. */
  lemma PlaceholderMentionsRegion(command: string, i: nat)
    requires OccursAt(command, RegionPlaceholder, i)
    ensures MentionsRegion(command)
  {
    var p := command[i..i + |RegionPlaceholder|];
    assert p == RegionPlaceholder;
    assert command[i] == p[0] && command[i + 1] == p[1];
    assert SkipSpaces(command, i + 2) == i + 3 by {
      assert command[i + 2] == p[2] && command[i + 3] == p[3];
    }
    assert OccursAt(command, RegionField, i + 3) by {
      forall m | 0 <= m < |RegionField|
        ensures command[i + 3 + m] == RegionField[m]
      {
        assert command[i + 3 + m] == p[3 + m];
      }
    }
    assert SkipSpaces(command, i + 10) == i + 11 by {
      assert command[i + 10] == p[10] && command[i + 11] == p[11];
    }
    assert command[i + 11] == p[11] && command[i + 12] == p[12];
    assert RegionAt(command, i);
    MatchesFromAt(command, 0);
  }

  /** A command without '{' mentions no region, so it yields one string. */
  lemma NoBraceNoRegion(command: string, profile: string, regions: seq<string>)
    requires '{' !in command
    ensures !MentionsRegion(command)
    ensures |TemplateOutputs(command, profile, regions)| == 1
  {
    forall i | 0 <= i <= |command|
      ensures !RegionAt(command, i)
    {
      if i < |command| {
        assert command[i] in command;
      }
    }
    MatchesFromAt(command, 0);
  }

  /** A command without placeholders renders to itself. */
  lemma RenderPlain(command: string, profile: string)
    requires !Contains(command, ProfilePlaceholder)
    ensures RenderProfile(command, profile) == command
  {
    ReplaceAllAbsent(command, ProfilePlaceholder, profile);
  }

  // ---------------------------------------------------------------------
  // generateCommands

  const SleepSuffix := " || sleep 60'"

  /** The GUID of the login profile of a source profile. */
  function LoginGUID(source: string): string {
    "login-" + source
  }

  /** The login profile's command without its `|| sleep 60` fallback. */
  function LoginCommand(login: Profile): string {
    ReplaceAll(login.command, SleepSuffix, "'")
  }

  /** A login command that ends in the fallback, with no earlier copy of
      it, loses exactly that fallback. */
  lemma LoginCommandDropsSleep(login: Profile, body: string)
    requires login.command == body + SleepSuffix
    requires forall i :: 0 <= i < |body| ==> !OccursAt(body + SleepSuffix, SleepSuffix, i)
    ensures LoginCommand(login) == body + "'"
  {
    ReplaceAllAtEnd(body, SleepSuffix, "'");
  }

  const ChildHead := "AWS_PROFILE="
  const ChildPrefix := ChildHead + ProfilePlaceholder + " "

  /** The template run for every child. */
  function ChildTemplate(command: string): string {
    ChildPrefix + command
  }

  /** The child template sets AWS_PROFILE to the child's name and then
      renders the command itself; a command without '{' is kept as is. */
  lemma ChildRenders(command: string, child: string)
    ensures RenderProfile(ChildTemplate(command), child) == ChildHead + child + " " + RenderProfile(command, child)
    ensures '{' !in command ==> RenderProfile(ChildTemplate(command), child) == ChildHead + child + " " + command
  {
    assert ChildTemplate(command) == ChildHead + (ProfilePlaceholder + (" " + command));
    assert ProfilePlaceholder[0] !in ChildHead;
    ReplaceAllAround(ChildHead, " " + command, ProfilePlaceholder, child);
    ReplaceAllSkip(" ", command, ProfilePlaceholder, child);
    if '{' !in command {
      ReplaceAllSkip(command, "", ProfilePlaceholder, child);
      assert command + "" == command;
    }
  }

  /** The blocks of xss, one after the other. */
  function Flatten<T>(xss: seq<seq<T>>): seq<T>
  {
    if |xss| == 0 then [] else Flatten(xss[..|xss| - 1]) + xss[|xss| - 1]
  }

  lemma {:induction false} FlattenAppend<T>(a: seq<seq<T>>, b: seq<seq<T>>)
    ensures Flatten(a + b) == Flatten(a) + Flatten(b)
    decreases |b|
  {
    if |b| == 0 {
      assert a + b == a;
    } else {
      var n := |b|;
      assert (a + b)[..|a + b| - 1] == a + b[..n - 1];
      FlattenAppend(a, b[..n - 1]);
    }
  }

  lemma {:induction false} FlattenUniform<T>(xss: seq<seq<T>>, per: nat)
    requires forall i :: 0 <= i < |xss| ==> |xss[i]| == per
    ensures |Flatten(xss)| == |xss| * per
    decreases |xss|
  {
    if |xss| > 0 {
      FlattenUniform(xss[..|xss| - 1], per);
      assert (|xss| - 1) * per + per == |xss| * per;
    }
  }

  /** The template outputs of each child, in child order. */
  function ChildOutputs(children: seq<string>, template: string, regions: seq<string>): (r: seq<seq<string>>)
    ensures |r| == |children|
  {
    seq(|children|, c requires 0 <= c < |children| => TemplateOutputs(template, children[c], regions))
  }

  /** The commands of a source's children, child by child, in child order. */
  function ChildCommands(children: seq<string>, template: string, regions: seq<string>): seq<string>
  {
    Flatten(ChildOutputs(children, template, regions))
  }

  /** How many strings each child contributes. */
  function PerChild(template: string, regions: seq<string>): nat {
    if MentionsRegion(template) then |regions| else 1
  }

  /** One more child adds its own outputs at the end. */
  lemma ChildCommandsSnoc(children: seq<string>, template: string, regions: seq<string>, j: nat)
    requires j < |children|
    ensures ChildCommands(children[..j + 1], template, regions)
            == ChildCommands(children[..j], template, regions) + TemplateOutputs(template, children[j], regions)
  {
    var outs := ChildOutputs(children[..j + 1], template, regions);
    assert outs == ChildOutputs(children[..j], template, regions) + [TemplateOutputs(template, children[j], regions)];
    assert outs[..|outs| - 1] == ChildOutputs(children[..j], template, regions);
  }

  /** The commands of child c sit between those of the children before it
      and those after it, and every child contributes the same number of
      strings, so child c's start at c times that number. */
  lemma ChildCommandsBlock(children: seq<string>, template: string, regions: seq<string>, c: nat)
    requires c < |children|
    ensures ChildCommands(children, template, regions)
            == ChildCommands(children[..c], template, regions)
               + TemplateOutputs(template, children[c], regions)
               + ChildCommands(children[c + 1..], template, regions)
    ensures |ChildCommands(children[..c], template, regions)| == c * PerChild(template, regions)
    ensures |ChildCommands(children, template, regions)| == |children| * PerChild(template, regions)
  {
    var outs := ChildOutputs(children, template, regions);
    var before := ChildOutputs(children[..c], template, regions);
    var here := TemplateOutputs(template, children[c], regions);
    var after := ChildOutputs(children[c + 1..], template, regions);
    assert outs == before + [here] + after;
    FlattenAppend(before + [here], after);
    FlattenAppend(before, [here]);
    assert Flatten([here]) == here by {
      assert [here][..0] == [];
    }
    var per := PerChild(template, regions);
    FlattenUniform(before, per);
    FlattenUniform(outs, per);
  }

  /** The commands of one source: its login command, then its children's. */
  function SourceCommands(ps: seq<Profile>, source: string, children: seq<string>, template: string, regions: seq<string>): Result<seq<string>>
  {
    if |children| == 0 then Ok([])
    else
      match FindGUID(ps, LoginGUID(source))
      case None => Failure(LoginGUID(source))
      case Some(login) => Ok([LoginCommand(login)] + ChildCommands(children, template, regions))
  }

  /** The sources order[k..], visited in turn. */
  function EstateFrom(ps: seq<Profile>, tree: map<string, seq<string>>, order: seq<string>, k: nat,
                      template: string, regions: seq<string>): Result<seq<string>>
    requires k <= |order|
    requires forall m :: 0 <= m < |order| ==> order[m] in tree
    decreases |order| - k
  {
    if k == |order| then Ok([])
    else
      var cmds :- SourceCommands(ps, order[k], tree[order[k]], template, regions);
      var rest :- EstateFrom(ps, tree, order, k + 1, template, regions);
      Ok(cmds + rest)
  }

  /** generateCommands over the profile list, visiting ProfileTree's
      sources in `order`. */
  function Estate(ps: seq<Profile>, order: seq<string>, command: string, regions: seq<string>): Result<seq<string>>
    requires IsEnumeration(order, ProfileTree(ps).Keys)
  {
    EstateFrom(ps, ProfileTree(ps), order, 0, ChildTemplate(command), regions)
  }

  /** One more source visited. */
  lemma EstateFromStep(ps: seq<Profile>, tree: map<string, seq<string>>, order: seq<string>, k: nat,
                       template: string, regions: seq<string>)
    requires k < |order|
    requires forall m :: 0 <= m < |order| ==> order[m] in tree
    ensures var block := SourceCommands(ps, order[k], tree[order[k]], template, regions);
            var rest := EstateFrom(ps, tree, order, k + 1, template, regions);
            EstateFrom(ps, tree, order, k, template, regions)
            == if block.Failure? then Failure(block.reason)
               else if rest.Failure? then rest else Ok(block.value + rest.value)
  {
  }

  lemma AppendAssoc(a: seq<string>, b: seq<string>, c: seq<string>)
    ensures a + b + c == a + (b + c)
  {
  }

  /** The body of generateCommands' outer loop for one source: the
      login command before the first child (a missing login profile
      panics), then every child's rendered commands. */
  method SourceBlock(ps: seq<Profile>, source: string, children: seq<string>, command: string, regions: seq<string>)
    returns (r: Result<seq<string>>)
    ensures r == SourceCommands(ps, source, children, ChildTemplate(command), regions)
  {
    ghost var template := ChildTemplate(command);
    ghost var loginProfile := FindGUID(ps, LoginGUID(source));
    var ret: seq<string> := [];
    var login := false;
    var j := 0;
    while j < |children|
      invariant 0 <= j <= |children|
      invariant login <==> j > 0
      invariant j == 0 ==> ret == []
      invariant j > 0 ==>
                  && loginProfile.Some?
                  && ret == [LoginCommand(loginProfile.value)] + ChildCommands(children[..j], template, regions)
    {
      if !login {
        var loginGUID := LoginGUID(source);
        var found := FindGUID(ps, loginGUID);
        if found.None? {
          return Failure(loginGUID);
        }
        ret := ret + [LoginCommand(found.value)];
        login := true;
        assert ChildCommands(children[..0], template, regions) == [] by {
          assert ChildOutputs(children[..0], template, regions) == [];
        }
        assert ret == [LoginCommand(loginProfile.value)] + ChildCommands(children[..j], template, regions);
      }
      var tCommand := ChildTemplate(command);
      var str := GenerateTemplate(tCommand, children[j], regions);
      ghost var done := ChildCommands(children[..j], template, regions);
      assert ChildCommands(children[..j + 1], template, regions) == done + str by {
        ChildCommandsSnoc(children, template, regions, j);
      }
      ghost var head := [LoginCommand(loginProfile.value)];
      AppendAssoc(head, done, str);
      ret := ret + str;
      j := j + 1;
    }
    assert children[..j] == children;
    return Ok(ret);
  }

  /** generateCommands' outer loop: the sources of `tree`, visited in
      `order`, each emitting its block; the first failing source panics. */
  method VisitSources(ps: seq<Profile>, tree: map<string, seq<string>>, order: seq<string>,
                      command: string, regions: seq<string>)
    returns (r: Result<seq<string>>)
    requires forall m :: 0 <= m < |order| ==> order[m] in tree
    ensures r == EstateFrom(ps, tree, order, 0, ChildTemplate(command), regions)
  {
    ghost var template := ChildTemplate(command);
    var ret: seq<string> := [];
    PrependNothing(EstateFrom(ps, tree, order, 0, template, regions));
    var k := 0;
    while k < |order|
      invariant 0 <= k <= |order|
      invariant EstateFrom(ps, tree, order, 0, template, regions)
                == Prepend(ret, EstateFrom(ps, tree, order, k, template, regions))
    {
      var source := order[k];
      var block := SourceBlock(ps, source, tree[source], command, regions);
      EstateFromStep(ps, tree, order, k, template, regions);
      if block.Failure? {
        return Failure(block.reason);
      }
      PrependStep(ret, block.value, EstateFrom(ps, tree, order, k + 1, template, regions));
      ret := ret + block.value;
      k := k + 1;
    }
    assert ret + [] == ret;
    return Ok(ret);
  }

  /** generateCommands(prof, command): for every source of the profile
      tree, visited in `order`, the login command of its login profile
      once, then each child's rendered commands; a missing login profile
      panics. */
  method GenerateCommands(ps: seq<Profile>, command: string, order: seq<string>, regions: seq<string>)
    returns (r: Result<seq<string>>)
    requires IsEnumeration(order, ProfileTree(ps).Keys)
    ensures r == Estate(ps, order, command, regions)
  {
    var tree := ProfileTree(ps);
    r := VisitSources(ps, tree, order, command, regions);
  }

  /** The source's login profile is not in the list. */
  predicate LoginMissing(ps: seq<Profile>, source: string) {
    FindGUID(ps, LoginGUID(source)).None?
  }

  /** When every source has a child, visiting the sources from k panics
      exactly when one of them has no login profile. */
  lemma {:induction false} EstateFromFails(ps: seq<Profile>, tree: map<string, seq<string>>, order: seq<string>, k: nat,
                                           template: string, regions: seq<string>)
    requires k <= |order|
    requires forall m :: 0 <= m < |order| ==> order[m] in tree && |tree[order[m]]| > 0
    ensures EstateFrom(ps, tree, order, k, template, regions).Failure?
            <==> exists m :: k <= m < |order| && LoginMissing(ps, order[m])
    decreases |order| - k
  {
    if k < |order| {
      EstateFromFailsStep(ps, tree, order, k, template, regions);
      EstateFromFails(ps, tree, order, k + 1, template, regions);
      if LoginMissing(ps, order[k]) {
        assert k <= k < |order| && LoginMissing(ps, order[k]);
      } else if exists m :: k <= m < |order| && LoginMissing(ps, order[m]) {
        var m :| k <= m < |order| && LoginMissing(ps, order[m]);
        assert k + 1 <= m;
      }
    }
  }

  /** A source with children fails exactly when its login profile is missing. */
  lemma EstateFromFailsStep(ps: seq<Profile>, tree: map<string, seq<string>>, order: seq<string>, k: nat,
                            template: string, regions: seq<string>)
    requires k < |order|
    requires forall m :: 0 <= m < |order| ==> order[m] in tree && |tree[order[m]]| > 0
    ensures EstateFrom(ps, tree, order, k, template, regions).Failure?
            <==> LoginMissing(ps, order[k]) || EstateFrom(ps, tree, order, k + 1, template, regions).Failure?
  {
    EstateFromStep(ps, tree, order, k, template, regions);
  }

  /** generateCommands succeeds exactly when every source has its login profile. */
  lemma EstateFails(ps: seq<Profile>, order: seq<string>, command: string, regions: seq<string>)
    requires IsEnumeration(order, ProfileTree(ps).Keys)
    ensures Estate(ps, order, command, regions).Failure?
            <==> exists source :: source in ProfileTree(ps) && FindGUID(ps, LoginGUID(source)).None?
  {
    var tree := ProfileTree(ps);
    forall m | 0 <= m < |order|
      ensures order[m] in tree && |tree[order[m]]| > 0
    {
      ProfileTreeIsChildren(ps, order[m]);
    }
    EstateFromFails(ps, tree, order, 0, ChildTemplate(command), regions);
    if exists source :: source in tree && FindGUID(ps, LoginGUID(source)).None? {
      var source :| source in tree && FindGUID(ps, LoginGUID(source)).None?;
      var m :| 0 <= m < |order| && order[m] == source;
    }
  }

  /** With every login profile present, the output is the block of each
      source in visiting order: the block of order[k] comes first in what
      is emitted from k on. */
  lemma EstateBlocks(ps: seq<Profile>, order: seq<string>, k: nat, template: string, regions: seq<string>)
    requires IsEnumeration(order, ProfileTree(ps).Keys) && k < |order|
    requires EstateFrom(ps, ProfileTree(ps), order, k, template, regions).Ok?
    ensures var tree := ProfileTree(ps);
            var block := SourceCommands(ps, order[k], tree[order[k]], template, regions);
            && block.Ok? && |block.value| > 0
            && EstateFrom(ps, tree, order, k, template, regions).value
               == block.value + EstateFrom(ps, tree, order, k + 1, template, regions).value
            && block.value[0] == LoginCommand(FindGUID(ps, LoginGUID(order[k])).value)
            && block.value[1..] == ChildCommands(tree[order[k]], template, regions)
  {
    ProfileTreeIsChildren(ps, order[k]);
    EstateFromStep(ps, ProfileTree(ps), order, k, template, regions);
  }
}
