/** Ordered rules that turn skills on and off, and the edit that switches one skill. Paths are
    resolved files; an edit also keeps the rules of all other skills. */
module SkillRules {

  datatype Option<+T> = None | Some(value: T)

  datatype Rule =
    | PathRule(path: nat, enabled: bool)
    | NameRule(name: nat, enabled: bool)

  /** One rule after another; the last that matches decides, and no rule means enabled. Before the
      name is known a name rule can only enable. */
  function Selected(rules: seq<Rule>, file: nat, name: Option<nat>): bool {
    if rules == [] then true
    else Apply(rules[|rules| - 1], Selected(rules[..|rules| - 1], file, name), file, name)
  }

  function Apply(rule: Rule, result: bool, file: nat, name: Option<nat>): bool {
    match rule
    case PathRule(path, enabled) => if path == file then enabled else result
    case NameRule(n, enabled) => if name.None? then result || enabled else if name == Some(n) then enabled else result
  }

  /** A skill that is skipped before its name is known is disabled under every name. */
  lemma {:induction false} PrunedIsDisabled(rules: seq<Rule>, file: nat, name: nat)
    requires !Selected(rules, file, None)
    ensures !Selected(rules, file, Some(name))
  {
    if rules != [] && Selected(rules, file, Some(name)) {
      var n := |rules| - 1;
      if !Selected(rules[..n], file, None) { PrunedIsDisabled(rules[..n], file, name); }
    }
  }

  /** One list of rules with which the early check keeps a skill that every name disables. */
  lemma NotEveryDisabledIsPruned(file: nat, name: nat, other: nat)
    ensures var rules := [PathRule(file, false), NameRule(name, true), NameRule(name, false)];
      Selected(rules, file, None) && !Selected(rules, file, Some(other))
  {
    var rules := [PathRule(file, false), NameRule(name, true), NameRule(name, false)];
    assert rules[..2] == [PathRule(file, false), NameRule(name, true)];
    assert rules[..2][..1] == [PathRule(file, false)];
    var one := [PathRule(file, false)];
    assert one[..0] == [];
    assert !Selected(one, file, Some(other)) && !Selected(one, file, None);
    assert Selected(rules[..2], file, None) && Selected(rules[..2], file, Some(other)) == (other == name);
  }

  // ---- when the early check keeps a skill for nothing ----

  predicate OfFile(rule: Rule, file: nat) {
    rule.PathRule? && rule.path == file
  }

  /** What the last path rule of the file says; without one the skill is on. */
  function PathOn(rules: seq<Rule>, file: nat): bool {
    if rules == [] then true
    else if OfFile(rules[|rules| - 1], file) then rules[|rules| - 1].enabled
    else PathOn(rules[..|rules| - 1], file)
  }

  /** A name rule that turns something on, with no path rule of the file behind it. */
  predicate Live(rules: seq<Rule>, file: nat, i: nat) {
    && i < |rules| && rules[i].NameRule? && rules[i].enabled
    && forall j :: i < j < |rules| ==> !OfFile(rules[j], file)
  }

  /** A live rule whose name no rule behind it turns off again. */
  predicate Last(rules: seq<Rule>, file: nat, i: nat) {
    && Live(rules, file, i)
    && forall j :: i < j < |rules| && rules[j].NameRule? && rules[j].name == rules[i].name ==> rules[j].enabled
  }

  ghost predicate SomeLive(rules: seq<Rule>, file: nat) {
    exists i: nat :: Live(rules, file, i)
  }

  ghost predicate SomeLast(rules: seq<Rule>, file: nat, name: nat) {
    exists i: nat :: Last(rules, file, i) && rules[i].name == name
  }

  ghost predicate OffUnderEveryName(rules: seq<Rule>, file: nat) {
    forall name: nat :: !Selected(rules, file, Some(name))
  }

  /** Before the name is known a skill is kept for its path or for some live rule. */
  lemma {:induction false} EarlyIs(rules: seq<Rule>, file: nat)
    ensures Selected(rules, file, None) <==> PathOn(rules, file) || SomeLive(rules, file)
  {
    if rules != [] {
      var n := |rules| - 1;
      var front := rules[..n];
      EarlyIs(front, file);
      if rules[n].NameRule? && rules[n].enabled {
        assert Live(rules, file, n);
      } else if OfFile(rules[n], file) {
        assert forall i: nat :: Live(rules, file, i) ==> i < n;
      } else {
        assert forall i: nat :: Live(rules, file, i) <==> Live(front, file, i);
      }
    }
  }

  /** Under a name, a last rule of that name turns the skill on; without one nothing does when its
      path is off. */
  lemma {:induction false} NamedIs(rules: seq<Rule>, file: nat, name: nat)
    ensures SomeLast(rules, file, name) ==> Selected(rules, file, Some(name))
    ensures !PathOn(rules, file) && Selected(rules, file, Some(name)) ==> SomeLast(rules, file, name)
  {
    if rules != [] {
      var n := |rules| - 1;
      var front := rules[..n];
      NamedIs(front, file, name);
      if rules[n] == NameRule(name, true) {
        assert Last(rules, file, n);
      } else if OfFile(rules[n], file) || rules[n] == NameRule(name, false) {
        assert forall i: nat :: Last(rules, file, i) && rules[i].name == name ==> i < n;
      } else {
        assert forall i: nat :: Last(rules, file, i) && rules[i].name == name <==> Last(front, file, i) && front[i].name == name;
      }
    }
  }

  /** A name above all names of the rules. */
  function Unnamed(rules: seq<Rule>): (name: nat)
    ensures forall i :: 0 <= i < |rules| && rules[i].NameRule? ==> rules[i].name < name
  {
    if rules == [] then 0
    else
      var last, rest := rules[|rules| - 1], Unnamed(rules[..|rules| - 1]);
      if last.NameRule? && last.name >= rest then last.name + 1 else rest
  }

  /** A name that no rule has gets what the path rules say. */
  lemma {:induction false} UnnamedIs(rules: seq<Rule>, file: nat, name: nat)
    requires forall i :: 0 <= i < |rules| && rules[i].NameRule? ==> rules[i].name != name
    ensures Selected(rules, file, Some(name)) == PathOn(rules, file)
  {
    if rules != [] {
      UnnamedIs(rules[..|rules| - 1], file, name);
    }
  }

  /** A skill is off under every name exactly when its path is off and every live rule is undone. */
  lemma OffExact(rules: seq<Rule>, file: nat)
    ensures OffUnderEveryName(rules, file) <==> !PathOn(rules, file) && forall i: nat :: !Last(rules, file, i)
  {
    hide Selected, PathOn;
    UnnamedIs(rules, file, Unnamed(rules));
    forall name: nat
      ensures SomeLast(rules, file, name) ==> Selected(rules, file, Some(name))
      ensures !PathOn(rules, file) && Selected(rules, file, Some(name)) ==> SomeLast(rules, file, name)
    {
      NamedIs(rules, file, name);
    }
    forall i: nat | Last(rules, file, i) ensures Selected(rules, file, Some(rules[i].name)) {
      assert SomeLast(rules, file, rules[i].name);
    }
  }

  /** The early check keeps a skill that every name disables exactly when its path is off and there
      are live rules, each of them undone for its name by a later rule. */
  lemma KeptForNothingExact(rules: seq<Rule>, file: nat)
    ensures Selected(rules, file, None) && OffUnderEveryName(rules, file) <==>
      !PathOn(rules, file) && SomeLive(rules, file) && forall i: nat :: !Last(rules, file, i)
  {
    hide Selected, PathOn, Live, Last, OffUnderEveryName;
    EarlyIs(rules, file);
    OffExact(rules, file);
  }

  // ---- switching one skill ----

  /** The last rule that decides this skill, if it is a path rule; `stop` rules before it do not. */
  function Matching(rules: seq<Rule>, file: nat, name: nat): (r: Option<nat>)
    ensures r.Some? ==> r.value < |rules| && rules[r.value].PathRule? && rules[r.value].path == file
    ensures r.Some? ==> forall j :: r.value < j < |rules| ==> !Decides(rules[j], file, name)
  {
    if rules == [] then None
    else
      var last := rules[|rules| - 1];
      if last.PathRule? && last.path == file then Some(|rules| - 1)
      else if last.NameRule? && last.name == name then None
      else Matching(rules[..|rules| - 1], file, name)
  }

  predicate Decides(rule: Rule, file: nat, name: nat) {
    if rule.PathRule? then rule.path == file else rule.name == name
  }

  /** The rules after `toggle`: the matching path rule changes in place, or a rule joins the end. */
  function Toggled(rules: seq<Rule>, file: nat, name: nat, enabled: bool): seq<Rule> {
    var k := Matching(rules, file, name);
    if k.None? then rules + [PathRule(file, enabled)] else rules[k.value := PathRule(file, enabled)]
  }

  /** Rules that do not decide a skill leave the result alone. */
  lemma {:induction false} Undecided(rules: seq<Rule>, k: nat, file: nat, name: nat)
    requires k < |rules| && forall j :: k < j < |rules| ==> !Decides(rules[j], file, name)
    ensures Selected(rules, file, Some(name)) == Selected(rules[..k + 1], file, Some(name))
  {
    var n := |rules| - 1;
    if k < n {
      assert !Decides(rules[n], file, name);
      Undecided(rules[..n], k, file, name);
      assert rules[..n][..k + 1] == rules[..k + 1];
    } else {
      assert rules[..k + 1] == rules;
    }
  }

  /** Changing a path rule of one file does not change what another file gets. */
  lemma {:induction false} OtherFile(rules: seq<Rule>, k: nat, enabled: bool, file: nat, name: Option<nat>)
    requires k < |rules| && rules[k].PathRule? && rules[k].path != file
    ensures Selected(rules[k := PathRule(rules[k].path, enabled)], file, name) == Selected(rules, file, name)
  {
    var n := |rules| - 1;
    var changed := rules[k := PathRule(rules[k].path, enabled)];
    if k < n {
      assert changed[..n] == rules[..n][k := PathRule(rules[k].path, enabled)];
      OtherFile(rules[..n], k, enabled, file, name);
    } else {
      assert changed[..n] == rules[..n];
    }
  }

  /** After the edit the skill has the requested value and every other file keeps its own, under
      every name and also before its name is known. */
  lemma ToggleSetsOnlyThis(rules: seq<Rule>, file: nat, name: nat, enabled: bool, other: nat, otherName: Option<nat>)
    requires other != file
    ensures Selected(Toggled(rules, file, name, enabled), file, Some(name)) == enabled
    ensures Selected(Toggled(rules, file, name, enabled), other, otherName) == Selected(rules, other, otherName)
  {
    var k := Matching(rules, file, name);
    var r := Toggled(rules, file, name, enabled);
    if k.None? {
      assert r[..|r| - 1] == rules;
    } else {
      Undecided(r, k.value, file, name);
      assert r[..k.value + 1][k.value] == PathRule(file, enabled);
      OtherFile(rules, k.value, enabled, other, otherName);
    }
  }

  // ---- the loops ----

  /** The closure of `skillSelection`: one pass over the rules. */
  method Select(rules: seq<Rule>, file: nat, name: Option<nat>) returns (result: bool)
    ensures result == Selected(rules, file, name)
  {
    result := true;
    var i := 0;
    while i < |rules|
      invariant 0 <= i <= |rules| && result == Selected(rules[..i], file, name)
    {
      assert rules[..i + 1][..i] == rules[..i];
      var rule := rules[i];
      if rule.PathRule? {
        if rule.path == file { result := rule.enabled; }
      } else if name.None? {
        if rule.enabled { result := true; }
      } else if rule.name == name.value {
        result := rule.enabled;
      }
      i := i + 1;
    }
    assert rules[..i] == rules;
  }

  /** The skill branch of `toggle`: from the end to the first rule that decides. */
  method Toggle(rules: seq<Rule>, file: nat, name: nat, enabled: bool) returns (r: seq<Rule>)
    ensures r == Toggled(rules, file, name, enabled)
    ensures Selected(r, file, Some(name)) == enabled
  {
    var index, found: Option<nat> := |rules|, None;
    assert rules[..|rules|] == rules;
    while index > 0
      invariant 0 <= index <= |rules| && found == None
      invariant Matching(rules[..index], file, name) == Matching(rules, file, name)
      decreases index
    {
      var rule := rules[index - 1];
      assert rules[..index][..index - 1] == rules[..index - 1];
      if rule.PathRule? && rule.path == file {
        found := Some(index - 1);
        break;
      }
      if rule.NameRule? && rule.name == name { break; }
      index := index - 1;
    }
    r := if found.None? then rules + [PathRule(file, enabled)] else rules[found.value := PathRule(file, enabled)];
    ToggleSetsOnlyThis(rules, file, name, enabled, file + 1, None);
  }

  /** The path rule at `k` is the last rule that decides this skill. */
  predicate LastSays(rules: seq<Rule>, file: nat, name: nat, k: nat) {
    && k < |rules| && rules[k].PathRule? && rules[k].path == file
    && forall j :: k < j < |rules| ==> if rules[j].PathRule? then rules[j].path != file else rules[j].name != name
  }

  lemma {:induction false} MatchingFinds(rules: seq<Rule>, file: nat, name: nat, k: nat)
    requires LastSays(rules, file, name, k)
    ensures Matching(rules, file, name) == Some(k)
  {
    if k < |rules| - 1 {
      assert LastSays(rules[..|rules| - 1], file, name, k);
      MatchingFinds(rules[..|rules| - 1], file, name, k);
    }
  }

  /** The edit changes the deciding rule in place when that is a path rule, and otherwise adds one. */
  lemma ToggleExactly(rules: seq<Rule>, file: nat, name: nat, enabled: bool)
    ensures forall k: nat :: LastSays(rules, file, name, k) ==> Toggled(rules, file, name, enabled) == rules[k := PathRule(file, enabled)]
    ensures (forall k: nat :: !LastSays(rules, file, name, k)) ==> Toggled(rules, file, name, enabled) == rules + [PathRule(file, enabled)]
  {
    forall k: nat | LastSays(rules, file, name, k) ensures Matching(rules, file, name) == Some(k) {
      MatchingFinds(rules, file, name, k);
    }
    var found := Matching(rules, file, name);
    if found.Some? {
      assert forall j :: found.value < j < |rules| ==> !Decides(rules[j], file, name);
      assert LastSays(rules, file, name, found.value);
    }
  }
}
