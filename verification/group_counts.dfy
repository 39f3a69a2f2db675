/** Reference definitions for the two aggregation normalisers of
    endor-backend/src/service/endor.service.ts, stated as sums rather than as
    loops, and the properties of those sums.

    Both normalisers turn a list of groups into a CountMap. A group shares
    its count out to names:
    - by category, every string of every `value` array of the group's key
      receives the group's full count, once per occurrence;
    - by level, the `value` array of the key's element 0, turned into a
      string the way JavaScript turns an array used as a property name into
      one (joined with ","), receives the count.
    A name's total is the sum of its shares over all groups, and a name is a
    key of the map iff some group names it, even with a count of 0. */
module GroupCounts {
  import opened Results
  import opened JsString
  import opened ProjectTypes

  datatype Grouping = ByCategory | ByLevel

  /** How many times `c` appears in `vs`. */
  function Occurrences(c: string, vs: seq<string>): nat
  {
    if vs == [] then 0
    else Occurrences(c, vs[..|vs| - 1]) + (if vs[|vs| - 1] == c then 1 else 0)
  }

  /** How many times `c` appears across the `value` arrays of a key. */
  function KeyOccurrences(c: string, key: seq<KeyItem>): nat
  {
    if key == [] then 0
    else KeyOccurrences(c, key[..|key| - 1]) + Occurrences(c, key[|key| - 1].value)
  }

  /** The distinct strings of `vs`. */
  function Listed(vs: seq<string>): set<string> {
    set c | c in vs
  }

  /** The strings that appear in the `value` arrays of a key. */
  function KeyCategories(key: seq<KeyItem>): set<string>
  {
    if key == [] then {}
    else KeyCategories(key[..|key| - 1]) + Listed(key[|key| - 1].value)
  }

  /** The level a group is filed under: its key's element 0's `value`, as a
      property name. */
  function LevelOf(g: Group): string
    requires |g.key| > 0
  {
    Join(g.key[0].value, ",")
  }

  /** Every group has an element 0 in its key. */
  predicate Keyed(groups: seq<Group>) {
    forall i :: 0 <= i < |groups| ==> |groups[i].key| > 0
  }

  /** What group `g` adds to the total of `name`. */
  function Share(mode: Grouping, g: Group, name: string): nat
  {
    match mode
    case ByCategory => g.count * KeyOccurrences(name, g.key)
    case ByLevel => if |g.key| > 0 && LevelOf(g) == name then g.count else 0
  }

  /** The names group `g` files its count under. */
  function NamesOf(mode: Grouping, g: Group): set<string>
  {
    match mode
    case ByCategory => KeyCategories(g.key)
    case ByLevel => if |g.key| > 0 then {LevelOf(g)} else {}
  }

  /** The total of `name`: the sum of its shares over all groups. */
  function Total(mode: Grouping, groups: seq<Group>, name: string): nat
  {
    if groups == [] then 0
    else Total(mode, groups[..|groups| - 1], name) + Share(mode, groups[|groups| - 1], name)
  }

  /** Every name some group files its count under. */
  function Names(mode: Grouping, groups: seq<Group>): set<string>
  {
    if groups == [] then {}
    else Names(mode, groups[..|groups| - 1]) + NamesOf(mode, groups[|groups| - 1])
  }

  /** The reference CountMap: one entry per name, holding its total. */
  function Counts(mode: Grouping, groups: seq<Group>): CountMap
  {
    map name | name in Names(mode, groups) :: Total(mode, groups, name)
  }

  /** The map after `result[name]` is created at 0 if absent and then
      increased by `n`. */
  function Add(m: CountMap, name: string, n: nat): CountMap
  {
    m[name := (if name in m then m[name] else 0) + n]
  }

  // ---------------------------------------------------------------------
  // Unfolding one step at the end of a sequence

  lemma OccurrencesAppend(c: string, vs: seq<string>, v: string)
    ensures Occurrences(c, vs + [v]) == Occurrences(c, vs) + (if v == c then 1 else 0)
  {
    assert (vs + [v])[..|vs|] == vs;
  }

  lemma KeyAppend(key: seq<KeyItem>, item: KeyItem)
    ensures forall c :: KeyOccurrences(c, key + [item]) == KeyOccurrences(c, key) + Occurrences(c, item.value)
    ensures KeyCategories(key + [item]) == KeyCategories(key) + Listed(item.value)
  {
    assert (key + [item])[..|key|] == key;
  }

  lemma GroupsAppend(mode: Grouping, groups: seq<Group>, g: Group)
    ensures forall name :: Total(mode, groups + [g], name) == Total(mode, groups, name) + Share(mode, g, name)
    ensures Names(mode, groups + [g]) == Names(mode, groups) + NamesOf(mode, g)
  {
    assert (groups + [g])[..|groups|] == groups;
  }

  lemma {:induction false} OccurrencesOfAbsent(c: string, vs: seq<string>)
    requires c !in vs
    ensures Occurrences(c, vs) == 0
  {
    if vs != [] {
      OccurrencesOfAbsent(c, vs[..|vs| - 1]);
    }
  }

  lemma {:induction false} OccurrencesOfPresent(c: string, vs: seq<string>)
    requires c in vs
    ensures Occurrences(c, vs) >= 1
  {
    if vs[|vs| - 1] != c {
      assert vs == vs[..|vs| - 1] + [vs[|vs| - 1]];
      OccurrencesOfPresent(c, vs[..|vs| - 1]);
    }
  }

  /** A string a key does not list occurs in it 0 times. */
  lemma {:induction false} KeyOccurrencesOfAbsent(c: string, key: seq<KeyItem>)
    requires c !in KeyCategories(key)
    ensures KeyOccurrences(c, key) == 0
  {
    if key != [] {
      KeyOccurrencesOfAbsent(c, key[..|key| - 1]);
      OccurrencesOfAbsent(c, key[|key| - 1].value);
    }
  }

  /** A string listed by item `j` of a key occurs in it at least once, and
      KeyCategories holds exactly the listed strings. */
  lemma {:induction false} KeyCategoriesListed(key: seq<KeyItem>, c: string)
    ensures c in KeyCategories(key) <==> exists j :: 0 <= j < |key| && c in key[j].value
    ensures c in KeyCategories(key) ==> KeyOccurrences(c, key) >= 1
  {
    if key != [] {
      var init, last := key[..|key| - 1], key[|key| - 1];
      KeyCategoriesListed(init, c);
      if c in last.value {
        OccurrencesOfPresent(c, last.value);
      }
      assert forall j :: 0 <= j < |init| ==> init[j] == key[j];
    }
  }

  /** A name no group files its count under has total 0. */
  lemma {:induction false} TotalOfUnnamed(mode: Grouping, groups: seq<Group>, name: string)
    requires name !in Names(mode, groups)
    ensures Total(mode, groups, name) == 0
  {
    if groups != [] {
      TotalOfUnnamed(mode, groups[..|groups| - 1], name);
      var g := groups[|groups| - 1];
      if mode == ByCategory {
        KeyOccurrencesOfAbsent(name, g.key);
      }
    }
  }

  // ---------------------------------------------------------------------
  // How the reference map changes as the loops advance

  /** A group whose share of every name is unchanged and which names the same
      names can replace another as the last group. */
  lemma CountsLastReplaced(mode: Grouping, pre: seq<Group>, g: Group, g': Group)
    requires NamesOf(mode, g') == NamesOf(mode, g)
    requires forall name :: Share(mode, g', name) == Share(mode, g, name)
    ensures Counts(mode, pre + [g']) == Counts(mode, pre + [g])
  {
    GroupsAppend(mode, pre, g);
    GroupsAppend(mode, pre, g');
  }

  /** A group that names nothing and shares nothing leaves the map as it was. */
  lemma CountsSilentGroup(mode: Grouping, pre: seq<Group>, g: Group)
    requires NamesOf(mode, g) == {}
    requires forall name :: Share(mode, g, name) == 0
    ensures Counts(mode, pre + [g]) == Counts(mode, pre)
  {
    GroupsAppend(mode, pre, g);
  }

  /** Replacing the last group by one that additionally names `c` and shares
      `n` more with it is one `Add` to the map. */
  lemma CountsLastGrows(mode: Grouping, pre: seq<Group>, g: Group, g': Group, c: string, n: nat)
    requires NamesOf(mode, g') == NamesOf(mode, g) + {c}
    requires forall name :: Share(mode, g', name) == Share(mode, g, name) + (if name == c then n else 0)
    ensures Counts(mode, pre + [g']) == Add(Counts(mode, pre + [g]), c, n)
  {
    GroupsAppend(mode, pre, g);
    GroupsAppend(mode, pre, g');
    var m, m' := Counts(mode, pre + [g]), Counts(mode, pre + [g']);
    var a := Add(m, c, n);
    if c !in m {
      TotalOfUnnamed(mode, pre + [g], c);
    }
    assert m'.Keys == a.Keys;
    forall name | name in m'
      ensures m'[name] == a[name]
    {
      assert m'[name] == Total(mode, pre + [g'], name);
    }
  }

  lemma ScaledStep(n: nat, k: nat, d: nat)
    requires d <= 1
    ensures n * (k + d) == n * k + (if d == 1 then n else 0)
  {
  }

  /** Appending one more category string `c` to the last item of the last
      group adds that group's count to `c`. */
  lemma CategoryValueAppended(pre: seq<Group>, items: seq<KeyItem>, x: string, vs: seq<string>, c: string, n: nat)
    ensures Counts(ByCategory, pre + [Group(items + [KeyItem(x, vs + [c])], n)])
         == Add(Counts(ByCategory, pre + [Group(items + [KeyItem(x, vs)], n)]), c, n)
  {
    var g := Group(items + [KeyItem(x, vs)], n);
    var g' := Group(items + [KeyItem(x, vs + [c])], n);
    KeyAppend(items, KeyItem(x, vs));
    KeyAppend(items, KeyItem(x, vs + [c]));
    assert Listed(vs + [c]) == Listed(vs) + {c};
    forall name
      ensures Share(ByCategory, g', name) == Share(ByCategory, g, name) + (if name == c then n else 0)
    {
      OccurrencesAppend(name, vs, c);
      ScaledStep(n, KeyOccurrences(name, items) + Occurrences(name, vs), if name == c then 1 else 0);
    }
    CountsLastGrows(ByCategory, pre, g, g', c, n);
  }

  /** A new, still empty item at the end of the last group changes nothing. */
  lemma CategoryItemOpened(pre: seq<Group>, items: seq<KeyItem>, x: string, n: nat)
    ensures Counts(ByCategory, pre + [Group(items + [KeyItem(x, [])], n)])
         == Counts(ByCategory, pre + [Group(items, n)])
  {
    KeyAppend(items, KeyItem(x, []));
    assert Listed([]) == {};
    CountsLastReplaced(ByCategory, pre, Group(items, n), Group(items + [KeyItem(x, [])], n));
  }

  /** A new group whose key is still empty changes nothing. */
  lemma CategoryGroupOpened(pre: seq<Group>, n: nat)
    ensures Counts(ByCategory, pre + [Group([], n)]) == Counts(ByCategory, pre)
  {
    CountsSilentGroup(ByCategory, pre, Group([], n));
  }

  /** Processing one more keyed group adds its count to its level. */
  lemma LevelGroupAppended(pre: seq<Group>, g: Group)
    requires |g.key| > 0
    ensures Counts(ByLevel, pre + [g]) == Add(Counts(ByLevel, pre), LevelOf(g), g.count)
  {
    var empty := Group([], g.count);
    CountsSilentGroup(ByLevel, pre, empty);
    CountsLastGrows(ByLevel, pre, empty, g, LevelOf(g), g.count);
  }

  // ---------------------------------------------------------------------
  // Properties of the reference map

  /** Sums and unions split over a concatenation. */
  lemma {:induction false} GroupsConcat(mode: Grouping, a: seq<Group>, b: seq<Group>, name: string)
    ensures Total(mode, a + b, name) == Total(mode, a, name) + Total(mode, b, name)
    ensures Names(mode, a + b) == Names(mode, a) + Names(mode, b)
    decreases |b|
  {
    if b == [] {
      assert a + b == a;
    } else {
      var b', g := b[..|b| - 1], b[|b| - 1];
      assert a + b == (a + b') + [g];
      GroupsConcat(mode, a, b', name);
      GroupsAppend(mode, a + b', g);
      GroupsAppend(mode, b', g);
      assert b == b' + [g];
    }
  }

  lemma RemoveMatched(a': seq<Group>, g: Group, u: seq<Group>, v: seq<Group>)
    requires multiset(a' + [g]) == multiset(u + [g] + v)
    ensures multiset(a') == multiset(u + v)
  {
    calc {
      multiset(a') + multiset{g};
      multiset(a' + [g]);
      multiset(u + [g] + v);
      multiset(u) + multiset{g} + multiset(v);
      multiset(u + v) + multiset{g};
    }
    assert multiset(a') == multiset(a') + multiset{g} - multiset{g};
  }

  /** A name's total and whether it is named do not depend on the order of
      the groups. */
  lemma {:induction false} GroupsPermuted(mode: Grouping, a: seq<Group>, b: seq<Group>, name: string)
    requires multiset(a) == multiset(b)
    ensures Total(mode, a, name) == Total(mode, b, name)
    ensures Names(mode, a) == Names(mode, b)
    decreases |a|
  {
    if a == [] {
      assert |b| == |multiset(b)| == 0;
    } else {
      var a', g := a[..|a| - 1], a[|a| - 1];
      assert a == a' + [g];
      assert g in multiset(b);
      var j :| 0 <= j < |b| && b[j] == g;
      var u, v := b[..j], b[j + 1..];
      assert b == u + [g] + v;
      RemoveMatched(a', g, u, v);
      GroupsPermuted(mode, a', u + v, name);
      GroupsAppend(mode, a', g);
      GroupsSpliced(mode, u, g, v, name);
    }
  }

  /** A group inserted anywhere adds its share and its names. */
  lemma GroupsSpliced(mode: Grouping, u: seq<Group>, g: Group, v: seq<Group>, name: string)
    ensures Total(mode, u + [g] + v, name) == Total(mode, u + v, name) + Share(mode, g, name)
    ensures Names(mode, u + [g] + v) == Names(mode, u + v) + NamesOf(mode, g)
  {
    GroupsConcat(mode, u, v, name);
    GroupsConcat(mode, u + [g], v, name);
    GroupsAppend(mode, u, g);
  }

  /** Normalising a reordering of the groups gives the same map. */
  lemma CountsPermuted(mode: Grouping, a: seq<Group>, b: seq<Group>)
    requires multiset(a) == multiset(b)
    ensures Counts(mode, a) == Counts(mode, b)
  {
    forall name {
      GroupsPermuted(mode, a, b, name);
    }
  }

  /** Accumulation only adds: processing further groups keeps every entry and
      never lowers a count. */
  lemma CountsGrow(mode: Grouping, pre: seq<Group>, post: seq<Group>)
    ensures forall name :: name in Counts(mode, pre) ==>
      name in Counts(mode, pre + post) && Counts(mode, pre)[name] <= Counts(mode, pre + post)[name]
  {
    forall name | name in Counts(mode, pre)
      ensures name in Counts(mode, pre + post) && Counts(mode, pre)[name] <= Counts(mode, pre + post)[name]
    {
      GroupsConcat(mode, pre, post, name);
    }
  }

  /** A name is a key of the map iff some group names it. */
  lemma {:induction false} NamesListed(mode: Grouping, groups: seq<Group>, name: string)
    ensures name in Names(mode, groups) <==> exists i :: 0 <= i < |groups| && name in NamesOf(mode, groups[i])
  {
    if groups != [] {
      var init := groups[..|groups| - 1];
      NamesListed(mode, init, name);
      assert forall i :: 0 <= i < |init| ==> init[i] == groups[i];
    }
  }

  /** Each group's share is part of the total. */
  lemma {:induction false} ShareBounded(mode: Grouping, groups: seq<Group>, i: nat, name: string)
    requires i < |groups|
    ensures Share(mode, groups[i], name) <= Total(mode, groups, name)
  {
    if i < |groups| - 1 {
      ShareBounded(mode, groups[..|groups| - 1], i, name);
    }
  }

  /** The level normaliser's outcome: its map, or the `TypeError` thrown on
      reading `value` of the missing element 0 of an empty key. */
  function LevelCounts(groups: seq<Group>): (r: Result<CountMap, Error>)
    ensures r.Ok? <==> Keyed(groups)
  {
    if Keyed(groups) then Ok(Counts(ByLevel, groups)) else Err(ReadOfUndefined("value"))
  }

  lemma AtLeastOnce(n: nat, k: nat)
    requires k >= 1
    ensures n * k >= n
  {
  }

  /** Every category listed anywhere in a group's key receives that group's
      full count: the count is fanned out, not split. */
  lemma CategoryFanOut(groups: seq<Group>, i: nat, j: nat, c: string)
    requires i < |groups| && j < |groups[i].key| && c in groups[i].key[j].value
    ensures c in Counts(ByCategory, groups)
    ensures Counts(ByCategory, groups)[c] >= groups[i].count
  {
    KeyCategoriesListed(groups[i].key, c);
    NamesListed(ByCategory, groups, c);
    ShareBounded(ByCategory, groups, i, c);
    AtLeastOnce(groups[i].count, KeyOccurrences(c, groups[i].key));
  }

  /** A name is a key of the map iff some group names it, whatever that
      group's count, even 0. With no groups the map is empty. */
  lemma PresentIffNamed(mode: Grouping, groups: seq<Group>, name: string)
    ensures name in Counts(mode, groups) <==> exists i :: 0 <= i < |groups| && name in NamesOf(mode, groups[i])
    ensures groups == [] ==> Counts(mode, groups) == map[]
  {
    NamesListed(mode, groups, name);
  }

  /** The level normaliser consults only the `value` of element 0 of each
      key: groups that agree on it and on their counts give the same
      outcome, whatever element 0's `key` and the later elements are. */
  lemma {:induction false} LevelUsesElementZero(groups: seq<Group>, groups': seq<Group>)
    requires |groups| == |groups'|
    requires forall i :: 0 <= i < |groups| ==> (|groups[i].key| > 0 <==> |groups'[i].key| > 0)
    requires forall i :: 0 <= i < |groups| && |groups[i].key| > 0 ==>
      groups[i].key[0].value == groups'[i].key[0].value && groups[i].count == groups'[i].count
    ensures LevelCounts(groups) == LevelCounts(groups')
  {
    forall name ensures Total(ByLevel, groups, name) == Total(ByLevel, groups', name) {
      LevelTotalsAgree(groups, groups', name);
    }
    LevelTotalsAgree(groups, groups', "");
    assert Keyed(groups) <==> Keyed(groups');
    assert Counts(ByLevel, groups) == Counts(ByLevel, groups');
  }

  lemma {:induction false} LevelTotalsAgree(groups: seq<Group>, groups': seq<Group>, name: string)
    requires |groups| == |groups'|
    requires forall i :: 0 <= i < |groups| ==> (|groups[i].key| > 0 <==> |groups'[i].key| > 0)
    requires forall i :: 0 <= i < |groups| && |groups[i].key| > 0 ==>
      groups[i].key[0].value == groups'[i].key[0].value && groups[i].count == groups'[i].count
    ensures Total(ByLevel, groups, name) == Total(ByLevel, groups', name)
    ensures Names(ByLevel, groups) == Names(ByLevel, groups')
  {
    if groups != [] {
      var n := |groups| - 1;
      LevelTotalsAgree(groups[..n], groups'[..n], name);
    }
  }

  // ---------------------------------------------------------------------
  // Worked examples

  /** A group keyed by two categories gives each of them its full count. */
  lemma ExampleFanOut()
    ensures Counts(ByCategory, [Group([KeyItem("finding_categories", ["A", "B"])], 5)]) == map["A" := 5, "B" := 5]
  {
    var key := [KeyItem("finding_categories", ["A", "B"])];
    var g := Group(key, 5);
    assert [g][..0] == [];
    assert key[..0] == [];
    var vs: seq<string> := ["A", "B"];
    assert vs[..1] == ["A"] && ["A"][..0] == [];
    assert KeyCategories(key) == {"A", "B"};
    assert KeyOccurrences("A", key) == 1;
    assert KeyOccurrences("B", key) == 1;
  }

  /** A category listed twice in one key receives the count twice. */
  lemma ExampleRepeatedCategory()
    ensures Counts(ByCategory, [Group([KeyItem("finding_categories", ["A", "A"])], 3)]) == map["A" := 6]
  {
    var key := [KeyItem("finding_categories", ["A", "A"])];
    var g := Group(key, 3);
    assert [g][..0] == [];
    assert key[..0] == [];
    var vs: seq<string> := ["A", "A"];
    assert vs[..1] == ["A"] && ["A"][..0] == [];
    assert KeyCategories(key) == {"A"};
    assert KeyOccurrences("A", key) == 2;
  }

  /** A group with count 0 still creates its entry, at 0. */
  lemma ExampleZeroCount()
    ensures Counts(ByCategory, [Group([KeyItem("finding_categories", ["A"])], 0)]) == map["A" := 0]
  {
    var key := [KeyItem("finding_categories", ["A"])];
    assert [Group(key, 0)][..0] == [];
    assert key[..0] == [];
    var vs: seq<string> := ["A"];
    assert vs[..0] == [];
    assert KeyCategories(key) == {"A"};
  }

  /** Two groups at the same level are summed; a multi-valued level is
      filed under its comma-joined text; later key elements are ignored. */
  lemma ExampleLevels()
    ensures LevelCounts([
      Group([KeyItem("spec.level", ["FINDING_LEVEL_HIGH"])], 3),
      Group([KeyItem("spec.level", ["FINDING_LEVEL_HIGH"]), KeyItem("other", ["X"])], 2),
      Group([KeyItem("spec.level", ["A", "B"])], 1)])
      == Ok(map["FINDING_LEVEL_HIGH" := 5, "A,B" := 1])
  {
    var g1 := Group([KeyItem("spec.level", ["FINDING_LEVEL_HIGH"])], 3);
    var g2 := Group([KeyItem("spec.level", ["FINDING_LEVEL_HIGH"]), KeyItem("other", ["X"])], 2);
    var g3 := Group([KeyItem("spec.level", ["A", "B"])], 1);
    var gs := [g1, g2, g3];
    assert gs[..2] == [g1, g2] && [g1, g2][..1] == [g1] && [g1][..0] == [];
    assert LevelOf(g1) == "FINDING_LEVEL_HIGH";
    assert LevelOf(g2) == "FINDING_LEVEL_HIGH";
    assert LevelOf(g3) == "A,B";
    assert Names(ByLevel, [g1]) == {"FINDING_LEVEL_HIGH"};
    assert Names(ByLevel, [g1, g2]) == {"FINDING_LEVEL_HIGH"};
    assert Names(ByLevel, gs) == {"FINDING_LEVEL_HIGH", "A,B"};
    assert Total(ByLevel, [g1], "FINDING_LEVEL_HIGH") == 3;
    assert Total(ByLevel, [g1, g2], "FINDING_LEVEL_HIGH") == 5;
    assert Total(ByLevel, gs, "FINDING_LEVEL_HIGH") == 5;
    assert Total(ByLevel, [g1], "A,B") == 0;
    assert Total(ByLevel, [g1, g2], "A,B") == 0;
    assert Total(ByLevel, gs, "A,B") == 1;
    assert Keyed(gs);
    assert Counts(ByLevel, gs) == map["FINDING_LEVEL_HIGH" := 5, "A,B" := 1];
  }
}
