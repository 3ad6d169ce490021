/** Skills.tsx: a literal table of skills, the list of its distinct categories in
    first-seen order (`Array.from(new Set(skills.map(s => s.category)))`), and one
    `filter` per category that groups the skills under it. */
module Skills {
  import Seqs

  datatype Skill = Skill(name: string, level: int, category: string)

  function SkillsTable(): seq<Skill>
  {
    [ Skill("React", 90, "Frontend"), Skill("TypeScript", 85, "Frontend"),
      Skill("HTML/CSS", 95, "Frontend"), Skill("Vue.js", 80, "Frontend"),
      Skill("Node.js", 85, "Backend"), Skill("Python", 80, "Backend"),
      Skill("Java", 75, "Backend"), Skill("SQL", 85, "Backend"),
      Skill("Docker", 80, "DevOps"), Skill("AWS", 75, "DevOps"),
      Skill("CI/CD", 85, "DevOps"), Skill("Kubernetes", 70, "DevOps") ]
  }

  /** Every level is a percentage, which the skill bar uses directly as a width. */
  lemma LevelsArePercentages()
    ensures forall i :: 0 <= i < |SkillsTable()| ==> 0 <= SkillsTable()[i].level <= 100
  {
  }

  ghost predicate NoDuplicates<T>(xs: seq<T>)
  {
    forall i, j :: 0 <= i < j < |xs| ==> xs[i] != xs[j]
  }

  /** The index of the first occurrence of `x` in `xs`. */
  function FirstIndex<T(==)>(xs: seq<T>, x: T): (k: nat)
    requires x in xs
    ensures k < |xs| && xs[k] == x
    ensures forall j :: 0 <= j < k ==> xs[j] != x
  {
    var p := xs[..|xs| - 1];
    if x in p then FirstIndex(p, x) else |xs| - 1
  }

  /** `Array.from(new Set(xs))`: a `Set` iterates in insertion order, so this is
      every value of `xs` once, where it first occurs. */
  function Distinct<T(==)>(xs: seq<T>): (r: seq<T>)
    ensures NoDuplicates(r)
    ensures forall i :: 0 <= i < |xs| ==> xs[i] in r
    ensures forall i :: 0 <= i < |r| ==> r[i] in xs
  {
    if xs == [] then []
    else
      var p := xs[..|xs| - 1];
      var d := Distinct(p);
      assert forall i :: 0 <= i < |p| ==> xs[i] == p[i];
      if xs[|xs| - 1] in d then d else d + [xs[|xs| - 1]]
  }

  /** Values come out of `Distinct` in the order of their first occurrence. */
  lemma {:induction false} DistinctInFirstSeenOrder<T>(xs: seq<T>, i: nat, j: nat)
    requires i < j < |Distinct(xs)|
    ensures FirstIndex(xs, Distinct(xs)[i]) < FirstIndex(xs, Distinct(xs)[j])
  {
    var p := xs[..|xs| - 1];
    var d := Distinct(p);
    var r := Distinct(xs);
    assert r[i] in p by {
      if i < |d| { assert r[i] == d[i]; }
    }
    if j < |d| {
      assert r[i] == d[i] && r[j] == d[j];
      DistinctInFirstSeenOrder(p, i, j);
    } else {
      assert r[j] == xs[|xs| - 1] && r[j] !in p;
    }
  }

  function CategoryList(skills: seq<Skill>): (cs: seq<string>)
    ensures |cs| == |skills| && forall i :: 0 <= i < |skills| ==> cs[i] == skills[i].category
  {
    seq(|skills|, i requires 0 <= i < |skills| => skills[i].category)
  }

  /** `categories` */
  function Categories(skills: seq<Skill>): seq<string>
  {
    Distinct(CategoryList(skills))
  }

  /** Every skill's category is listed once, and every listed category has a skill. */
  lemma CategoriesCoverSkills(skills: seq<Skill>)
    ensures NoDuplicates(Categories(skills))
    ensures forall i :: 0 <= i < |skills| ==> skills[i].category in Categories(skills)
    ensures forall c :: c in Categories(skills) ==> exists i :: 0 <= i < |skills| && skills[i].category == c
  {
    var cs := CategoryList(skills);
    assert forall i :: 0 <= i < |skills| ==> cs[i] == skills[i].category;
  }

  /** Appending a value to the input appends it to `Distinct` unless already seen. */
  lemma DistinctSnoc<T>(xs: seq<T>, x: T)
    ensures Distinct(xs + [x]) == if x in Distinct(xs) then Distinct(xs) else Distinct(xs) + [x]
  {
    assert (xs + [x])[..|xs|] == xs;
  }

  /** For the table as written the categories are Frontend, Backend, DevOps. */
  lemma TableCategories()
    ensures Categories(SkillsTable()) == ["Frontend", "Backend", "DevOps"]
  {
    var f, b, d := "Frontend", "Backend", "DevOps";
    assert CategoryList(SkillsTable()) == [f, f, f, f, b, b, b, b, d, d, d, d];
    DistinctOfTableList(f, b, d);
  }

  /** Appending values that were already seen leaves `Distinct` unchanged. */
  lemma {:induction false} DistinctAppendSeen<T>(xs: seq<T>, ys: seq<T>)
    requires forall i :: 0 <= i < |ys| ==> ys[i] in Distinct(xs)
    ensures Distinct(xs + ys) == Distinct(xs)
    decreases |ys|
  {
    if ys != [] {
      var init, last := ys[..|ys| - 1], ys[|ys| - 1];
      assert forall i :: 0 <= i < |init| ==> init[i] == ys[i];
      DistinctAppendSeen(xs, init);
      assert xs + ys == (xs + init) + [last];
      assert last in Distinct(xs + init);
      DistinctSnoc(xs + init, last);
    } else {
      assert xs + ys == xs;
    }
  }

  /** A value followed by three repeats of it adds that one value to `Distinct`. */
  lemma DistinctAppendRun<T>(xs: seq<T>, x: T)
    requires x !in Distinct(xs)
    ensures Distinct(xs + [x, x, x, x]) == Distinct(xs) + [x]
  {
    DistinctSnoc(xs, x);
    var ys := xs + [x];
    assert Distinct(ys)[|Distinct(xs)|] == x;
    DistinctAppendSeen(ys, [x, x, x]);
    assert ys + [x, x, x] == xs + [x, x, x, x];
  }

  /** Three runs of four equal values deduplicate to the three values in order. */
  lemma DistinctOfTableList<T>(f: T, b: T, d: T)
    requires f != b && b != d && f != d
    ensures Distinct([f, f, f, f, b, b, b, b, d, d, d, d]) == [f, b, d]
  {
    var e: seq<T> := [];
    var one: seq<T> := [f, f, f, f];
    var two: seq<T> := [f, f, f, f, b, b, b, b];
    var all: seq<T> := [f, f, f, f, b, b, b, b, d, d, d, d];
    DistinctAppendRun(e, f);
    assert e + [f, f, f, f] == one;
    DistinctAppendRun(one, b);
    assert one + [b, b, b, b] == two;
    DistinctAppendRun(two, d);
    assert two + [d, d, d, d] == all;
  }

  /** The skills shown under category `c`: `skills.filter(skill => skill.category === c)`. */
  function InCategory(skills: seq<Skill>, c: string): (r: seq<Skill>)
    ensures forall k :: 0 <= k < |r| ==> r[k].category == c && r[k] in skills
    ensures forall k :: 0 <= k < |skills| && skills[k].category == c ==> skills[k] in r
  {
    Seqs.Filter((s: Skill) => s.category == c, skills)
  }

  /** The skills in the order the page shows them: each category's group in turn. */
  function Grouped(skills: seq<Skill>, cs: seq<string>): seq<Skill>
  {
    if cs == [] then [] else InCategory(skills, cs[0]) + Grouped(skills, cs[1..])
  }

  lemma {:induction false} InCategoryCons(x: Skill, rest: seq<Skill>, c: string)
    ensures InCategory([x] + rest, c) == (if x.category == c then [x] else []) + InCategory(rest, c)
  {
    assert ([x] + rest)[1..] == rest;
  }

  /** Grouping distributes over a split of the skills, up to order. */
  lemma {:induction false} GroupedCons(x: Skill, rest: seq<Skill>, cs: seq<string>)
    ensures multiset(Grouped([x] + rest, cs)) == multiset(Grouped([x], cs)) + multiset(Grouped(rest, cs))
  {
    if cs != [] {
      InCategoryCons(x, rest, cs[0]);
      InCategoryCons(x, [], cs[0]);
      assert [x] + [] == [x];
      GroupedCons(x, rest, cs[1..]);
    }
  }

  /** A single skill lands in exactly one group when its category is listed once. */
  lemma {:induction false} GroupedSingleton(x: Skill, cs: seq<string>)
    requires NoDuplicates(cs)
    ensures x.category in cs ==> Grouped([x], cs) == [x]
    ensures x.category !in cs ==> Grouped([x], cs) == []
  {
    if cs != [] {
      var more := cs[1..];
      InCategoryCons(x, [], cs[0]);
      assert [x] + [] == [x];
      assert NoDuplicates(more) by {
        forall i, j | 0 <= i < j < |more| ensures more[i] != more[j] {
          assert more[i] == cs[i + 1] && more[j] == cs[j + 1];
        }
      }
      GroupedSingleton(x, more);
      GroupedOfEmpty(more);
      assert x.category in cs <==> x.category == cs[0] || x.category in more;
      if x.category == cs[0] {
        assert x.category !in more by {
          forall k | 0 <= k < |more| ensures more[k] != cs[0] {
            assert more[k] == cs[k + 1];
          }
        }
      }
    }
  }

  /** The per-category groups partition the skills: the page shows every skill
      exactly once. */
  lemma {:induction false} GroupsPartition(skills: seq<Skill>, cs: seq<string>)
    requires NoDuplicates(cs)
    requires forall i :: 0 <= i < |skills| ==> skills[i].category in cs
    ensures multiset(Grouped(skills, cs)) == multiset(skills)
  {
    if skills == [] {
      GroupedOfEmpty(cs);
    } else {
      assert skills == [skills[0]] + skills[1..];
      GroupedCons(skills[0], skills[1..], cs);
      GroupedSingleton(skills[0], cs);
      GroupsPartition(skills[1..], cs);
    }
  }

  lemma {:induction false} GroupedOfEmpty(cs: seq<string>)
    ensures Grouped([], cs) == []
  {
    if cs != [] {
      GroupedOfEmpty(cs[1..]);
    }
  }

  /** The Skills page shows every skill exactly once, grouped by `categories`. */
  lemma PageShowsEverySkillOnce(skills: seq<Skill>)
    ensures multiset(Grouped(skills, Categories(skills))) == multiset(skills)
  {
    CategoriesCoverSkills(skills);
    GroupsPartition(skills, Categories(skills));
  }

  /** Within a group the skills keep their relative order from the table. */
  lemma GroupKeepsOrder(a: seq<Skill>, b: seq<Skill>, c: string)
    ensures InCategory(a + b, c) == InCategory(a, c) + InCategory(b, c)
  {
    Seqs.FilterAppend((s: Skill) => s.category == c, a, b);
  }
}
