/**
 * The skills page: a reduce groups the skills into buckets keyed by the category's label (`'Other'`
 * when there is none), the sections are then emitted in a fixed category order skipping empty
 * buckets, and the header counts every bucket, emitted or not.
 */
module SkillsPage {
  import opened Outcomes
  import opened Js
  import opened Types

  const OtherCategory := "Other"

  /** The display order of the sections. */
  const CategoryOrder: seq<string> := ["Frontend", "Backend", "Database", "Tools & DevOps", "Design", "Other"]

  /** `skill.metadata?.category?.value || 'Other'`: the category, not the key, picks the bucket. */
  function CategoryLabel(s: Skill): string {
    match s.metadata.category
    case None => OtherCategory
    case Some(c) => OrElse(Some(c.value), OtherCategory)
  }

  /** The skills whose category is `category`, in input order. */
  function Bucket(skills: seq<Skill>, category: string): seq<Skill> {
    if skills == [] then []
    else
      var last := skills[|skills| - 1];
      Bucket(skills[..|skills| - 1], category) + (if CategoryLabel(last) == category then [last] else [])
  }

  /** The distinct labels of `skills` in order of first appearance: the accumulator's keys. */
  function Labels(skills: seq<Skill>): seq<string> {
    if skills == [] then []
    else
      var init := Labels(skills[..|skills| - 1]);
      var category := CategoryLabel(skills[|skills| - 1]);
      if category in init then init else init + [category]
  }

  /** The accumulator the reduce builds. */
  function Buckets(skills: seq<Skill>): map<string, seq<Skill>> {
    map k | k in Labels(skills) :: Bucket(skills, k)
  }

  /** The reduce: creates a bucket at a category's first skill and pushes every skill onto its bucket. */
  method GroupByCategory(skills: seq<Skill>) returns (keys: seq<string>, acc: map<string, seq<Skill>>)
    ensures keys == Labels(skills)
    ensures acc == Buckets(skills)
    ensures acc.Keys == set k | k in keys
  {
    keys, acc := [], map[];
    for i := 0 to |skills|
      invariant keys == Labels(skills[..i])
      invariant acc == Buckets(skills[..i])
    {
      var skill := skills[i];
      var category := CategoryLabel(skill);
      ghost var before := acc;
      if category !in acc {
        acc := acc[category := []];
        keys := keys + [category];
      }
      assert acc[category] == if category in before then before[category] else [];
      acc := acc[category := acc[category] + [skill]];
      assert acc == before[category := (if category in before then before[category] else []) + [skill]];
      BucketsSnoc(skills[..i], skill);
      assert skills[..i + 1] == skills[..i] + [skill];
    }
    assert skills[..|skills|] == skills;
    LabelsKeys(skills);
  }

  /** Pushing one more skill: its bucket is created if new, then extended; the rest stay. */
  lemma BucketsSnoc(init: seq<Skill>, x: Skill)
    ensures var c := CategoryLabel(x);
      && Labels(init + [x]) == (if c in Buckets(init) then Labels(init) else Labels(init) + [c])
      && Buckets(init + [x]) == Buckets(init)[c := (if c in Buckets(init) then Buckets(init)[c] else []) + [x]]
  {
    var c := CategoryLabel(x);
    var s := init + [x];
    assert s[..|s| - 1] == init;
    LabelsIff(init, c);
    forall k | k in Labels(s) ensures Bucket(s, k) == Buckets(init)[c := Bucket(init, c) + [x]][k] {
    }
  }

  lemma LabelsKeys(skills: seq<Skill>)
    ensures Buckets(skills).Keys == set k | k in Labels(skills)
  {
  }

  // ---------------------------------------------------------------------------------------
  // Properties of the buckets

  /** A category has a bucket exactly when some skill carries it, and then the bucket is non-empty. */
  lemma {:induction false} LabelsIff(skills: seq<Skill>, k: string)
    ensures k in Labels(skills) <==> Bucket(skills, k) != []
    ensures k !in Labels(skills) ==> Bucket(skills, k) == []
  {
    if skills != [] {
      LabelsIff(skills[..|skills| - 1], k);
    }
  }

  /** Each category appears once among the keys. */
  lemma {:induction false} LabelsDistinct(skills: seq<Skill>)
    ensures forall i, j :: 0 <= i < j < |Labels(skills)| ==> Labels(skills)[i] != Labels(skills)[j]
  {
    if skills != [] {
      LabelsDistinct(skills[..|skills| - 1]);
    }
  }

  /** Every skill lands in the bucket of its own category and in no other. */
  lemma {:induction false} BucketMembership(skills: seq<Skill>, category: string, x: Skill)
    ensures x in Bucket(skills, category) <==> x in skills && CategoryLabel(x) == category
  {
    if skills != [] {
      var init := skills[..|skills| - 1];
      BucketMembership(init, category, x);
      assert skills == init + [skills[|skills| - 1]];
    }
  }

  /** A bucket keeps its skills in input order: buckets of a concatenation concatenate. */
  lemma {:induction false} BucketAppend(a: seq<Skill>, b: seq<Skill>, category: string)
    ensures Bucket(a + b, category) == Bucket(a, category) + Bucket(b, category)
  {
    if b != [] {
      BucketAppend(a, b[..|b| - 1], category);
      assert (a + b)[..|a + b| - 1] == a + b[..|b| - 1];
    } else {
      assert a + b == a;
    }
  }

  /** The union of the buckets named in `ks`. */
  function SumBuckets(ks: seq<string>, skills: seq<Skill>): multiset<Skill> {
    if ks == [] then multiset{}
    else SumBuckets(ks[..|ks| - 1], skills) + multiset(Bucket(skills, ks[|ks| - 1]))
  }

  /** The total size of the buckets named in `ks`. */
  function SumSizes(ks: seq<string>, skills: seq<Skill>): nat {
    if ks == [] then 0
    else SumSizes(ks[..|ks| - 1], skills) + |Bucket(skills, ks[|ks| - 1])|
  }

  /** The skills whose category is among `ks`, in input order. */
  function Keep(skills: seq<Skill>, ks: seq<string>): seq<Skill> {
    if skills == [] then []
    else
      var last := skills[|skills| - 1];
      Keep(skills[..|skills| - 1], ks) + (if CategoryLabel(last) in ks then [last] else [])
  }

  predicate Distinct(ks: seq<string>) {
    forall i, j :: 0 <= i < j < |ks| ==> ks[i] != ks[j]
  }

  /** Adding one skill to the input adds it to the union of the distinct buckets `ks` at most once. */
  lemma {:induction false} SumBucketsSnoc(ks: seq<string>, skills: seq<Skill>, x: Skill)
    requires Distinct(ks)
    ensures SumBuckets(ks, skills + [x])
         == SumBuckets(ks, skills) + (if CategoryLabel(x) in ks then multiset{x} else multiset{})
  {
    if ks != [] {
      var init, k := ks[..|ks| - 1], ks[|ks| - 1];
      DistinctSnoc(ks);
      SumBucketsSnoc(init, skills, x);
      BucketSnoc(skills, x, k);
    }
  }

  /** A distinct sequence's last element is not among the others, and the others are distinct. */
  lemma DistinctSnoc(ks: seq<string>)
    requires Distinct(ks) && ks != []
    ensures Distinct(ks[..|ks| - 1])
    ensures ks[|ks| - 1] !in ks[..|ks| - 1]
    ensures forall c :: c in ks <==> c in ks[..|ks| - 1] || c == ks[|ks| - 1]
  {
    assert ks == ks[..|ks| - 1] + [ks[|ks| - 1]];
  }

  /** One more skill extends its own bucket as a multiset, and no other. */
  lemma BucketSnoc(skills: seq<Skill>, x: Skill, k: string)
    ensures multiset(Bucket(skills + [x], k))
         == multiset(Bucket(skills, k)) + (if CategoryLabel(x) == k then multiset{x} else multiset{})
  {
    assert (skills + [x])[..|skills + [x]| - 1] == skills;
  }

  /** The distinct buckets `ks` together hold exactly the skills whose category is in `ks`. */
  lemma {:induction false} SumBucketsKeep(ks: seq<string>, skills: seq<Skill>)
    requires Distinct(ks)
    ensures SumBuckets(ks, skills) == multiset(Keep(skills, ks))
  {
    if skills == [] {
      EmptyBuckets(ks);
    } else {
      var init, x := skills[..|skills| - 1], skills[|skills| - 1];
      SumBucketsKeep(ks, init);
      SumBucketsSnoc(ks, init, x);
      assert skills == init + [x];
    }
  }

  lemma {:induction false} EmptyBuckets(ks: seq<string>)
    ensures SumBuckets(ks, []) == multiset{}
  {
    if ks != [] {
      EmptyBuckets(ks[..|ks| - 1]);
    }
  }

  lemma {:induction false} SumSizesIsSize(ks: seq<string>, skills: seq<Skill>)
    ensures SumSizes(ks, skills) == |SumBuckets(ks, skills)|
  {
    if ks != [] {
      SumSizesIsSize(ks[..|ks| - 1], skills);
    }
  }

  /** Every skill's category is among the keys, so keeping the keys' skills keeps them all. */
  lemma {:induction false} KeepAllLabels(skills: seq<Skill>, ks: seq<string>)
    requires forall x :: x in skills ==> CategoryLabel(x) in ks
    ensures Keep(skills, ks) == skills
  {
    if skills != [] {
      var init, last := skills[..|skills| - 1], skills[|skills| - 1];
      assert skills == init + [last];
      forall x | x in init ensures CategoryLabel(x) in ks {
        assert x in skills;
      }
      KeepAllLabels(init, ks);
      assert last in skills;
      assert Keep(skills, ks) == Keep(init, ks) + [last];
    }
  }

  lemma {:induction false} LabelsCover(skills: seq<Skill>)
    ensures forall x :: x in skills ==> CategoryLabel(x) in Labels(skills)
  {
    if skills != [] {
      var init := skills[..|skills| - 1];
      LabelsCover(init);
      assert skills == init + [skills[|skills| - 1]];
    }
  }

  /**
   * The buckets partition the skills: their union is the input as a multiset and their sizes
   * add up to the number of skills.
   */
  lemma BucketsPartition(skills: seq<Skill>)
    ensures SumBuckets(Labels(skills), skills) == multiset(skills)
    ensures SumSizes(Labels(skills), skills) == |skills|
  {
    LabelsDistinct(skills);
    SumBucketsKeep(Labels(skills), skills);
    LabelsCover(skills);
    KeepAllLabels(skills, Labels(skills));
    SumSizesIsSize(Labels(skills), skills);
  }

  /** Buckets of different labels share no skill. */
  lemma BucketsDisjoint(skills: seq<Skill>, k1: string, k2: string)
    requires k1 != k2
    ensures multiset(Bucket(skills, k1)) !! multiset(Bucket(skills, k2))
  {
    forall x | x in multiset(Bucket(skills, k1)) ensures x !in multiset(Bucket(skills, k2)) {
      BucketMembership(skills, k1, x);
      BucketMembership(skills, k2, x);
    }
  }

  // ---------------------------------------------------------------------------------------
  // Emitting the sections

  /** One rendered category: its heading and its skills. */
  datatype Section = Section(category: string, skills: seq<Skill>)

  /** `order.filter(k => acc[k] && acc[k].length > 0).map(k => section)`. */
  function SectionsFrom(order: seq<string>, acc: map<string, seq<Skill>>): seq<Section> {
    if order == [] then []
    else
      var k := order[|order| - 1];
      SectionsFrom(order[..|order| - 1], acc)
        + (if k in acc && acc[k] != [] then [Section(k, acc[k])] else [])
  }

  function Sections(acc: map<string, seq<Skill>>): seq<Section> {
    SectionsFrom(CategoryOrder, acc)
  }

  /** `p` comes strictly before `q` in `order`. */
  predicate Before(order: seq<string>, p: string, q: string) {
    exists i, j :: 0 <= i < j < |order| && order[i] == p && order[j] == q
  }

  /**
   * Each emitted section is a non-empty bucket of a category in `order`, every such bucket is
   * emitted, and the sections follow `order`.
   */
  lemma {:induction false} SectionsFromSpec(order: seq<string>, acc: map<string, seq<Skill>>)
    ensures forall s :: s in SectionsFrom(order, acc) ==>
      s.category in order && s.category in acc && s.skills == acc[s.category] && s.skills != []
    ensures forall k :: k in order && k in acc && acc[k] != [] ==> Section(k, acc[k]) in SectionsFrom(order, acc)
    ensures forall i, j :: 0 <= i < j < |SectionsFrom(order, acc)| ==>
      Before(order, SectionsFrom(order, acc)[i].category, SectionsFrom(order, acc)[j].category)
  {
    if order != [] {
      var init, k := order[..|order| - 1], order[|order| - 1];
      SectionsFromSpec(init, acc);
      var prev := SectionsFrom(init, acc);
      var secs := SectionsFrom(order, acc);
      assert order == init + [k];
      forall i, j | 0 <= i < j < |secs|
        ensures Before(order, secs[i].category, secs[j].category)
      {
        if j < |prev| {
          assert Before(init, prev[i].category, prev[j].category);
          var p, q :| 0 <= p < q < |init| && init[p] == prev[i].category && init[q] == prev[j].category;
          assert order[p] == init[p] && order[q] == init[q];
        } else {
          assert secs[j].category == k;
          assert prev[i] in prev;
          var p :| 0 <= p < |init| && init[p] == prev[i].category;
          assert order[p] == init[p] && order[|order| - 1] == k;
        }
      }
    }
  }

  /** The emitted sections, joined, hold the union of the buckets of `order`. */
  function Flatten(sections: seq<Section>): seq<Skill> {
    if sections == [] then []
    else Flatten(sections[..|sections| - 1]) + sections[|sections| - 1].skills
  }

  /** The accumulator at a label is that label's bucket, and a missing label has no skills. */
  lemma BucketsAt(skills: seq<Skill>, k: string)
    ensures k in Buckets(skills) ==> Buckets(skills)[k] == Bucket(skills, k)
    ensures k !in Buckets(skills) ==> Bucket(skills, k) == []
  {
    LabelsIff(skills, k);
  }

  lemma {:induction false} FlattenSectionsFrom(order: seq<string>, skills: seq<Skill>)
    ensures multiset(Flatten(SectionsFrom(order, Buckets(skills)))) == SumBuckets(order, skills)
  {
    if order != [] {
      var init, k := order[..|order| - 1], order[|order| - 1];
      var acc := Buckets(skills);
      FlattenSectionsFrom(init, skills);
      var prev := SectionsFrom(init, acc);
      BucketsAt(skills, k);
      if k in acc && acc[k] != [] {
        var secs := prev + [Section(k, acc[k])];
        assert secs[..|secs| - 1] == prev;
        assert Flatten(secs) == Flatten(prev) + Bucket(skills, k);
      } else {
        assert Bucket(skills, k) == [];
        assert SectionsFrom(order, acc) == prev;
      }
    }
  }

  lemma CategoryOrderDistinct()
    ensures Distinct(CategoryOrder)
  {
    var lengths := [8, 7, 8, 14, 6, 5];
    assert forall i :: 0 <= i < 6 ==> |CategoryOrder[i]| == lengths[i];
    assert CategoryOrder[0][0] != CategoryOrder[2][0];
  }

  /**
   * The skills shown are exactly those whose label is in the category order: a skill whose
   * label lies outside it is in a bucket that is never emitted.
   */
  lemma ShownSkills(skills: seq<Skill>)
    ensures multiset(Flatten(Sections(Buckets(skills)))) == multiset(Keep(skills, CategoryOrder))
  {
    FlattenSectionsFrom(CategoryOrder, skills);
    CategoryOrderDistinct();
    SumBucketsKeep(CategoryOrder, skills);
  }

  /** A skill is displayed exactly when its label is one of the ordered categories. */
  lemma ShownSkill(skills: seq<Skill>, x: Skill)
    ensures x in Flatten(Sections(Buckets(skills))) <==> x in skills && CategoryLabel(x) in CategoryOrder
  {
    var shown := Flatten(Sections(Buckets(skills)));
    ShownSkills(skills);
    KeepMembership(skills, CategoryOrder, x);
    assert x in Keep(skills, CategoryOrder) <==> x in multiset(Keep(skills, CategoryOrder));
    assert x in shown <==> x in multiset(shown);
  }

  lemma {:induction false} KeepMembership(skills: seq<Skill>, ks: seq<string>, x: Skill)
    ensures x in Keep(skills, ks) <==> x in skills && CategoryLabel(x) in ks
  {
    if skills != [] {
      var init := skills[..|skills| - 1];
      KeepMembership(init, ks, x);
      assert skills == init + [skills[|skills| - 1]];
    }
  }

  // ---------------------------------------------------------------------------------------
  // The page

  datatype Body = EmptyState | Listing(sections: seq<Section>)

  /** The header's two counts and the body below it. */
  datatype SkillsView = SkillsView(skillCount: nat, categoryCount: nat, body: Body)

  /** The skills page for the skills `getSkills` returned. */
  method RenderSkillsPage(skills: seq<Skill>) returns (v: SkillsView)
    ensures v.skillCount == |skills|
    ensures v.categoryCount == |Labels(skills)|
    ensures v.body.EmptyState? <==> skills == []
    ensures v.body.Listing? ==> v.body.sections == Sections(Buckets(skills))
  {
    var keys, acc := GroupByCategory(skills);
    var body := if |skills| == 0 then EmptyState else Listing(Sections(acc));
    v := SkillsView(|skills|, |keys|, body);
  }

  /** The header counts every bucket: its category count is the number of distinct labels. */
  lemma CategoryCountIsDistinctLabels(skills: seq<Skill>)
    ensures |Labels(skills)| == |set k | k in Labels(skills)|
    ensures forall k :: k in Labels(skills) <==> exists x :: x in skills && CategoryLabel(x) == k
  {
    LabelsDistinct(skills);
    DistinctCard(Labels(skills));
    forall k ensures k in Labels(skills) <==> exists x :: x in skills && CategoryLabel(x) == k {
      LabelsIff(skills, k);
      if k in Labels(skills) {
        var x := Bucket(skills, k)[0];
        BucketMembership(skills, k, x);
      } else {
        forall x | x in skills ensures CategoryLabel(x) != k {
          BucketMembership(skills, k, x);
        }
      }
    }
  }

  lemma {:induction false} DistinctCard(ks: seq<string>)
    requires Distinct(ks)
    ensures |set k | k in ks| == |ks|
  {
    if ks != [] {
      var init := ks[..|ks| - 1];
      DistinctCard(init);
      assert (set k | k in ks) == (set k | k in init) + {ks[|ks| - 1]};
    }
  }

  /**
   * The category keys are not section names: grouping by the key instead of the label would
   * show no section at all.
   */
  lemma CategoryKeysAreNotSections()
    ensures forall k :: k in SkillCategories ==> k !in CategoryOrder
  {
  }

  /**
   * A skill whose label is outside the category order is counted in the header (its label is
   * a key) but appears in no section.
   */
  lemma UnlistedCategoryHidden(skills: seq<Skill>, x: Skill)
    requires x in skills && CategoryLabel(x) !in CategoryOrder
    ensures CategoryLabel(x) in Labels(skills)
    ensures x !in Flatten(Sections(Buckets(skills)))
  {
    CategoryCountIsDistinctLabels(skills);
    ShownSkill(skills, x);
  }

  /**
   * The bucket is chosen by the category's display label, whatever its key; a missing category
   * and an empty label both go to "Other", together with the skills labelled "Other".
   */
  lemma CategoryLabelSpec(x: Skill, y: Skill)
    ensures x.metadata.category.Some? && x.metadata.category.value.value != "" ==>
      CategoryLabel(x) == x.metadata.category.value.value
    ensures x.metadata.category.None? || x.metadata.category.value.value == "" ==>
      CategoryLabel(x) == OtherCategory
    ensures x.metadata.category.Some? && y.metadata.category.Some?
      && x.metadata.category.value.value == y.metadata.category.value.value
      ==> CategoryLabel(x) == CategoryLabel(y)
  {
  }

  // ---------------------------------------------------------------------------------------
  // The reduce as written, on an object literal

  /**
   * The reduce as the page writes it: the accumulator `{}` also answers `acc[category]` for
   * the names it inherits from `Object.prototype`, so for such a label the bucket is not
   * created and `push` is called on the inherited member, which throws (`None`).
   */
  function ReduceAsWritten(skills: seq<Skill>): Option<map<string, seq<Skill>>> {
    if skills == [] then Some(map[])
    else
      match ReduceAsWritten(skills[..|skills| - 1])
      case None => None
      case Some(acc) =>
        var x := skills[|skills| - 1];
        var category := CategoryLabel(x);
        if category in acc then Some(acc[category := acc[category] + [x]])
        else if category in ObjectPrototypeMembers then None
        else Some(acc[category := [x]])
  }

  /**
   * The reduce as written throws exactly when some label names an inherited member, and
   * otherwise builds the same buckets as `GroupByCategory`.
   */
  lemma {:induction false} ReduceAsWrittenSpec(skills: seq<Skill>)
    ensures ReduceAsWritten(skills).None? <==> exists x :: x in skills && CategoryLabel(x) in ObjectPrototypeMembers
    ensures ReduceAsWritten(skills).Some? ==> ReduceAsWritten(skills).value == Buckets(skills)
  {
    if skills != [] {
      var init, x := skills[..|skills| - 1], skills[|skills| - 1];
      assert skills == init + [x];
      ReduceAsWrittenSpec(init);
      BucketsSnoc(init, x);
      var c := CategoryLabel(x);
      if ReduceAsWritten(init).Some? {
        if c in Buckets(init) {
          LabelsIff(init, c);
          var y := Bucket(init, c)[0];
          BucketMembership(init, c, y);
          assert y in init;
        } else if c !in ObjectPrototypeMembers {
          assert [] + [x] == [x];
        }
      }
    }
  }

  /**
   * A skill labelled "constructor" makes the page throw as written, while the grouping the
   * page evidently intends gives it a bucket of its own.
   */
  lemma ConstructorCategoryThrows(x: Skill)
    requires x.metadata.category.Some? && x.metadata.category.value.value == "constructor"
    ensures ReduceAsWritten([x]).None?
    ensures Buckets([x]) == map["constructor" := [x]]
  {
    assert [x][..0] == [];
    assert "constructor" in ObjectPrototypeMembers;
    assert Labels([x]) == ["constructor"] by { assert [x][..0] == []; }
    assert Bucket([x], "constructor") == [x] by { assert [x][..0] == []; }
  }
}
