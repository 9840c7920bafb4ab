/** The order in which `Array.prototype.sort` without a comparator puts
    strings: lexicographic, character by character, a proper prefix first. */
module TagOrder {

  predicate Less(a: string, b: string)
    decreases |a|
  {
    if a == [] then b != []
    else if b == [] then false
    else if a[0] != b[0] then a[0] < b[0]
    else Less(a[1..], b[1..])
  }

  lemma {:induction false} LessIrreflexive(a: string)
    ensures !Less(a, a)
    decreases |a|
  {
    if a != [] {
      LessIrreflexive(a[1..]);
    }
  }

  lemma {:induction false} LessTransitive(a: string, b: string, c: string)
    requires Less(a, b) && Less(b, c)
    ensures Less(a, c)
    decreases |a|
  {
    if a != [] && a[0] == b[0] && b[0] == c[0] {
      LessTransitive(a[1..], b[1..], c[1..]);
    }
  }

  /** Any two different strings are ordered one way or the other. */
  lemma {:induction false} LessTotal(a: string, b: string)
    requires a != b
    ensures Less(a, b) || Less(b, a)
    decreases |a|
  {
    if a != [] && b != [] && a[0] == b[0] {
      assert a == [a[0]] + a[1..] && b == [b[0]] + b[1..];
      LessTotal(a[1..], b[1..]);
    }
  }

  lemma LessAsymmetric(a: string, b: string)
    requires Less(a, b)
    ensures !Less(b, a)
  {
    if Less(b, a) {
      LessTransitive(a, b, a);
      LessIrreflexive(a);
    }
  }

  /** Strictly ascending: each string before the next. */
  predicate StrictlySorted(s: seq<string>)
  {
    forall i :: 0 <= i < |s| - 1 ==> Less(s[i], s[i + 1])
  }

  predicate Distinct(s: seq<string>)
  {
    forall i, j :: 0 <= i < j < |s| ==> s[i] != s[j]
  }

  /** In a strictly ascending list every earlier string is below every later
      one, so no string appears twice. */
  lemma {:induction false} SortedPairwise(s: seq<string>, i: nat, j: nat)
    requires StrictlySorted(s) && i < j < |s|
    ensures Less(s[i], s[j])
    decreases j - i
  {
    if i + 1 < j {
      SortedPairwise(s, i + 1, j);
      LessTransitive(s[i], s[i + 1], s[j]);
    }
  }

  lemma SortedIsDistinct(s: seq<string>)
    requires StrictlySorted(s)
    ensures Distinct(s)
  {
    forall i, j | 0 <= i < j < |s|
      ensures s[i] != s[j]
    {
      SortedPairwise(s, i, j);
      LessIrreflexive(s[i]);
    }
  }

  /** A strictly ascending list is determined by the strings it holds. */
  lemma {:induction false} SortedDetermined(a: seq<string>, b: seq<string>)
    requires StrictlySorted(a) && StrictlySorted(b)
    requires forall t :: t in a <==> t in b
    ensures a == b
    decreases |a|
  {
    EmptyTogether(a, b);
    if a != [] && b != [] {
      if a[0] != b[0] {
        assert a[0] in b;
        var m :| 0 <= m < |b| && b[m] == a[0];
        assert b[0] in a;
        var k :| 0 <= k < |a| && a[k] == b[0];
        SortedPairwise(a, 0, k);
        SortedPairwise(b, 0, m);
        LessAsymmetric(a[0], b[0]);
        assert false;
      }
      SortedIsDistinct(a);
      SortedIsDistinct(b);
      forall t
        ensures t in a[1..] <==> t in b[1..]
      {
        if t in a[1..] {
          var k :| 1 <= k < |a| && a[k] == t;
          assert t != a[0];
          assert t in b;
          var m :| 0 <= m < |b| && b[m] == t;
          assert m != 0;
        }
        if t in b[1..] {
          var m :| 1 <= m < |b| && b[m] == t;
          assert t != b[0];
          assert t in a;
          var k :| 0 <= k < |a| && a[k] == t;
          assert k != 0;
        }
      }
      SortedDetermined(a[1..], b[1..]);
      assert a == [a[0]] + a[1..] && b == [b[0]] + b[1..];
    }
  }

  lemma EmptyTogether(a: seq<string>, b: seq<string>)
    requires forall t :: t in a <==> t in b
    ensures a == [] <==> b == []
  {
    if a != [] {
      assert a[0] in b;
    }
    if b != [] {
      assert b[0] in a;
    }
  }

  /** One insertion step of the sort: the tag lands before the first
      string above it, and the list keeps every string it had. */
  function InsertTag(s: seq<string>, x: string): (r: seq<string>)
    ensures forall y :: y in r <==> y in s || y == x
    ensures r != [] && (s == [] ==> r == [x]) && (s != [] ==> r[0] == x || r[0] == s[0])
  {
    if s == [] then [x]
    else if Less(x, s[0]) then [x] + s
    else if x == s[0] then s
    else
      assert s == [s[0]] + s[1..];
      [s[0]] + InsertTag(s[1..], x)
  }

  /** Inserting into an ascending list keeps it ascending. */
  lemma {:induction false} InsertKeepsSorted(s: seq<string>, x: string)
    requires StrictlySorted(s)
    ensures StrictlySorted(InsertTag(s, x))
    decreases |s|
  {
    if s != [] && !Less(x, s[0]) && x != s[0] {
      LessTotal(x, s[0]);
      assert StrictlySorted(s[1..]);
      InsertKeepsSorted(s[1..], x);
      var rest := InsertTag(s[1..], x);
      assert InsertTag(s, x) == [s[0]] + rest;
      assert s[1..] != [] ==> Less(s[0], s[1..][0]);
    }
  }

  /** Inserting a string not yet present adds exactly one copy of it. */
  lemma {:induction false} InsertAddsOne(s: seq<string>, x: string)
    requires x !in s
    ensures multiset(InsertTag(s, x)) == multiset(s) + multiset{x}
    decreases |s|
  {
    if s != [] && !Less(x, s[0]) {
      assert s == [s[0]] + s[1..];
      InsertAddsOne(s[1..], x);
    }
  }

  /** `Array.from(tags).sort()` on a list: ascending, the same strings, and,
      when they are distinct, a permutation of them. */
  function SortTags(xs: seq<string>): (r: seq<string>)
    ensures StrictlySorted(r)
    ensures forall y :: y in r <==> y in xs
    ensures Distinct(xs) ==> multiset(r) == multiset(xs)
  {
    if xs == [] then []
    else
      var init := xs[..|xs| - 1];
      var last := xs[|xs| - 1];
      var sorted := SortTags(init);
      assert xs == init + [last];
      InsertKeepsSorted(sorted, last);
      if Distinct(xs) then
        (assert last !in init;
         InsertAddsOne(sorted, last);
         InsertTag(sorted, last))
      else InsertTag(sorted, last)
  }
}

/** The resume below the story: the sidebar lists every skill tag once, in
    ascending order; ticking tags keeps the jobs that carry any of them. */
module ResumeTags {
  import opened Wrappers
  import opened TagOrder

  datatype Job = Job(jobTitle: string, startDate: string, endDate: Option<string>, tags: seq<string>)

  /** Some job carries the tag. */
  predicate Occurs(jobs: seq<Job>, t: string)
  {
    exists j :: 0 <= j < |jobs| && t in jobs[j].tags
  }

  /** `allTags`: every job's tags added to a `Set` (kept here as a list in
      insertion order), then sorted. The result holds exactly the tags some
      job carries, each once, in ascending order. */
  method AllTags(jobs: seq<Job>) returns (tags: seq<string>)
    ensures StrictlySorted(tags)
    ensures forall t :: t in tags <==> Occurs(jobs, t)
    ensures Distinct(tags)
  {
    var seen: seq<string> := [];
    var i := 0;
    while i < |jobs|
      invariant 0 <= i <= |jobs|
      invariant Distinct(seen)
      invariant forall t :: t in seen <==> exists j :: 0 <= j < i && t in jobs[j].tags
    {
      var k := 0;
      while k < |jobs[i].tags|
        invariant 0 <= k <= |jobs[i].tags|
        invariant Distinct(seen)
        invariant forall t :: t in seen <==> (exists j :: 0 <= j < i && t in jobs[j].tags) || t in jobs[i].tags[..k]
      {
        var tag := jobs[i].tags[k];
        assert jobs[i].tags[..k + 1] == jobs[i].tags[..k] + [tag];
        if tag !in seen {
          seen := seen + [tag];
        }
        k := k + 1;
      }
      assert jobs[i].tags[..k] == jobs[i].tags;
      i := i + 1;
    }
    tags := SortTags(seen);
    SortedIsDistinct(tags);
  }

  /** Any two runs of `AllTags` over the same jobs give the same list:
      ascending order and the tag set fix it completely. */
  lemma AllTagsUnique(jobs: seq<Job>, a: seq<string>, b: seq<string>)
    requires StrictlySorted(a) && (forall t :: t in a <==> Occurs(jobs, t))
    requires StrictlySorted(b) && (forall t :: t in b <==> Occurs(jobs, t))
    ensures a == b
  {
    SortedDetermined(a, b);
  }

  /** `selectedTags.some((tag) => job.tags.includes(tag))`. */
  predicate SharesTag(job: Job, selected: seq<string>)
  {
    exists t :: t in selected && t in job.tags
  }

  /** `r` keeps some of `s`'s entries, in their order. */
  predicate Subsequence<T(==)>(r: seq<T>, s: seq<T>)
    decreases |s|
  {
    if r == [] then true
    else if s == [] then false
    else (r[0] == s[0] && Subsequence(r[1..], s[1..])) || Subsequence(r, s[1..])
  }

  /** `allJobs.filter(...)`: the jobs sharing a tag with the selection, in order. */
  function KeepSharing(jobs: seq<Job>, selected: seq<string>): (r: seq<Job>)
    ensures forall job :: job in r <==> job in jobs && SharesTag(job, selected)
    ensures Subsequence(r, jobs)
    ensures |r| <= |jobs|
  {
    if jobs == [] then []
    else
      var rest := KeepSharing(jobs[1..], selected);
      assert jobs == [jobs[0]] + jobs[1..];
      if SharesTag(jobs[0], selected) then [jobs[0]] + rest else rest
  }

  /** `filteredJobs`: every job when nothing is selected; otherwise exactly
      the jobs that share a tag with the selection, in their original order. */
  function FilteredJobs(jobs: seq<Job>, selected: seq<string>): (r: seq<Job>)
    ensures selected == [] ==> r == jobs
    ensures selected != [] ==> forall job :: job in r <==> job in jobs && SharesTag(job, selected)
    ensures Subsequence(r, jobs)
  {
    if |selected| == 0 then
      assert Subsequence(jobs, jobs) by { SubsequenceReflexive(jobs); }
      jobs
    else KeepSharing(jobs, selected)
  }

  lemma {:induction false} SubsequenceReflexive<T>(s: seq<T>)
    ensures Subsequence(s, s)
    decreases |s|
  {
    if s != [] {
      SubsequenceReflexive(s[1..]);
    }
  }

  /** Ticking one more tag never hides a job that was showing under a
      non-empty selection. */
  lemma MoreTagsKeepMoreJobs(jobs: seq<Job>, selected: seq<string>, tag: string)
    requires selected != []
    ensures forall job :: job in FilteredJobs(jobs, selected) ==> job in FilteredJobs(jobs, Toggle(selected, tag, true))
  {
  }

  /** Selecting every tag that occurs keeps every job that has a tag. */
  lemma AllSelectedKeepsTaggedJobs(jobs: seq<Job>, selected: seq<string>)
    requires selected != []
    requires forall t :: Occurs(jobs, t) ==> t in selected
    ensures forall j :: 0 <= j < |jobs| && jobs[j].tags != [] ==> jobs[j] in FilteredJobs(jobs, selected)
  {
    forall j | 0 <= j < |jobs| && jobs[j].tags != []
      ensures jobs[j] in FilteredJobs(jobs, selected)
    {
      var t := jobs[j].tags[0];
      assert Occurs(jobs, t);
      assert SharesTag(jobs[j], selected);
    }
  }

  /** `selectedTags.filter((t) => t !== tag)`. */
  function RemoveTag(s: seq<string>, tag: string): (r: seq<string>)
    ensures tag !in r
    ensures forall t :: t != tag ==> multiset(r)[t] == multiset(s)[t]
    ensures Subsequence(r, s)
  {
    if s == [] then []
    else
      var rest := RemoveTag(s[1..], tag);
      assert s == [s[0]] + s[1..];
      if s[0] != tag then [s[0]] + rest else rest
  }

  /** The checkbox handler: ticking appends the tag at the end of the
      selection; unticking removes every occurrence of it and keeps the
      other tags, in order and as many times as they were there. */
  function Toggle(selected: seq<string>, tag: string, checked: bool): (r: seq<string>)
    ensures tag in r <==> checked
    ensures checked ==> |r| == |selected| + 1 && r[..|selected|] == selected && r[|selected|] == tag
    ensures !checked ==> Subsequence(r, selected) && forall t :: t != tag ==> multiset(r)[t] == multiset(selected)[t]
  {
    if checked then selected + [tag] else RemoveTag(selected, tag)
  }

  lemma {:induction false} RemoveAbsent(s: seq<string>, tag: string)
    requires tag !in s
    ensures RemoveTag(s, tag) == s
    decreases |s|
  {
    if s != [] {
      RemoveAbsent(s[1..], tag);
    }
  }

  lemma {:induction false} RemoveAfterAppend(s: seq<string>, tag: string)
    ensures RemoveTag(s + [tag], tag) == RemoveTag(s, tag)
    decreases |s|
  {
    if s == [] {
      assert s + [tag] == [tag];
      assert [tag][1..] == [];
    } else {
      assert (s + [tag])[1..] == s[1..] + [tag];
      RemoveAfterAppend(s[1..], tag);
    }
  }

  /** Ticking a tag that was not selected and unticking it again restores
      the selection exactly; unticking after any tick is the same as
      unticking straight away. */
  lemma ToggleRoundTrip(selected: seq<string>, tag: string)
    ensures Toggle(Toggle(selected, tag, true), tag, false) == Toggle(selected, tag, false)
    ensures tag !in selected ==> Toggle(Toggle(selected, tag, true), tag, false) == selected
  {
    RemoveAfterAppend(selected, tag);
    if tag !in selected {
      RemoveAbsent(selected, tag);
    }
  }

  /** Through the sidebar a tag is only ticked while unticked, so the
      selection never holds a tag twice. */
  lemma ToggleKeepsDistinct(selected: seq<string>, tag: string, checked: bool)
    requires Distinct(selected)
    requires checked ==> tag !in selected
    ensures Distinct(Toggle(selected, tag, checked))
  {
    if !checked {
      var r := Toggle(selected, tag, false);
      forall i, j | 0 <= i < j < |r|
        ensures r[i] != r[j]
      {
        if r[i] == r[j] {
          RepeatedCountsTwice(r, i, j);
          TwiceMeansRepeated(selected, r[i]);
          assert false;
        }
      }
    }
  }

  /** A string found at two positions occurs at least twice. */
  lemma RepeatedCountsTwice(s: seq<string>, i: nat, j: nat)
    requires i < j < |s| && s[i] == s[j]
    ensures multiset(s)[s[i]] >= 2
  {
    assert s == s[..i] + [s[i]] + s[i + 1..j] + [s[j]] + s[j + 1..];
  }

  lemma {:induction false} TwiceMeansRepeated(s: seq<string>, t: string)
    requires Distinct(s)
    ensures multiset(s)[t] <= 1
    decreases |s|
  {
    if s != [] {
      assert s == [s[0]] + s[1..];
      TwiceMeansRepeated(s[1..], t);
      if s[0] == t {
        assert t !in s[1..];
      }
    }
  }

  /** The date badge's end: the end date when there is one, and "Present"
      when it is missing or empty; never blank. */
  function EndLabel(endDate: Option<string>): (r: string)
    ensures r != []
    ensures endDate.Some? && endDate.value != [] ==> r == endDate.value
    ensures (endDate.None? || endDate.value == []) ==> r == "Present"
  {
    if endDate.Some? && endDate.value != [] then endDate.value else "Present"
  }
}

/** The CSS-only hero of the resume page: elements tagged with one of four
    parallax classes are translated vertically by a fixed multiple of the
    page's scroll offset on every scroll event. */
module HeroParallax {

  datatype LayerClass = Normal | Slow | Fast | Reverse

  /** The multiple of `pageYOffset` each class moves by. */
  function Rate(c: LayerClass): (r: real)
    ensures c == Reverse <==> r > 0.0
    ensures -0.8 <= r <= 0.3
  {
    match c
    case Normal => -0.5
    case Slow => -0.2
    case Fast => -0.8
    case Reverse => 0.3
  }

  function Offset(c: LayerClass, scrolled: real): real
  {
    scrolled * Rate(c)
  }

  /** For a forward scroll the fast layer rises most, then the normal one,
      then the slow one; the reverse layer alone moves down. */
  lemma SpeedOrder(scrolled: real)
    requires 0.0 <= scrolled
    ensures Offset(Fast, scrolled) <= Offset(Normal, scrolled) <= Offset(Slow, scrolled) <= 0.0 <= Offset(Reverse, scrolled)
  {
  }

  /** The i-th of the first scene's 20 silhouettes: slow below 7, normal
      below 14, fast from 14 on. */
  function TreeClass(i: nat): (c: LayerClass)
    ensures c == Slow <==> i < 7
    ensures c == Normal <==> 7 <= i < 14
    ensures c == Fast <==> 14 <= i
  {
    if i < 7 then Slow else if i < 14 then Normal else Fast
  }

  /** A silhouette further along the row never rises more slowly. */
  lemma TreesFurtherRiseFaster(i: nat, j: nat, scrolled: real)
    requires i <= j && 0.0 <= scrolled
    ensures Offset(TreeClass(j), scrolled) <= Offset(TreeClass(i), scrolled)
  {
  }

  /** The i-th of the 15 fireflies: every third one moves against the scroll. */
  function StarClass(i: nat): (c: LayerClass)
    ensures c == Reverse <==> i % 3 == 0
    ensures c != Reverse ==> c == Fast
  {
    if i % 3 == 0 then Reverse else Fast
  }

  /** The hero's parallax elements, each with its class and its current
      vertical translation in pixels. */
  class Hero {
    const classes: array<LayerClass>
    const translateY: array<real>

    constructor (cs: seq<LayerClass>)
      ensures classes[..] == cs && translateY.Length == |cs|
      ensures forall i :: 0 <= i < |cs| ==> translateY[i] == 0.0
      ensures fresh(classes) && fresh(translateY)
    {
      classes := new LayerClass[|cs|](i requires 0 <= i < |cs| => cs[i]);
      translateY := new real[|cs|](_ => 0.0);
    }

    predicate Valid()
      reads this
    {
      classes.Length == translateY.Length
    }

    /** Every element of class `c` takes `scrolled * Rate(c)`; the others
        keep their translation. */
    method Apply(c: LayerClass, scrolled: real)
      requires Valid()
      modifies translateY
      ensures forall i :: 0 <= i < translateY.Length ==>
        translateY[i] == if classes[i] == c then Offset(c, scrolled) else old(translateY[i])
    {
      var i := 0;
      while i < translateY.Length
        invariant 0 <= i <= translateY.Length
        invariant forall k :: 0 <= k < i ==>
          translateY[k] == if classes[k] == c then Offset(c, scrolled) else old(translateY[k])
        invariant forall k :: i <= k < translateY.Length ==> translateY[k] == old(translateY[k])
      {
        if classes[i] == c {
          translateY[i] := scrolled * Rate(c);
        }
        i := i + 1;
      }
    }

    /** The scroll handler: one pass per class, after which every element
        sits at its own class's offset, whatever it was before. */
    method OnScroll(scrolled: real)
      requires Valid()
      modifies translateY
      ensures forall i :: 0 <= i < translateY.Length ==> translateY[i] == Offset(classes[i], scrolled)
    {
      Apply(Normal, scrolled);
      Apply(Slow, scrolled);
      Apply(Fast, scrolled);
      Apply(Reverse, scrolled);
    }
  }
}
