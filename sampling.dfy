/** The sample cache of a path: the points of every section, in order, at one step
    size, and how push_back and get_samples change it. */
module Sampling {
  import opened Tolerance
  import opened Sections

  /** The samples of the whole path at one step size: each section's samples, in the
      order of the sections. */
  function ConcatSamples(sections: seq<Section>, step: real): (r: seq<Vec3>)
  {
    if |sections| == 0 then [] else sections[0].samples(step) + ConcatSamples(sections[1..], step)
  }

  /** Sampling a concatenation of sections is concatenating their samples. */
  lemma {:induction false} ConcatSamplesAppend(a: seq<Section>, b: seq<Section>, step: real)
    ensures ConcatSamples(a + b, step) == ConcatSamples(a, step) + ConcatSamples(b, step)
  {
    if |a| == 0 {
      assert a + b == b;
    } else {
      assert (a + b)[1..] == a[1..] + b;
      ConcatSamplesAppend(a[1..], b, step);
    }
  }

  /** Appending one section appends exactly that section's samples. */
  lemma ConcatSamplesSnoc(sections: seq<Section>, s: Section, step: real)
    ensures ConcatSamples(sections + [s], step) == ConcatSamples(sections, step) + s.samples(step)
  {
    ConcatSamplesAppend(sections, [s], step);
    assert ConcatSamples([s], step) == s.samples(step) + ConcatSamples([], step);
  }

  /** The cache state of a path: the cached points and the step size that built them. */
  datatype SampleCache = SampleCache(points: seq<Vec3>, stepSize: real)

  /** The cache either has not been filled, or holds exactly the samples of the whole
      path at its own step size. */
  ghost predicate Consistent(sections: seq<Section>, c: SampleCache)
  {
    c.points == [] || c.points == ConcatSamples(sections, c.stepSize)
  }

  /** The cache after push_back(s): extended by the new section's samples at the
      cached step size when it is populated, left empty otherwise. */
  function AfterPushBack(c: SampleCache, s: Section): (c': SampleCache)
    ensures c'.stepSize == c.stepSize
    ensures |c'.points| >= |c.points| && c'.points[..|c.points|] == c.points
  {
    if c.points == [] then c else SampleCache(c.points + s.samples(c.stepSize), c.stepSize)
  }

  /** The cache after get_samples(step) as the code is written: a different step size
      clears the cache, and the rebuild runs whenever the step size differs OR the cache
      is not empty, since the flag that should say "initialised" is true when it is empty. */
  function AfterGetSamples(sections: seq<Section>, c: SampleCache, step: real): (c': SampleCache)
  {
    if |sections| == 0 then c
    else
      var stepSizeIsEqual := SameStep(c.stepSize, step);
      var kept := if stepSizeIsEqual then c.points else [];
      var samplesInitialized := kept == [];
      if !samplesInitialized || !stepSizeIsEqual then
        SampleCache(kept + ConcatSamples(sections, step), step)
      else
        SampleCache(kept, c.stepSize)
  }

  /** The cache after get_samples(step) as its comments intend: rebuild from scratch
      when the step size differs or the cache was never filled; otherwise keep it. */
  function AfterGetSamplesIntended(sections: seq<Section>, c: SampleCache, step: real): (c': SampleCache)
  {
    if |sections| == 0 then c
    else if !SameStep(c.stepSize, step) || c.points == [] then
      SampleCache(ConcatSamples(sections, step), step)
    else
      c
  }

  /** push_back keeps every earlier point, appends exactly the new section's samples at
      the cached step size when the cache is populated, and never changes the step size. */
  lemma AfterPushBackExtends(c: SampleCache, s: Section)
    ensures AfterPushBack(c, s).stepSize == c.stepSize
    ensures c.points == [] ==> AfterPushBack(c, s).points == []
    ensures c.points != [] ==> AfterPushBack(c, s).points == c.points + s.samples(c.stepSize)
    ensures AfterPushBack(c, s).points[..|c.points|] == c.points
  {
  }

  /** push_back keeps the cache a faithful sampling of the (longer) path. */
  lemma AfterPushBackConsistent(sections: seq<Section>, c: SampleCache, s: Section)
    requires Consistent(sections, c)
    ensures Consistent(sections + [s], AfterPushBack(c, s))
  {
    if c.points != [] {
      ConcatSamplesSnoc(sections, s, c.stepSize);
    }
  }

  /** get_samples on an empty path changes nothing. */
  lemma AfterGetSamplesEmptyPath(c: SampleCache, step: real)
    ensures AfterGetSamples([], c, step) == c
    ensures AfterGetSamplesIntended([], c, step) == c
  {
  }

  /** A step size that differs by at least Epsilon rebuilds the cache from scratch at
      the new step size, as written and as intended. */
  lemma AfterGetSamplesNewStep(sections: seq<Section>, c: SampleCache, step: real)
    requires |sections| > 0
    requires Abs(c.stepSize - step) >= Epsilon
    ensures AfterGetSamples(sections, c, step) == SampleCache(ConcatSamples(sections, step), step)
    ensures AfterGetSamplesIntended(sections, c, step) == AfterGetSamples(sections, c, step)
    ensures Consistent(sections, AfterGetSamples(sections, c, step))
  {
  }

  /** As written, the same step size on an empty cache returns the empty cache and
      leaves the state as it was: the cache is never filled lazily. */
  lemma AfterGetSamplesSameStepEmpty(sections: seq<Section>, c: SampleCache, step: real)
    requires |sections| > 0
    requires SameStep(c.stepSize, step)
    requires c.points == []
    ensures AfterGetSamples(sections, c, step) == c
  {
  }

  /** As written, the same step size on a populated cache appends a full resample of the
      path to it: the cache grows, and it no longer is a sampling of the path. */
  lemma AfterGetSamplesRepeatDuplicates(sections: seq<Section>, c: SampleCache, step: real)
    requires |sections| > 0
    requires SameStep(c.stepSize, step)
    requires c.points != []
    ensures AfterGetSamples(sections, c, step) == SampleCache(c.points + ConcatSamples(sections, step), step)
    ensures ConcatSamples(sections, step) != [] ==> !Consistent(sections, AfterGetSamples(sections, c, step))
  {
    var after := AfterGetSamples(sections, c, step);
    if ConcatSamples(sections, step) != [] {
      assert |after.points| > |ConcatSamples(sections, after.stepSize)|;
    }
  }

  /** The path of one section that samples to the single point at the origin. */
  function PointSection(): (s: Section)
    ensures forall step :: s.samples(step) == [Vec3(0.0, 0.0, 0.0)]
  {
    var origin := Vec3(0.0, 0.0, 0.0);
    Section(u => origin, u => origin, u => origin, u => 0.0, u => 0.0, u => 0.0, u => 0.0,
            u => 1.0, u => 1.0, u => 0.0, "point", step => [origin])
  }

  /** A concrete case: the cache [origin] of that path at step 0.1, asked again for step
      0.1, becomes [origin, origin]; a second call with the same step differs from the first. */
  lemma RepeatedGetSamplesExample()
    ensures var c := SampleCache([Vec3(0.0, 0.0, 0.0)], 0.1);
            && Consistent([PointSection()], c)
            && AfterGetSamples([PointSection()], c, 0.1).points == [Vec3(0.0, 0.0, 0.0), Vec3(0.0, 0.0, 0.0)]
            && AfterGetSamplesIntended([PointSection()], c, 0.1) == c
  {
    var c := SampleCache([Vec3(0.0, 0.0, 0.0)], 0.1);
    var sections := [PointSection()];
    assert ConcatSamples(sections, 0.1) == [Vec3(0.0, 0.0, 0.0)] + ConcatSamples(sections[1..], 0.1);
    assert sections[1..] == [];
  }

  /** The intended get_samples keeps the cache a faithful sampling of the path. */
  lemma AfterGetSamplesIntendedConsistent(sections: seq<Section>, c: SampleCache, step: real)
    requires Consistent(sections, c)
    ensures Consistent(sections, AfterGetSamplesIntended(sections, c, step))
  {
  }

  /** On a non-empty path whose cache is consistent, the intended get_samples returns the
      samples of the whole path at a step size that matches the request. */
  lemma AfterGetSamplesIntendedAnswers(sections: seq<Section>, c: SampleCache, step: real)
    requires |sections| > 0
    requires Consistent(sections, c)
    ensures var after := AfterGetSamplesIntended(sections, c, step);
            after.points == ConcatSamples(sections, after.stepSize) && SameStep(after.stepSize, step)
  {
  }

  /** A repeated intended get_samples with the same step size returns the same points
      and leaves the cache as the first call left it. */
  lemma AfterGetSamplesIntendedIdempotent(sections: seq<Section>, c: SampleCache, step: real)
    ensures var once := AfterGetSamplesIntended(sections, c, step);
            AfterGetSamplesIntended(sections, once, step) == once
  {
  }
}
