/** A path: an ordered composition of sections addressed by one global parameter gamma.
    Section i owns [i, i + 1); a query at gamma goes to the section whose index is the
    floor of gamma clamped to the last section, at the local parameter gamma - index. */
module Paths {
  import opened Wrappers
  import opened Tolerance
  import opened Sections
  import opened Sampling

  /** Every metric of the path at one gamma, with the bounds of the parameter. */
  datatype Data = Data(
    pd: Vec3,
    dPd: Vec3,
    ddPd: Vec3,
    curvature: real,
    torsion: real,
    tangentAngle: real,
    derivativeNorm: real,
    vehicleSpeed: real,
    vd: real,
    dVd: real,
    minGamma: real,
    maxGamma: real)

  function Min(a: real, b: real): (r: real)
    ensures r <= a && r <= b && (r == a || r == b)
  {
    if a <= b then a else b
  }

  function Max(a: real, b: real): (r: real)
    ensures r >= a && r >= b && (r == a || r == b)
  {
    if a >= b then a else b
  }

  class Path {
    var sections: seq<Section>
    /** The sample cache, and the step size that built it. */
    var samples: seq<Vec3>
    var sampleStepSize: real
    /** The aggregate that get_all_data fills in and returns a copy of. */
    var data: Data

    /** A new path has no sections and no samples; the step size and the aggregate
        start with values this model does not fix. */
    constructor ()
      ensures sections == [] && samples == []
    {
      sections := [];
      samples := [];
    }

    function CacheState(): (c: SampleCache)
      reads this`samples, this`sampleStepSize
    {
      SampleCache(samples, sampleStepSize)
    }

    /** The cache is unfilled or samples the whole path at its own step size. */
    ghost predicate CacheConsistent()
      reads this
    {
      Consistent(sections, CacheState())
    }

    predicate Empty()
      reads this`sections
    {
      |sections| == 0
    }

    /** Append a section. A populated cache is extended by the new section's samples at
        the cached step size; an empty one waits for lazy initialisation. */
    method PushBack(section: Section)
      modifies this`sections, this`samples
      ensures sections == old(sections) + [section]
      ensures CacheState() == AfterPushBack(old(CacheState()), section)
      ensures old(CacheConsistent()) ==> CacheConsistent()
    {
      sections := sections + [section];
      if samples != [] {
        var sectionSamples := section.samples(sampleStepSize);
        samples := samples + sectionSamples;
      }
      if old(CacheConsistent()) {
        AfterPushBackConsistent(old(sections), old(CacheState()), section);
      }
    }

    /** The index of the section that owns gamma: none exactly when the path is empty;
        otherwise the i below gamma with gamma < i + 1, or the last section when gamma
        lies at or past the end. */
    function GetSectionIndex(gamma: real): (r: Option<nat>)
      reads this`sections
      requires gamma >= 0.0
      ensures r.None? <==> |sections| == 0
      ensures r.Some? ==> r.value < |sections| && r.value as real <= gamma
      ensures r.Some? ==> gamma < (r.value + 1) as real || r.value == |sections| - 1
    {
      if |sections| == 0 then None
      else
        var index: nat := gamma.Floor;
        Some(if index >= |sections| then |sections| - 1 else index)
    }

    /** The section for gamma after clamping gamma to [0, N]: the first section at or
        below 0, the last from N - 1 on (N itself included), none when empty. */
    function GetSection(gamma: real): (r: Option<Section>)
      reads this`sections
      ensures r.None? <==> |sections| == 0
      ensures r.Some? && gamma < 1.0 ==> r.value == sections[0]
      ensures r.Some? && gamma >= (|sections| - 1) as real ==> r.value == sections[|sections| - 1]
      ensures r.Some? && 0.0 <= gamma < |sections| as real ==> r.value == sections[gamma.Floor]
    {
      var t := Min(Max(0.0, gamma), |sections| as real);
      match GetSectionIndex(t)
      case None => None
      case Some(index) => Some(sections[index])
    }

    /** The template every per-point query follows: look up the owning section and
        pass it gamma - index, with no clamping of gamma. */
    function Evaluate<T>(gamma: real, query: Section -> real -> T): (r: Option<T>)
      reads this`sections
      requires gamma >= 0.0
      ensures r.None? <==> |sections| == 0
      ensures r.Some? ==> var i := GetSectionIndex(gamma).value;
                          r.value == query(sections[i])(gamma - i as real)
    {
      match GetSectionIndex(gamma)
      case None => None
      case Some(index) => Some(query(sections[index])(gamma - index as real))
    }

    /** The type tag of the section that owns gamma. */
    function GetSectionType(gamma: real): (r: Option<string>)
      reads this`sections
      requires gamma >= 0.0
      ensures r.None? <==> |sections| == 0
      ensures r.Some? ==> r.value == sections[GetSectionIndex(gamma).value].sectionType
    {
      match GetSectionIndex(gamma)
      case None => None
      case Some(index) => Some(sections[index].sectionType)
    }

    /** Empty the path: no sections and no samples; the step size is kept. */
    method Clear()
      modifies this`sections, this`samples
      ensures sections == [] && samples == []
      ensures CacheConsistent()
    {
      sections := [];
      samples := [];
    }

    /** Every per-point query at once. The aggregate field is overwritten with the
        result; an empty path leaves it as it was. */
    method GetAllData(gamma: real) returns (r: Option<Data>)
      requires gamma >= 0.0
      modifies this`data
      ensures r.None? <==> |sections| == 0
      ensures r.Some? ==>
        && r.value.pd == Pd(gamma).value
        && r.value.dPd == DPd(gamma).value
        && r.value.ddPd == DdPd(gamma).value
        && r.value.curvature == Curvature(gamma).value
        && r.value.torsion == Torsion(gamma).value
        && r.value.tangentAngle == TangentAngle(gamma).value
        && r.value.derivativeNorm == DerivativeNorm(gamma).value
        && r.value.vehicleSpeed == VehicleSpeed(gamma).value
        && r.value.vd == Vd(gamma).value
        && r.value.dVd == DVd(gamma).value
        && r.value.minGamma == GetMinGamma()
        && r.value.maxGamma == GetMaxGamma()
      ensures data == if r.Some? then r.value else old(data)
    {
      var index := GetSectionIndex(gamma);
      if index.Some? {
        var s := sections[index.value];
        var normalizedGamma := gamma - index.value as real;
        data := Data(
          s.pd(normalizedGamma), s.dPd(normalizedGamma), s.ddPd(normalizedGamma),
          s.curvature(normalizedGamma), s.torsion(normalizedGamma),
          s.tangentAngle(normalizedGamma), s.derivativeNorm(normalizedGamma),
          s.vehicleSpeed(normalizedGamma), s.vd(normalizedGamma), s.dVd(normalizedGamma),
          0.0, |sections| as real);
        r := Some(data);
      } else {
        r := None;
      }
    }

    /** Position on the path at gamma. */
    function Pd(gamma: real): (r: Option<Vec3>)
      reads this`sections
      requires gamma >= 0.0
      ensures r.None? <==> |sections| == 0
      ensures r.Some? ==> var i := GetSectionIndex(gamma).value; r.value == sections[i].pd(gamma - i as real)
    {
      Evaluate(gamma, (s: Section) => s.pd)
    }

    /** First derivative of the position with respect to gamma. */
    function DPd(gamma: real): (r: Option<Vec3>)
      reads this`sections
      requires gamma >= 0.0
      ensures r.None? <==> |sections| == 0
      ensures r.Some? ==> var i := GetSectionIndex(gamma).value; r.value == sections[i].dPd(gamma - i as real)
    {
      Evaluate(gamma, (s: Section) => s.dPd)
    }

    /** Second derivative of the position with respect to gamma. */
    function DdPd(gamma: real): (r: Option<Vec3>)
      reads this`sections
      requires gamma >= 0.0
      ensures r.None? <==> |sections| == 0
      ensures r.Some? ==> var i := GetSectionIndex(gamma).value; r.value == sections[i].ddPd(gamma - i as real)
    {
      Evaluate(gamma, (s: Section) => s.ddPd)
    }

    /** Curvature of the path at gamma. */
    function Curvature(gamma: real): (r: Option<real>)
      reads this`sections
      requires gamma >= 0.0
      ensures r.None? <==> |sections| == 0
      ensures r.Some? ==> var i := GetSectionIndex(gamma).value; r.value == sections[i].curvature(gamma - i as real)
    {
      Evaluate(gamma, (s: Section) => s.curvature)
    }

    /** Torsion of the path at gamma. */
    function Torsion(gamma: real): (r: Option<real>)
      reads this`sections
      requires gamma >= 0.0
      ensures r.None? <==> |sections| == 0
      ensures r.Some? ==> var i := GetSectionIndex(gamma).value; r.value == sections[i].torsion(gamma - i as real)
    {
      Evaluate(gamma, (s: Section) => s.torsion)
    }

    /** Angle of the tangent to the path at gamma. */
    function TangentAngle(gamma: real): (r: Option<real>)
      reads this`sections
      requires gamma >= 0.0
      ensures r.None? <==> |sections| == 0
      ensures r.Some? ==> var i := GetSectionIndex(gamma).value; r.value == sections[i].tangentAngle(gamma - i as real)
    {
      Evaluate(gamma, (s: Section) => s.tangentAngle)
    }

    /** Norm of the first derivative at gamma. */
    function DerivativeNorm(gamma: real): (r: Option<real>)
      reads this`sections
      requires gamma >= 0.0
      ensures r.None? <==> |sections| == 0
      ensures r.Some? ==> var i := GetSectionIndex(gamma).value; r.value == sections[i].derivativeNorm(gamma - i as real)
    {
      Evaluate(gamma, (s: Section) => s.derivativeNorm)
    }

    /** Desired vehicle speed (m/s) at gamma. */
    function VehicleSpeed(gamma: real): (r: Option<real>)
      reads this`sections
      requires gamma >= 0.0
      ensures r.None? <==> |sections| == 0
      ensures r.Some? ==> var i := GetSectionIndex(gamma).value; r.value == sections[i].vehicleSpeed(gamma - i as real)
    {
      Evaluate(gamma, (s: Section) => s.vehicleSpeed)
    }

    /** Desired progression speed of gamma. */
    function Vd(gamma: real): (r: Option<real>)
      reads this`sections
      requires gamma >= 0.0
      ensures r.None? <==> |sections| == 0
      ensures r.Some? ==> var i := GetSectionIndex(gamma).value; r.value == sections[i].vd(gamma - i as real)
    {
      Evaluate(gamma, (s: Section) => s.vd)
    }

    /** Desired progression acceleration of gamma. */
    function DVd(gamma: real): (r: Option<real>)
      reads this`sections
      requires gamma >= 0.0
      ensures r.None? <==> |sections| == 0
      ensures r.Some? ==> var i := GetSectionIndex(gamma).value; r.value == sections[i].dVd(gamma - i as real)
    {
      Evaluate(gamma, (s: Section) => s.dVd)
    }

    /** Where the path ends: the last section at local parameter 1. */
    function GetLastPd(): (r: Option<Vec3>)
      reads this`sections
      ensures r.None? <==> |sections| == 0
      ensures r.Some? ==> r.value == sections[|sections| - 1].pd(1.0)
    {
      if Empty() then None else Some(sections[|sections| - 1].pd(1.0))
    }

    /** gamma clamped to [0, N - Epsilon], so that its floor is a valid index. */
    function BoundGamma(gamma: real): (r: real)
      reads this`sections
      ensures |sections| > 0 ==> 0.0 <= r <= |sections| as real - Epsilon
      ensures |sections| > 0 && 0.0 <= gamma <= |sections| as real - Epsilon ==> r == gamma
      ensures |sections| > 0 && gamma < 0.0 ==> r == 0.0
      ensures gamma > |sections| as real - Epsilon ==> r == |sections| as real - Epsilon
      ensures |sections| == 0 ==> r == -Epsilon
    {
      Min(Max(0.0, gamma), |sections| as real - Epsilon)
    }

    /** The smallest gamma of the path. */
    function GetMinGamma(): (r: real)
      ensures r == 0.0
    {
      0.0
    }

    /** The largest gamma of the path: the number of sections. */
    function GetMaxGamma(): (r: real)
      reads this`sections
      ensures r == |sections| as real
    {
      if |sections| == 0 then 0.0 else |sections| as real
    }

    /** Append, to the cache, the samples of every section at step, in order. */
    method AppendAllSamples(step: real)
      modifies this`samples
      ensures samples == old(samples) + ConcatSamples(sections, step)
    {
      for i := 0 to |sections|
        invariant samples == old(samples) + ConcatSamples(sections[..i], step)
      {
        var sectionSamples := sections[i].samples(step);
        ConcatSamplesSnoc(sections[..i], sections[i], step);
        assert sections[..i + 1] == sections[..i] + [sections[i]];
        samples := samples + sectionSamples;
      }
      assert sections[..|sections|] == sections;
    }

    /** The samples of the path at step, with the cache updated as the code does it:
        none on an empty path; otherwise the new cache. */
    method GetSamples(step: real) returns (r: Option<seq<Vec3>>)
      modifies this`samples, this`sampleStepSize
      ensures CacheState() == AfterGetSamples(sections, old(CacheState()), step)
      ensures r == if |sections| == 0 then None else Some(samples)
    {
      if |sections| == 0 {
        return None;
      }
      var stepSizeIsEqual := SameStep(sampleStepSize, step);
      if !stepSizeIsEqual {
        samples := [];
      }
      // Named as in the code: it is true when the cache is EMPTY.
      var samplesInitialized := samples == [];
      if !samplesInitialized || !stepSizeIsEqual {
        sampleStepSize := step;
        AppendAllSamples(sampleStepSize);
      }
      r := Some(samples);
    }

    /** The samples of the path at step with the lazy cache its comments describe:
        rebuilt when the step size differs or the cache is empty, returned as is otherwise. */
    method GetSamplesLazily(step: real) returns (r: Option<seq<Vec3>>)
      modifies this`samples, this`sampleStepSize
      ensures CacheState() == AfterGetSamplesIntended(sections, old(CacheState()), step)
      ensures r == if |sections| == 0 then None else Some(samples)
      ensures old(CacheConsistent()) ==> CacheConsistent()
    {
      if |sections| == 0 {
        return None;
      }
      if !SameStep(sampleStepSize, step) || samples == [] {
        samples := [];
        sampleStepSize := step;
        AppendAllSamples(sampleStepSize);
      }
      r := Some(samples);
    }
  }

  /** The owning section is unique: any index below gamma that either owns gamma's unit
      interval or is the last section is the one get_section_index returns, which is
      therefore the floor of gamma clamped to N - 1. */
  lemma SectionIndexIsOwner(p: Path, gamma: real, i: nat)
    requires gamma >= 0.0
    requires i < |p.sections| && i as real <= gamma
    requires gamma < (i + 1) as real || i == |p.sections| - 1
    ensures p.GetSectionIndex(gamma) == Some(i)
    ensures i == if gamma.Floor < |p.sections| then gamma.Floor else |p.sections| - 1
  {
  }

  /** Inside [0, N) a query reaches section floor(gamma) at a local parameter in [0, 1).
      Nothing clamps gamma: at or past N it reaches the last section at gamma - (N - 1),
      a local parameter of 1 or more. */
  lemma LocalParameterRange(p: Path, gamma: real)
    requires gamma >= 0.0 && |p.sections| > 0
    ensures var i := p.GetSectionIndex(gamma).value;
            gamma < |p.sections| as real ==> i == gamma.Floor && 0.0 <= gamma - i as real < 1.0
    ensures var i := p.GetSectionIndex(gamma).value;
            gamma >= |p.sections| as real ==> i == |p.sections| - 1 && gamma - i as real >= 1.0
  {
  }

  /** Past the end of the path the position is the last section's, extrapolated beyond
      its local parameter 1; the other queries behave the same way. */
  lemma QueryPastEndIsUnclamped(p: Path, gamma: real)
    requires |p.sections| > 0 && gamma >= |p.sections| as real
    ensures var last := p.sections[|p.sections| - 1];
            var u := gamma - (|p.sections| - 1) as real;
            && u >= 1.0
            && p.Pd(gamma) == Some(last.pd(u))
            && p.Curvature(gamma) == Some(last.curvature(u))
            && p.Vd(gamma) == Some(last.vd(u))
            && p.GetSectionType(gamma) == Some(last.sectionType)
  {
    LocalParameterRange(p, gamma);
  }

  /** get_last_pd is the position at the largest gamma: pd(N) reaches the last section
      at local parameter exactly 1. */
  lemma LastPdIsPdAtMaxGamma(p: Path)
    ensures p.GetLastPd() == p.Pd(p.GetMaxGamma())
  {
    if |p.sections| > 0 {
      LocalParameterRange(p, p.GetMaxGamma());
    }
  }

  /** get_section clamps, the queries do not, but for gamma >= 0 both pick the same
      section. */
  lemma GetSectionAgreesWithQueries(p: Path, gamma: real)
    requires gamma >= 0.0 && |p.sections| > 0
    ensures p.GetSection(gamma) == Some(p.sections[p.GetSectionIndex(gamma).value])
  {
    var t := Min(Max(0.0, gamma), |p.sections| as real);
    var i := p.GetSectionIndex(gamma).value;
    SectionIndexIsOwner(p, t, i);
  }

  /** bound_gamma is idempotent. */
  lemma BoundGammaIdempotent(p: Path, gamma: real)
    ensures p.BoundGamma(p.BoundGamma(gamma)) == p.BoundGamma(gamma)
  {
  }

  /** A bounded gamma needs no index clamp: its floor already is a valid section index,
      and the local parameter it yields lies in [0, 1). */
  lemma BoundGammaIndexesByFloor(p: Path, gamma: real)
    requires |p.sections| > 0
    ensures var b := p.BoundGamma(gamma);
            && 0 <= b.Floor < |p.sections|
            && p.GetSectionIndex(b) == Some(b.Floor)
            && 0.0 <= b - b.Floor as real < 1.0
  {
  }

  /** The boundary cases of a three-section path: 0.5 is in section 0 at 0.5; 3.0 is
      past the end and reaches section 2 at local parameter 1; bounded first, 3.0
      becomes 3 - Epsilon, in section 2 just below local parameter 1. */
  lemma ThreeSectionBoundaries(p: Path)
    requires |p.sections| == 3
    ensures p.GetSectionIndex(0.5) == Some(0)
    ensures p.GetSectionIndex(3.0) == Some(2)
    ensures p.BoundGamma(3.0) == 3.0 - Epsilon
    ensures p.GetSectionIndex(p.BoundGamma(3.0)) == Some(2)
    ensures p.BoundGamma(3.0) - 2.0 == 1.0 - Epsilon
  {
  }

  /** The parameter domain is [0, N]: it starts at 0 and is non-trivial exactly when
      the path has a section. */
  lemma GammaDomain(p: Path)
    ensures p.GetMinGamma() == 0.0
    ensures p.GetMinGamma() < p.GetMaxGamma() <==> |p.sections| > 0
  {
  }

  /** An empty path, as after clear, answers every query with no value and has a
      largest gamma of 0. */
  lemma EmptyPathAnswersNothing(p: Path, gamma: real)
    requires |p.sections| == 0 && gamma >= 0.0
    ensures p.GetMaxGamma() == 0.0
    ensures p.GetSection(gamma).None? && p.GetSectionIndex(gamma).None? && p.GetSectionType(gamma).None?
    ensures p.Pd(gamma).None? && p.DPd(gamma).None? && p.DdPd(gamma).None?
    ensures p.Curvature(gamma).None? && p.Torsion(gamma).None? && p.TangentAngle(gamma).None?
    ensures p.DerivativeNorm(gamma).None? && p.VehicleSpeed(gamma).None?
    ensures p.Vd(gamma).None? && p.DVd(gamma).None? && p.GetLastPd().None?
  {
  }
}
