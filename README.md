# Composite paths of the Pegasus path-following stack

This project models the composite-path layer of the Pegasus path-following
controller and proves properties of that model. A `Path` is an ordered list of
sections. Each section is an analytic segment whose local parameter runs over
[0, 1]. The path is addressed by one global parameter gamma in [0, N], where N is
the number of sections, and section i owns [i, i + 1). The path also keeps a
cache of sample points and the step size that built it. The small `ConstSpeed`
speed law is modelled alongside it.

Layout:

- `wrappers.dfy` (`Wrappers`): the `Option` result of every query.
- `tolerance.dfy` (`Tolerance`): the named constant `Epsilon` = 1e-10. The code
  uses this literal twice: as the margin in bound_gamma and as the tolerance for
  step sizes in get_samples.
- `sections.dfy` (`Sections`): `Vec3`, and `Section` as a bundle of query
  functions. Section geometry is not part of this model, so each query is an
  arbitrary function.
- `sampling.dfy` (`Sampling`): the samples of a whole path (`ConcatSamples`) and
  the cache transitions of push_back and get_samples, as pure functions with
  their lemmas.
- `path.dfy` (`Paths`): the `Path` class. Its fields are `sections`, `samples`,
  `sampleStepSize` and `data`. Queries are functions that read only `sections`.
  `PushBack`, `Clear`, `GetAllData` and `GetSamples` are methods, and each
  modifies only the fields it writes. The lemmas about the path follow the class.
- `const_speed.dfy` (`Speeds`): `ConstSpeed`.

Where the code and its comments differ, the model follows the code:

- The per-point queries (`pd` … `d_vd`, `get_section_type`) never clamp gamma.
  At or past N they reach the last section at the local parameter gamma - (N - 1),
  which is 1 or more. Only `get_section` clamps, to [0, N].
- The cache test of `get_samples` is inverted (see Findings). `Path.GetSamples`
  models the code as written. `Path.GetSamplesLazily` is the corrected version.

Gamma, floor and the 1e-10 comparisons are exact reals. The per-point queries
and `get_section_index` require gamma >= 0. For a negative gamma, the code's
conversion to `unsigned int` is undefined behaviour.

## Model

| member | source | states |
|---|---|---|
| Paths.Path.constructor | pegasus_addons/paths/src/path.cpp:41-43 | a new path has no sections and an empty cache; the step size is left unconstrained |
| Paths.Path.PushBack | pegasus_addons/paths/src/path.cpp:56-71 | sections become old ++ [s]; the cache follows `AfterPushBack`; the step size is unchanged; a consistent cache stays consistent |
| Paths.Path.GetSection | pegasus_addons/paths/src/path.cpp:78-88 | none iff empty; gamma below 1 gives the first section; gamma from N - 1 on (N included) gives the last; in [0, N) it gives section floor(gamma) |
| Paths.Path.GetSectionIndex | pegasus_addons/paths/src/path.cpp:96-106 | none iff empty; otherwise an index i < N with i <= gamma and either gamma < i + 1 or i = N - 1 |
| Paths.SectionIndexIsOwner | pegasus_addons/paths/src/path.cpp:102-105 | that characterisation is unique, and the index equals min(floor(gamma), N - 1) |
| Paths.Path.GetSectionType | pegasus_addons/paths/src/path.cpp:114-121 | none iff empty; otherwise the type tag of the section at get_section_index(gamma); gamma itself is not clamped |
| Paths.Path.Clear | pegasus_addons/paths/src/path.cpp:126-132 | sections and cache become empty; the step size and the aggregate are unchanged |
| Paths.EmptyPathAnswersNothing | pegasus_addons/paths/src/path.cpp:105 | on an empty path (so after clear) every query, get_section and get_last_pd give none, and the largest gamma is 0 |
| Paths.Path.GetAllData | pegasus_addons/paths/src/path.cpp:140-178 | none iff empty; otherwise each field equals the matching per-point query at the same gamma, min_gamma = 0 and max_gamma = N; the data field is overwritten with the result, or left alone when empty |
| Paths.Path.Evaluate | pegasus_addons/paths/src/path.cpp:185-200 | the shared query template: none iff empty, otherwise the owning section's query at gamma - index |
| Paths.Path.Pd | pegasus_addons/paths/src/path.cpp:185-200 | none iff empty; otherwise the owning section's position at gamma - index |
| Paths.Path.DPd | pegasus_addons/paths/src/path.cpp:207-222 | the same for the first derivative |
| Paths.Path.DdPd | pegasus_addons/paths/src/path.cpp:229-243 | the same for the second derivative |
| Paths.Path.Curvature | pegasus_addons/paths/src/path.cpp:252-266 | the same for curvature |
| Paths.Path.Torsion | pegasus_addons/paths/src/path.cpp:275-289 | the same for torsion |
| Paths.Path.TangentAngle | pegasus_addons/paths/src/path.cpp:296-310 | the same for the tangent angle |
| Paths.Path.DerivativeNorm | pegasus_addons/paths/src/path.cpp:317-331 | the same for the derivative norm |
| Paths.Path.VehicleSpeed | pegasus_addons/paths/src/path.cpp:339-353 | the same for the vehicle speed |
| Paths.Path.Vd | pegasus_addons/paths/src/path.cpp:361-375 | the same for the desired progression speed |
| Paths.Path.DVd | pegasus_addons/paths/src/path.cpp:383-398 | the same for its derivative |
| Paths.LocalParameterRange | pegasus_addons/paths/src/path.cpp:185-398 | in [0, N), a query reaches section floor(gamma) at a local parameter in [0, 1); from N on, it reaches the last section at gamma - (N - 1) >= 1, with no clamp |
| Paths.QueryPastEndIsUnclamped | pegasus_addons/paths/src/path.cpp:185-398 | past the end, pd, curvature, vd and the type tag all come from the last section at the unclamped local parameter |
| Paths.GetSectionAgreesWithQueries | pegasus_addons/paths/src/path.cpp:78-106 | for gamma >= 0, get_section's clamp picks the same section as the unclamped queries |
| Paths.Path.GetLastPd | pegasus_addons/paths/src/path.cpp:404-412 | none iff empty; otherwise the last section's position at local parameter 1 |
| Paths.LastPdIsPdAtMaxGamma | pegasus_addons/paths/src/path.cpp:404-412 | get_last_pd equals pd at get_max_gamma, on every path |
| Paths.Path.BoundGamma | pegasus_addons/paths/src/path.cpp:421-425 | on a non-empty path the result is in [0, N - Epsilon]; it is the identity inside that interval, 0 below it and N - Epsilon above it; on an empty path it is -Epsilon |
| Paths.BoundGammaIdempotent | pegasus_addons/paths/src/path.cpp:421-425 | bounding twice is bounding once |
| Paths.BoundGammaIndexesByFloor | pegasus_addons/paths/src/path.cpp:421-425 | a bounded gamma's floor is already a valid index, the lookup returns it, and the local parameter is in [0, 1) |
| Paths.ThreeSectionBoundaries | pegasus_addons/paths/src/path.cpp:96-106 | on three sections: 0.5 gives index 0; 3.0 gives index 2; bound_gamma(3.0) = 3 - Epsilon, also index 2, at local parameter 1 - Epsilon |
| Paths.Path.GetMinGamma | pegasus_addons/paths/src/path.cpp:472-474 | the smallest gamma is 0 |
| Paths.GammaDomain | pegasus_addons/paths/src/path.cpp:472-482 | min gamma is 0, and min < max iff the path has a section |
| Paths.Path.GetMaxGamma | pegasus_addons/paths/src/path.cpp:480-482 | the largest gamma equals the number of sections, 0 when empty |
| Paths.Path.AppendAllSamples | pegasus_addons/paths/src/path.cpp:455-461 | the loop appends, to the cache, exactly the in-order concatenation of every section's samples at the step |
| Paths.Path.GetSamples | pegasus_addons/paths/src/path.cpp:433-466 | as written: the cache follows `AfterGetSamples`; the result is none iff the path is empty, otherwise the new cache |
| Paths.Path.GetSamplesLazily | pegasus_addons/paths/src/path.cpp:433-466 | corrected: the cache follows `AfterGetSamplesIntended`, and a consistent cache stays consistent |
| Sampling.ConcatSamplesAppend | pegasus_addons/paths/src/path.cpp:455-461 | sampling a concatenation of sections concatenates their samples |
| Sampling.ConcatSamplesSnoc | pegasus_addons/paths/src/path.cpp:63-70 | appending one section appends exactly its samples to the path's samples |
| Sampling.AfterPushBackExtends | pegasus_addons/paths/src/path.cpp:56-71 | push_back keeps the step size and every earlier point; it extends a populated cache by the new section's samples, and an empty cache stays empty |
| Sampling.AfterPushBackConsistent | pegasus_addons/paths/src/path.cpp:56-71 | push_back keeps a consistent cache consistent for the longer path |
| Sampling.AfterGetSamplesEmptyPath | pegasus_addons/paths/src/path.cpp:436 | get_samples on an empty path changes nothing |
| Sampling.AfterGetSamplesNewStep | pegasus_addons/paths/src/path.cpp:439-461 | if \|cached step - step\| >= Epsilon, the cache is rebuilt from scratch as the samples of the whole path at the new step, which is stored; the result is consistent |
| Sampling.AfterGetSamplesSameStepEmpty | pegasus_addons/paths/src/path.cpp:439-450 | as written, the same step on an empty cache leaves the state unchanged, so an empty sequence is returned |
| Sampling.AfterGetSamplesRepeatDuplicates | pegasus_addons/paths/src/path.cpp:439-461 | as written, the same step on a populated cache appends a full resample of the path to it, and the cache stops being a sampling of the path |
| Sampling.RepeatedGetSamplesExample | pegasus_addons/paths/src/path.cpp:445-461 | for a one-point section with cache [o] at step 0.1: the code makes the cache [o, o]; the corrected version keeps [o] |
| Sampling.AfterGetSamplesIntendedConsistent | pegasus_addons/paths/src/path.cpp:441-450 | the corrected get_samples keeps a consistent cache consistent |
| Sampling.AfterGetSamplesIntendedAnswers | pegasus_addons/paths/src/path.cpp:441-465 | the corrected get_samples returns the whole path's samples at a step size that matches the request |
| Sampling.AfterGetSamplesIntendedIdempotent | pegasus_addons/paths/src/path.cpp:447-450 | a repeat call of the corrected version with the same step leaves its cache unchanged |
| Speeds.DefaultSpeed | pegasus_addons/paths/include/paths/speeds/const_speed.hpp:50-53 | a default-constructed ConstSpeed holds 1.0 m/s |
| Speeds.ConstructorStoresSpeed | pegasus_addons/paths/include/paths/speeds/const_speed.hpp:53 | the constructor stores any speed exactly, with no validation or clamping |
| Speeds.QueriesDependOnSpeedOnly | pegasus_addons/paths/include/paths/speeds/const_speed.hpp:61-91 | the speed is the whole state: two objects with the same speed are equal and answer get_vd, get_d_vd and get_vehicle_speed alike |
| Speeds.VehicleSpeedIsConstant | pegasus_addons/paths/include/paths/speeds/const_speed.hpp:71-77 | get_vehicle_speed gives the same value at every gamma |

## Left out

- Section geometry and vector maths: a `Section`'s queries and samples are arbitrary functions, and `Vec3` is three reals with no operations.
- Floating point: gamma, floor, the subtraction of the index and the 1e-10 comparisons are exact real arithmetic.
- Negative gamma, and gamma beyond the range of `unsigned int`, in `get_section_index` and the per-point queries: the conversion is undefined behaviour, so these members require gamma >= 0.
- The initial value of the step size, and of the aggregate, come from `path.hpp`, which is not part of this model. The constructor leaves both unconstrained.
- Shared ownership and aliasing of sections: sections are values in a `seq`.
- The `Speed` and `Section` base classes, and the bodies of `get_vd`, `get_d_vd` and `get_vehicle_speed` (in `const_speed.cpp`), are not part of this model. The three queries apply caller-supplied `ConstSpeedBodies`. These are functions of the configured speed, the local parameter and the section, and the vehicle-speed body is not given the local parameter, as the doc comment says the speed is constant. So nothing here checks that get_vd returns the speed or that get_d_vd returns 0.
- Speeds.ConstSpeed.GetVd, Speeds.ConstSpeed.GetDVd and Speeds.ConstSpeed.GetVehicleSpeed: they carry no contract of their own, because their bodies are not known; the lemmas above state what the header fixes.
- How a section's speed queries reach its attached speed law lives in the unseen section class, so the path's `vehicleSpeed`, `vd` and `dVd` are the section's own query functions.
- The destructors and the `SharedPtr`/`UniquePtr`/`WeakPtr` aliases: they hold no behaviour.

## Findings

| source | as written | input that shows it | evidently intended | confidence | as-written member | corrected member |
|---|---|---|---|---|---|---|
| pegasus_addons/paths/src/path.cpp:445-450 | the flag named "samples initialised" is true when the cache is empty, so the rebuild runs when the step matches and the cache is full, and does not run when it matches and the cache is empty | one section that samples to the single point o; cache [o] built at step 0.1; get_samples(0.1) makes the cache [o, o], and each further call appends another o | lazy cache: rebuild when the step differs or the cache is empty, otherwise return the cache unchanged | high; not executed | Sampling.AfterGetSamplesRepeatDuplicates | Sampling.AfterGetSamplesIntendedIdempotent |
