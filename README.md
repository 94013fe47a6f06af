# Box2D tuning settings

This project models `b2Settings`, the record of tuning constants of the Box2D
physics engine (Swift port). It also models `b2Version`, the version triple
stored beside them. The constants are in meters-kilograms-seconds units.

A settings object holds two kinds of fields:

- Primary fields that callers write directly: the platform float limits, pi,
  the collision limits and tolerances, the dynamics limits, the Baumgarte
  factors, and the sleep thresholds.
- The version, a constant set at construction. It is not derived, so
  `SamePrimaries` compares it, but callers cannot write it.
- Seven derived fields: angular slop, polygon radius, maximum angular
  correction, maximum translation squared, maximum rotation, maximum rotation
  squared, and angular sleep tolerance.

The derived fields are refreshed only when `changed()` is called. The
initialiser sets the declared defaults and then calls `changed()` once.

Everything is in one module, `Box2DSettings` (`settings.dfy`):

- `Settings` is a class with one field per stored field of the struct.
  - Its constructor is the initialiser.
  - `Changed` performs the seven assignments in the source's order.
  - `State()` reads the fields as a `SettingsState` value.
- `Recompute` is the same sequence of updates applied to a `SettingsState`.
  It is the specification that the lemmas reason about.
- `Consistent` says every derived field equals its formula over the primaries
  of the same state.
- `Initial` is the state before `changed()` runs. `Defaults` is the state the
  initialiser leaves.
- `Version` is a datatype. `CurrentVersion` is (2, 3, 0).

Floating-point values are modelled as exact reals. Integer fields are modelled
as unbounded integers; the source never computes on them.

## Model

| member | source | states |
|---|---|---|
| `Box2DSettings.Settings.Changed` | Sources/Box2D/Common/b2Settings.swift:131-139 | Afterwards each of the seven derived fields equals its formula over the current primaries. The rotation square is the square of the rotation written earlier in the same call. The frame allows writes to those seven fields only, so every primary keeps its value. |
| `Box2DSettings.Settings.constructor` | Sources/Box2D/Common/b2Settings.swift:33-129 | The new object's state is exactly `Defaults(platform)`: the declared defaults with `changed()` applied once. It is consistent. |
| `Box2DSettings.Recompute` | Sources/Box2D/Common/b2Settings.swift:131-139 | The recomputed state is consistent. It keeps every primary field of its input, including pi, linear slop, maximum translation, the AABB values, the integer limits, the Baumgarte factors, the sleep values and the version. Its rotation square is (0.5·pi)², whatever rotation the input held. |
| `Box2DSettings.Defaults` | Sources/Box2D/Common/b2Settings.swift:33-129 | The initialised settings hold the documented defaults: 2 manifold points, 8 polygon vertices, 8 sub-steps, 32 TOI contacts, linear slop 0.005, maximum translation 2.0, and so on. The derived values are consistent with these: polygon radius 0.01, maximum translation squared 4.0, rotation 0.5·pi with its square (0.5·pi)², and the angular fields 2/180·pi and 8/180·pi. The version is (2, 3, 0). |
| `Box2DSettings.ConsistentIsFixedPoint` | Sources/Box2D/Common/b2Settings.swift:131-139 | On a state whose derived fields are already consistent, `changed()` changes nothing. |
| `Box2DSettings.RecomputeCharacterised` | Sources/Box2D/Common/b2Settings.swift:131-139 | A consistent state is exactly the recomputation of any state with the same primaries. This links the field-by-field contract of `Changed` to `Recompute`. |
| `Box2DSettings.RecomputeIdempotent` | Sources/Box2D/Common/b2Settings.swift:131-139 | Running `changed()` twice gives the same state as running it once. |
| `Box2DSettings.ChangedTimesIsOnce` | Sources/Box2D/Common/b2Settings.swift:131-139 | Any positive number of consecutive `changed()` calls gives the same state as one call. |
| `Box2DSettings.DerivedDependsOnFormulaInputs` | Sources/Box2D/Common/b2Settings.swift:131-139 | Two states that agree on pi, linear slop and maximum translation get identical derived fields. |
| `Box2DSettings.UnreadPrimariesIndependent` | Sources/Box2D/Common/b2Settings.swift:131-139 | Start from a consistent state. Change the AABB extension and the Baumgarte factor, then recompute. Every derived field is as it was. |
| `Box2DSettings.RecomputeIgnoresStaleDerived` | Sources/Box2D/Common/b2Settings.swift:131-139 | The result of `changed()` depends only on the primaries. No stale derived value is read, not even the old maximum rotation. |
| `Box2DSettings.ChangedTwice` | Sources/Box2D/Common/b2Settings.swift:131-139 | On the class, calling `changed()` twice in a row leaves the state as `Recompute` of the state before the first call. Each call's field-by-field contract becomes `State() == Recompute(old(State()))` through `RecomputeCharacterised`, and the second call changes nothing. |
| `Box2DSettings.Scenario` | Sources/Box2D/Common/b2Settings.swift:125-139 | Start from fresh defaults: there are 2 manifold points. Set linear slop to 0.01 and call `changed()`: the polygon radius is 0.02. Set maximum translation to 5.0 and call `changed()`: the squared bound is 25.0. The version stays (2, 3, 0) throughout. |

## Left out

- The global instance `b2SettingInstance` (Sources/Box2D/Common/b2Settings.swift:29) is not modelled. The model uses a single explicit `Settings` object instead.
- The platform values `Float.leastNormalMagnitude`, `Float.greatestFiniteMagnitude`, `Float.ulpOfOne` and `Float.pi` are not modelled. They are foreign constants, so the constructor takes them as a `PlatformFloat` parameter. Nothing is assumed about their values.
- `b2Float` arithmetic is modelled as exact real arithmetic, so IEEE-754 rounding is not captured. For example, the model's polygon radius default is exactly 0.01, whereas in `Float` it is `2 * 0.005` rounded.
- Swift's `Int` (word-sized) is modelled as an unbounded integer. Overflow cannot arise, because these fields are only stored.
- The "do not change" notes on the manifold-point and polygon-vertex limits are not enforced. The source stores both as ordinary mutable fields and validates nothing.
- Assignments of primary fields are not modelled as operations. They are plain public field writes, and callers perform them directly on the object.
- Consumers of the settings (the dynamic tree, the solvers, time of impact, and the block allocator named in a comment) are not part of this model.
- Thread safety is not modelled. The source has no synchronisation.
- `Box2DSettings.Settings.Changed` has no postcondition that every primary is unchanged. That fact comes from its `modifies` frame, which names only the seven derived fields.
- `Box2DSettings.Settings.Changed` does not state `State() == Recompute(old(State()))` directly. It states the seven formulas field by field. `RecomputeCharacterised` turns those formulas plus the frame into that equation, and the client `ChangedTwice` has the verifier check it.
- Value semantics are not modelled. The source's `b2Settings` is a struct, so an assignment copies it; the model's `Settings` is a class, so an assignment shares the object. No property here depends on copying.
- A textual difference: the source's field is spelled `b2_toiBaugarte`, and the model keeps that spelling as `toiBaugarte`.
