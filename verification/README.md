# Off-lattice simulation domain (`Space`) in Dafny

This project models the square simulation domain of an off-lattice, Vicsek-style
self-propelled-particle simulation. A `Space` holds a side length and an ordered
list of particles. Construction validates both: the side length must be strictly
positive, the particle list must be present, and every particle's `x` and `y`
must lie in the closed interval `[0, sideLength]`. In the model every failure is an
illegal-argument exception that carries one of three fixed messages. A `null`
element inside the list is the one input outside the model (see "Left out"). A space
hands out copies of its particle list and produces immutable `SpaceState`
snapshots. A snapshot holds the side length and, in order, the saved state of
every particle.

Layout:

- `wrappers.dfy`: `Option` stands for a Java reference that may be `null`.
  `Result` and `Outcome` stand for a call that may throw.
- `streams.dfy`: the two Java stream pipelines the domain uses, on immutable
  sequences. `Filter` is `filter`, counted by taking its length. `MapSeq` is
  `map` followed by `collect`.
- `space.dfy`: the `Models` module. It holds `Particle`, `Error`,
  `SpaceState`, `Space` and the validating constructor `NewSpace`.

The Java class has only `final` fields and no method that changes state, so the
model works on values. The constructor becomes the function `NewSpace`. It
returns `Ok(space)` or `Err(IllegalArgument(message))`. The particle-list check
is modelled the way the source computes it: four successive filter stages, then
a comparison of the count with the list size. The lemma `LegalAmountIff` proves
that this count test means "every particle lies in the square". The particle's
own `saveState` is not part of this model. `SaveState` therefore takes it as a
function parameter `saveParticle`, and `SpaceState` is generic in the type of a
particle snapshot.

## Model

| member | source | states |
|---|---|---|
| `Models.ValidateSideLength` | src/main/java/ar/edu/itba/ss/off_lattice/models/Space.java:69-73 | Passes exactly when the side length is strictly positive. Otherwise it fails with the "side length must be positive" illegal-argument error. |
| `Streams.Filter` | src/main/java/ar/edu/itba/ss/off_lattice/models/Space.java:85-90 | A filter stage keeps exactly the elements that satisfy its predicate. Every element it keeps comes from the input and passes, and every input element that passes is kept. The kept multiset is contained in the input's, so the result is never longer. |
| `Streams.FilterAppend` | src/main/java/ar/edu/itba/ss/off_lattice/models/Space.java:85-90 | Filtering keeps the input order: filtering a concatenation is the concatenation of the filtered parts. |
| `Models.LegalParticlesAmount` | src/main/java/ar/edu/itba/ss/off_lattice/models/Space.java:85-90 | The count after the four filter stages (x >= 0, x <= L, y >= 0, y <= L) never exceeds the list size. |
| `Streams.FilterKeepsAll` | src/main/java/ar/edu/itba/ss/off_lattice/models/Space.java:85-91 | A filter's count equals its input size exactly when every element satisfies the predicate. In that case the filter returns its input unchanged. |
| `Models.LegalAmountIff` | src/main/java/ar/edu/itba/ss/off_lattice/models/Space.java:85-91 | The four-stage legal count equals the list size exactly when every particle has 0 <= x <= L and 0 <= y <= L. |
| `Models.OneOutsideFallsShort` | src/main/java/ar/edu/itba/ss/off_lattice/models/Space.java:85-91 | One particle outside the square is enough for the legal count to fall below the list size. |
| `Models.ValidateParticlesList` | src/main/java/ar/edu/itba/ss/off_lattice/models/Space.java:82-94 | Passes exactly when the list is present and every particle lies in the closed square. An absent list fails with the "must not be null" error. A present list with an outside particle fails with the "not part of this space" error. |
| `Models.NewSpace` | src/main/java/ar/edu/itba/ss/off_lattice/models/Space.java:36-41 | Succeeds exactly when L > 0, the list is present and every particle is inside. On success it stores both values unchanged and the space is valid. The side-length check comes first, so L <= 0 fails with that error whatever the list is, even an absent one. Next comes the null check, then the bounds check. |
| `Models.OneOutsideRejects` | src/main/java/ar/edu/itba/ss/off_lattice/models/Space.java:85-93 | Construction fails when any single particle lies outside the square. When L > 0 the error is the "not part of this space" error. |
| `Models.CornersAccepted` | src/main/java/ar/edu/itba/ss/off_lattice/models/Space.java:86-89 | The bounds are closed: particles at all four corners (0 and L on each axis) are accepted. |
| `Models.Space.GetSideLength` | src/main/java/ar/edu/itba/ss/off_lattice/models/Space.java:46-48 | Returns the stored side length, which is strictly positive. |
| `Models.Space.GetParticles` | src/main/java/ar/edu/itba/ss/off_lattice/models/Space.java:53-55 | Returns a list with the same particles in the same order. Every particle in it lies inside the space. |
| `Models.RebuildFromGetters` | src/main/java/ar/edu/itba/ss/off_lattice/models/Space.java:36-55 | Constructing a space from another space's getters succeeds and gives back that same space. So getters and constructor are inverse to each other. |
| `Models.Space.SaveState` | src/main/java/ar/edu/itba/ss/off_lattice/models/Space.java:120-125 | The snapshot's side length is the space's positive side length. Its particle-state list is as long as the particle list, and element i is the saved state of particle i. |
| `Streams.MapSeq` | src/main/java/ar/edu/itba/ss/off_lattice/models/Space.java:121-123 | Mapping keeps the length, and element i of the result is the function applied to element i of the input. |
| `Models.SaveStateOfNewSpace` | src/main/java/ar/edu/itba/ss/off_lattice/models/Space.java:130-139 | For a space just built from L and a list, the snapshot's getters return exactly L and the list's particles mapped through their own snapshot operation. |

## Left out

- Floating point: side length and coordinates are Dafny `real`s. `Double.compare(sideLength, 0.0)` at Space.java:70 is modelled as `sideLength <= 0`. For `-0.0` the two agree: the source rejects it, and the model reads it as `0.0` and rejects it too. Reals cannot represent the other IEEE-754 values. The source accepts a NaN or `+Infinity` side length, since both compare greater than zero. It rejects a particle with a NaN coordinate, since every comparison at Space.java:86-89 is then false. None of these inputs is modelled.
- Null list elements: a particle in the model is always present. The source accepts a list that holds a `null` element up to line 86. There `point.getX()` throws a `NullPointerException`, not an illegal-argument exception. This failure is not modelled.
- Aliasing: Space.java:40 stores the caller's list by reference, so a caller could change the particles after construction. Values in Dafny cannot be mutated, so this is not modelled.
- Defensive copy and unchanged state: Space.java:54 returns a new list, and `saveState` does not change the space. Both hold by construction in a model of immutable values, so no member states them separately.
- `Particle` and `Particle.ParticleState` are not part of this model. A particle is reduced to `x`, `y` and an orientation that is carried along. Its snapshot operation is the parameter `saveParticle`.
- `State` and `StateSaver` are framework supertypes with no behaviour here and are not part of this model. Spring's `Assert.notNull` is modelled by the null-list error it throws.
- `SimulationArguments.java` only holds three injected configuration values (iterations, eta, M) and is not modelled.
- The cell index method, the orientation update, random noise and the simulation loop are not part of this model.
