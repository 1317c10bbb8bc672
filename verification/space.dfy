/**
 * The square simulation domain of the off-lattice (Vicsek-style) simulation:
 * a side length and the particles inside it, validated once on construction,
 * read through copying getters and captured as immutable snapshots.
 */
module Models {
  import opened Wrappers
  import opened Streams

  /**
   * A self-propelled point particle. Only its position is inspected by the
   * domain; the orientation is carried along untouched.
   */
  datatype Particle = Particle(x: real, y: real, orientation: real)

  /** Every failure of the domain is an illegal-argument exception with a message. */
  datatype Error = IllegalArgument(message: string)

  const SideLengthNotPositive := "The side length must be positive"
  const ParticlesListNull := "The particles list must not be null."
  const ParticlesOutsideSpace := "There are particles that are not part of this space"

  /** The four bound checks, one per filter stage of the particle-list validation. */
  predicate XNotNegative(p: Particle) { p.x >= 0.0 }
  function XAtMost(sideLength: real): Particle -> bool { (p: Particle) => p.x <= sideLength }
  predicate YNotNegative(p: Particle) { p.y >= 0.0 }
  function YAtMost(sideLength: real): Particle -> bool { (p: Particle) => p.y <= sideLength }

  /** `p` lies in the closed square [0, sideLength] x [0, sideLength]. */
  predicate InSpace(p: Particle, sideLength: real) {
    0.0 <= p.x <= sideLength && 0.0 <= p.y <= sideLength
  }

  predicate AllInSpace(particles: seq<Particle>, sideLength: real) {
    forall i :: 0 <= i < |particles| ==> InSpace(particles[i], sideLength)
  }

  /** The number of particles that pass all four filter stages, counted as the validator counts them. */
  function LegalParticlesAmount(particles: seq<Particle>, sideLength: real): (r: nat)
    ensures r <= |particles|
  {
    var notLeft := Filter(particles, XNotNegative);
    var notRight := Filter(notLeft, XAtMost(sideLength));
    var notBelow := Filter(notRight, YNotNegative);
    |Filter(notBelow, YAtMost(sideLength))|
  }

  /** The legal count equals the list size exactly when every particle lies in the space. */
  lemma LegalAmountIff(particles: seq<Particle>, sideLength: real)
    ensures LegalParticlesAmount(particles, sideLength) == |particles| <==> AllInSpace(particles, sideLength)
  {
    var notLeft := Filter(particles, XNotNegative);
    var notRight := Filter(notLeft, XAtMost(sideLength));
    var notBelow := Filter(notRight, YNotNegative);
    var legal := Filter(notBelow, YAtMost(sideLength));
    FilterKeepsAll(particles, XNotNegative);
    FilterKeepsAll(notLeft, XAtMost(sideLength));
    FilterKeepsAll(notRight, YNotNegative);
    FilterKeepsAll(notBelow, YAtMost(sideLength));
    if |legal| == |particles| {
      forall i | 0 <= i < |particles| ensures InSpace(particles[i], sideLength) {
        assert XAtMost(sideLength)(notLeft[i]);
        assert YAtMost(sideLength)(notBelow[i]);
      }
    }
    if AllInSpace(particles, sideLength) {
      forall i | 0 <= i < |particles| ensures XAtMost(sideLength)(particles[i]) && YAtMost(sideLength)(particles[i]) {
        assert InSpace(particles[i], sideLength);
      }
    }
  }

  /** A single particle outside the space is enough to make the legal count fall short of the size. */
  lemma OneOutsideFallsShort(particles: seq<Particle>, sideLength: real, i: int)
    requires 0 <= i < |particles| && !InSpace(particles[i], sideLength)
    ensures LegalParticlesAmount(particles, sideLength) < |particles|
  {
    LegalAmountIff(particles, sideLength);
  }

  /** The side length must be strictly positive. */
  function ValidateSideLength(sideLength: real): (r: Outcome<Error>)
    ensures r.Pass? <==> sideLength > 0.0
    ensures r.Fail? ==> r.error == IllegalArgument(SideLengthNotPositive)
  {
    if sideLength <= 0.0 then Fail(IllegalArgument(SideLengthNotPositive)) else Pass
  }

  /** The list must be present and every particle must lie in the closed square. */
  function ValidateParticlesList(particles: Option<seq<Particle>>, sideLength: real): (r: Outcome<Error>)
    ensures r.Pass? <==> particles.Some? && AllInSpace(particles.value, sideLength)
    ensures particles.None? ==> r == Fail(IllegalArgument(ParticlesListNull))
    ensures particles.Some? && !AllInSpace(particles.value, sideLength) ==>
              r == Fail(IllegalArgument(ParticlesOutsideSpace))
  {
    match particles
    case None => Fail(IllegalArgument(ParticlesListNull))
    case Some(list) =>
      LegalAmountIff(list, sideLength);
      if LegalParticlesAmount(list, sideLength) != |list| then Fail(IllegalArgument(ParticlesOutsideSpace))
      else Pass
  }

  /** A snapshot of a space: the saved state of each particle, in order, and the side length. */
  datatype SpaceState<S> = SpaceState(particleStates: seq<S>, spaceSideLength: real)

  /** A square domain of side `sideLength` holding `particles`, in order. */
  datatype Space = Space(sideLength: real, particles: seq<Particle>) {

    /** What construction guarantees of every space. */
    predicate Valid() {
      sideLength > 0.0 && AllInSpace(particles, sideLength)
    }

    function GetSideLength(): (r: real)
      requires Valid()
      ensures r > 0.0 && r == sideLength
    {
      sideLength
    }

    /** A copy of the particle list: same particles, same order, all inside the space. */
    function GetParticles(): (r: seq<Particle>)
      requires Valid()
      ensures |r| == |particles| && forall i :: 0 <= i < |r| ==> r[i] == particles[i]
      ensures AllInSpace(r, GetSideLength())
    {
      particles[..]
    }

    /**
     * A snapshot built from the copied particle list and the side length;
     * `saveParticle` stands for the particle's own (unseen) snapshot operation.
     */
    function SaveState<S>(saveParticle: Particle -> S): (r: SpaceState<S>)
      requires Valid()
      ensures r.spaceSideLength == sideLength && r.spaceSideLength > 0.0
      ensures |r.particleStates| == |particles|
      ensures forall i :: 0 <= i < |particles| ==> r.particleStates[i] == saveParticle(particles[i])
    {
      SpaceState(MapSeq(GetParticles(), saveParticle), GetSideLength())
    }
  }

  /**
   * The validating constructor: the side length is checked first, then the
   * particle list; on success both are stored as given.
   */
  function NewSpace(sideLength: real, particles: Option<seq<Particle>>): (r: Result<Space, Error>)
    ensures r.Ok? <==> sideLength > 0.0 && particles.Some? && AllInSpace(particles.value, sideLength)
    ensures r.Ok? ==> r.value.Valid() && r.value.sideLength == sideLength && r.value.particles == particles.value
    ensures sideLength <= 0.0 ==> r == Err(IllegalArgument(SideLengthNotPositive))
    ensures sideLength > 0.0 && particles.None? ==> r == Err(IllegalArgument(ParticlesListNull))
    ensures sideLength > 0.0 && particles.Some? && !AllInSpace(particles.value, sideLength) ==>
              r == Err(IllegalArgument(ParticlesOutsideSpace))
  {
    match ValidateSideLength(sideLength)
    case Fail(e) => Err(e)
    case Pass =>
      match ValidateParticlesList(particles, sideLength)
      case Fail(e) => Err(e)
      case Pass => Ok(Space(sideLength, particles.value))
  }

  /** A single out-of-range particle makes construction fail, whatever the rest of the list. */
  lemma OneOutsideRejects(sideLength: real, particles: seq<Particle>, i: int)
    requires 0 <= i < |particles| && !InSpace(particles[i], sideLength)
    ensures NewSpace(sideLength, Some(particles)).Err?
    ensures sideLength > 0.0 ==> NewSpace(sideLength, Some(particles)) == Err(IllegalArgument(ParticlesOutsideSpace))
  {
  }

  /** The bounds are closed: particles at the corners of the square are accepted. */
  lemma CornersAccepted(sideLength: real, orientation: real)
    requires sideLength > 0.0
    ensures NewSpace(sideLength, Some([Particle(0.0, 0.0, orientation), Particle(sideLength, 0.0, orientation),
                                       Particle(0.0, sideLength, orientation), Particle(sideLength, sideLength, orientation)])).Ok?
  {
    var corners := [Particle(0.0, 0.0, orientation), Particle(sideLength, 0.0, orientation),
                    Particle(0.0, sideLength, orientation), Particle(sideLength, sideLength, orientation)];
    assert AllInSpace(corners, sideLength);
  }

  /** Rebuilding a space from its own getters gives back the same space. */
  lemma RebuildFromGetters(s: Space)
    requires s.Valid()
    ensures NewSpace(s.GetSideLength(), Some(s.GetParticles())) == Ok(s)
  {
  }

  /** A snapshot of a freshly built space records exactly the supplied side length and particles. */
  lemma SaveStateOfNewSpace<S>(sideLength: real, particles: seq<Particle>, saveParticle: Particle -> S)
    requires NewSpace(sideLength, Some(particles)).Ok?
    ensures NewSpace(sideLength, Some(particles)).value.SaveState(saveParticle)
              == SpaceState(MapSeq(particles, saveParticle), sideLength)
  {
  }
}
