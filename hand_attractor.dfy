/** The `hand-attractor` component of the A-Frame version: gesture events
    switch a per-hand attractor on and off, registering the component itself
    with the CPU particle system. */
module HandAttractor {
  import SynestheticParticles
  import Common

  /** The mode argument of `activate`: `null` (the default pinch) or
      'freeze' (from a fist). */
  datatype Mode = DefaultMode | Freeze

  /** The mode the particle system reads from `data.mode`. */
  datatype DataMode = Orb | FreezeData

  /** What `this.particles` points to. */
  datatype ParticlesRef =
    | NoParticles
    | CpuParticles(sys: SynestheticParticles.ParticleSystem)
    | GpuParticles

  /** Strength, radius and `data.mode` written when registering with the CPU
      system: 'freeze' gives 0, 100 and 'freeze'; the default gives 50, 8
      and 'orb'. */
  function Settings(m: Mode): (r: (real, real, DataMode))
    ensures m == Freeze ==> r == (0.0, 100.0, FreezeData)
    ensures m == DefaultMode ==> r == (50.0, 8.0, Orb)
  {
    if m == Freeze then (0.0, 100.0, FreezeData) else (50.0, 8.0, Orb)
  }

  class HandAttractor {
    var isActive: bool
    /** `this.mode`, the argument of the last effective `activate`. */
    var mode: Mode
    var strength: real
    var radius: real
    var dataMode: DataMode
    var particles: ParticlesRef
    var isGPU: bool

    /** `init`: inactive, schema strength 1 and radius 0.5, and the CPU
        particle system if the scene already has one. */
    constructor (found: SynestheticParticles.ParticleSystem?)
      ensures !isActive && strength == 1.0 && radius == 0.5 && !isGPU
      ensures particles == if found != null then CpuParticles(found) else NoParticles
    {
      isActive := false;
      mode := DefaultMode;
      strength := 1.0;
      radius := 0.5;
      dataMode := Orb;
      isGPU := false;
      particles := if found != null then CpuParticles(found) else NoParticles;
    }

    /** The scene `loaded` listener (installed when `init` found nothing):
        query the CPU particle system again, without touching `isGPU`. */
    method SceneLoaded(found: SynestheticParticles.ParticleSystem?)
      modifies this`particles
      ensures particles == if found != null then CpuParticles(found) else NoParticles
    {
      particles := if found != null then CpuParticles(found) else NoParticles;
    }

    /** `activate(mode)`. `cpu` and `gpu` are the results of the two
        `querySelector` calls made when no particle system is known yet.
        Returns whether the call did anything. */
    method Activate(m: Mode, cpu: SynestheticParticles.ParticleSystem?, gpu: bool) returns (acted: bool)
      requires particles.CpuParticles? ==> particles.sys.Valid()
      requires cpu != null ==> cpu.Valid()
      modifies this`isActive, this`mode, this`particles, this`isGPU, this`strength, this`radius, this`dataMode
      modifies (if particles.CpuParticles? then {particles.sys} else {})`attractors
      modifies (if cpu != null then {cpu} else {})`attractors
      ensures acted <==> !(old(isActive) && old(mode) == m)
      ensures !acted ==>
        isActive == old(isActive) && mode == old(mode) && particles == old(particles)
        && strength == old(strength) && radius == old(radius) && dataMode == old(dataMode)
        && isGPU == old(isGPU)
        && (particles.CpuParticles? ==> particles.sys.attractors == old(particles.sys.attractors))
      ensures acted ==> isActive && mode == m
      ensures acted && old(particles) == NoParticles && cpu != null ==> particles == CpuParticles(cpu) && !isGPU
      ensures acted && old(particles) == NoParticles && cpu == null && gpu ==> particles == GpuParticles && isGPU
      ensures acted && old(particles) == NoParticles && cpu == null && !gpu ==> particles == NoParticles
      ensures acted && old(particles) != NoParticles ==> particles == old(particles) && isGPU == old(isGPU)
      ensures particles.CpuParticles? ==> particles.sys.Valid()
      ensures acted && particles.CpuParticles? && !isGPU ==>
        (strength, radius, dataMode) == Settings(m)
        && var sys := particles.sys; sys.attractors == SynestheticParticles.AddUnique(old(sys.attractors), this)
      ensures acted && (particles == NoParticles || isGPU) ==>
        strength == old(strength) && radius == old(radius) && dataMode == old(dataMode)
      ensures acted && particles.CpuParticles? && isGPU ==>
        particles.sys.attractors == old(particles.sys.attractors)
      ensures cpu != null && !(particles.CpuParticles? && particles.sys == cpu) ==>
        cpu.attractors == old(cpu.attractors)
    {
      if isActive && mode == m {
        return false;
      }
      isActive := true;
      mode := m;
      if particles == NoParticles {
        if cpu != null {
          particles := CpuParticles(cpu);
          isGPU := false;
        } else if gpu {
          particles := GpuParticles;
          isGPU := true;
        }
      }
      if particles != NoParticles {
        if isGPU {
          return true;
        }
        if particles.CpuParticles? {
          var (s, r, d) := Settings(m);
          strength, radius, dataMode := s, r, d;
          particles.sys.AddAttractor(this);
        }
      }
      return true;
    }

    /** `deactivate`: nothing when inactive; otherwise clear `isActive` and
        remove this attractor from the particle system. The GPU system has
        no `removeAttractor`, so with it the call throws after clearing the
        flag; `threw` reports that. */
    method Deactivate() returns (threw: bool)
      requires particles.CpuParticles? ==> particles.sys.Valid()
      modifies this`isActive
      modifies (if particles.CpuParticles? then {particles.sys} else {})`attractors
      ensures !isActive
      ensures threw <==> old(isActive) && particles == GpuParticles
      ensures particles.CpuParticles? ==> particles.sys.Valid()
      ensures particles.CpuParticles? && old(isActive) ==>
        particles.sys.attractors == Common.RemoveFirst(old(particles.sys.attractors), this)
        && this !in particles.sys.attractors
      ensures particles.CpuParticles? && !old(isActive) ==>
        particles.sys.attractors == old(particles.sys.attractors)
    {
      if !isActive {
        return false;
      }
      isActive := false;
      match particles {
        case NoParticles => return false;
        case CpuParticles(sys) =>
          sys.RemoveAttractor(this);
          return false;
        case GpuParticles => return true;
      }
    }
  }
}
