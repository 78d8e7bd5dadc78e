/** Particles and their deadlines (particle-protocol/src/particle.rs,
    aquamarine/src/deadline.rs). Identities are opaque numbers. */
module Particles {

  const U64_LIMIT := 0x1_0000_0000_0000_0000
  const U32_LIMIT := 0x1_0000_0000

  type U64 = n: nat | n < U64_LIMIT
  type U32 = n: nat | n < U32_LIMIT

  type PeerId = nat
  type ParticleId = nat

  datatype Particle = Particle(
    id: ParticleId,
    initPeer: PeerId,
    timestamp: U64,
    ttl: U32,
    script: string,
    signature: string,
    data: string
  )

  datatype Deadline = Deadline(timestamp: U64, ttl: U32) {
    /** A deadline that does not fit 64 bits counts as passed. */
    predicate IsExpired(now: U64) {
      timestamp + ttl >= U64_LIMIT || timestamp + ttl < now
    }
  }

  function DeadlineOf(p: Particle): Deadline {
    Deadline(p.timestamp, p.ttl)
  }

  /** Once passed, a deadline stays passed at every later reading of the clock. It
      has passed exactly when the reading exceeds `timestamp + ttl` or that sum
      does not fit into 64 bits. */
  lemma ExpiryIsFinal(d: Deadline, now: U64, later: U64)
    requires now <= later
    ensures d.IsExpired(now) ==> d.IsExpired(later)
    ensures !d.IsExpired(now) <==> now <= d.timestamp + d.ttl < U64_LIMIT
  {
  }

  /** A particle has expired exactly when its time to live is over, or when the end
      of it has no 64-bit value. */
  lemma ParticleExpiresExactly(p: Particle, now: U64)
    ensures !DeadlineOf(p).IsExpired(now) <==> now <= p.timestamp + p.ttl < U64_LIMIT
  {
  }
}
