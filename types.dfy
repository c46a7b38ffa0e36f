/**
 * Shared vocabulary of the AcousticGuard core: the enumerations and records of
 * types.ts, the configuration constants of constants.ts, and an Option type for
 * the operations that may produce nothing.
 */
module Types {

  datatype Option<+T> = None | Some(value: T)

  /** Coarse label the spectral classifier gives a detected event. */
  datatype SoundType = Environment | Structure | Voice

  /** Hearing-safety band of one loudness reading. */
  datatype SafetyLevel = Safe | Warning | Danger

  /**
   * One detected anomaly. The source draws `id` from Math.random; here it is a
   * counter value, which keeps ids unique within a session.
   * `relativeTime` is in seconds since the recording started.
   */
  datatype AudioEvent = AudioEvent(
    id: nat,
    timestamp: int,
    relativeTime: real,
    db: nat,
    kind: SoundType)

  /** The rolling statistics shown to the user. */
  datatype AudioStats = AudioStats(current: int, max: int, min: int, avg: int)

  const DbThresholdWarning: nat := 50
  const DbThresholdDanger: nat := 70
  const SampleRate: nat := 44100
  const FftSize: nat := 2048
  /** Upper edge, in Hz, of the band the classifier calls low frequency. */
  const LowFreqBound: nat := 200

  /** Minimum gap, in milliseconds, between two recorded events. */
  const EventCooldownMs: int := 2000

  /** The statistics a session starts from and returns to on reset. */
  const InitialStats: AudioStats := AudioStats(30, 0, 100, 0)
}
