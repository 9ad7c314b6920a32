/**
 * Value types that TrackInfo stores but that are defined elsewhere in the
 * player (SafeUri, TrackAttributes, StreamPlaybackError) or in the .NET
 * runtime (TimeSpan, DateTime, nullable references, 32-bit int).
 */
module BansheeTypes {

  /** A .NET reference that may be null. */
  datatype Nullable<+T> = Null | NonNull(value: T)

  /** String.IsNullOrEmpty. */
  predicate IsNullOrEmpty(s: Nullable<string>) {
    s.Null? || s.value == []
  }

  /** The C# `int` the properties store: a 32-bit signed integer. */
  newtype int32 = x: int | -0x8000_0000 <= x < 0x8000_0000

  /**
   * A parsed URI. Parsing is not part of this model: a SafeUri is known only
   * through the two views TrackInfo reads, its absolute URI and its path.
   */
  datatype SafeUri = SafeUri(absoluteUri: string, absolutePath: string)

  /** System.TimeSpan, an opaque tick count. */
  datatype TimeSpan = TimeSpan(ticks: int)

  /** System.DateTime, an opaque tick count; default(DateTime) has 0 ticks. */
  datatype DateTime = DateTime(ticks: int)

  /**
   * The playback error of a stream: None, or one of the other members of
   * the enumeration, which are represented by a code.
   */
  datatype StreamPlaybackError = None | Failed(code: int)

  /** The [Flags] enumeration TrackAttributes, as its 32-bit mask. */
  type TrackAttributes = bv32

  /** Bit positions of the two flags TrackInfo tests. */
  const CanPlayBit: nat := 0
  const IsLiveBit: nat := 1

  const CanPlayFlag: TrackAttributes := 1 << CanPlayBit
  const IsLiveFlag: TrackAttributes := 1 << IsLiveBit

  /** `(attributes & flag) == flag`, the C# idiom for a flag test. */
  predicate HasFlag(attributes: TrackAttributes, flag: TrackAttributes) {
    attributes & flag == flag
  }

  /** Bit k of a mask. */
  predicate BitSet(attributes: TrackAttributes, k: nat)
    requires k < 32
  {
    (attributes >> k) & 1 == 1
  }

  /** For a single-bit flag, the flag test reads exactly that one bit. */
  lemma SingleBitFlag(attributes: TrackAttributes, k: nat)
    requires k < 32
    ensures HasFlag(attributes, 1 << k) <==> BitSet(attributes, k)
  {
  }

  /** Two masks that agree on bit k give the same answer to the test of flag 1 << k. */
  lemma FlagIgnoresOtherBits(a: TrackAttributes, b: TrackAttributes, k: nat)
    requires k < 32
    requires BitSet(a, k) == BitSet(b, k)
    ensures HasFlag(a, 1 << k) == HasFlag(b, 1 << k)
  {
    SingleBitFlag(a, k);
    SingleBitFlag(b, k);
  }
}
