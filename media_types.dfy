/**
 * Values shared by the playback engine, its data model and the media-browsing layer:
 * Java's 32-bit int arithmetic, the playback-state snapshot the session publishes, and
 * the queue entries it carries.
 */
module MediaTypes {

  datatype Option<+T> = None | Some(value: T)

  // ---------------------------------------------------------------------------
  // Java integer arithmetic

  const INT_MIN: int := -0x8000_0000
  const INT_MAX: int := 0x7FFF_FFFF
  const LONG_MIN: int := -0x8000_0000_0000_0000
  const LONG_MAX: int := 0x7FFF_FFFF_FFFF_FFFF

  /** x fits in a Java `int`. */
  predicate IsInt(x: int) { INT_MIN <= x <= INT_MAX }

  /** x fits in a Java `long`. */
  predicate IsLong(x: int) { LONG_MIN <= x <= LONG_MAX }

  /**
   * Two's-complement wrap-around to 32 bits: the result of Java `int` arithmetic whose exact
   * value is x, and also the narrowing cast `(int) x` of a `long`.
   */
  function WrapInt(x: int): (r: int)
    ensures IsInt(r)
    ensures IsInt(x) ==> r == x
    ensures (x - r) % 0x1_0000_0000 == 0
  {
    var m := x % 0x1_0000_0000;
    if m > INT_MAX then m - 0x1_0000_0000 else m
  }

  /** Incrementing the wrapped value wraps like incrementing the exact one. */
  lemma WrapIntSucc(x: int)
    ensures WrapInt(WrapInt(x) + 1) == WrapInt(x + 1)
  {
    var m := x % 0x1_0000_0000;
    var q := x / 0x1_0000_0000;
    assert x == q * 0x1_0000_0000 + m;
    if m == 0xFFFF_FFFF {
      assert (x + 1) % 0x1_0000_0000 == 0;
    } else {
      assert (x + 1) % 0x1_0000_0000 == m + 1;
    }
  }

  /**
   * Java's `a % b` for a positive divisor: the remainder takes the sign of the dividend
   * (Dafny's `%` is Euclidean and never negative).
   */
  function JavaRem(a: int, b: int): (r: int)
    requires b > 0
    ensures a >= 0 ==> 0 <= r < b && r == a % b
    ensures a < 0 ==> -b < r <= 0
    ensures (a - r) % b == 0
  {
    // truncating division: the magnitude of the remainder is |a| mod b
    if a >= 0 then
      RemovedRemainder(a, b);
      a % b
    else
      NegatedRemainder(-a, b);
      -((-a) % b)
  }

  /** A positive multiple of a positive b is at least b. */
  lemma MultipleAtLeast(k: int, b: int)
    requires k >= 1 && b > 0
    ensures k * b >= b
  {
    assert k * b == (k - 1) * b + b;
    assert (k - 1) * b >= 0;
  }

  /** A multiple of b leaves no remainder. */
  lemma MultipleMod(q: int, b: int)
    requires b > 0
    ensures (q * b) % b == 0
  {
    var m := (q * b) % b;
    var d := (q * b) / b;
    assert q * b == d * b + m;
    assert (q - d) * b == q * b - d * b;
    if q - d >= 1 {
      MultipleAtLeast(q - d, b);
    } else if q - d <= -1 {
      MultipleAtLeast(d - q, b);
    }
  }

  /** Taking away n's remainder leaves a multiple of b. */
  lemma RemovedRemainder(n: int, b: int)
    requires b > 0
    ensures (n - n % b) % b == 0
  {
    var q := n / b;
    assert n - n % b == q * b;
    MultipleMod(q, b);
  }

  /** Adding back n's remainder to -n gives a multiple of b. */
  lemma NegatedRemainder(n: int, b: int)
    requires n > 0 && b > 0
    ensures (-n + n % b) % b == 0
  {
    var q := n / b;
    assert n == q * b + n % b;
    assert -n + n % b == (-q) * b;
    MultipleMod(-q, b);
  }

  /** Below the divisor the remainder is the dividend. */
  lemma JavaRemSmall(a: int, b: int)
    requires 0 <= a < b
    ensures JavaRem(a, b) == a
  {
    assert a % b == a;
  }

  /** The divisor itself leaves no remainder. */
  lemma JavaRemSelf(b: int)
    requires b > 0
    ensures JavaRem(b, b) == 0
  {
    assert b % b == 0;
  }

  // ---------------------------------------------------------------------------
  // android.media.session.PlaybackState (the compat class uses the same values)

  const STATE_NONE: int := 0
  const STATE_STOPPED: int := 1
  const STATE_PAUSED: int := 2
  const STATE_PLAYING: int := 3
  const STATE_FAST_FORWARDING: int := 4
  const STATE_REWINDING: int := 5
  const STATE_BUFFERING: int := 6
  const STATE_ERROR: int := 7
  const STATE_CONNECTING: int := 8
  const STATE_SKIPPING_TO_PREVIOUS: int := 9
  const STATE_SKIPPING_TO_NEXT: int := 10
  const STATE_SKIPPING_TO_QUEUE_ITEM: int := 11

  const ACTION_STOP: bv64 := 0x1
  const ACTION_PAUSE: bv64 := 0x2
  const ACTION_PLAY: bv64 := 0x4
  const ACTION_REWIND: bv64 := 0x8
  const ACTION_SKIP_TO_PREVIOUS: bv64 := 0x10
  const ACTION_SKIP_TO_NEXT: bv64 := 0x20
  const ACTION_FAST_FORWARD: bv64 := 0x40
  const ACTION_SET_RATING: bv64 := 0x80
  const ACTION_SEEK_TO: bv64 := 0x100
  const ACTION_PLAY_PAUSE: bv64 := 0x200
  const ACTION_PLAY_FROM_MEDIA_ID: bv64 := 0x400
  const ACTION_PLAY_FROM_SEARCH: bv64 := 0x800
  const ACTION_SKIP_TO_QUEUE_ITEM: bv64 := 0x1000

  /** MediaSession.QueueItem.UNKNOWN_ID, the active item of a state that names none. */
  const UNKNOWN_ID: int := -1

  /** Whether the actions bitmask contains the given action bit(s). */
  predicate HasAction(actions: bv64, action: bv64) { actions & action != 0 }

  /** The error text a state carries; the permission error also carries a remediation action. */
  datatype ErrorMessage = NoError | PlaybackError | PermissionError

  /** A custom action offered by the session, named by its action string. */
  datatype CustomAction = CustomAction(action: string)

  /**
   * A playback-state snapshot as published to the session: the state code, the position in
   * milliseconds, the supported-actions bitmask, the active queue item id, the custom actions
   * and the error message. Playback speed is a float constant (1.0) and is not modelled.
   */
  datatype PlaybackState = PlaybackState(
    state: int,
    position: int,
    actions: bv64,
    activeQueueItemId: int,
    customActions: seq<CustomAction>,
    error: ErrorMessage)

  // ---------------------------------------------------------------------------
  // Queue entries

  /**
   * The fields of a MediaDescription the engine reads: media id, title, subtitle and the
   * file path stored in its extras under the PATH key.
   */
  datatype MediaDescription = MediaDescription(mediaId: string, title: string, subtitle: string, path: string)

  /** MediaSession.QueueItem: a description and the queue id used for skip-to-item. */
  datatype QueueItem = QueueItem(description: MediaDescription, queueId: int)
}
