/**
  The notification preference records the settings page reads and rebuilds.
  Their declarations live in the application's `structs/notifications.rs`,
  which is not part of this model; only the fields the settings page touches
  are modelled.
 */
module Notifications {
  import opened Wrappers

  /** The sound played by an alert; only which sound is selected matters here. */
  datatype Sound = Gulp | Pop | Swhoosh | NoSound

  type Multiplier = m: nat | m > 0 witness 1

  /**
    A display unit for byte thresholds, seen through its two accessors:
    `get_multiplier()` (the scale factor to raw bytes, positive) and
    `get_char()` (the suffix written after the scaled number).
   */
  datatype ByteMultiple = ByteMultiple(multiplier: Multiplier, suffix: string)

  /** `threshold == None` means the packets alert is disabled. */
  datatype PacketsNotification = PacketsNotification(
    threshold: Option<nat>,
    previousThreshold: nat,
    sound: Sound)

  /** `threshold` and `previousThreshold` are raw byte counts. */
  datatype BytesNotification = BytesNotification(
    threshold: Option<nat>,
    byteMultiple: ByteMultiple,
    previousThreshold: nat,
    sound: Sound)

  datatype FavoriteNotification = FavoriteNotification(notifyOnFavorite: bool, sound: Sound)

  /** `FavoriteNotification::on(sound)`. */
  function FavoriteOn(sound: Sound): (f: FavoriteNotification)
    ensures f.notifyOnFavorite && f.sound == sound
  {
    FavoriteNotification(true, sound)
  }

  /** `FavoriteNotification::off(sound)`. */
  function FavoriteOff(sound: Sound): (f: FavoriteNotification)
    ensures !f.notifyOnFavorite && f.sound == sound
  {
    FavoriteNotification(false, sound)
  }
}
