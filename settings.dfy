/**
  The behaviour of the notification part of the settings page
  (`gui/pages/settings.rs`): the messages its checkboxes and text inputs emit,
  which rows each notification block shows, and the text shown in the
  threshold inputs. Widget layout and styling carry no behaviour and are not
  modelled.
 */
module Settings {
  import opened Wrappers
  import opened Decimal
  import opened Notifications

  /**
    The update messages the notification blocks emit. The flag is the second
    argument of the source's `Message::Update*Notification` variants: whether
    applying the update should also play the selected sound.
   */
  datatype Message =
    | UpdatePacketsNotification(packets: PacketsNotification, emitSound: bool)
    | UpdateBytesNotification(bytes: BytesNotification, emitSound: bool)
    | UpdateFavoriteNotification(favorite: FavoriteNotification, emitSound: bool)

  /** A threshold text input: its placeholder and the text it currently shows. */
  datatype InputGroup = InputGroup(placeholder: string, value: string)

  /**
    What one notification block shows: the state of its checkbox, the threshold
    input row when there is one, and the sound row when there is one (holding
    the sound its radios show as selected).
   */
  datatype NotifyPanel = NotifyPanel(checked: bool, input: Option<InputGroup>, soundRow: Option<Sound>)

  /*********************************************************************
   * Packets threshold
   *********************************************************************/

  /** The checkbox callback of the packets block. */
  function OnPacketsToggled(p: PacketsNotification, toggled: bool): (m: Message)
    ensures m.UpdatePacketsNotification? && !m.emitSound
    ensures m.packets.threshold.Some? == toggled
    ensures toggled ==> m.packets.threshold.value == p.previousThreshold
    ensures m.packets.previousThreshold == p.previousThreshold && m.packets.sound == p.sound
  {
    if toggled then
      UpdatePacketsNotification(p.(threshold := Some(p.previousThreshold)), false)
    else
      UpdatePacketsNotification(p.(threshold := None), false)
  }

  /**
    The callback of the packets threshold input. `from` is
    `PacketsNotification::from`, which parses the typed text; it is defined
    outside the settings page and is a parameter here.
   */
  function OnPacketsInput(
    p: PacketsNotification,
    value: string,
    from: (string, Option<PacketsNotification>) -> PacketsNotification): (m: Message)
    ensures m.UpdatePacketsNotification? && !m.emitSound
    ensures m.packets == from(value, Some(p))
  {
    UpdatePacketsNotification(from(value, Some(p)), false)
  }

  /**
    The packets threshold input, built only for an enabled record: the source
    unwraps the threshold, which panics on `None`. A zero threshold shows as
    the empty text (so the placeholder "0" appears); any other threshold
    shows as its decimal rendering.
   */
  function InputGroupPackets(p: PacketsNotification): (g: InputGroup)
    requires p.threshold.Some?
    ensures g.placeholder == "0"
    ensures g.value == "" <==> p.threshold.value == 0
    ensures g.value != "" ==> Canonical(g.value) && ParseDecimal(g.value) == p.threshold.value
  {
    ParseToDecimal(p.threshold.value);
    var shown := ToDecimal(p.threshold.value);
    InputGroup("0", if shown == "0" then "" else shown)
  }

  /** The packets block: the threshold and sound rows appear exactly when the checkbox is checked. */
  function PacketsNotify(p: PacketsNotification): (v: NotifyPanel)
    ensures v.checked <==> p.threshold.Some?
    ensures v.input.Some? <==> v.checked
    ensures v.soundRow == (if v.checked then Some(p.sound) else None)
    ensures v.input.Some? ==> p.threshold.Some? && v.input.value == InputGroupPackets(p)
  {
    var checked := p.threshold.Some?;
    if p.threshold.None? then
      NotifyPanel(checked, None, None)
    else
      NotifyPanel(checked, Some(InputGroupPackets(p)), Some(p.sound))
  }

  /** An enabled packets record sits at its remembered threshold. */
  predicate PacketsConsistent(p: PacketsNotification) {
    p.threshold.None? || p.threshold == Some(p.previousThreshold)
  }

  /** After a toggle the block shows the checkbox in the toggled state, with its rows. */
  lemma PacketsToggleShown(p: PacketsNotification, toggled: bool)
    ensures PacketsNotify(OnPacketsToggled(p, toggled).packets).checked == toggled
    ensures toggled ==> PacketsNotify(OnPacketsToggled(p, toggled).packets).input
                        == Some(InputGroupPackets(p.(threshold := Some(p.previousThreshold))))
  {
  }

  /** Every toggle result is consistent, whatever the starting record. */
  lemma PacketsTogglePreservesConsistent(p: PacketsNotification, toggled: bool)
    ensures PacketsConsistent(OnPacketsToggled(p, toggled).packets)
  {
  }

  /** Applying the same toggle twice is the same as applying it once. */
  lemma PacketsToggleIdempotent(p: PacketsNotification, toggled: bool)
    ensures OnPacketsToggled(OnPacketsToggled(p, toggled).packets, toggled) == OnPacketsToggled(p, toggled)
  {
  }

  /**
    Unchecking then checking gives `Some(previousThreshold)`; this restores the
    original record exactly when it was enabled at its remembered
    threshold.
   */
  lemma PacketsOffThenOn(p: PacketsNotification)
    ensures OnPacketsToggled(OnPacketsToggled(p, false).packets, true).packets.threshold == Some(p.previousThreshold)
    ensures OnPacketsToggled(OnPacketsToggled(p, false).packets, true).packets == p
            <==> p.threshold == Some(p.previousThreshold)
  {
  }

  /**
    Unchecking does not save the current threshold: a record enabled at 7 whose
    remembered threshold is 3 comes back at 3.
   */
  lemma PacketsOffDoesNotSnapshot()
    ensures var p := PacketsNotification(Some(7), 3, Pop);
            OnPacketsToggled(OnPacketsToggled(p, false).packets, true).packets.threshold == Some(3)
  {
  }

  /*********************************************************************
   * Bytes threshold
   *********************************************************************/

  /** The checkbox callback of the bytes block. */
  function OnBytesToggled(b: BytesNotification, toggled: bool): (m: Message)
    ensures m.UpdateBytesNotification? && !m.emitSound
    ensures m.bytes.threshold.Some? == toggled
    ensures toggled ==> m.bytes.threshold.value == b.previousThreshold
    ensures m.bytes.previousThreshold == b.previousThreshold && m.bytes.sound == b.sound
    ensures m.bytes.byteMultiple == b.byteMultiple
  {
    if toggled then
      UpdateBytesNotification(b.(threshold := Some(b.previousThreshold)), false)
    else
      UpdateBytesNotification(b.(threshold := None), false)
  }

  /**
    The callback of the bytes threshold input. `from` is
    `BytesNotification::from`, defined outside the settings page.
   */
  function OnBytesInput(
    b: BytesNotification,
    value: string,
    from: (string, Option<BytesNotification>) -> BytesNotification): (m: Message)
    ensures m.UpdateBytesNotification? && !m.emitSound
    ensures m.bytes == from(value, Some(b))
  {
    UpdateBytesNotification(from(value, Some(b)), false)
  }

  /** The number of whole units in a raw byte count: Rust's `u64` division. */
  function WholeUnits(bytes: nat, unit: ByteMultiple): (q: nat)
    ensures q * unit.multiplier <= bytes < (q + 1) * unit.multiplier
  {
    bytes / unit.multiplier
  }

  /**
    The text of the bytes input for `units` whole units: the units' decimal
    rendering followed by the suffix, with "0" shown as the empty text.
   */
  function UnitsText(units: nat, suffix: string): (s: string)
    ensures s == "" <==> units == 0 && suffix == ""
    ensures s != "" ==>
              var cut := |s| - |suffix|;
              && 0 < cut
              && s[cut..] == suffix
              && Canonical(s[..cut])
              && ParseDecimal(s[..cut]) == units
  {
    ParseToDecimal(units);
    SuffixedLayout(ToDecimal(units), suffix);
    var shown := ToDecimal(units) + suffix;
    if shown == "0" then "" else shown
  }

  /** A number followed by a unit suffix reads "0" only for the number 0 with no suffix. */
  lemma SuffixedLayout(digits: string, suffix: string)
    requires |digits| >= 1
    ensures digits + suffix == "0" <==> digits == "0" && suffix == ""
    ensures (digits + suffix)[..|digits|] == digits && (digits + suffix)[|digits|..] == suffix
  {
    if digits + suffix == "0" {
      assert |suffix| == 0;
      assert digits == (digits + suffix)[..|digits|];
    }
  }

  /**
    The bytes threshold input, built only for an enabled record. It shows the
    number of whole units in the raw threshold followed by the unit's suffix;
    the text "0" (no whole unit, empty suffix) shows as the empty text.
   */
  function InputGroupBytes(b: BytesNotification): (g: InputGroup)
    requires b.threshold.Some?
    ensures g.placeholder == "0"
    ensures g.value == "" <==> b.threshold.value < b.byteMultiple.multiplier && b.byteMultiple.suffix == ""
    ensures g.value != "" ==>
              var cut := |g.value| - |b.byteMultiple.suffix|;
              && 0 < cut
              && g.value[cut..] == b.byteMultiple.suffix
              && Canonical(g.value[..cut])
              && ParseDecimal(g.value[..cut]) == WholeUnits(b.threshold.value, b.byteMultiple)
  {
    var q := WholeUnits(b.threshold.value, b.byteMultiple);
    assert q == 0 <==> b.threshold.value < b.byteMultiple.multiplier by {
      if q > 0 {
        assert q * b.byteMultiple.multiplier >= b.byteMultiple.multiplier;
      }
    }
    InputGroup("0", UnitsText(q, b.byteMultiple.suffix))
  }

  /** The bytes block: the threshold and sound rows appear exactly when the checkbox is checked. */
  function BytesNotify(b: BytesNotification): (v: NotifyPanel)
    ensures v.checked <==> b.threshold.Some?
    ensures v.input.Some? <==> v.checked
    ensures v.soundRow == (if v.checked then Some(b.sound) else None)
    ensures v.input.Some? ==> b.threshold.Some? && v.input.value == InputGroupBytes(b)
  {
    var checked := b.threshold.Some?;
    if b.threshold.None? then
      NotifyPanel(checked, None, None)
    else
      NotifyPanel(checked, Some(InputGroupBytes(b)), Some(b.sound))
  }

  /** An enabled bytes record sits at its remembered threshold. */
  predicate BytesConsistent(b: BytesNotification) {
    b.threshold.None? || b.threshold == Some(b.previousThreshold)
  }

  /** After a toggle the block shows the checkbox in the toggled state, with its rows. */
  lemma BytesToggleShown(b: BytesNotification, toggled: bool)
    ensures BytesNotify(OnBytesToggled(b, toggled).bytes).checked == toggled
    ensures toggled ==> BytesNotify(OnBytesToggled(b, toggled).bytes).input
                        == Some(InputGroupBytes(b.(threshold := Some(b.previousThreshold))))
  {
  }

  /** Every toggle result is consistent, whatever the starting record. */
  lemma BytesTogglePreservesConsistent(b: BytesNotification, toggled: bool)
    ensures BytesConsistent(OnBytesToggled(b, toggled).bytes)
  {
  }

  /** Applying the same toggle twice is the same as applying it once. */
  lemma BytesToggleIdempotent(b: BytesNotification, toggled: bool)
    ensures OnBytesToggled(OnBytesToggled(b, toggled).bytes, toggled) == OnBytesToggled(b, toggled)
  {
  }

  /**
    Unchecking then checking gives `Some(previousThreshold)`; this restores the
    original record, unit included, exactly when it was enabled at its remembered
    threshold.
   */
  lemma BytesOffThenOn(b: BytesNotification)
    ensures OnBytesToggled(OnBytesToggled(b, false).bytes, true).bytes.threshold == Some(b.previousThreshold)
    ensures OnBytesToggled(OnBytesToggled(b, false).bytes, true).bytes == b
            <==> b.threshold == Some(b.previousThreshold)
  {
  }

  /**
    A 5 000 000-byte threshold in a unit of 1 000 000 bytes with suffix "M" is
    disabled and re-enabled at the same raw value, and shows as "5M".
   */
  lemma BytesDisableEnableExample()
    ensures var b := BytesNotification(Some(5000000), ByteMultiple(1000000, "M"), 5000000, Pop);
            var off := OnBytesToggled(b, false).bytes;
            var on := OnBytesToggled(off, true).bytes;
            && off.threshold == None && off.previousThreshold == 5000000
            && on == b
            && InputGroupBytes(on).value == "5M"
  {
  }

  /**
    The shown number is truncated, not the stored one: 1 500 000 bytes show as
    "1500K" in a unit of 1000 and as "1M" in a unit of 1 000 000.
   */
  lemma BytesUnitDisplayExample()
    ensures InputGroupBytes(BytesNotification(Some(1500000), ByteMultiple(1000, "K"), 0, Pop)).value == "1500K"
    ensures InputGroupBytes(BytesNotification(Some(1500000), ByteMultiple(1000000, "M"), 0, Pop)).value == "1M"
  {
  }

  /*********************************************************************
   * Favorite notification
   *********************************************************************/

  /** The checkbox callback of the favorite block: rebuilds the record with the same sound. */
  function OnFavoriteToggled(f: FavoriteNotification, toggled: bool): (m: Message)
    ensures m.UpdateFavoriteNotification? && !m.emitSound
    ensures m.favorite.notifyOnFavorite == toggled && m.favorite.sound == f.sound
  {
    UpdateFavoriteNotification(if toggled then FavoriteOn(f.sound) else FavoriteOff(f.sound), false)
  }

  /** The favorite block: the sound row appears exactly when the checkbox is checked. */
  function FavoriteNotify(f: FavoriteNotification): (v: NotifyPanel)
    ensures v.checked == f.notifyOnFavorite
    ensures v.input.None?
    ensures v.soundRow == (if v.checked then Some(f.sound) else None)
  {
    if f.notifyOnFavorite then
      NotifyPanel(f.notifyOnFavorite, None, Some(f.sound))
    else
      NotifyPanel(f.notifyOnFavorite, None, None)
  }

  /** Toggling to the state the checkbox already shows changes nothing. */
  lemma FavoriteToggleToShown(f: FavoriteNotification)
    ensures OnFavoriteToggled(f, FavoriteNotify(f).checked).favorite == f
  {
  }

  /** A favorite record switched off with one sound and switched on keeps that sound. */
  lemma FavoriteToggleExample()
    ensures OnFavoriteToggled(FavoriteOff(Swhoosh), true).favorite == FavoriteNotification(true, Swhoosh)
  {
  }
}
