# Sniffnet notification settings and catalog entries, modelled in Dafny

This project models two pure parts of Sniffnet, a network monitoring application.

**The notification part of the settings page** (`src/gui/pages/settings.rs`). The page shows three alert blocks: a packets-per-second threshold, a bytes-per-second threshold and an alert for favourite hosts. Each block has a checkbox. When the box is ticked, the block also shows a threshold input (packets and bytes only) and a row of sound radios. The two threshold checkboxes rebuild their record by functional update. The favourite checkbox uses the `FavoriteNotification::on`/`off` constructors. The two threshold inputs call `PacketsNotification::from` / `BytesNotification::from`. Every callback wraps the new record in an update message. The second argument of that message is a flag saying whether the selected sound should play. The model covers:
- the callbacks (`OnPacketsToggled`, `OnBytesToggled`, `OnFavoriteToggled`, `OnPacketsInput`, `OnBytesInput`);
- which rows a block shows (`PacketsNotify`, `BytesNotify`, `FavoriteNotify`);
- the text shown in the threshold inputs (`InputGroupPackets`, `InputGroupBytes`). This text is a decimal rendering, modelled with Rust's `to_string()` in module `Decimal` and its inverse parser.

The records themselves (`PacketsNotification`, `BytesNotification`, `FavoriteNotification`) are in module `Notifications`. Rendering is a function of the record, so it never changes the stored raw threshold.

**The message catalog of `src/translations/translations_3.rs`.** Each entry is a `match` on the active `Language` with a wildcard arm that gives the English text. Module `LanguageMatch` models Rust's `match` semantics as data:
- `Arm` is one arm: the languages it lists and its text.
- `Match` is the arms in source order followed by the wildcard.
- `FirstArm` finds the first arm that lists a language. `Resolve` is the value of the `match`.

A later arm that repeats a language listed by an earlier arm is therefore unreachable, as in Rust. Module `Translations3` holds one table and one function per catalog entry. Each function's contract gives the text for every language.

Disabling a threshold clears only `threshold`. It does not save the current threshold into `previous_threshold`. Re-enabling restores `previous_threshold`, which equals the old threshold only when the record was at its remembered value. `Settings.PacketsOffDoesNotSnapshot` shows a record that comes back at a different threshold, and `Settings.PacketsOffThenOn` / `Settings.BytesOffThenOn` state exactly when re-enabling restores the record.

## Model

| member | source | states |
|---|---|---|
| Decimal.ToDecimal | src/gui/pages/settings.rs:443 | `to_string()` of an unsigned integer is a non-empty digit string with no leading zero. It is one character long exactly when the value is below 10. It is `"0"` exactly when the value is 0. |
| Decimal.ParseToDecimal | src/gui/pages/settings.rs:443 | Parsing the rendering gives back the number. |
| Decimal.ToDecimalParse | src/gui/pages/settings.rs:443 | Rendering the parsed value of a canonical digit string gives back the string, so rendering is a bijection onto canonical strings. |
| Decimal.ToDecimalInjective | src/gui/pages/settings.rs:443 | Two thresholds with the same rendering are equal. |
| Notifications.FavoriteOn | src/gui/pages/settings.rs:392 | `FavoriteNotification::on(sound)` turns the alert on and keeps the sound. |
| Notifications.FavoriteOff | src/gui/pages/settings.rs:394 | `FavoriteNotification::off(sound)` turns the alert off and keeps the sound. |
| Settings.OnPacketsToggled | src/gui/pages/settings.rs:241-259 | The packets checkbox emits a packets update with the flag `false`. Its threshold is present exactly when the box was ticked, and is then `previous_threshold`. `previous_threshold` and `sound` are unchanged. |
| Settings.OnPacketsInput | src/gui/pages/settings.rs:454-458 | Typing in the packets input emits `PacketsNotification::from(text, Some(current))` with the flag `false`. |
| Settings.InputGroupPackets | src/gui/pages/settings.rs:443-453 | Built only when a threshold is present (the unwrap cannot fail). The placeholder is "0". The shown text is empty exactly when the threshold is 0. Otherwise it is a canonical digit string that parses to the threshold. |
| Settings.PacketsNotify | src/gui/pages/settings.rs:238-304 | The checkbox is ticked exactly when a threshold is present. The input row and the sound row appear exactly then. The sound row shows the record's sound. The input row is the packets input of the record. |
| Settings.PacketsToggleShown | src/gui/pages/settings.rs:238-304 | After a toggle, the block shows the box in the toggled state. When ticked, it shows the input for `previous_threshold`. |
| Settings.PacketsTogglePreservesConsistent | src/gui/pages/settings.rs:241-259 | Every toggle leaves the record either disabled or enabled at its remembered threshold. |
| Settings.PacketsToggleIdempotent | src/gui/pages/settings.rs:241-259 | Applying the same toggle twice equals applying it once. |
| Settings.PacketsOffThenOn | src/gui/pages/settings.rs:241-259 | Unticking then ticking gives `Some(previous_threshold)`. The record comes back unchanged if and only if its threshold was `Some(previous_threshold)`. |
| Settings.PacketsOffDoesNotSnapshot | src/gui/pages/settings.rs:250-257 | Unticking does not save the current threshold. A record at 7 that remembers 3 comes back at 3. |
| Settings.OnBytesToggled | src/gui/pages/settings.rs:315-333 | As for packets. The unit (`byte_multiple`) is also unchanged. |
| Settings.OnBytesInput | src/gui/pages/settings.rs:499-503 | Typing in the bytes input emits `BytesNotification::from(text, Some(current))` with the flag `false`. |
| Settings.WholeUnits | src/gui/pages/settings.rs:485-486 | `threshold / get_multiplier()` is the number of whole units in the raw byte count: `q * m <= bytes < (q + 1) * m`. |
| Settings.UnitsText | src/gui/pages/settings.rs:487-498 | The text for a number of whole units is empty exactly when the number is 0 and the suffix is empty. Otherwise it is a canonical digit string that parses to the number, followed by the suffix. |
| Settings.InputGroupBytes | src/gui/pages/settings.rs:485-498 | Built only when a threshold is present. The placeholder is "0". The shown text is empty exactly when there is less than one unit and the unit's suffix is empty. Otherwise it is a canonical digit string for the number of whole units, followed by the unit's suffix. |
| Settings.BytesNotify | src/gui/pages/settings.rs:312-378 | The checkbox is ticked exactly when a threshold is present. The input row and the sound row appear exactly then, and show the record's input and sound. |
| Settings.BytesToggleShown | src/gui/pages/settings.rs:312-378 | After a toggle, the block shows the box in the toggled state. When ticked, it shows the input for `previous_threshold`. |
| Settings.BytesTogglePreservesConsistent | src/gui/pages/settings.rs:315-333 | Every toggle leaves the record either disabled or enabled at its remembered threshold. |
| Settings.BytesToggleIdempotent | src/gui/pages/settings.rs:315-333 | Applying the same toggle twice equals applying it once. |
| Settings.BytesOffThenOn | src/gui/pages/settings.rs:315-333 | Unticking then ticking gives `Some(previous_threshold)`. The record, unit included, comes back unchanged if and only if its threshold was `Some(previous_threshold)`. |
| Settings.BytesDisableEnableExample | src/gui/pages/settings.rs:315-333 | 5 000 000 bytes in a unit of 1 000 000 "M": unticking gives `None` and keeps 5 000 000 as `previous_threshold`. Ticking restores the record, which shows "5M". |
| Settings.BytesUnitDisplayExample | src/gui/pages/settings.rs:485-498 | 1 500 000 bytes show as "1500K" in a unit of 1000 and as "1M" in a unit of 1 000 000. |
| Settings.OnFavoriteToggled | src/gui/pages/settings.rs:389-398 | The favourite checkbox emits a favourite update with the flag `false`. Its `notify_on_favorite` is the toggled state and its sound is unchanged. |
| Settings.FavoriteNotify | src/gui/pages/settings.rs:386-435 | The checkbox shows `notify_on_favorite`. The sound row, showing the record's sound, appears exactly when it is ticked. There is no input row. |
| Settings.FavoriteToggleToShown | src/gui/pages/settings.rs:386-398 | Toggling to the state the box already shows gives back the same record. |
| Settings.FavoriteToggleExample | src/gui/pages/settings.rs:389-398 | Ticking the alert of `off(Swhoosh)` gives notify `true` with sound Swhoosh. |
| LanguageMatch.FirstArm | src/translations/translations_3.rs:26-34 | The chosen arm lists the language and no earlier arm does. Otherwise no arm lists it and the wildcard is taken. |
| LanguageMatch.Resolve | src/translations/translations_3.rs:10-16 | A language no arm lists gets the wildcard's text. Any other value is the text of an arm that lists the language. If every text is non-empty, so is the value. |
| LanguageMatch.ResolveFirstListing | src/translations/translations_3.rs:26-34 | The first arm that lists the language decides the value (first arm wins). |
| LanguageMatch.ResolveUncovered | src/translations/translations_3.rs:15 | A language no arm lists gets the wildcard's text. |
| LanguageMatch.ShadowedNeverChosen | src/translations/translations_3.rs:26-44 | An arm whose languages are all listed by earlier arms is never chosen. |
| Translations3.GeneralTranslation | src/translations/translations_3.rs:9-17 | Non-empty. ES, IT and FR get their own text. EN and every other language get "General". |
| Translations3.ZoomTranslation | src/translations/translations_3.rs:19-24 | "Zoom" for every language. |
| Translations3.MmdbFilesTranslation | src/translations/translations_3.rs:26-34 | Non-empty. ES gets the Spanish text because the first ES arm wins. IT gets the Italian text. EN, FR and every other language get "Database files". |
| Translations3.ParamsNotEditableTranslation | src/translations/translations_3.rs:36-44 | Non-empty. ES gets the Spanish text and IT the Italian text, because the first IT arm wins. EN, FR and every other language get the English sentence. |
| Translations3.CustomStyleTranslation | src/translations/translations_3.rs:55-63 | Non-empty. ES, IT and FR get their own text. EN and every other language get "Custom style". |
| Translations3.CopyTranslation | src/translations/translations_3.rs:65-72 | Non-empty. IT and ES both get "Copia" and FR gets "Copie". EN and every other language get "Copy". |
| Translations3.PortTranslation | src/translations/translations_3.rs:74-81 | Non-empty. ES and IT get their own text. EN, FR and every other language get "Port". |
| Translations3.InvalidFiltersTranslation | src/translations/translations_3.rs:83-91 | Non-empty. ES, IT and FR get their own text. EN and every other language get "Invalid filters". |
| Translations3.MessagesTranslation | src/translations/translations_3.rs:93-100 | Non-empty. ES and IT get their own text. EN, FR and every other language get "Messages". |
| Translations3.LinkTypeTranslation | src/translations/translations_3.rs:102-110 | Non-empty. ES, IT and FR get their own text. EN and every other language get "Link type". |
| Translations3.UnsupportedLinkTypeBase | src/translations/translations_3.rs:116-122 | Non-empty. ES, IT and FR get their own base sentence. EN and every other language get the English sentence. |
| Translations3.UnsupportedLinkTypeTranslation | src/translations/translations_3.rs:112-127 | The text is the base sentence, then "\n\n", then the network-adapter label, then ": ", then the adapter name. It starts with the base sentence and ends with the adapter name, and its length is the sum of the parts. |
| Translations3.ComposedLayout | src/translations/translations_3.rs:125 | Where each part of the template `"{base}\n\n{name}: {value}"` sits in the composed string. |
| Translations3.UnsupportedLinkTypeInjective | src/translations/translations_3.rs:124-125 | Two different adapter names never give the same text. |
| Translations3.StyleFromFileTranslation | src/translations/translations_3.rs:129-137 | Non-empty. ES, IT and FR get their own text. EN and every other language get "Select style from a file". |
| Translations3.DatabaseFromFileTranslation | src/translations/translations_3.rs:139-147 | Non-empty. ES, IT and FR get their own text. EN and every other language get "Select database file". |
| Translations3.FilterByHostTranslation | src/translations/translations_3.rs:149-157 | Non-empty. ES, IT and FR get their own text. EN and every other language get "Filter by network host". |
| Translations3.ServiceTranslation | src/translations/translations_3.rs:159-166 | Non-empty. ES and IT get their own text. EN, FR and every other language get "Service". |
| Translations3.ExportCaptureTranslation | src/translations/translations_3.rs:168-175 | Non-empty. IT and FR get their own text. EN, ES and every other language get "Export capture file". |
| Translations3.DirectoryTranslation | src/translations/translations_3.rs:178-185 | Non-empty. IT and FR get their own text. EN, ES and every other language get "Directory". |
| Translations3.SelectDirectoryTranslation | src/translations/translations_3.rs:187-194 | Non-empty. IT and FR get their own text. EN, ES and every other language get "Select destination directory". |
| Translations3.FileNameTranslation | src/translations/translations_3.rs:196-203 | Non-empty. IT and FR get their own text. EN, ES and every other language get "File name". |
| Translations3.ThumbnailModeTranslation | src/translations/translations_3.rs:205-212 | Non-empty. IT and FR get their own text. EN, ES and every other language get "Thumbnail mode". |
| Translations3.LearnMoreTranslation | src/translations/translations_3.rs:214-221 | Non-empty. IT and FR get their own text. EN, ES and every other language get "Do you want to learn more?". |
| Translations3.MmdbFilesFrenchUnreachable | src/translations/translations_3.rs:31 | The arm holding the French database-files text lists ES, which an earlier arm lists. It is never chosen. FR gets the English text, and the entry does not list each named language exactly once. |
| Translations3.ParamsNotEditableFrenchUnreachable | src/translations/translations_3.rs:41 | The arm holding the French sentence lists IT, which an earlier arm lists. It is never chosen. FR gets the English sentence, and the entry does not list each named language exactly once. |
| Translations3.MmdbFilesTranslationCorrected | src/translations/translations_3.rs:26-34 | With the French arm listing FR: FR gets "Fichiers de la base de données". Every other language gets what the entry gives as written. |
| Translations3.ParamsNotEditableTranslationCorrected | src/translations/translations_3.rs:36-44 | With the French arm listing FR: FR gets the French sentence. Every other language gets what the entry gives as written. |
| Translations3.CorrectedEntriesComplete | src/translations/translations_3.rs:26-44 | Both corrected entries list each of EN, IT, FR and ES in exactly one arm. |
| Translations3.FullyTranslatedEntriesComplete | src/translations/translations_3.rs:9-157 | Every entry with one single-language arm for each of EN, ES, IT and FR lists each of them exactly once. |
| Translations3.SharedArmEntriesComplete | src/translations/translations_3.rs:19-166 | The entries with shared arms (zoom, copy, port, messages, service) list each of EN, IT, FR and ES exactly once. |
| Translations3.EntriesWithoutSpanish | src/translations/translations_3.rs:168-221 | The six entries from export capture to learn more have no arm for ES. They list each of EN, IT and FR exactly once. |

## Left out

- Widget composition, styling, fonts, sizes, tabs, the header, the appearance and language pages, and the palette buttons (`settings.rs` lines 34-231 and 563-631) are layout with no behaviour of their own.
- The volume slider (`settings.rs` lines 523-561): the slider widget enforces its range and step of 0 to 100 in steps of 5. No clamping code appears in the modelled files.
- `PacketsNotification::from` and `BytesNotification::from` parse the typed text. They are defined in `structs/notifications.rs`, which is not part of this model, so they are parameters of `OnPacketsInput` and `OnBytesInput`. How they parse the text is not modelled.
- `ByteMultiple::get_multiplier` and `get_char` are defined outside the modelled files. A unit is modelled as the pair (positive multiplier, suffix). Nothing else about the enumeration, such as its concrete factors, is assumed.
- `network_adapter_translation` is defined in another catalog file. It is a parameter of `UnsupportedLinkTypeTranslation`.
- The labels and captions of the blocks come from other catalog files and are not modelled. These are `packets_threshold_translation`, `bytes_threshold_translation`, `favorite_notification_translation`, `threshold_translation`, `per_second_translation` and `specify_multiples_translation`, including the caption concatenation at `settings.rs` lines 483-484.
- `Language` and `Sound` are declared outside the modelled files. The model's `Language` has EN, IT, FR and ES plus several further variants that stand for every language the catalog sends to its wildcard arm. The model's `Sound` lists the alert sounds only as distinct tags.
- The `u32`/`u64` widths of the thresholds are modelled as unbounded naturals. The modelled lines only divide and render these values, and neither operation can overflow.
- What the application does with `Message::ChangeVolume` (settings.rs:539), and how `from` turns the typed text (including any unit letter) into a record, happen outside settings.rs and are not modelled.
- The iced `Text::new` wrapper around the unsupported-link-type string is not modelled, because the model returns the string itself. The commented-out `file_path_translation` is not code and is not modelled.

## Findings

| source | as written | input that shows it | evidently intended | confidence | as-written member | corrected member |
|---|---|---|---|---|---|---|
| src/translations/translations_3.rs:31 | The arm with the French text "Fichiers de la base de données" lists `Language::ES`, which line 29 already lists | `mmdb_files_translation(Language::FR)` gives "Database files" | The arm lists `Language::FR`, so French readers get the French text | high; not executed | Translations3.MmdbFilesFrenchUnreachable | Translations3.MmdbFilesTranslationCorrected |
| src/translations/translations_3.rs:41 | The arm with the French sentence lists `Language::IT`, which line 40 already lists | `params_not_editable_translation(Language::FR)` gives the English sentence | The arm lists `Language::FR`, so French readers get the French sentence | high; not executed | Translations3.ParamsNotEditableFrenchUnreachable | Translations3.ParamsNotEditableTranslationCorrected |
