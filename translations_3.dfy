/**
  The message catalog of `translations/translations_3.rs`: one `match` per
  message key, from the active language to its text. Every key has a wildcard
  arm that yields the English text, so every lookup is total.
 */
module Translations3 {
  import opened Languages
  import opened LanguageMatch

  const GeneralMatch := Match(
    [Arm([EN], "General"), Arm([ES], "Generales"), Arm([IT], "Generali"), Arm([FR], "Général")],
    "General")

  /** `general_translation` */
  function GeneralTranslation(language: Language): (r: string)
    ensures |r| > 0
    ensures language == ES ==> r == "Generales"
    ensures language == IT ==> r == "Generali"
    ensures language == FR ==> r == "Général"
    ensures language == EN || !Named(language) ==> r == "General"
  {
    Resolve(GeneralMatch, language)
  }

  const ZoomMatch := Match([Arm([EN, IT, ES, FR], "Zoom")], "Zoom")

  /** `zoom_translation`: one shared arm and the wildcard, both "Zoom". */
  function ZoomTranslation(language: Language): (r: string)
    ensures r == "Zoom"
  {
    Resolve(ZoomMatch, language)
  }

  /**
    The match of `mmdb_files_translation` as written: its fourth arm holds the
    French text but lists ES, which the second arm already lists.
   */
  const MmdbFilesMatch := Match(
    [ Arm([EN], "Database files"), Arm([ES], "Archivos de la base de datos"),
      Arm([IT], "File di database"), Arm([ES], "Fichiers de la base de données")],
    "Database files")

  /** `mmdb_files_translation`, as written. */
  function MmdbFilesTranslation(language: Language): (r: string)
    ensures |r| > 0
    ensures language == ES ==> r == "Archivos de la base de datos"
    ensures language == IT ==> r == "File di database"
    ensures language == EN || language == FR || !Named(language) ==> r == "Database files"
  {
    Resolve(MmdbFilesMatch, language)
  }

  /**
    The match of `params_not_editable_translation` as written: its fourth arm
    holds the French text but lists IT, which the third arm already lists.
   */
  const ParamsNotEditableMatch := Match(
    [ Arm([EN], "The following parameters can't be modified during the analysis"),
      Arm([ES], "Los siguientes parámetros no pueden modificarse durante el análisis"),
      Arm([IT], "I seguenti parametri non sono modificabili durante l'analisi"),
      Arm([IT], "Les paramètres suivants ne peuvent pas être modifiés durant l'analyse")],
    "The following parameters can't be modified during the analysis")

  /** `params_not_editable_translation`, as written. */
  function ParamsNotEditableTranslation(language: Language): (r: string)
    ensures |r| > 0
    ensures language == ES ==> r == "Los siguientes parámetros no pueden modificarse durante el análisis"
    ensures language == IT ==> r == "I seguenti parametri non sono modificabili durante l'analisi"
    ensures language == EN || language == FR || !Named(language)
            ==> r == "The following parameters can't be modified during the analysis"
  {
    Resolve(ParamsNotEditableMatch, language)
  }

  const CustomStyleMatch := Match(
    [ Arm([EN], "Custom style"), Arm([ES], "Estilo personalizado"),
      Arm([IT], "Stile personalizzato"), Arm([FR], "Style personnalisé")],
    "Custom style")

  /** `custom_style_translation` */
  function CustomStyleTranslation(language: Language): (r: string)
    ensures |r| > 0
    ensures language == ES ==> r == "Estilo personalizado"
    ensures language == IT ==> r == "Stile personalizzato"
    ensures language == FR ==> r == "Style personnalisé"
    ensures language == EN || !Named(language) ==> r == "Custom style"
  {
    Resolve(CustomStyleMatch, language)
  }

  const CopyMatch := Match(
    [Arm([EN], "Copy"), Arm([IT, ES], "Copia"), Arm([FR], "Copie")],
    "Copy")

  /** `copy_translation`: Italian and Spanish share one arm. */
  function CopyTranslation(language: Language): (r: string)
    ensures |r| > 0
    ensures language == IT || language == ES ==> r == "Copia"
    ensures language == FR ==> r == "Copie"
    ensures language == EN || !Named(language) ==> r == "Copy"
  {
    Resolve(CopyMatch, language)
  }

  const PortMatch := Match(
    [Arm([EN, FR], "Port"), Arm([ES], "Puerto"), Arm([IT], "Porta")],
    "Port")

  /** `port_translation`: French shares the English arm. */
  function PortTranslation(language: Language): (r: string)
    ensures |r| > 0
    ensures language == ES ==> r == "Puerto"
    ensures language == IT ==> r == "Porta"
    ensures language == EN || language == FR || !Named(language) ==> r == "Port"
  {
    Resolve(PortMatch, language)
  }

  const InvalidFiltersMatch := Match(
    [ Arm([EN], "Invalid filters"), Arm([ES], "Filtros inválidos"),
      Arm([IT], "Filtri non validi"), Arm([FR], "Filtres invalides")],
    "Invalid filters")

  /** `invalid_filters_translation` */
  function InvalidFiltersTranslation(language: Language): (r: string)
    ensures |r| > 0
    ensures language == ES ==> r == "Filtros inválidos"
    ensures language == IT ==> r == "Filtri non validi"
    ensures language == FR ==> r == "Filtres invalides"
    ensures language == EN || !Named(language) ==> r == "Invalid filters"
  {
    Resolve(InvalidFiltersMatch, language)
  }

  const MessagesMatch := Match(
    [Arm([EN, FR], "Messages"), Arm([ES], "Mensajes"), Arm([IT], "Messaggi")],
    "Messages")

  /** `messages_translation`: French shares the English arm. */
  function MessagesTranslation(language: Language): (r: string)
    ensures |r| > 0
    ensures language == ES ==> r == "Mensajes"
    ensures language == IT ==> r == "Messaggi"
    ensures language == EN || language == FR || !Named(language) ==> r == "Messages"
  {
    Resolve(MessagesMatch, language)
  }

  const LinkTypeMatch := Match(
    [ Arm([EN], "Link type"), Arm([ES], "Tipo de conexión"),
      Arm([IT], "Tipo di collegamento"), Arm([FR], "Type de connexion")],
    "Link type")

  /** `link_type_translation` */
  function LinkTypeTranslation(language: Language): (r: string)
    ensures |r| > 0
    ensures language == ES ==> r == "Tipo de conexión"
    ensures language == IT ==> r == "Tipo di collegamento"
    ensures language == FR ==> r == "Type de connexion"
    ensures language == EN || !Named(language) ==> r == "Link type"
  {
    Resolve(LinkTypeMatch, language)
  }

  const UnsupportedLinkTypeMatch := Match(
    [ Arm([EN], "The link type associated with this adapter is not supported by Sniffnet yet..."),
      Arm([ES], "La conexión asociada con este adaptador aún no esta implementada en Sniffnet..."),
      Arm([IT], "Il tipo di collegamento associato a questo adattatore di rete non è ancora supportato da Sniffnet..."),
      Arm([FR], "Le type de connexion associé à cet adaptateur n'est pas encore supporté par Sniffnet...")],
    "The link type associated with this adapter is not supported by Sniffnet yet...")

  /** The base sentence of `unsupported_link_type_translation`, before the adapter line. */
  function UnsupportedLinkTypeBase(language: Language): (r: string)
    ensures |r| > 0
    ensures language == ES ==> r == "La conexión asociada con este adaptador aún no esta implementada en Sniffnet..."
    ensures language == IT ==> r == "Il tipo di collegamento associato a questo adattatore di rete non è ancora supportato da Sniffnet..."
    ensures language == FR ==> r == "Le type de connexion associé à cet adaptateur n'est pas encore supporté par Sniffnet..."
    ensures language == EN || !Named(language)
            ==> r == "The link type associated with this adapter is not supported by Sniffnet yet..."
  {
    Resolve(UnsupportedLinkTypeMatch, language)
  }

  /**
    `unsupported_link_type_translation`: the base sentence, a blank line, then
    "label: adapter", where the label is `network_adapter_translation`, which
    is defined in another catalog file and is a parameter here.
   */
  function UnsupportedLinkTypeTranslation(
    language: Language,
    adapter: string,
    networkAdapter: Language -> string): (r: string)
    ensures var base := UnsupportedLinkTypeBase(language); var name := networkAdapter(language);
            && |r| == |base| + 2 + |name| + 2 + |adapter|
            && r[..|base|] == base
            && r[|base|..|base| + 2] == "\n\n"
            && r[|base| + 2..|base| + 2 + |name|] == name
            && r[|base| + 2 + |name|..|base| + 4 + |name|] == ": "
            && r[|r| - |adapter|..] == adapter
  {
    var base := UnsupportedLinkTypeBase(language);
    ComposedLayout(base, networkAdapter(language), adapter);
    Composed(base, networkAdapter(language), adapter)
  }

  /** The template `"{base}\n\n{name}: {value}"`. */
  function Composed(base: string, name: string, value: string): string {
    base + ("\n\n" + name + ": " + value)
  }

  lemma ComposedLayout(base: string, name: string, value: string)
    ensures var r := Composed(base, name, value);
            && |r| == |base| + 2 + |name| + 2 + |value|
            && r[..|base|] == base
            && r[|base|..|base| + 2] == "\n\n"
            && r[|base| + 2..|base| + 2 + |name|] == name
            && r[|base| + 2 + |name|..|base| + 4 + |name|] == ": "
            && r[|r| - |value|..] == value
  {
  }

  /** The composed text determines the adapter name: two different adapters never read alike. */
  lemma UnsupportedLinkTypeInjective(
    language: Language,
    a: string,
    b: string,
    networkAdapter: Language -> string)
    requires UnsupportedLinkTypeTranslation(language, a, networkAdapter)
             == UnsupportedLinkTypeTranslation(language, b, networkAdapter)
    ensures a == b
  {
    var r := UnsupportedLinkTypeTranslation(language, a, networkAdapter);
    assert r[|r| - |a|..] == a && r[|r| - |b|..] == b;
  }

  const StyleFromFileMatch := Match(
    [ Arm([EN], "Select style from a file"), Arm([ES], "Selecciona el estilo desde un archivo"),
      Arm([IT], "Seleziona lo stile da un file"), Arm([FR], "Sélectionner un style à partir d'un fichier")],
    "Select style from a file")

  /** `style_from_file_translation` */
  function StyleFromFileTranslation(language: Language): (r: string)
    ensures |r| > 0
    ensures language == ES ==> r == "Selecciona el estilo desde un archivo"
    ensures language == IT ==> r == "Seleziona lo stile da un file"
    ensures language == FR ==> r == "Sélectionner un style à partir d'un fichier"
    ensures language == EN || !Named(language) ==> r == "Select style from a file"
  {
    Resolve(StyleFromFileMatch, language)
  }

  const DatabaseFromFileMatch := Match(
    [ Arm([EN], "Select database file"), Arm([ES], "Selecciona un archivo de base de datos"),
      Arm([IT], "Seleziona file di database"), Arm([FR], "Sélection d'un fichier de base de données")],
    "Select database file")

  /** `database_from_file_translation` */
  function DatabaseFromFileTranslation(language: Language): (r: string)
    ensures |r| > 0
    ensures language == ES ==> r == "Selecciona un archivo de base de datos"
    ensures language == IT ==> r == "Seleziona file di database"
    ensures language == FR ==> r == "Sélection d'un fichier de base de données"
    ensures language == EN || !Named(language) ==> r == "Select database file"
  {
    Resolve(DatabaseFromFileMatch, language)
  }

  const FilterByHostMatch := Match(
    [ Arm([EN], "Filter by network host"), Arm([ES], "Filtra por host de red"),
      Arm([IT], "Filtra per host di rete"), Arm([FR], "Filtrer par réseau hôte")],
    "Filter by network host")

  /** `filter_by_host_translation` */
  function FilterByHostTranslation(language: Language): (r: string)
    ensures |r| > 0
    ensures language == ES ==> r == "Filtra por host de red"
    ensures language == IT ==> r == "Filtra per host di rete"
    ensures language == FR ==> r == "Filtrer par réseau hôte"
    ensures language == EN || !Named(language) ==> r == "Filter by network host"
  {
    Resolve(FilterByHostMatch, language)
  }

  const ServiceMatch := Match(
    [Arm([EN, FR], "Service"), Arm([ES], "Servicio"), Arm([IT], "Servizio")],
    "Service")

  /** `service_translation`: French shares the English arm. */
  function ServiceTranslation(language: Language): (r: string)
    ensures |r| > 0
    ensures language == ES ==> r == "Servicio"
    ensures language == IT ==> r == "Servizio"
    ensures language == EN || language == FR || !Named(language) ==> r == "Service"
  {
    Resolve(ServiceMatch, language)
  }

  const ExportCaptureMatch := Match(
    [ Arm([EN], "Export capture file"), Arm([IT], "Esporta file di cattura"),
      Arm([FR], "Exporter le fichier de capture")],
    "Export capture file")

  /** `export_capture_translation`: no Spanish arm. */
  function ExportCaptureTranslation(language: Language): (r: string)
    ensures |r| > 0
    ensures language == IT ==> r == "Esporta file di cattura"
    ensures language == FR ==> r == "Exporter le fichier de capture"
    ensures language == EN || language == ES || !Named(language) ==> r == "Export capture file"
  {
    Resolve(ExportCaptureMatch, language)
  }

  const DirectoryMatch := Match(
    [Arm([EN], "Directory"), Arm([IT], "Cartella"), Arm([FR], "Répertoire")],
    "Directory")

  /** `directory_translation`: no Spanish arm. */
  function DirectoryTranslation(language: Language): (r: string)
    ensures |r| > 0
    ensures language == IT ==> r == "Cartella"
    ensures language == FR ==> r == "Répertoire"
    ensures language == EN || language == ES || !Named(language) ==> r == "Directory"
  {
    Resolve(DirectoryMatch, language)
  }

  const SelectDirectoryMatch := Match(
    [ Arm([EN], "Select destination directory"), Arm([IT], "Seleziona cartella di destinazione"),
      Arm([FR], "Sélectionner le répertoire de destination")],
    "Select destination directory")

  /** `select_directory_translation`: no Spanish arm. */
  function SelectDirectoryTranslation(language: Language): (r: string)
    ensures |r| > 0
    ensures language == IT ==> r == "Seleziona cartella di destinazione"
    ensures language == FR ==> r == "Sélectionner le répertoire de destination"
    ensures language == EN || language == ES || !Named(language) ==> r == "Select destination directory"
  {
    Resolve(SelectDirectoryMatch, language)
  }

  const FileNameMatch := Match(
    [Arm([EN], "File name"), Arm([IT], "Nome del file"), Arm([FR], "Nom du fichier")],
    "File name")

  /** `file_name_translation`: no Spanish arm. */
  function FileNameTranslation(language: Language): (r: string)
    ensures |r| > 0
    ensures language == IT ==> r == "Nome del file"
    ensures language == FR ==> r == "Nom du fichier"
    ensures language == EN || language == ES || !Named(language) ==> r == "File name"
  {
    Resolve(FileNameMatch, language)
  }

  const ThumbnailModeMatch := Match(
    [Arm([EN], "Thumbnail mode"), Arm([IT], "Modalità miniatura"), Arm([FR], "Mode miniature")],
    "Thumbnail mode")

  /** `thumbnail_mode_translation`: no Spanish arm. */
  function ThumbnailModeTranslation(language: Language): (r: string)
    ensures |r| > 0
    ensures language == IT ==> r == "Modalità miniatura"
    ensures language == FR ==> r == "Mode miniature"
    ensures language == EN || language == ES || !Named(language) ==> r == "Thumbnail mode"
  {
    Resolve(ThumbnailModeMatch, language)
  }

  const LearnMoreMatch := Match(
    [ Arm([EN], "Do you want to learn more?"), Arm([IT], "Vuoi saperne di più?"),
      Arm([FR], "Voulez-vous en savoir davantage?")],
    "Do you want to learn more?")

  /** `learn_more_translation`: no Spanish arm. */
  function LearnMoreTranslation(language: Language): (r: string)
    ensures |r| > 0
    ensures language == IT ==> r == "Vuoi saperne di più?"
    ensures language == FR ==> r == "Voulez-vous en savoir davantage?"
    ensures language == EN || language == ES || !Named(language) ==> r == "Do you want to learn more?"
  {
    Resolve(LearnMoreMatch, language)
  }

  /*********************************************************************
   * The two entries whose French arm lists the wrong language
   *********************************************************************/

  /**
    In `mmdb_files_translation` as written, the arm holding the French text can
    never be chosen, and French readers get the English text.
   */
  lemma MmdbFilesFrenchUnreachable()
    ensures Shadowed(MmdbFilesMatch.arms, 3)
    ensures forall l :: FirstArm(MmdbFilesMatch.arms, l) != 3
    ensures MmdbFilesTranslation(FR) == "Database files"
    ensures !ExactlyOnce(MmdbFilesMatch.arms, {EN, IT, FR, ES})
  {
    var arms := MmdbFilesMatch.arms;
    assert Lists(arms[1], ES);
    forall l ensures FirstArm(arms, l) != 3 {
      ShadowedNeverChosen(MmdbFilesMatch, 3, l);
    }
    assert !Covers(arms, FR);
  }

  /**
    In `params_not_editable_translation` as written, the arm holding the French
    text can never be chosen, and French readers get the English text.
   */
  lemma ParamsNotEditableFrenchUnreachable()
    ensures Shadowed(ParamsNotEditableMatch.arms, 3)
    ensures forall l :: FirstArm(ParamsNotEditableMatch.arms, l) != 3
    ensures ParamsNotEditableTranslation(FR) == "The following parameters can't be modified during the analysis"
    ensures !ExactlyOnce(ParamsNotEditableMatch.arms, {EN, IT, FR, ES})
  {
    var arms := ParamsNotEditableMatch.arms;
    assert Lists(arms[2], IT);
    forall l ensures FirstArm(arms, l) != 3 {
      ShadowedNeverChosen(ParamsNotEditableMatch, 3, l);
    }
    assert !Covers(arms, FR);
  }

  /** `mmdb_files_translation` with its French arm listing FR. */
  const MmdbFilesMatchCorrected := Match(
    [ Arm([EN], "Database files"), Arm([ES], "Archivos de la base de datos"),
      Arm([IT], "File di database"), Arm([FR], "Fichiers de la base de données")],
    "Database files")

  function MmdbFilesTranslationCorrected(language: Language): (r: string)
    ensures |r| > 0
    ensures language == ES ==> r == "Archivos de la base de datos"
    ensures language == IT ==> r == "File di database"
    ensures language == FR ==> r == "Fichiers de la base de données"
    ensures language == EN || !Named(language) ==> r == "Database files"
  {
    Resolve(MmdbFilesMatchCorrected, language)
  }

  /** `params_not_editable_translation` with its French arm listing FR. */
  const ParamsNotEditableMatchCorrected := Match(
    [ Arm([EN], "The following parameters can't be modified during the analysis"),
      Arm([ES], "Los siguientes parámetros no pueden modificarse durante el análisis"),
      Arm([IT], "I seguenti parametri non sono modificabili durante l'analisi"),
      Arm([FR], "Les paramètres suivants ne peuvent pas être modifiés durant l'analyse")],
    "The following parameters can't be modified during the analysis")

  function ParamsNotEditableTranslationCorrected(language: Language): (r: string)
    ensures |r| > 0
    ensures language == ES ==> r == "Los siguientes parámetros no pueden modificarse durante el análisis"
    ensures language == IT ==> r == "I seguenti parametri non sono modificabili durante l'analisi"
    ensures language == FR ==> r == "Les paramètres suivants ne peuvent pas être modifiés durant l'analyse"
    ensures language == EN || !Named(language)
            ==> r == "The following parameters can't be modified during the analysis"
  {
    Resolve(ParamsNotEditableMatchCorrected, language)
  }

  /** A `match` of four single-language arms, one per named language, lists each exactly once. */
  lemma OneArmPerNamedLanguage(m: Match)
    requires |m.arms| == 4
    requires m.arms[0].patterns == [EN] && m.arms[1].patterns == [ES]
    requires m.arms[2].patterns == [IT] && m.arms[3].patterns == [FR]
    ensures ExactlyOnce(m.arms, {EN, IT, FR, ES})
  {
    forall l | l in {EN, IT, FR, ES} ensures Covers(m.arms, l) {
      var i := if l == EN then 0 else if l == ES then 1 else if l == IT then 2 else 3;
      assert Lists(m.arms[i], l);
    }
  }

  /** Both corrected entries have exactly one arm per named language. */
  lemma CorrectedEntriesComplete()
    ensures ExactlyOnce(MmdbFilesMatchCorrected.arms, {EN, IT, FR, ES})
    ensures ExactlyOnce(ParamsNotEditableMatchCorrected.arms, {EN, IT, FR, ES})
  {
    OneArmPerNamedLanguage(MmdbFilesMatchCorrected);
    OneArmPerNamedLanguage(ParamsNotEditableMatchCorrected);
  }

  /** Every entry written with one arm per named language lists each of them exactly once. */
  lemma FullyTranslatedEntriesComplete()
    ensures ExactlyOnce(GeneralMatch.arms, {EN, IT, FR, ES})
    ensures ExactlyOnce(CustomStyleMatch.arms, {EN, IT, FR, ES})
    ensures ExactlyOnce(InvalidFiltersMatch.arms, {EN, IT, FR, ES})
    ensures ExactlyOnce(LinkTypeMatch.arms, {EN, IT, FR, ES})
    ensures ExactlyOnce(UnsupportedLinkTypeMatch.arms, {EN, IT, FR, ES})
    ensures ExactlyOnce(StyleFromFileMatch.arms, {EN, IT, FR, ES})
    ensures ExactlyOnce(DatabaseFromFileMatch.arms, {EN, IT, FR, ES})
    ensures ExactlyOnce(FilterByHostMatch.arms, {EN, IT, FR, ES})
  {
    OneArmPerNamedLanguage(GeneralMatch);
    OneArmPerNamedLanguage(CustomStyleMatch);
    OneArmPerNamedLanguage(InvalidFiltersMatch);
    OneArmPerNamedLanguage(LinkTypeMatch);
    OneArmPerNamedLanguage(UnsupportedLinkTypeMatch);
    OneArmPerNamedLanguage(StyleFromFileMatch);
    OneArmPerNamedLanguage(DatabaseFromFileMatch);
    OneArmPerNamedLanguage(FilterByHostMatch);
  }

  /** The entries whose arms list several languages also list each named language exactly once. */
  lemma SharedArmEntriesComplete()
    ensures ExactlyOnce(ZoomMatch.arms, {EN, IT, FR, ES})
    ensures ExactlyOnce(CopyMatch.arms, {EN, IT, FR, ES})
    ensures ExactlyOnce(PortMatch.arms, {EN, IT, FR, ES})
    ensures ExactlyOnce(MessagesMatch.arms, {EN, IT, FR, ES})
    ensures ExactlyOnce(ServiceMatch.arms, {EN, IT, FR, ES})
  {
    SingleArmComplete(ZoomMatch);
    CopyShapeComplete(CopyMatch);
    FrenchSharesEnglishComplete(PortMatch);
    FrenchSharesEnglishComplete(MessagesMatch);
    FrenchSharesEnglishComplete(ServiceMatch);
  }

  /** One arm `EN | IT | ES | FR`, as in `zoom_translation`. */
  lemma SingleArmComplete(m: Match)
    requires |m.arms| == 1 && m.arms[0].patterns == [EN, IT, ES, FR]
    ensures ExactlyOnce(m.arms, {EN, IT, FR, ES})
  {
    forall l | l in {EN, IT, FR, ES} ensures Covers(m.arms, l) {
      assert Lists(m.arms[0], l);
    }
  }

  /** Arms `EN`, `IT | ES`, `FR`, as in `copy_translation`. */
  lemma CopyShapeComplete(m: Match)
    requires |m.arms| == 3
    requires m.arms[0].patterns == [EN] && m.arms[1].patterns == [IT, ES] && m.arms[2].patterns == [FR]
    ensures ExactlyOnce(m.arms, {EN, IT, FR, ES})
  {
    forall l | l in {EN, IT, FR, ES} ensures Covers(m.arms, l) {
      var i := if l == EN then 0 else if l == FR then 2 else 1;
      assert Lists(m.arms[i], l);
    }
  }

  /** Arms `EN | FR`, `ES`, `IT`, as in `port`, `messages` and `service_translation`. */
  lemma FrenchSharesEnglishComplete(m: Match)
    requires |m.arms| == 3
    requires m.arms[0].patterns == [EN, FR] && m.arms[1].patterns == [ES] && m.arms[2].patterns == [IT]
    ensures ExactlyOnce(m.arms, {EN, IT, FR, ES})
  {
    forall l | l in {EN, IT, FR, ES} ensures Covers(m.arms, l) {
      var i := if l == ES then 1 else if l == IT then 2 else 0;
      assert Lists(m.arms[i], l);
    }
  }

  /** A `match` of three single-language arms for EN, IT and FR lists each of them exactly once and has no ES arm. */
  lemma OneArmPerLanguageButSpanish(m: Match)
    requires |m.arms| == 3
    requires m.arms[0].patterns == [EN] && m.arms[1].patterns == [IT] && m.arms[2].patterns == [FR]
    ensures ExactlyOnce(m.arms, {EN, IT, FR})
    ensures !Covers(m.arms, ES)
  {
    forall l | l in {EN, IT, FR} ensures Covers(m.arms, l) {
      var i := if l == EN then 0 else if l == IT then 1 else 2;
      assert Lists(m.arms[i], l);
    }
  }

  /** The six entries with no Spanish arm: ES reaches the wildcard, the other named languages have one arm each. */
  lemma EntriesWithoutSpanish()
    ensures ExactlyOnce(ExportCaptureMatch.arms, {EN, IT, FR}) && !Covers(ExportCaptureMatch.arms, ES)
    ensures ExactlyOnce(DirectoryMatch.arms, {EN, IT, FR}) && !Covers(DirectoryMatch.arms, ES)
    ensures ExactlyOnce(SelectDirectoryMatch.arms, {EN, IT, FR}) && !Covers(SelectDirectoryMatch.arms, ES)
    ensures ExactlyOnce(FileNameMatch.arms, {EN, IT, FR}) && !Covers(FileNameMatch.arms, ES)
    ensures ExactlyOnce(ThumbnailModeMatch.arms, {EN, IT, FR}) && !Covers(ThumbnailModeMatch.arms, ES)
    ensures ExactlyOnce(LearnMoreMatch.arms, {EN, IT, FR}) && !Covers(LearnMoreMatch.arms, ES)
  {
    OneArmPerLanguageButSpanish(ExportCaptureMatch);
    OneArmPerLanguageButSpanish(DirectoryMatch);
    OneArmPerLanguageButSpanish(SelectDirectoryMatch);
    OneArmPerLanguageButSpanish(FileNameMatch);
    OneArmPerLanguageButSpanish(ThumbnailModeMatch);
    OneArmPerLanguageButSpanish(LearnMoreMatch);
  }
}
