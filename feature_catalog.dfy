/**
 * The catalog of OpenType layout-feature tags and its lookup,
 * `src/lib/utils/feature-info.ts`.
 *
 * The table holds the registered feature tags of the OpenType "Feature Tags"
 * registry that the source describes, plus the two wildcard entries `ss*` and
 * `cv*` that stand for the numbered stylistic-set and character-variant
 * families. The lookup is an exact table hit first and then two anchored,
 * case-sensitive patterns, `^ss([0-1][0-9]|20|0[1-9])$` and
 * `^cv([0-1][0-9]|20|0[1-9])$`, written here as character predicates.
 */
module FeatureCatalog {
  import opened Wrappers
  import opened Decimal

  /** A human-readable label and an explanatory sentence for one feature tag. */
  datatype FeatureInfo = FeatureInfo(name: string, description: string)

  /**
   * The process-wide catalog, `FEATURE_INFO`: a constant, so no operation can
   * change it. It is the union of the disjoint blocks below, which follow the
   * order of the source table except that the two wildcard entries, listed
   * there after `mkmk`, form a block of their own; the blocks keep each proof
   * about the keys small.
   */
  const FeatureTable: map<string, FeatureInfo> :=
    CommonFeatures
    + IndicFeatures
    + CjkFeatures
    + CursiveFeatures
    + CaseAndVerticalFeatures
    + DirectionAndMathFeatures
    + OtherFeatures
    + WildcardFeatures

  /** Ligatures, small capitals, figure styles, alternates, fractions and mark positioning. */
  const CommonFeatures: map<string, FeatureInfo> := map[
    "liga" := Liga,
    "dlig" := Dlig,
    "smcp" := Smcp,
    "c2sc" := C2sc,
    "onum" := Onum,
    "pnum" := Pnum,
    "tnum" := Tnum,
    "swsh" := Swsh,
    "hist" := Hist,
    "salt" := Salt,
    "aalt" := Aalt,
    "calt" := Calt,
    "case" := Case,
    "ccmp" := Ccmp,
    "frac" := Frac,
    "ordn" := Ordn,
    "subs" := Subs,
    "sups" := Sups,
    "sinf" := Sinf,
    "zero" := Zero,
    "mark" := Mark,
    "mkmk" := Mkmk
  ]

  /** Shaping features of the Indic scripts. */
  const IndicFeatures: map<string, FeatureInfo> := map[
    "abvf" := Abvf,
    "blwf" := Blwf,
    "abvm" := Abvm,
    "blwm" := Blwm,
    "abvs" := Abvs,
    "blws" := Blws,
    "pref" := Pref,
    "pres" := Pres,
    "psts" := Psts,
    "pstf" := Pstf,
    "dist" := Dist,
    "akhn" := Akhn,
    "haln" := Haln,
    "half" := Half,
    "nukt" := Nukt,
    "rkrf" := Rkrf,
    "rphf" := Rphf,
    "vatu" := Vatu,
    "cjct" := Cjct,
    "cfar" := Cfar
  ]

  /** Forms and widths for Chinese, Japanese and Korean text. */
  const CjkFeatures: map<string, FeatureInfo> := map[
    "smpl" := Smpl,
    "trad" := Trad,
    "tnam" := Tnam,
    "expt" := Expt,
    "hojo" := Hojo,
    "nlck" := Nlck,
    "jp78" := Jp78,
    "jp83" := Jp83,
    "jp90" := Jp90,
    "jp04" := Jp04,
    "hngl" := Hngl,
    "ljmo" := Ljmo,
    "tjmo" := Tjmo,
    "vjmo" := Vjmo,
    "fwid" := Fwid,
    "hwid" := Hwid,
    "halt" := Halt,
    "twid" := Twid,
    "qwid" := Qwid,
    "pwid" := Pwid,
    "palt" := Palt,
    "pkna" := Pkna,
    "ruby" := Ruby,
    "hkna" := Hkna,
    "vkna" := Vkna,
    "cpct" := Cpct
  ]

  /** Cursive joining and positional forms. */
  const CursiveFeatures: map<string, FeatureInfo> := map[
    "curs" := Curs,
    "jalt" := Jalt,
    "mset" := Mset,
    "rclt" := Rclt,
    "rlig" := Rlig,
    "isol" := Isol,
    "init" := Init,
    "medi" := Medi,
    "med2" := Med2,
    "fina" := Fina,
    "fin2" := Fin2,
    "fin3" := Fin3,
    "falt" := Falt,
    "stch" := Stch
  ]

  /** Capital forms, italics and vertical-layout features. */
  const CaseAndVerticalFeatures: map<string, FeatureInfo> := map[
    "pcap" := Pcap,
    "c2pc" := C2pc,
    "unic" := Unic,
    "cpsp" := Cpsp,
    "ital" := Ital,
    "valt" := Valt,
    "vhal" := Vhal,
    "vpal" := Vpal,
    "vert" := Vert,
    "vrt2" := Vrt2,
    "vrtr" := Vrtr,
    "vkrn" := Vkrn
  ]

  /** Directional forms, numerals and mathematical forms. */
  const DirectionAndMathFeatures: map<string, FeatureInfo> := map[
    "ltra" := Ltra,
    "ltrm" := Ltrm,
    "rtla" := Rtla,
    "rtlm" := Rtlm,
    "lnum" := Lnum,
    "afrc" := Afrc,
    "dnom" := Dnom,
    "numr" := Numr,
    "mgrk" := Mgrk,
    "flac" := Flac,
    "dtls" := Dtls,
    "ssty" := Ssty
  ]

  /** Swashes, localisation, ligature variants, kerning, bounds, size and ornaments. */
  const OtherFeatures: map<string, FeatureInfo> := map[
    "cswh" := Cswh,
    "locl" := Locl,
    "rand" := Rand,
    "nalt" := Nalt,
    "titl" := Titl,
    "rvrn" := Rvrn,
    "clig" := Clig,
    "hlig" := Hlig,
    "kern" := Kern,
    "opbd" := Opbd,
    "lfbd" := Lfbd,
    "rtbd" := Rtbd,
    "size" := Size,
    "ornm" := Ornm
  ]

  /** The generic entries of the two numbered families. */
  const WildcardFeatures: map<string, FeatureInfo> := map[
    "ss*" := StylisticSet,
    "cv*" := CharacterVariant
  ]

  // One named entry per tag, in the order of the source table.

  const Liga: FeatureInfo := FeatureInfo("Standard Ligatures",
    "Replaces common letter combinations with single glyphs for improved readability.")

  const Dlig: FeatureInfo := FeatureInfo("Discretionary Ligatures",
    "Optional ligatures that enhance the aesthetic of the text, often used in decorative contexts.")

  const Smcp: FeatureInfo := FeatureInfo("Small Capitals",
    "Transforms lowercase letters into smaller uppercase letters for stylistic emphasis.")

  const C2sc: FeatureInfo := FeatureInfo("Caps to Small Caps",
    "Converts uppercase letters into small capitals for a uniform appearance.")

  const Onum: FeatureInfo := FeatureInfo("Oldstyle Figures",
    "Numbers that have varying heights and alignments, blending better with lowercase text.")

  const Pnum: FeatureInfo := FeatureInfo("Proportional Figures",
    "Numbers that have varying widths, designed to fit better in running text.")

  const Tnum: FeatureInfo := FeatureInfo("Tabular Figures",
    "Numbers that have uniform widths, ideal for tables and columns.")

  const Swsh: FeatureInfo := FeatureInfo("Swash",
    "Decorative flourishes added to letters, often used in calligraphic styles.")

  const Hist: FeatureInfo := FeatureInfo("Historical Forms",
    "Alternative letterforms that reflect historical typographic styles.")

  const Salt: FeatureInfo := FeatureInfo("Stylistic Alternates",
    "Alternative glyphs for certain characters, allowing for varied typographic expression.")

  const Aalt: FeatureInfo := FeatureInfo("Access All Alternates",
    "Enables all available alternate glyphs for a font, providing maximum stylistic options.")

  const Calt: FeatureInfo := FeatureInfo("Contextual Alternates",
    "Automatically substitutes glyphs based on the surrounding characters to improve text flow and appearance.")

  const Case: FeatureInfo := FeatureInfo("Case-Sensitive Forms",
    "Adjusts punctuation and symbols to better align with uppercase text.")

  const Ccmp: FeatureInfo := FeatureInfo("Glyph Composition/Decomposition",
    "Enables the combination or separation of glyphs for more complex character representations.")

  const Frac: FeatureInfo := FeatureInfo("Fractions",
    "Formats numbers as fractions, improving readability in mathematical contexts.")

  const Ordn: FeatureInfo := FeatureInfo("Ordinals",
    "Formats numbers with appropriate superscript letters for ordinal indicators (e.g., 1st, 2nd).")

  const Subs: FeatureInfo := FeatureInfo("Subscript",
    "Renders characters slightly below the baseline, commonly used in chemical formulas and mathematical expressions.")

  const Sups: FeatureInfo := FeatureInfo("Superscript",
    "Renders characters slightly above the baseline, often used for exponents and footnotes.")

  const Sinf: FeatureInfo := FeatureInfo("Scientific Inferiors",
    "Renders characters in a smaller size below the baseline, typically used in scientific notation.")

  const Zero: FeatureInfo := FeatureInfo("Slashed Zero",
    "Displays the numeral zero with a slash through it to distinguish it from the letter 'O'.")

  const Mark: FeatureInfo := FeatureInfo("Mark Positioning",
    "Adjusts the placement of diacritical marks relative to base characters for improved legibility.")

  const Mkmk: FeatureInfo := FeatureInfo("Mark to Mark Positioning",
    "Controls the positioning of multiple diacritical marks relative to each other.")

  const StylisticSet: FeatureInfo := FeatureInfo("Stylistic Set",
    "Enables a specific set of alternate glyphs designed to provide a unique stylistic variation for the font.")

  const CharacterVariant: FeatureInfo := FeatureInfo("Character Variant",
    "Allows selection of alternate forms for specific characters, providing additional typographic options.")

  const Abvf: FeatureInfo := FeatureInfo("Above-base Forms",
    "Positions certain glyphs above the baseline, commonly used in scripts with diacritical marks.")

  const Blwf: FeatureInfo := FeatureInfo("Below-base Forms",
    "Positions certain glyphs below the baseline, often used in scripts with diacritical marks.")

  const Abvm: FeatureInfo := FeatureInfo("Above-base Mark Positioning",
    "Adjusts the placement of marks above base characters for better legibility in complex scripts.")

  const Blwm: FeatureInfo := FeatureInfo("Below-base Mark Positioning",
    "Adjusts the placement of marks below base characters to enhance readability in various scripts.")

  const Abvs: FeatureInfo := FeatureInfo("Above-base Substitutions",
    "Enables substitutions for glyphs positioned above the baseline, often used in scripts with diacritical marks.")

  const Blws: FeatureInfo := FeatureInfo("Below-base Substitutions",
    "Enables substitutions for glyphs positioned below the baseline, commonly used in scripts with diacritical marks.")

  const Pref: FeatureInfo := FeatureInfo("Pre-base Forms",
    "Replaces halant+consonant at the end of a consonant cluster with a glyph at the beginning. Used in scripts like Khmer, Myanmar, Malayalam, Telugu.")

  const Pres: FeatureInfo := FeatureInfo("Pre-base Substitutions",
    "Ligates consonant combinations that occur before the base character. Used in scripts like Khmer and Gurmukhi.")

  const Psts: FeatureInfo := FeatureInfo("Post-base Substitutions",
    "Ligates a final consonant+consonant cluster to a special form. Used in scripts like Khmer and Gurmukhi.")

  const Pstf: FeatureInfo := FeatureInfo("Post-base Forms",
    "Replaces final halant+consonant with special form. Khmer and Gurmukhi, Malayalam")

  const Dist: FeatureInfo := FeatureInfo("Distance",
    "Adjusts horizontal positioning between glyphs. (Always enabled, as opposed to 'kern'.)")

  const Akhn: FeatureInfo := FeatureInfo("Akhands",
    "Akhands are special ligatures used in scripts like Devanagari to combine multiple consonants into a single glyph for better readability.")

  const Haln: FeatureInfo := FeatureInfo("Halant Forms",
    "Halant forms are used in Indic scripts to represent consonants without an inherent vowel sound, allowing for the formation of consonant clusters.")

  const Half: FeatureInfo := FeatureInfo("Half Forms",
    "Half forms are abbreviated versions of consonants used in Indic scripts to create consonant clusters, typically by removing the vertical stem of the consonant.")

  const Nukt: FeatureInfo := FeatureInfo("Nukta Forms",
    "Nukta forms are diacritical marks used in Indic scripts to modify the pronunciation of consonants, often by adding a dot below the character.")

  const Rkrf: FeatureInfo := FeatureInfo("Rakar Forms",
    "Rakar forms are special glyphs used in Indic scripts to represent the combination of a consonant with the vowel sound \"r\", often appearing as a subscript or modified form.")

  const Rphf: FeatureInfo := FeatureInfo("Reph Forms",
    "Reph forms are special glyphs used in Indic scripts to represent the consonant \"r\" when it appears at the beginning of a syllable, often rendered as a superscript or modified form above the following consonant.")

  const Vatu: FeatureInfo := FeatureInfo("Vattu Forms",
    "Vattu forms are special glyphs used in Indic scripts to represent consonants that are combined with the vowel sound \"u\", often appearing as a subscript or modified form below the consonant.")

  const Cjct: FeatureInfo := FeatureInfo("Conjunct Forms",
    "Conjunct forms are special glyphs used in Indic scripts to represent combinations of consonants that are joined together to form a single syllable, often resulting in unique ligature shapes.")

  const Cfar: FeatureInfo := FeatureInfo("Conjunct Form After Ro",
    "Conjunct Form After Ro is a specific typographic feature in Indic scripts that modifies the appearance of consonant clusters following the consonant \"Ro\", often resulting in unique ligature shapes for improved readability.")

  const Smpl: FeatureInfo := FeatureInfo("Simplified Forms",
    "Simplified forms are alternative glyphs used in certain scripts to provide a more streamlined or modern appearance, often reducing the complexity of traditional letterforms for easier reading.")

  const Trad: FeatureInfo := FeatureInfo("Traditional Forms",
    "Traditional forms are glyphs that adhere to classical or historical letterforms, preserving the original design and stylistic elements of a script for authenticity and cultural significance.")

  const Tnam: FeatureInfo := FeatureInfo("Traditional Name Forms",
    "Traditional Name Forms are specific glyphs used in certain scripts to represent proper names in a manner that reflects historical or cultural conventions, often preserving unique stylistic elements associated with those names.")

  const Expt: FeatureInfo := FeatureInfo("Expert Forms",
    "Expert forms are specialized glyphs designed for advanced typographic use, often incorporating intricate details and variations that cater to professional typesetting and design needs.")

  const Hojo: FeatureInfo := FeatureInfo("Hojo Kanji Forms",
    "Hojo Kanji forms are specific glyphs used in Japanese typography to represent kanji characters in a manner that adheres to traditional or official standards, often used in formal documents and publications.")

  const Nlck: FeatureInfo := FeatureInfo("NLC Kanji Forms",
    "NLC Kanji forms are specialized glyphs used in Japanese typography to represent kanji characters according to the standards set by the National Language Council, ensuring consistency and clarity in written communication.")

  const Jp78: FeatureInfo := FeatureInfo("JIS78 Kanji Forms",
    "JIS78 Kanji forms are specific glyphs used in Japanese typography that conform to the 1978 standards established by the Japanese Industrial Standards (JIS) for kanji character representation.")

  const Jp83: FeatureInfo := FeatureInfo("JIS83 Kanji Forms",
    "JIS83 Kanji forms are specific glyphs used in Japanese typography that conform to the 1983 standards established by the Japanese Industrial Standards (JIS) for kanji character representation.")

  const Jp90: FeatureInfo := FeatureInfo("JIS90 Kanji Forms",
    "JIS90 Kanji forms are specific glyphs used in Japanese typography that conform to the 1990 standards established by the Japanese Industrial Standards (JIS) for kanji character representation.")

  const Jp04: FeatureInfo := FeatureInfo("JIS04 Kanji Forms",
    "JIS04 Kanji forms are specific glyphs used in Japanese typography that conform to the 2004 standards established by the Japanese Industrial Standards (JIS) for kanji character representation.")

  const Hngl: FeatureInfo := FeatureInfo("Hangul Forms",
    "Hangul forms are specific glyphs used in Korean typography to represent Hangul characters, ensuring proper representation and readability of the Korean script.")

  const Ljmo: FeatureInfo := FeatureInfo("Leading Jamo Forms",
    "Leading Jamo forms are specific glyphs used in Korean typography to represent the initial consonant components of Hangul syllables, ensuring accurate representation and readability of the Korean script.")

  const Tjmo: FeatureInfo := FeatureInfo("Trailing Jamo Forms",
    "Trailing Jamo forms are specific glyphs used in Korean typography to represent the final consonant components of Hangul syllables, ensuring accurate representation and readability of the Korean script.")

  const Vjmo: FeatureInfo := FeatureInfo("Vowel Jamo Forms",
    "Vowel Jamo forms are specific glyphs used in Korean typography to represent the vowel components of Hangul syllables, ensuring accurate representation and readability of the Korean script.")

  const Fwid: FeatureInfo := FeatureInfo("Full Widths",
    "Full Widths are glyphs that occupy the full width of a character cell, commonly used in East Asian typography to ensure proper alignment and spacing of characters.")

  const Hwid: FeatureInfo := FeatureInfo("Half Widths",
    "Half Widths are glyphs that occupy half the width of a character cell, commonly used in East Asian typography to provide a more compact representation of characters.")

  const Halt: FeatureInfo := FeatureInfo("Halant Alternates",
    "Halant Alternates are alternative glyphs used in Indic scripts to represent the halant character, providing different stylistic options for rendering consonant clusters.")

  const Twid: FeatureInfo := FeatureInfo("Third Widths",
    "Third Widths are glyphs that occupy one-third the width of a character cell, offering an additional option for character spacing in East Asian typography.")

  const Qwid: FeatureInfo := FeatureInfo("Quarter Widths",
    "Quarter Widths are glyphs that occupy one-quarter the width of a character cell, allowing for even more compact character representation in East Asian typography.")

  const Pwid: FeatureInfo := FeatureInfo("Proportional Widths",
    "Proportional Widths are glyphs that have varying widths based on their design, allowing for more natural spacing and alignment in text layout.")

  const Palt: FeatureInfo := FeatureInfo("Proportional Alternate Widths",
    "Proportional Alternate Widths are alternative glyphs with varying widths, providing additional options for natural spacing and alignment in text layout.")

  const Pkna: FeatureInfo := FeatureInfo("Proportional Kana",
    "Proportional Kana are glyphs used in Japanese typography that have varying widths, allowing for more natural spacing and alignment of kana characters in text layout.")

  const Ruby: FeatureInfo := FeatureInfo("Ruby Notation",
    "Ruby Notation are small annotations placed above or beside characters, commonly used in East Asian typography to provide pronunciation guides or additional information.")

  const Hkna: FeatureInfo := FeatureInfo("Half-width Kana",
    "Half-width Kana are glyphs used in Japanese typography that occupy half the width of a character cell, providing a more compact representation of kana characters.")

  const Vkna: FeatureInfo := FeatureInfo("Vertical Kana",
    "Vertical Kana are glyphs used in Japanese typography that are designed for vertical text layout, ensuring proper representation and readability of kana characters in vertical writing.")

  const Cpct: FeatureInfo := FeatureInfo("Centered CJK Punctuation",
    "Centered CJK Punctuation are punctuation marks used in East Asian typography that are centered within the character cell, ensuring proper alignment and spacing in text layout.")

  const Curs: FeatureInfo := FeatureInfo("Cursive Positioning",
    "Cursive Positioning adjusts the placement of glyphs to create a flowing, connected appearance, often used in scripts like Arabic for improved readability and aesthetics.")

  const Jalt: FeatureInfo := FeatureInfo("Justification Alternates",
    "Justification Alternates provide alternative glyphs designed to improve text justification, ensuring even spacing and alignment in fully justified text layouts.")

  const Mset: FeatureInfo := FeatureInfo("Mark Set",
    "Mark Set allows selection of specific sets of diacritical marks for use in complex scripts, providing enhanced typographic control and customization.")

  const Rclt: FeatureInfo := FeatureInfo("Recalculated Ligatures",
    "Recalculated Ligatures dynamically adjust the formation of ligatures based on surrounding characters, enhancing text flow and appearance in various scripts.")

  const Rlig: FeatureInfo := FeatureInfo("Required Ligatures",
    "Required Ligatures are essential ligature formations that must be applied in certain scripts to ensure correct representation and readability of text.")

  const Isol: FeatureInfo := FeatureInfo("Isolated Forms",
    "Isolated Forms are specific glyphs used in scripts like Arabic to represent characters when they appear alone, ensuring proper representation and readability.")

  const Init: FeatureInfo := FeatureInfo("Initial Forms",
    "Initial Forms are specific glyphs used in scripts like Arabic to represent characters when they appear at the beginning of a word, ensuring proper representation and readability.")

  const Medi: FeatureInfo := FeatureInfo("Medial Forms",
    "Medial Forms are specific glyphs used in scripts like Arabic to represent characters when they appear in the middle of a word, ensuring proper representation and readability.")

  const Med2: FeatureInfo := FeatureInfo("Medial Forms 2",
    "Medial Forms 2 are alternative glyphs used in scripts like Arabic to represent characters in the middle of a word, providing additional stylistic options for rendering text.")

  const Fina: FeatureInfo := FeatureInfo("Final Forms",
    "Final Forms are specific glyphs used in scripts like Arabic to represent characters when they appear at the end of a word, ensuring proper representation and readability.")

  const Fin2: FeatureInfo := FeatureInfo("Final Forms 2",
    "Final Forms 2 are alternative glyphs used in scripts like Arabic to represent characters at the end of a word, providing additional stylistic options for rendering text.")

  const Fin3: FeatureInfo := FeatureInfo("Final Forms 3",
    "Final Forms 3 are additional alternative glyphs used in scripts like Arabic to represent characters at the end of a word, offering further stylistic variations for text rendering.")

  const Falt: FeatureInfo := FeatureInfo("Final Alternate Forms",
    "Final Alternate Forms are special glyphs used in scripts like Arabic to provide unique stylistic variations for characters appearing at the end of a word, enhancing the visual appeal of the text.")

  const Stch: FeatureInfo := FeatureInfo("Stretching Glyphs",
    "Stretching Glyphs are used in scripts like Arabic to elongate certain characters for aesthetic purposes, allowing for better text justification and visual harmony.")

  const Pcap: FeatureInfo := FeatureInfo("Petite Capitals",
    "Transforms lowercase letters into petite capitals, which are slightly smaller than small capitals, for a refined typographic effect.")

  const C2pc: FeatureInfo := FeatureInfo("Caps to Petite Caps",
    "Converts uppercase letters into petite capitals, providing a subtle variation for typographic emphasis.")

  const Unic: FeatureInfo := FeatureInfo("Unicase",
    "Transforms all letters into a single case style, blending characteristics of both uppercase and lowercase for a unique appearance.")

  const Cpsp: FeatureInfo := FeatureInfo("Capital Spacing",
    "Increases the spacing between uppercase letters to enhance readability and visual impact.")

  const Ital: FeatureInfo := FeatureInfo("Italics",
    "Applies an italic style to the text, slanting characters to the right for emphasis and stylistic effect.")

  const Valt: FeatureInfo := FeatureInfo("Alternate Vertical Metrics",
    "Adjusts the vertical metrics of the font to provide an alternative line spacing option, improving readability in certain contexts.")

  const Vhal: FeatureInfo := FeatureInfo("Alternate Vertical Half Metrics",
    "Modifies the vertical half metrics of the font to offer a different line spacing option, enhancing text appearance in specific scenarios.")

  const Vpal: FeatureInfo := FeatureInfo("Proportional Alternate Vertical Metrics",
    "Adjusts the vertical metrics of the font proportionally to provide an alternative line spacing option, improving readability in various contexts.")

  const Vert: FeatureInfo := FeatureInfo("Vertical Writing",
    "Enables vertical text layout, allowing characters to be arranged from top to bottom, commonly used in East Asian typography.")

  const Vrt2: FeatureInfo := FeatureInfo("Vertical Writing Alternates",
    "Provides alternative glyphs optimized for vertical text layout, enhancing readability and aesthetics in vertical writing contexts.")

  const Vrtr: FeatureInfo := FeatureInfo("Vertical Rotation",
    "Rotates glyphs for optimal display in vertical text layouts, ensuring proper orientation and readability.")

  const Vkrn: FeatureInfo := FeatureInfo("Vertical Kerning",
    "Adjusts the spacing between glyphs in vertical text layouts to improve readability and visual harmony.")

  const Ltra: FeatureInfo := FeatureInfo("Left-to-Right Alternates",
    "Provides alternative glyphs optimized for left-to-right text layouts, enhancing readability and aesthetics in such contexts.")

  const Ltrm: FeatureInfo := FeatureInfo("Left-to-Right Metrics",
    "Adjusts the font metrics for left-to-right text layouts, ensuring proper alignment and spacing.")

  const Rtla: FeatureInfo := FeatureInfo("Right-to-Left Alternates",
    "Provides alternative glyphs optimized for right-to-left text layouts, enhancing readability and aesthetics in such contexts.")

  const Rtlm: FeatureInfo := FeatureInfo("Right-to-Left Metrics",
    "Adjusts the font metrics for right-to-left text layouts, ensuring proper alignment and spacing.")

  const Lnum: FeatureInfo := FeatureInfo("Lining Figures",
    "Numbers that have uniform heights and alignments, designed to stand out in text for emphasis.")

  const Afrc: FeatureInfo := FeatureInfo("Alternative Fractions",
    "Provides an alternative style for formatting numbers as fractions, enhancing visual appeal in mathematical contexts.")

  const Dnom: FeatureInfo := FeatureInfo("Denominators",
    "Formats numbers to be used as denominators in fractions, ensuring proper alignment and readability.")

  const Numr: FeatureInfo := FeatureInfo("Numerators",
    "Formats numbers to be used as numerators in fractions, ensuring proper alignment and readability.")

  const Mgrk: FeatureInfo := FeatureInfo("Mathematical Greek",
    "Provides specialized glyphs for Greek letters used in mathematical contexts, ensuring clarity and distinction from standard Greek characters.")

  const Flac: FeatureInfo := FeatureInfo("Flattened Accent",
    "Modifies accent marks to have a flattened appearance, enhancing readability and aesthetic appeal in certain typographic contexts.")

  const Dtls: FeatureInfo := FeatureInfo("Dotless Forms",
    "Provides glyphs for characters that typically have dots, rendered without the dot for specific typographic needs.")

  const Ssty: FeatureInfo := FeatureInfo("Script Style",
    "Applies a script style to the text, giving characters a handwritten or calligraphic appearance for decorative purposes.")

  const Cswh: FeatureInfo := FeatureInfo("Contextual Swash",
    "Automatically applies swash flourishes to letters based on their context within a word, enhancing the decorative appearance of the text.")

  const Locl: FeatureInfo := FeatureInfo("Localized Forms",
    "Substitutes glyphs with region-specific variants to better suit local typographic conventions and preferences.")

  const Rand: FeatureInfo := FeatureInfo("Randomize",
    "Randomly selects from a set of alternate glyphs for certain characters, adding variety and a more organic feel to the text.")

  const Nalt: FeatureInfo := FeatureInfo("Alternate Annotation Forms",
    "Provides alternative glyphs for annotation characters, allowing for varied typographic expression in footnotes and references.")

  const Titl: FeatureInfo := FeatureInfo("Titling Alternates",
    "Provides specialized glyphs designed for use in titles and headings, enhancing their visual impact and readability.")

  const Rvrn: FeatureInfo := FeatureInfo("Reversed Forms",
    "Provides glyphs that are mirrored or reversed versions of standard characters, offering unique stylistic options for text design.")

  const Clig: FeatureInfo := FeatureInfo("Contextual Ligatures",
    "Automatically forms ligatures based on the context of surrounding characters to enhance text flow and appearance.")

  const Hlig: FeatureInfo := FeatureInfo("Historical Ligatures",
    "Ligatures that were commonly used in historical typography, providing a classic and traditional appearance to the text.")

  const Kern: FeatureInfo := FeatureInfo("Kerning",
    "Adjusts the spacing between specific pairs of characters to improve overall text appearance and readability.")

  const Opbd: FeatureInfo := FeatureInfo("Optical Bounds",
    "Adjusts the positioning of glyphs to create optical margins, enhancing the visual alignment of text blocks.")

  const Lfbd: FeatureInfo := FeatureInfo("Left Bounds",
    "Adjusts the left-side positioning of glyphs to create optical margins, improving the visual alignment of text blocks.")

  const Rtbd: FeatureInfo := FeatureInfo("Right Bounds",
    "Adjusts the right-side positioning of glyphs to create optical margins, enhancing the visual alignment of text blocks.")

  const Size: FeatureInfo := FeatureInfo("Optical Size",
    "Selects glyph variants optimized for different point sizes, improving readability and aesthetics across various text sizes.")

  const Ornm: FeatureInfo := FeatureInfo("Ornament Sets",
    "Provides decorative glyphs and flourishes that can be used to enhance the visual appeal of text in ornamental contexts.")


  /** The group `([0-1][0-9]|20|0[1-9])` applied to exactly two characters. */
  predicate IsSetNumber(d1: char, d2: char) {
    || ('0' <= d1 <= '1' && IsDigit(d2))
    || (d1 == '2' && d2 == '0')
    || (d1 == '0' && '1' <= d2 <= '9')
  }

  /** The anchored pattern `^ss([0-1][0-9]|20|0[1-9])$`. */
  predicate IsStylisticSetTag(tag: string) {
    |tag| == 4 && tag[0] == 's' && tag[1] == 's' && IsSetNumber(tag[2], tag[3])
  }

  /** The anchored pattern `^cv([0-1][0-9]|20|0[1-9])$`. */
  predicate IsCharacterVariantTag(tag: string) {
    |tag| == 4 && tag[0] == 'c' && tag[1] == 'v' && IsSetNumber(tag[2], tag[3])
  }

  /**
   * Reference meaning of the patterns: the two-letter `prefix` followed by
   * exactly two decimal digits whose value is at most 20.
   */
  predicate IsNumberedTag(tag: string, prefix: string) {
    && |prefix| == 2 && |tag| == 4 && tag[..2] == prefix
    && IsDigit(tag[2]) && IsDigit(tag[3])
    && 10 * DigitValue(tag[2]) + DigitValue(tag[3]) <= 20
  }

  /** The regular-expression group accepts exactly the numbers 00 through 20. */
  lemma SetNumberRange(d1: char, d2: char)
    ensures IsSetNumber(d1, d2) <==>
              IsDigit(d1) && IsDigit(d2) && 10 * DigitValue(d1) + DigitValue(d2) <= 20
  {
    if IsDigit(d1) && IsDigit(d2) && 10 * DigitValue(d1) + DigitValue(d2) <= 20 {
      assert DigitValue(d1) <= 2;
      if DigitValue(d1) == 2 {
        assert d1 == '2' && DigitValue(d2) == 0;
      }
    }
  }

  /** Both patterns mean "prefix, then a two-digit number from 00 to 20". */
  lemma PatternsAreNumberedTags(tag: string)
    ensures IsStylisticSetTag(tag) <==> IsNumberedTag(tag, "ss")
    ensures IsCharacterVariantTag(tag) <==> IsNumberedTag(tag, "cv")
  {
    if |tag| == 4 {
      SetNumberRange(tag[2], tag[3]);
      assert tag[..2] == [tag[0], tag[1]];
    }
  }

  predicate IsLower(c: char) {
    'a' <= c <= 'z'
  }

  /**
   * The shape every non-wildcard key of the catalog has (a shape, not
   * membership in the registry): four characters starting with a lower-case
   * letter, and not a two-letter numbered-family prefix followed by a digit.
   */
  predicate IsPlainTagShape(k: string) {
    && |k| == 4 && IsLower(k[0])
    && !(((k[0] == 's' && k[1] == 's') || (k[0] == 'c' && k[1] == 'v')) && IsDigit(k[2]))
  }

  /** The shape of a key of the catalog: a plain tag shape or one of the two wildcards. */
  predicate IsCatalogKey(k: string) {
    k == "ss*" || k == "cv*" || IsPlainTagShape(k)
  }

  lemma WildcardFeaturesKeys()
    ensures forall k :: k in WildcardFeatures ==> k == "ss*" || k == "cv*"
    ensures WildcardFeatures["ss*"] == StylisticSet
  {
    assert "ss*"[0] != "cv*"[0];
  }

  lemma CommonFeaturesKeys()
    ensures forall k :: k in CommonFeatures ==> IsPlainTagShape(k)
  {
  }

  lemma IndicFeaturesKeys()
    ensures forall k :: k in IndicFeatures ==> IsPlainTagShape(k)
  {
  }

  lemma CjkFeaturesKeys()
    ensures forall k :: k in CjkFeatures ==> IsPlainTagShape(k)
  {
  }

  lemma CursiveFeaturesKeys()
    ensures forall k :: k in CursiveFeatures ==> IsPlainTagShape(k)
  {
  }

  lemma CaseAndVerticalFeaturesKeys()
    ensures forall k :: k in CaseAndVerticalFeatures ==> IsPlainTagShape(k)
  {
  }

  lemma DirectionAndMathFeaturesKeys()
    ensures forall k :: k in DirectionAndMathFeatures ==> IsPlainTagShape(k)
  {
  }

  lemma OtherFeaturesKeys()
    ensures forall k :: k in OtherFeatures ==> IsPlainTagShape(k)
  {
  }

  /** Every key of the catalog has the catalog-key shape. */
  lemma CatalogKeys(tag: string)
    ensures tag in FeatureTable ==> IsCatalogKey(tag)
  {
    CommonFeaturesKeys();
    IndicFeaturesKeys();
    CjkFeaturesKeys();
    CursiveFeaturesKeys();
    CaseAndVerticalFeaturesKeys();
    DirectionAndMathFeaturesKeys();
    OtherFeaturesKeys();
    WildcardFeaturesKeys();
  }

  /** The two wildcard keys are entries of the catalog, holding the generic family entries. */
  lemma WildcardEntries()
    ensures "ss*" in FeatureTable && FeatureTable["ss*"] == StylisticSet
    ensures "cv*" in FeatureTable && FeatureTable["cv*"] == CharacterVariant
  {
    WildcardFeaturesKeys();
  }

  /** No key of the catalog has the shape of a numbered tag, so no table entry shadows a pattern. */
  lemma NoNumberedKeys(tag: string)
    ensures IsStylisticSetTag(tag) || IsCharacterVariantTag(tag) ==> tag !in FeatureTable
  {
    CatalogKeys(tag);
    NumberedTagsAreNotKeys(tag);
  }

  lemma NumberedTagsAreNotKeys(tag: string)
    ensures IsStylisticSetTag(tag) || IsCharacterVariantTag(tag) ==> !IsCatalogKey(tag)
  {
  }

  /**
   * `getFeatureInfo`: the catalog entry for `tag`, else the generic entry of
   * its numbered family, else nothing. Total: every string has an answer.
   */
  function GetFeatureInfo(tag: string): (r: Option<FeatureInfo>)
    ensures tag in FeatureTable ==> r == Some(FeatureTable[tag])
    ensures IsNumberedTag(tag, "ss") ==> r == Some(StylisticSet)
    ensures IsNumberedTag(tag, "cv") ==> r == Some(CharacterVariant)
    ensures r.None? <==>
              tag !in FeatureTable && !IsNumberedTag(tag, "ss") && !IsNumberedTag(tag, "cv")
    ensures r.Some? ==> r.value in FeatureTable.Values
  {
    PatternsAreNumberedTags(tag);
    NoNumberedKeys(tag);
    WildcardEntries();
    if tag in FeatureTable then Some(FeatureTable[tag])
    else if IsStylisticSetTag(tag) then Some(StylisticSet)
    else if IsCharacterVariantTag(tag) then Some(CharacterVariant)
    else None
  }

  /**
   * A tag that starts like a stylistic set but is a key of its own, `ssty`,
   * gets its own entry. It does not match the numbered pattern either; the
   * general precedence fact, that no key matches a pattern and so the
   * patterns never override an entry, is `NoNumberedKeys`.
   */
  lemma ExactHitWins()
    ensures GetFeatureInfo("ssty") == Some(Ssty)
    ensures Ssty.name == "Script Style" && Ssty != StylisticSet
  {
    WildcardFeaturesKeys();
    ScriptStyleEntry();
  }

  /** `ssty` sits in the direction-and-math block and in no later block. */
  lemma ScriptStyleEntry()
    ensures "ssty" in DirectionAndMathFeatures && DirectionAndMathFeatures["ssty"] == Ssty
    ensures "ssty" !in OtherFeatures
  {
  }

  /** The wildcard keys are ordinary entries, found by exact match. */
  lemma WildcardKeysResolve()
    ensures GetFeatureInfo("ss*") == Some(StylisticSet) && StylisticSet.name == "Stylistic Set"
    ensures GetFeatureInfo("cv*") == Some(CharacterVariant) && CharacterVariant.name == "Character Variant"
  {
    WildcardEntries();
  }

  /** Two digits from 00 to 20 after `ss` or `cv` select the generic family entry. */
  lemma NumberedExamples()
    ensures GetFeatureInfo("ss00") == Some(StylisticSet)
    ensures GetFeatureInfo("ss20") == Some(StylisticSet)
    ensures GetFeatureInfo("cv07") == Some(CharacterVariant)
  {
    NumberedExampleTags();
  }

  lemma NumberedExampleTags()
    ensures IsNumberedTag("ss00", "ss") && IsNumberedTag("ss20", "ss") && IsNumberedTag("cv07", "cv")
  {
    PatternsAreNumberedTags("ss00");
    PatternsAreNumberedTags("ss20");
    PatternsAreNumberedTags("cv07");
  }

  /**
   * The patterns are anchored, case-sensitive and take exactly two digits
   * up to 20: `ss21`, `ss1`, `ss001`, `SS01` and `cv99` resolve to nothing.
   */
  lemma UnmatchedExamples()
    ensures GetFeatureInfo("ss21").None?
    ensures GetFeatureInfo("ss1").None?
    ensures GetFeatureInfo("ss001").None?
    ensures GetFeatureInfo("SS01").None?
    ensures GetFeatureInfo("cv99").None?
  {
    CatalogKeys("ss21");
    CatalogKeys("ss1");
    CatalogKeys("ss001");
    CatalogKeys("SS01");
    CatalogKeys("cv99");
    UnmatchedExampleTags();
  }

  lemma UnmatchedExampleTags()
    ensures !IsCatalogKey("ss21") && !IsNumberedTag("ss21", "ss") && !IsNumberedTag("ss21", "cv")
    ensures !IsCatalogKey("ss1") && !IsNumberedTag("ss1", "ss") && !IsNumberedTag("ss1", "cv")
    ensures !IsCatalogKey("ss001") && !IsNumberedTag("ss001", "ss") && !IsNumberedTag("ss001", "cv")
    ensures !IsCatalogKey("SS01") && !IsNumberedTag("SS01", "ss") && !IsNumberedTag("SS01", "cv")
    ensures !IsCatalogKey("cv99") && !IsNumberedTag("cv99", "ss") && !IsNumberedTag("cv99", "cv")
  {
  }
}
