/**
 * The saved-font store of `src/lib/stores/font-store.ts`: the current font,
 * mirrored into the browser's local storage under one key so that it
 * survives a reload. Local storage is modelled as a map from keys to
 * strings; `JSON.stringify` and `JSON.parse` are parameters of the store,
 * and a parse that throws is an `Err`. Outside the browser the store never
 * touches storage.
 */
module SavedFont {
  import opened Wrappers
  import opened FontTypes

  const StorageKey: string := "font-kit-saved-font"

  /**
   * `loadFromStorage` as a value: a stored, non-empty string that parses
   * gives its font; anything else gives `null`.
   */
  function LoadedFont(storage: map<string, string>, parse: string -> Result<Font, string>): Font {
    if StorageKey in storage && storage[StorageKey] != "" then
      match parse(storage[StorageKey])
      case Ok(font) => font
      case Err(_) => None
    else None
  }

  /** `loadFromStorage` drops the stored entry exactly when it is non-empty and does not parse. */
  predicate LoadDropsEntry(storage: map<string, string>, parse: string -> Result<Font, string>) {
    StorageKey in storage && storage[StorageKey] != "" && parse(storage[StorageKey]).Err?
  }

  /** The codec writes a non-empty text for every font and reads each one back. */
  ghost predicate JsonRoundTrips(serialize: FontInfo -> string, parse: string -> Result<Font, string>) {
    forall f: FontInfo :: serialize(f) != "" && parse(serialize(f)) == Ok(Some(f))
  }

  /** After a font is saved, loading gives it back; after the entry is removed, loading gives `null`. */
  lemma SaveThenLoad(storage: map<string, string>, f: FontInfo,
                     serialize: FontInfo -> string, parse: string -> Result<Font, string>)
    requires JsonRoundTrips(serialize, parse)
    ensures LoadedFont(storage[StorageKey := serialize(f)], parse) == Some(f)
    ensures !LoadDropsEntry(storage[StorageKey := serialize(f)], parse)
    ensures LoadedFont(storage - {StorageKey}, parse) == None
  {
    assert serialize(f) != "" && parse(serialize(f)) == Ok(Some(f));
  }

  /** A failed load leaves storage from which the next load is `null` and drops nothing. */
  lemma DroppedEntryLoadsNull(storage: map<string, string>, parse: string -> Result<Font, string>)
    requires LoadDropsEntry(storage, parse)
    ensures LoadedFont(storage, parse) == None
    ensures LoadedFont(storage - {StorageKey}, parse) == None
    ensures !LoadDropsEntry(storage - {StorageKey}, parse)
  {
  }

  class FontStore {
    /** Whether the code runs in a browser (`browser` from the app environment). */
    const browser: bool
    const serialize: FontInfo -> string
    const parse: string -> Result<Font, string>
    /** The store's current value. */
    var value: Font
    /** The browser's local storage. */
    var storage: map<string, string>

    /** `createFontStore`: in a browser the initial value is loaded from storage. */
    constructor (browser: bool, storage: map<string, string>,
                 serialize: FontInfo -> string, parse: string -> Result<Font, string>)
      ensures this.browser == browser && this.serialize == serialize && this.parse == parse
      ensures browser ==> value == LoadedFont(storage, parse)
      ensures !browser ==> value == None
      ensures this.storage == if browser && LoadDropsEntry(storage, parse)
                              then storage - {StorageKey} else storage
    {
      this.browser := browser;
      this.serialize := serialize;
      this.parse := parse;
      this.storage := storage;
      value := None;
      new;
      if browser {
        value := LoadFromStorage();
      }
    }

    /** `loadFromStorage`: read the key; a text that does not parse is removed. */
    method LoadFromStorage() returns (font: Font)
      modifies this
      ensures font == LoadedFont(old(storage), parse)
      ensures storage == if LoadDropsEntry(old(storage), parse)
                         then old(storage) - {StorageKey} else old(storage)
      ensures value == old(value)
    {
      if StorageKey in storage && storage[StorageKey] != "" {
        var parsed := parse(storage[StorageKey]);
        match parsed {
          case Ok(f) =>
            return f;
          case Err(_) =>
            storage := storage - {StorageKey};
        }
      }
      return None;
    }

    /**
     * `set`: in a browser a font is written under the key and `null`
     * removes the key; then the value is replaced. No other key changes.
     */
    method Set(font: Font)
      modifies this
      ensures value == font
      ensures browser && font.Some? ==> storage == old(storage)[StorageKey := serialize(font.value)]
      ensures browser && font.None? ==> storage == old(storage) - {StorageKey}
      ensures !browser ==> storage == old(storage)
      ensures browser && JsonRoundTrips(serialize, parse) ==> LoadedFont(storage, parse) == font
    {
      if browser {
        if font.Some? {
          storage := storage[StorageKey := serialize(font.value)];
        } else {
          storage := storage - {StorageKey};
        }
      }
      value := font;
      if browser && JsonRoundTrips(serialize, parse) {
        if font.Some? {
          SaveThenLoad(old(storage), font.value, serialize, parse);
        } else {
          SaveThenLoad(old(storage), FontInfo("", "", [], "", ""), serialize, parse);
        }
      }
    }

    /** `update`: the value changes; storage is not written, so a reload gives the old saved font. */
    method Update(f: Font -> Font)
      modifies this
      ensures value == f(old(value))
      ensures storage == old(storage)
    {
      value := f(value);
    }

    /** `clear`: in a browser the key is removed; the value becomes `null`. */
    method Clear()
      modifies this
      ensures value == None
      ensures browser ==> storage == old(storage) - {StorageKey}
      ensures !browser ==> storage == old(storage)
      ensures browser ==> LoadedFont(storage, parse) == None
    {
      if browser {
        storage := storage - {StorageKey};
      }
      value := None;
    }
  }
}
