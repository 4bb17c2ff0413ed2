/**
 * The server action that handles an upload, `src/routes/+page.server.ts`.
 *
 * The action validates the form, parses the font, picks a family name,
 * classifies the format by file-name suffix, stores the file, and answers
 * with the file's public URL and its feature list. The font parser and the
 * object store are outside the model: they are parameters, and the action
 * returns, beside its answer, the sequence of calls it made to them.
 */
module UploadAction {
  import opened Wrappers
  import opened FeatureCatalog
  import opened FontForm
  import opened FontTypes

  /** A font face as the parser reports it. */
  datatype FontFace = FontFace(familyName: string, availableFeatures: seq<string>)

  /**
   * What the parser returns: a single face (it has `familyName`), a
   * collection (it has `fonts` and `getFont`), or an object with neither.
   */
  datatype ParsedFont =
    | Single(face: FontFace)
    | Collection(fonts: seq<FontFace>, getFont: string -> Option<FontFace>)
    | Neither(availableFeatures: seq<string>)

  /** The format reported to the page. */
  datatype Format = TrueType | Woff | Woff2 | UnknownFormat

  function FormatName(f: Format): string {
    match f
    case TrueType => "truetype"
    case Woff => "woff"
    case Woff2 => "woff2"
    case UnknownFormat => "unknown"
  }

  /** `s.endsWith(suffix)`. */
  predicate EndsWith(s: string, suffix: string) {
    |suffix| <= |s| && s[|s| - |suffix|..] == suffix
  }

  /**
   * The format by file-name suffix, first match wins: `.ttf` or `.otf` is
   * TrueType, then `.woff`, then `.woff2`. The suffixes never overlap, so
   * each format holds exactly when its own suffix does.
   */
  function ClassifyFormat(fileName: string): (f: Format)
    ensures f == TrueType <==> EndsWith(fileName, ".ttf") || EndsWith(fileName, ".otf")
    ensures f == Woff <==> EndsWith(fileName, ".woff")
    ensures f == Woff2 <==> EndsWith(fileName, ".woff2")
    ensures f == UnknownFormat <==>
              !EndsWith(fileName, ".ttf") && !EndsWith(fileName, ".otf")
              && !EndsWith(fileName, ".woff") && !EndsWith(fileName, ".woff2")
  {
    SuffixesExclude(fileName);
    if EndsWith(fileName, ".ttf") || EndsWith(fileName, ".otf") then TrueType
    else if EndsWith(fileName, ".woff") then Woff
    else if EndsWith(fileName, ".woff2") then Woff2
    else UnknownFormat
  }

  /** No file name ends with two of the recognised suffixes. */
  lemma SuffixesExclude(s: string)
    ensures EndsWith(s, ".woff") ==> !EndsWith(s, ".ttf") && !EndsWith(s, ".otf")
    ensures EndsWith(s, ".woff2") ==>
              !EndsWith(s, ".ttf") && !EndsWith(s, ".otf") && !EndsWith(s, ".woff")
  {
    if EndsWith(s, ".woff") {
      assert s[|s| - 1] == 'f' && s[|s| - 4] == 'w';
    }
    if EndsWith(s, ".woff2") {
      assert s[|s| - 1] == '2';
    }
  }

  /** Upper-case extensions are not recognised: the comparison is exact. */
  lemma FormatExamples()
    ensures ClassifyFormat("Inter.otf") == TrueType
    ensures ClassifyFormat("Inter.woff2") == Woff2
    ensures ClassifyFormat("Inter.TTF") == UnknownFormat
  {
    SuffixesExclude("Inter.woff2");
    assert "Inter.otf"[5..] == ".otf";
    assert "Inter.woff2"[5..] == ".woff2";
    assert "Inter.TTF"[6] == 'T' && "Inter.TTF"[4] == 'r' && "Inter.TTF"[3] == 'e';
  }

  /**
   * The iteration order of `new Set(names)`: each name at its first
   * occurrence, appended after the names already present in `acc`.
   */
  function InsertionOrder(names: seq<string>, acc: seq<string>): seq<string>
    decreases |names|
  {
    if names == [] then acc
    else InsertionOrder(names[1..], if names[0] in acc then acc else acc + [names[0]])
  }

  function FamilyNames(fonts: seq<FontFace>): (names: seq<string>)
    ensures |names| == |fonts|
    ensures forall i :: 0 <= i < |fonts| ==> names[i] == fonts[i].familyName
  {
    if fonts == [] then [] else [fonts[0].familyName] + FamilyNames(fonts[1..])
  }

  /** The set keeps what it already holds at the front, and gains exactly the names seen. */
  lemma {:induction false} InsertionOrderKeepsPrefix(names: seq<string>, acc: seq<string>)
    ensures |acc| <= |InsertionOrder(names, acc)|
    ensures InsertionOrder(names, acc)[..|acc|] == acc
    ensures forall x :: x in InsertionOrder(names, acc) <==> x in acc || x in names
    decreases |names|
  {
    if names != [] {
      var next := if names[0] in acc then acc else acc + [names[0]];
      InsertionOrderKeepsPrefix(names[1..], next);
      var r := InsertionOrder(names, acc);
      assert r == InsertionOrder(names[1..], next);
      assert r[..|acc|] == next[..|next|][..|acc|];
      assert names == [names[0]] + names[1..];
    }
  }

  /** The first value of `new Set(names)` is the first name, when there is one. */
  lemma FirstOfSetIsFirstName(names: seq<string>)
    ensures |InsertionOrder(names, [])| > 0 <==> |names| > 0
    ensures |names| > 0 ==> InsertionOrder(names, [])[0] == names[0]
  {
    if |names| > 0 {
      var empty: seq<string> := [];
      assert empty + [names[0]] == [names[0]];
      assert InsertionOrder(names, empty) == InsertionOrder(names[1..], [names[0]]);
      InsertionOrderKeepsPrefix(names[1..], [names[0]]);
    }
  }

  /**
   * The family name a collection is known by: the first value of the set
   * of its members' family names, if that value is truthy.
   */
  function CollectionFamily(fonts: seq<FontFace>): (family: Option<string>)
    ensures family.Some? <==> |fonts| > 0 && fonts[0].familyName != ""
    ensures family.Some? ==> family.value == fonts[0].familyName
  {
    var ordered := InsertionOrder(FamilyNames(fonts), []);
    FirstOfSetIsFirstName(FamilyNames(fonts));
    if |ordered| == 0 || ordered[0] == "" then None else Some(ordered[0])
  }

  /** The font name and the feature tags the action ends up with. */
  datatype Resolved = Resolved(name: string, features: seq<string>)

  /**
   * The name and features of a parsed font: a face gives its own; a
   * collection gives its first family's face, or nothing when that family
   * is empty or `getFont` finds no face; anything else is `Unknown`.
   */
  function ResolveFont(parsed: ParsedFont): (r: Option<Resolved>)
    ensures parsed.Single? ==>
              r == Some(Resolved(parsed.face.familyName, parsed.face.availableFeatures))
    ensures parsed.Neither? ==> r == Some(Resolved("Unknown", parsed.availableFeatures))
    ensures parsed.Collection? ==>
              (r.Some? <==> |parsed.fonts| > 0 && parsed.fonts[0].familyName != ""
                            && parsed.getFont(parsed.fonts[0].familyName).Some?)
    ensures parsed.Collection? && r.Some? ==>
              r.value.name == parsed.fonts[0].familyName
              && r.value.features == parsed.getFont(r.value.name).value.availableFeatures
  {
    match parsed
    case Single(face) => Some(Resolved(face.familyName, face.availableFeatures))
    case Neither(features) => Some(Resolved("Unknown", features))
    case Collection(fonts, getFont) =>
      match CollectionFamily(fonts)
      case None => None
      case Some(family) =>
        match getFont(family)
        case None => None
        case Some(face) => Some(Resolved(family, face.availableFeatures))
  }

  /** Each tag paired with its catalogue entry, in the font's own order. */
  method EnrichFeatures(tags: seq<string>) returns (features: seq<FontFeature>)
    ensures |features| == |tags|
    ensures forall i :: 0 <= i < |tags| ==>
              features[i] == FontFeature(tags[i], GetFeatureInfo(tags[i]))
  {
    features := [];
    for i := 0 to |tags|
      invariant |features| == i
      invariant forall j :: 0 <= j < i ==>
                  features[j] == FontFeature(tags[j], GetFeatureInfo(tags[j]))
    {
      features := features + [FontFeature(tags[i], GetFeatureInfo(tags[i]))];
    }
  }

  /** The object-store request: key, body and content type. */
  datatype PutRequest = PutRequest(key: string, body: seq<bv8>, contentType: string)

  datatype PutOutcome = Stored | PutFailed

  /** A call the action makes to the world outside the model. */
  datatype Call = ParseCall(bytes: seq<bv8>) | PutCall(request: PutRequest)

  /** The payload of the success message. */
  datatype UploadMessage = UploadMessage(
    kind: string,
    text: string,
    url: string,
    name: string,
    fileName: string,
    features: seq<FontFeature>,
    format: string)

  /** The action's answer: a failure with its status and message, or the success message. */
  datatype ActionResult =
    | Failure(status: nat, message: Option<string>)
    | Success(payload: UploadMessage)

  const InvalidFontMessage: string := "Invalid font file"
  const UploadErrorMessage: string := "Error uploading file"
  const SuccessText: string := "File uploaded successfully!"

  /**
   * The default action. Exits in order: an invalid form (400, no message,
   * nothing called); a collection without a usable family (400 after
   * parsing); a store failure (500 after parsing and storing); otherwise
   * success, with the URL built from the CDN base and the original file name.
   */
  method HandleUpload(field: FontField, parse: seq<bv8> -> ParsedFont,
                      put: PutRequest -> PutOutcome, cdnUrl: string)
    returns (result: ActionResult, calls: seq<Call>)
    ensures !IsValid(field) ==> result == Failure(400, None) && calls == []
    ensures IsValid(field) ==>
              var file := field.file;
              var resolved := ResolveFont(parse(file.content));
              var request := PutRequest(file.name, file.content, file.mimeType);
              if resolved.None? then
                result == Failure(400, Some(InvalidFontMessage))
                && calls == [ParseCall(file.content)]
              else if put(request) == PutFailed then
                result == Failure(500, Some(UploadErrorMessage))
                && calls == [ParseCall(file.content), PutCall(request)]
              else
                calls == [ParseCall(file.content), PutCall(request)]
                && result.Success?
                && result.payload.kind == "success"
                && result.payload.text == SuccessText
                && result.payload.url == cdnUrl + "/" + file.name
                && result.payload.name == resolved.value.name
                && result.payload.fileName == file.name
                && result.payload.format == FormatName(ClassifyFormat(file.name))
                && |result.payload.features| == |resolved.value.features|
                && forall i :: 0 <= i < |resolved.value.features| ==>
                     result.payload.features[i]
                       == FontFeature(resolved.value.features[i],
                                      GetFeatureInfo(resolved.value.features[i]))
  {
    if !IsValid(field) {
      return Failure(400, None), [];
    }
    var file := field.file;
    var font := parse(file.content);
    calls := [ParseCall(file.content)];
    var fontName := "Unknown";
    var tags: seq<string>;
    match font {
      case Single(face) =>
        fontName := face.familyName;
        tags := face.availableFeatures;
      case Collection(fonts, getFont) =>
        var family := CollectionFamily(fonts);
        if family.None? {
          return Failure(400, Some(InvalidFontMessage)), calls;
        }
        fontName := family.value;
        var single := getFont(fontName);
        if single.None? {
          return Failure(400, Some(InvalidFontMessage)), calls;
        }
        tags := single.value.availableFeatures;
      case Neither(availableFeatures) =>
        tags := availableFeatures;
    }
    var fileName := file.name;
    var format := ClassifyFormat(fileName);
    var request := PutRequest(fileName, file.content, file.mimeType);
    calls := calls + [PutCall(request)];
    if put(request) == PutFailed {
      return Failure(500, Some(UploadErrorMessage)), calls;
    }
    var features := EnrichFeatures(tags);
    result := Success(UploadMessage("success", SuccessText, cdnUrl + "/" + fileName,
                                    fontName, fileName, features, FormatName(format)));
  }
}
