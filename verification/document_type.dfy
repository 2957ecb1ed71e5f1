/** The supported document types (EAD and TEI), the kinds of names NameDropper
    recognises, the per-format vocabulary for those kinds, and the synthesis of
    the XML tag that marks a name up in a document of the given type. */
module DocumentTypes {
  import opened Wrappers
  import opened JavaText

  /** The kind of a named entity. */
  datatype NameType = PERSONAL | CORPORATE | GEOGRAPHIC {
    /** The enum constant's name, as `toString()` gives it. */
    function Name(): string {
      match this
      case PERSONAL => "PERSONAL"
      case CORPORATE => "CORPORATE"
      case GEOGRAPHIC => "GEOGRAPHIC"
    }
  }

  /** Tag names for names in Encoded Archival Description. */
  datatype EadTag = PERSNAME | CORPNAME | GEOGNAME {
    function Name(): string {
      match this
      case PERSNAME => "PERSNAME"
      case CORPNAME => "CORPNAME"
      case GEOGNAME => "GEOGNAME"
    }

    /** The overridden `toString()`: the constant's name in lower case. */
    function ToString(): (r: string)
      ensures IsLowerCase(r) && EqualsIgnoreCase(r, Name())
    {
      ToLowerCase(Name())
    }
  }

  /** Values of the `type` attribute for names in the Text Encoding Initiative. */
  datatype TeiType = PERSON | ORG | PLACE {
    function Name(): string {
      match this
      case PERSON => "PERSON"
      case ORG => "ORG"
      case PLACE => "PLACE"
    }

    /** The overridden `toString()`: the constant's name in lower case. */
    function ToString(): (r: string)
      ensures IsLowerCase(r) && EqualsIgnoreCase(r, Name())
    {
      ToLowerCase(Name())
    }
  }

  /** The lower-cased EAD tag names are the literal tag words. */
  lemma EadTagStrings()
    ensures PERSNAME.ToString() == "persname"
    ensures CORPNAME.ToString() == "corpname"
    ensures GEOGNAME.ToString() == "geogname"
  {
    LowerOf("PERSNAME", "persname");
    LowerOf("CORPNAME", "corpname");
    LowerOf("GEOGNAME", "geogname");
  }

  /** The lower-cased TEI type names are the literal type words. */
  lemma TeiTypeStrings()
    ensures PERSON.ToString() == "person"
    ensures ORG.ToString() == "org"
    ensures PLACE.ToString() == "place"
  {
    LowerOf("PERSON", "person");
    LowerOf("ORG", "org");
    LowerOf("PLACE", "place");
  }

  /** One literal lower-casing, checked character by character; taking the
      strings as parameters keeps the verifier from unfolding `ToLowerCase`. */
  lemma LowerOf(name: string, lower: string)
    requires |name| == |lower|
    requires forall i :: 0 <= i < |name| ==> UpperChar(name[i]) == UpperChar(lower[i]) && !IsUpper(lower[i])
    ensures ToLowerCase(name) == lower
  {
    ToLowerCaseIs(name, lower);
  }

  /** The output markup dialect. */
  datatype DocumentType = EAD | TEI {
    function Name(): string {
      match this
      case EAD => "EAD"
      case TEI => "TEI"
    }
  }

  /** The three constructor arguments each document type is declared with
      (person, org, place), looked up by the kind they stand for. */
  function Vocabulary(d: DocumentType, n: NameType): (r: string)
    ensures IsLowerCase(r)
    ensures r != "name"
  {
    match d
    case EAD =>
      (match n
       case PERSONAL => "persname"
       case CORPORATE => "corpname"
       case GEOGRAPHIC => "geogname")
    case TEI =>
      (match n
       case PERSONAL => "person"
       case CORPORATE => "org"
       case GEOGRAPHIC => "place")
  }

  /** Each EAD tag prints as the EAD constructor argument for its kind. */
  lemma EadTagsMatchVocabulary()
    ensures forall n: NameType :: EadTagFromNameType(Some(n)).value.ToString() == Vocabulary(EAD, n)
  {
    EadTagStrings();
  }

  /** Each TEI type prints as the TEI constructor argument for its kind. */
  lemma TeiTypesMatchVocabulary()
    ensures forall n: NameType :: TeiTypeFromNameType(Some(n)).value.ToString() == Vocabulary(TEI, n)
  {
    TeiTypeStrings();
  }

  /** The external authority record: `getType()`, `getUri()` and `getViafId()`. */
  datatype ViafResource = ViafResource(nameType: JString, uri: JString, viafId: JString)

  /** What the Java code can throw. */
  datatype Thrown = NullPointerException | Exception(message: string)

  const AllNameTypes: seq<NameType> := [PERSONAL, CORPORATE, GEOGRAPHIC]
  const AllDocumentTypes: seq<DocumentType> := [EAD, TEI]

  /** The `values()` loop of both `fromString` methods: the first candidate whose
      name equals `s` ignoring case, or nothing when none does. */
  function FirstMatch<T(==)>(s: string, candidates: seq<T>, name: T -> string): (r: Option<T>)
    ensures r.Some? ==> r.value in candidates && EqualsIgnoreCase(s, name(r.value))
    ensures r.Some? ==> exists i :: 0 <= i < |candidates| && candidates[i] == r.value &&
                          forall j :: 0 <= j < i ==> !EqualsIgnoreCase(s, name(candidates[j]))
    ensures r.None? ==> forall c :: c in candidates ==> !EqualsIgnoreCase(s, name(c))
  {
    if candidates == [] then None
    else if EqualsIgnoreCase(s, name(candidates[0])) then Some(candidates[0])
    else FirstMatch(s, candidates[1..], name)
  }

  /** `NameType.fromString`: null for null, otherwise the kind whose name equals
      the input ignoring case, or null. */
  function NameTypeFromString(s: JString): (r: Option<NameType>)
    ensures s.None? ==> r.None?
    ensures r.Some? ==> s.Some? && EqualsIgnoreCase(s.value, r.value.Name())
    ensures s.Some? && r.None? ==> forall n: NameType :: !EqualsIgnoreCase(s.value, n.Name())
  {
    match s
    case None => None
    case Some(v) =>
      assert PERSONAL in AllNameTypes && CORPORATE in AllNameTypes && GEOGRAPHIC in AllNameTypes;
      FirstMatch(v, AllNameTypes, (n: NameType) => n.Name())
  }

  /** `DocumentType.fromString`: the same rule over {EAD, TEI}. */
  function DocumentTypeFromString(s: JString): (r: Option<DocumentType>)
    ensures s.None? ==> r.None?
    ensures r.Some? ==> s.Some? && EqualsIgnoreCase(s.value, r.value.Name())
    ensures s.Some? && r.None? ==> forall d: DocumentType :: !EqualsIgnoreCase(s.value, d.Name())
  {
    match s
    case None => None
    case Some(v) =>
      assert EAD in AllDocumentTypes && TEI in AllDocumentTypes;
      FirstMatch(v, AllDocumentTypes, (d: DocumentType) => d.Name())
  }

  /** The kind each EAD tag stands for. */
  function EadTagKind(t: EadTag): NameType {
    match t
    case PERSNAME => PERSONAL
    case CORPNAME => CORPORATE
    case GEOGNAME => GEOGRAPHIC
  }

  /** The kind each TEI type stands for. */
  function TeiTypeKind(t: TeiType): NameType {
    match t
    case PERSON => PERSONAL
    case ORG => CORPORATE
    case PLACE => GEOGRAPHIC
  }

  /** `EadTag.fromNameType`: null for null, otherwise the EAD tag for the kind. */
  function EadTagFromNameType(n: Option<NameType>): (r: Option<EadTag>)
    ensures r.Some? <==> n.Some?
    ensures n.Some? ==> EadTagKind(r.value) == n.value
  {
    match n
    case None => None
    case Some(PERSONAL) => Some(PERSNAME)
    case Some(GEOGRAPHIC) => Some(GEOGNAME)
    case Some(CORPORATE) => Some(CORPNAME)
  }

  /** `TeiType.fromNameType`: null for null, otherwise the TEI type for the kind. */
  function TeiTypeFromNameType(n: Option<NameType>): (r: Option<TeiType>)
    ensures r.Some? <==> n.Some?
    ensures n.Some? ==> TeiTypeKind(r.value) == n.value
  {
    match n
    case None => None
    case Some(PERSONAL) => Some(PERSON)
    case Some(GEOGRAPHIC) => Some(PLACE)
    case Some(CORPORATE) => Some(ORG)
  }

  /** `getTagName(NameType)`: TEI always uses `name`; EAD uses the kind's tag,
      and the generic `name` when the kind is null. */
  function GetTagName(d: DocumentType, n: Option<NameType>): (r: string)
    ensures d == TEI ==> r == "name"
    ensures d == EAD && n.Some? ==> r == Vocabulary(EAD, n.value)
    ensures d == EAD && n.None? ==> r == "name"
  {
    EadTagsMatchVocabulary();
    match d
    case TEI => "name"
    case EAD =>
      var eadTag := EadTagFromNameType(n);
      if eadTag.Some? then eadTag.value.ToString() else "name"
  }

  /** `getTagName()`: the tag name for an unknown kind, which is `name` for both
      document types. */
  function GetDefaultTagName(d: DocumentType): (r: string)
    ensures r == GetTagName(d, None)
    ensures r == "name"
  {
    GetTagName(d, None)
  }

  /** `getTagType(NameType)`: EAD carries no type attribute (null); TEI gives the
      kind's type, and dereferences null when the kind is null. */
  function GetTagType(d: DocumentType, n: Option<NameType>): (r: Result<JString, Thrown>)
    ensures d == EAD ==> r == Success(None)
    ensures d == TEI && n.Some? ==> r == Success(Some(Vocabulary(TEI, n.value)))
    ensures d == TEI && n.None? ==> r == Failure(NullPointerException)
  {
    TeiTypesMatchVocabulary();
    match d
    case EAD => Success(None)
    case TEI =>
      var teiType := TeiTypeFromNameType(n);
      if teiType.None? then Failure(NullPointerException)
      else Success(Some(teiType.value.ToString()))
  }

  /** The TEI format string `<%s ref="%s" type="%s">%s</%s>`. */
  function TeiTemplate(tag: string, ref: string, tagType: string, text: string): string {
    "<" + tag + " ref=\"" + ref + "\" type=\"" + tagType + "\">" + text + "</" + tag + ">"
  }

  /** The EAD format string `<%s source="viaf" authfilenumber="%s">%s</%s>`. */
  function EadTemplate(tag: string, authFileNumber: string, text: string): string {
    "<" + tag + " source=\"viaf\" authfilenumber=\"" + authFileNumber + "\">" + text + "</" + tag + ">"
  }

  /** The message of the exception `makeTag` throws for an unparseable kind. */
  function UnsupportedMessage(raw: JString): string {
    "Unsupported nameType: " + Show(raw)
  }

  /** `makeTag(name, resource)`: parse the resource's kind, failing when it is not
      recognised, then fill in the document type's template. */
  function MakeTag(d: DocumentType, name: JString, resource: Option<ViafResource>): (r: Result<string, Thrown>)
    ensures resource.None? ==> r == Failure(NullPointerException)
    ensures resource.Some? && NameTypeFromString(resource.value.nameType).None? ==>
              r == Failure(Exception(UnsupportedMessage(resource.value.nameType)))
    ensures resource.Some? && NameTypeFromString(resource.value.nameType).Some? ==> r.Success?
  {
    match resource
    case None => Failure(NullPointerException)
    case Some(res) =>
      var nt := NameTypeFromString(res.nameType);
      if nt.None? then Failure(Exception(UnsupportedMessage(res.nameType)))
      else
        match d
        case TEI =>
          var tag := GetTagName(d, nt);
          (match GetTagType(d, nt)
           case Failure(e) => Failure(e)
           case Success(tagType) => Success(TeiTemplate(tag, Show(res.uri), Show(tagType), Show(name))))
        case EAD =>
          var tag := GetTagName(d, nt);
          Success(EadTemplate(tag, Show(res.viafId), Show(name)))
  }
}
