/** Properties of the document-type dispatch: the parsers classify every string,
    the two vocabulary tables are bijections onto lower-case words, and `makeTag`
    produces exactly one of two templates or refuses an unknown kind. */
module DocumentTypeLemmas {
  import opened Wrappers
  import opened JavaText
  import opened DocumentTypes

  // ---------------------------------------------------------------------------
  // Parsers

  /** No two kind names are equal ignoring case (their lengths are 8, 9 and 10). */
  lemma NameTypeNamesDistinct(a: NameType, b: NameType)
    ensures EqualsIgnoreCase(a.Name(), b.Name()) <==> a == b
  {
  }

  /** `NameType.fromString` returns a kind exactly when the input equals that
      kind's name ignoring case, and null exactly when it equals none of them. */
  lemma NameTypeFromStringSpec(s: string, n: NameType)
    ensures NameTypeFromString(Some(s)) == Some(n) <==> EqualsIgnoreCase(s, n.Name())
    ensures NameTypeFromString(Some(s)).None? <==> forall m: NameType :: !EqualsIgnoreCase(s, m.Name())
  {
  }

  /** Every casing of a kind's name parses to that kind: the upper-case name
      itself and its lower-case form among them. */
  lemma NameTypeFromStringAnyCase(n: NameType, s: string)
    requires EqualsIgnoreCase(s, n.Name())
    ensures NameTypeFromString(Some(s)) == Some(n)
    ensures NameTypeFromString(Some(n.Name())) == Some(n)
    ensures NameTypeFromString(Some(ToLowerCase(n.Name()))) == Some(n)
  {
  }

  /** "EAD" and "TEI" are not equal ignoring case. */
  lemma DocumentTypeNamesDistinct(a: DocumentType, b: DocumentType)
    ensures EqualsIgnoreCase(a.Name(), b.Name()) <==> a == b
  {
    assert UpperChar(EAD.Name()[0]) != UpperChar(TEI.Name()[0]);
  }

  /** `DocumentType.fromString` returns a document type exactly when the input
      equals its name ignoring case, and null exactly when it equals neither. */
  lemma DocumentTypeFromStringSpec(s: string, d: DocumentType)
    ensures DocumentTypeFromString(Some(s)) == Some(d) <==> EqualsIgnoreCase(s, d.Name())
    ensures DocumentTypeFromString(Some(s)).None? <==> forall e: DocumentType :: !EqualsIgnoreCase(s, e.Name())
  {
  }

  /** Every casing of "EAD" or "TEI" parses to that document type. */
  lemma DocumentTypeFromStringAnyCase(d: DocumentType, s: string)
    requires EqualsIgnoreCase(s, d.Name())
    ensures DocumentTypeFromString(Some(s)) == Some(d)
    ensures DocumentTypeFromString(Some(ToLowerCase(d.Name()))) == Some(d)
  {
  }

  // ---------------------------------------------------------------------------
  // Vocabulary tables

  /** `EadTag.fromNameType` is a bijection between kinds and EAD tags. */
  lemma EadTagBijection(n: NameType, t: EadTag)
    ensures EadTagFromNameType(Some(n)) == Some(t) <==> EadTagKind(t) == n
  {
  }

  /** `TeiType.fromNameType` is a bijection between kinds and TEI types. */
  lemma TeiTypeBijection(n: NameType, t: TeiType)
    ensures TeiTypeFromNameType(Some(n)) == Some(t) <==> TeiTypeKind(t) == n
  {
  }

  /** The string forms of EAD tags are distinct lower-case words, so the tag
      name alone identifies the kind. */
  lemma EadTagStringsInjective(a: EadTag, b: EadTag)
    ensures IsLowerCase(a.ToString())
    ensures a.ToString() == b.ToString() <==> a == b
  {
  }

  /** The string forms of TEI types are distinct lower-case words. */
  lemma TeiTypeStringsInjective(a: TeiType, b: TeiType)
    ensures IsLowerCase(a.ToString())
    ensures a.ToString() == b.ToString() <==> a == b
  {
  }

  // ---------------------------------------------------------------------------
  // makeTag

  /** For TEI and a recognised kind the output is the `name` element with the
      resource's URI as `ref` and the kind's word as `type`. */
  lemma MakeTagTei(name: JString, res: ViafResource, n: NameType)
    requires NameTypeFromString(res.nameType) == Some(n)
    ensures Vocabulary(TEI, n) in {"person", "org", "place"}
    ensures MakeTag(TEI, name, Some(res)) ==
      Success("<name ref=\"" + Show(res.uri) + "\" type=\"" + Vocabulary(TEI, n) + "\">" + Show(name) + "</name>")
  {
    TeiTemplateName(Show(res.uri), Vocabulary(TEI, n), Show(name));
  }

  /** The TEI template with its element name filled in. */
  lemma TeiTemplateName(ref: string, tagType: string, text: string)
    ensures TeiTemplate("name", ref, tagType, text) ==
      "<name ref=\"" + ref + "\" type=\"" + tagType + "\">" + text + "</name>"
  {
  }

  /** For EAD and a recognised kind the output is the kind's own element with
      `source="viaf"` and the VIAF id as `authfilenumber`. */
  lemma MakeTagEad(name: JString, res: ViafResource, n: NameType)
    requires NameTypeFromString(res.nameType) == Some(n)
    ensures Vocabulary(EAD, n) in {"persname", "corpname", "geogname"}
    ensures MakeTag(EAD, name, Some(res)) ==
      Success("<" + Vocabulary(EAD, n) + " source=\"viaf\" authfilenumber=\"" + Show(res.viafId) + "\">"
              + Show(name) + "</" + Vocabulary(EAD, n) + ">")
  {
  }

  /** Reading an EAD tag back: it is an opening tag, the text, and a closing tag
      with the same element name, and the id and the text appear verbatim. */
  lemma EadTemplateParts(tag: string, authFileNumber: string, text: string)
    ensures var out := EadTemplate(tag, authFileNumber, text);
            var open := "<" + tag + " source=\"viaf\" authfilenumber=\"" + authFileNumber + "\">";
            var close := "</" + tag + ">";
            && |out| == |open| + |text| + |close|
            && out[..|open|] == open
            && out[|open|..|open| + |text|] == text
            && out[|open| + |text|..] == close
  {
  }

  /** Reading a TEI tag back: the URI, the type and the text appear verbatim
      between the fixed pieces of the template. */
  lemma TeiTemplateParts(tag: string, ref: string, tagType: string, text: string)
    ensures var out := TeiTemplate(tag, ref, tagType, text);
            var open := "<" + tag + " ref=\"" + ref + "\" type=\"" + tagType + "\">";
            var close := "</" + tag + ">";
            && |out| == |open| + |text| + |close|
            && out[..|open|] == open
            && out[|open|..|open| + |text|] == text
            && out[|open| + |text|..] == close
  {
  }

  /** The character after `<` is the first letter of the element name. */
  lemma EadTemplateStartsWithTag(tag: string, authFileNumber: string, text: string)
    requires |tag| > 0
    ensures |EadTemplate(tag, authFileNumber, text)| > 1
    ensures EadTemplate(tag, authFileNumber, text)[1] == tag[0]
  {
  }

  /** The EAD fallback to the generic `name` element is never produced by
      `makeTag`: a kind that does not parse is refused before tag selection,
      and every kind that does parse has its own element. */
  lemma EadFallbackUnreachable(name: JString, resource: Option<ViafResource>, id: string, text: string)
    ensures GetTagName(EAD, None) == "name"
    ensures MakeTag(EAD, name, resource) != Success(EadTemplate(GetTagName(EAD, None), id, text))
  {
    if resource.Some? && MakeTag(EAD, name, resource).Success? {
      var res := resource.value;
      var n := NameTypeFromString(res.nameType).value;
      var tag := Vocabulary(EAD, n);
      MakeTagEad(name, res, n);
      EadTemplateStartsWithTag(tag, Show(res.viafId), Show(name));
      EadTemplateStartsWithTag("name", id, text);
    }
  }

  /** Whatever the document type, the only failure of `makeTag` on a non-null
      resource is the unsupported-kind exception, and it happens exactly when the
      kind does not parse. */
  lemma MakeTagFailsOnlyForUnknownKind(d: DocumentType, name: JString, res: ViafResource)
    ensures MakeTag(d, name, Some(res)).Failure? <==> NameTypeFromString(res.nameType).None?
    ensures MakeTag(d, name, Some(res)).Failure? ==>
      MakeTag(d, name, Some(res)).error == Exception("Unsupported nameType: " + Show(res.nameType))
  {
  }

  // ---------------------------------------------------------------------------
  // Concrete scenarios

  /** A TEI personal name: a resource of type "Personal" yields a `name`
      element of type `person`. */
  lemma ScenarioTeiPersonal(uri: string, viafId: JString, text: string)
    ensures MakeTag(TEI, Some(text), Some(ViafResource(Some("Personal"), Some(uri), viafId)))
            == Success("<name ref=\"" + uri + "\" type=\"person\">" + text + "</name>")
  {
    ParsePersonal();
    MakeTagTei(Some(text), ViafResource(Some("Personal"), Some(uri), viafId), PERSONAL);
    TeiPersonText(uri, text);
  }

  /** "Personal" is a casing of PERSONAL. */
  lemma ParsePersonal()
    ensures NameTypeFromString(Some("Personal")) == Some(PERSONAL)
  {
  }

  /** The TEI template with the type word `person` filled in. */
  lemma TeiPersonText(uri: string, text: string)
    ensures "<name ref=\"" + uri + "\" type=\"" + "person" + "\">" + text + "</name>"
         == "<name ref=\"" + uri + "\" type=\"person\">" + text + "</name>"
  {
  }

  /** The TEI type word "person" is not itself a kind name, so a resource whose
      type is "person" is refused. */
  lemma ScenarioPersonRejected()
    ensures MakeTag(TEI, Some("Jane Austen"),
                    Some(ViafResource(Some("person"), Some("http://viaf.org/viaf/12345"), Some("12345"))))
            == Failure(Exception("Unsupported nameType: person"))
  {
    assert forall m: NameType :: !EqualsIgnoreCase("person", m.Name());
    NameTypeFromStringSpec("person", PERSONAL);
    assert UnsupportedMessage(Some("person")) == "Unsupported nameType: person" by {
      assert "Unsupported nameType: " + "person" == "Unsupported nameType: person";
    }
  }

  /** An EAD corporate name: a resource of type "corporate" yields a
      `corpname` element carrying the VIAF id. */
  lemma ScenarioEadCorporate(uri: JString, viafId: string, text: string)
    ensures MakeTag(EAD, Some(text), Some(ViafResource(Some("corporate"), uri, Some(viafId))))
            == Success("<corpname" + " source=\"viaf\" authfilenumber=\"" + viafId + "\">" + text + "</corpname>")
  {
    ParseCorporate();
    MakeTagEad(Some(text), ViafResource(Some("corporate"), uri, Some(viafId)), CORPORATE);
    EadCorpnameText(viafId, text);
  }

  /** "corporate" is a casing of CORPORATE. */
  lemma ParseCorporate()
    ensures NameTypeFromString(Some("corporate")) == Some(CORPORATE)
  {
  }

  /** The EAD template with the element name `corpname` filled in. */
  lemma EadCorpnameText(viafId: string, text: string)
    ensures "<" + "corpname" + " source=\"viaf\" authfilenumber=\"" + viafId + "\">" + text + "</" + "corpname" + ">"
         == "<corpname" + " source=\"viaf\" authfilenumber=\"" + viafId + "\">" + text + "</corpname>"
  {
  }

  /** An unknown kind is refused for EAD too, with the raw string in the message. */
  lemma ScenarioUnknownKind()
    ensures MakeTag(EAD, Some("Emory University"), Some(ViafResource(Some("unknown-kind-xyz"), None, Some("98765"))))
            == Failure(Exception("Unsupported nameType: unknown-kind-xyz"))
  {
    assert forall m: NameType :: !EqualsIgnoreCase("unknown-kind-xyz", m.Name());
    NameTypeFromStringSpec("unknown-kind-xyz", PERSONAL);
    assert UnsupportedMessage(Some("unknown-kind-xyz")) == "Unsupported nameType: unknown-kind-xyz" by {
      assert "Unsupported nameType: " + "unknown-kind-xyz" == "Unsupported nameType: unknown-kind-xyz";
    }
  }

  /** A null type is refused with the message ending in "null". */
  lemma ScenarioNullKind(d: DocumentType, name: JString, uri: JString, viafId: JString)
    ensures MakeTag(d, name, Some(ViafResource(None, uri, viafId))) == Failure(Exception("Unsupported nameType: null"))
  {
    assert UnsupportedMessage(None) == "Unsupported nameType: null" by {
      assert "Unsupported nameType: " + "null" == "Unsupported nameType: null";
    }
  }
}
