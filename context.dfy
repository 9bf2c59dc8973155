/** org.docx4j.jaxb.Context: the process-wide JAXB contexts, built once by the
    static initializer, and the two lazily created members. The static fields
    are the fields of one object; the static initializer is its constructor,
    driven by an Environment that supplies the outcome of every call into
    JAXB, resource loading and reflection. */
module Context {
  import opened JaxbTypes
  import opened Bootstrap
  import opened LazyContext

  /** org.docx4j.wml.ObjectFactory: only its identity matters here. */
  class ObjectFactory {
    constructor () { }
  }

  class Context {
    var jc: Option<Handle>
    var jcThemePart: Option<Handle>
    var jcDocPropsCore: Option<Handle>
    var jcDocPropsCustom: Option<Handle>
    var jcDocPropsExtended: Option<Handle>
    var jcRelationships: Option<Handle>
    var jcCustomXmlProperties: Option<Handle>
    var jcContentTypes: Option<Handle>
    var jcXmlPackage: Option<Handle>
    var jcXslFo: Option<Handle>
    var jcSectionModel: Option<Handle>
    var jcEncryption: Option<Handle>
    var jcMCE: Option<Handle>
    var jaxbImplementation: Option<JaxbImplementation>
    var wmlObjectFactory: ObjectFactory?

    /** The environment the static initializer ran in. */
    ghost const environment: Environment

    /** The eagerly built fields hold what the static initializer leaves in
        this environment. */
    ghost predicate Valid()
      reads this
    {
      var s := Boot(environment);
      jaxbImplementation == s.implementation &&
      jc == s.jc && jcThemePart == s.jc &&
      Secondaries() == FieldsOf(s.secondary)
    }

    /** The ten secondary fields as one value. */
    function Secondaries(): SecondaryFields
      reads this
    {
      SecondaryFields(
        jcDocPropsCore, jcDocPropsCustom, jcDocPropsExtended, jcXmlPackage,
        jcRelationships, jcCustomXmlProperties, jcContentTypes, jcSectionModel,
        jcEncryption, jcMCE)
    }

    /** The static initializer. Every field starts null; the MOXy lookup and
        the prefix-mapper probe classify the implementation; the outer try
        builds the primary context, refines the classification from its
        runtime class, and builds the secondary contexts in order, the first
        failure skipping the rest except for a JAXBException from the
        encryption context; jc is assigned after the outer try. */
    constructor StaticInit(env: Environment)
      ensures environment == env
      ensures Valid()
      ensures jcXslFo == None && wmlObjectFactory == null
    {
      environment := env;
      jc, jcThemePart := None, None;
      jcDocPropsCore, jcDocPropsCustom, jcDocPropsExtended := None, None, None;
      jcRelationships, jcCustomXmlProperties, jcContentTypes := None, None, None;
      jcXmlPackage, jcXslFo, jcSectionModel := None, None, None;
      jcEncryption, jcMCE := None, None;
      wmlObjectFactory := null;
      jaxbImplementation := None;
      new;

      Probe(env);
      var tempContext := OuterTry(env);
      jc := tempContext;
    }

    /** The implementation probes that precede the outer try: the MOXy
        properties lookup records MOXy unless it throws, whether or not it
        produced a stream; the prefix mapper is probed only when there is no
        stream, and its JAXBException leaves the earlier value. */
    method Probe(env: Environment)
      requires jaxbImplementation == None
      modifies this`jaxbImplementation
      ensures jaxbImplementation == Classify(env.moxyProperties, env.prefixMapper)
    {
      var propsStream := false;
      match env.moxyProperties {
        case Found =>
          propsStream := true;
          jaxbImplementation := Some(EclipseLinkMoxy);
        case Missing =>
          jaxbImplementation := Some(EclipseLinkMoxy);
        case Thrown =>
      }
      if !propsStream {
        match env.prefixMapper {
          case MapperFound(mapperClass) =>
            if mapperClass == SunInternalMapperClass {
              jaxbImplementation := Some(OracleJre);
            } else {
              jaxbImplementation := Some(Reference);
            }
          case MapperJaxbError =>
        }
      }
    }

    /** The outer try: the primary context, the classification refined from
        its runtime class, then the secondary contexts; a failure of the
        primary context ends the try with every field left null. The result
        is the primary context, which the static initializer assigns to jc
        after the try. */
    method OuterTry(env: Environment) returns (tempContext: Option<Handle>)
      requires environment == env
      requires jaxbImplementation == Classify(env.moxyProperties, env.prefixMapper)
      requires jcThemePart == None && Secondaries() == NoSecondaries
      modifies this`jaxbImplementation, this`jcThemePart
      modifies this`jcDocPropsCore, this`jcDocPropsCustom, this`jcDocPropsExtended, this`jcXmlPackage
      modifies this`jcRelationships, this`jcCustomXmlProperties, this`jcContentTypes, this`jcSectionModel
      modifies this`jcEncryption, this`jcMCE
      ensures tempContext == Boot(env).jc && jcThemePart == tempContext
      ensures jaxbImplementation == Boot(env).implementation
      ensures Secondaries() == FieldsOf(Boot(env).secondary)
    {
      tempContext := None;
      var attempt := NewInstance(env.construct, Primary);
      if attempt.Failed? {
        BootFailed(env);
        return;
      }
      BootSucceeded(env, attempt.className);
      tempContext := Some(Handle(Primary, attempt.className));
      jaxbImplementation := Refine(jaxbImplementation, attempt.className);
      jcThemePart := tempContext;
      BuildSecondaries(env.construct);
      RunFields(env.construct);
    }

    /** The rest of the outer try once the primary context is built: the
        package contexts, then the encryption context, whose own catch absorbs
        a JAXBException, then the MCE context; a failure that ends the outer
        try returns. Each field must be null on entry, as the static
        initializer finds them. The source assigns the ten fields in one
        block; here the block is split into three methods (the first four
        package contexts, the next four, then encryption and MCE) so that each
        proof stays small. */
    method BuildSecondaries(construct: Group -> Attempt)
      requires Secondaries() == NoSecondaries
      modifies this`jcDocPropsCore, this`jcDocPropsCustom, this`jcDocPropsExtended, this`jcXmlPackage
      modifies this`jcRelationships, this`jcCustomXmlProperties, this`jcContentTypes, this`jcSectionModel
      modifies this`jcEncryption, this`jcMCE
      ensures Secondaries() == SettledFields(construct)
    {
      var completed := BuildFirstPackageContexts(construct);
      if !completed {
        StopAfterFirstPackages(construct);
        return;
      }
      completed := BuildSecondPackageContexts(construct);
      if !completed {
        StopAfterSecondPackages(construct);
        return;
      }
      BuildTrailingContexts(construct);
    }

    /** The first four package contexts (the three document-properties
        contexts and the XML-package context), in order; the first
        failure ends the outer try, which the caller learns from completed. */
    method BuildFirstPackageContexts(construct: Group -> Attempt) returns (completed: bool)
      requires jcDocPropsCore == jcDocPropsCustom == jcDocPropsExtended == jcXmlPackage == None
      modifies this`jcDocPropsCore, this`jcDocPropsCustom, this`jcDocPropsExtended, this`jcXmlPackage
      ensures jcDocPropsCore == Settled(construct, DocPropsCore)
      ensures jcDocPropsCustom == Settled(construct, DocPropsCustom)
      ensures jcDocPropsExtended == Settled(construct, DocPropsExtended)
      ensures jcXmlPackage == Settled(construct, XmlPackage)
      ensures completed <==> Reaches(construct, Relationships)
    {
      var attempt := NewInstance(construct, DocPropsCore);
      if attempt.Failed? { return false; }
      jcDocPropsCore := Some(Handle(DocPropsCore, attempt.className));
      attempt := NewInstance(construct, DocPropsCustom);
      if attempt.Failed? { return false; }
      jcDocPropsCustom := Some(Handle(DocPropsCustom, attempt.className));
      attempt := NewInstance(construct, DocPropsExtended);
      if attempt.Failed? { return false; }
      jcDocPropsExtended := Some(Handle(DocPropsExtended, attempt.className));
      attempt := NewInstance(construct, XmlPackage);
      if attempt.Failed? { return false; }
      jcXmlPackage := Some(Handle(XmlPackage, attempt.className));
      return true;
    }

    /** The relationships, custom-XML-properties, content-types and section
        model contexts, in order, once the outer try has got that far. */
    method BuildSecondPackageContexts(construct: Group -> Attempt) returns (completed: bool)
      requires Reaches(construct, Relationships)
      requires jcRelationships == jcCustomXmlProperties == jcContentTypes == jcSectionModel == None
      modifies this`jcRelationships, this`jcCustomXmlProperties, this`jcContentTypes, this`jcSectionModel
      ensures jcRelationships == Settled(construct, Relationships)
      ensures jcCustomXmlProperties == Settled(construct, CustomXmlProperties)
      ensures jcContentTypes == Settled(construct, ContentTypes)
      ensures jcSectionModel == Settled(construct, SectionModel)
      ensures completed <==> Reaches(construct, Encryption)
    {
      var attempt := NewInstance(construct, Relationships);
      if attempt.Failed? { return false; }
      jcRelationships := Some(Handle(Relationships, attempt.className));
      attempt := NewInstance(construct, CustomXmlProperties);
      if attempt.Failed? { return false; }
      jcCustomXmlProperties := Some(Handle(CustomXmlProperties, attempt.className));
      attempt := NewInstance(construct, ContentTypes);
      if attempt.Failed? { return false; }
      jcContentTypes := Some(Handle(ContentTypes, attempt.className));
      attempt := NewInstance(construct, SectionModel);
      if attempt.Failed? { return false; }
      jcSectionModel := Some(Handle(SectionModel, attempt.className));
      return true;
    }

    /** The encryption context, whose own catch absorbs a JAXBException, then
        the MCE context, once the outer try has got that far. */
    method BuildTrailingContexts(construct: Group -> Attempt)
      requires Reaches(construct, Encryption)
      requires jcEncryption == jcMCE == None
      modifies this`jcEncryption, this`jcMCE
      ensures jcEncryption == Settled(construct, Encryption)
      ensures jcMCE == Settled(construct, Mce)
    {
      var attempt := NewInstance(construct, Encryption);
      if attempt.Succeeded? {
        jcEncryption := Some(Handle(Encryption, attempt.className));
      } else if attempt.error != JaxbError {
        return;
      }
      attempt := NewInstance(construct, Mce);
      if attempt.Failed? { return; }
      jcMCE := Some(Handle(Mce, attempt.className));
    }

    /** getJaxbImplementation: the implementation the static initializer
        detected. */
    method GetJaxbImplementation() returns (r: Option<JaxbImplementation>)
      requires Valid()
      ensures r == Boot(environment).implementation
    {
      r := jaxbImplementation;
    }

    /** getWmlObjectFactory: creates the factory on the first call and hands
        out the same one afterwards. */
    method GetWmlObjectFactory() returns (factory: ObjectFactory)
      modifies this`wmlObjectFactory
      ensures old(wmlObjectFactory) != null ==> factory == old(wmlObjectFactory)
      ensures old(wmlObjectFactory) == null ==> fresh(factory)
      ensures wmlObjectFactory == factory
    {
      if wmlObjectFactory == null {
        wmlObjectFactory := new ObjectFactory();
      }
      factory := wmlObjectFactory;
    }

    /** getXslFoContext, where attempt is what the binding engine does if it
        is asked for the XSL-FO context during this call. */
    method GetXslFoContext(attempt: Attempt) returns (r: CallResult)
      modifies this`jcXslFo
      ensures jcXslFo == XslFoCall(old(jcXslFo), attempt).cache
      ensures r == XslFoCall(old(jcXslFo), attempt).result
      ensures old(Valid()) ==> Valid()
    {
      if jcXslFo == None {
        match attempt {
          case Succeeded(name) =>
            jcXslFo := Some(Handle(XslFo, name));
          case Failed(JaxbError) =>
          case Failed(OtherError) =>
            return Raised(OtherError);
        }
      }
      r := Returned(jcXslFo);
    }
  }
}
