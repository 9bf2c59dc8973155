/** Values shared by the bootstrap of docx4j's JAXB contexts: the detected
    implementation, the named context groups, the handles the binding engine
    produces, and the environment that stands for every call into JAXB,
    class loaders and reflection. */
module JaxbTypes {

  datatype Option<T> = None | Some(value: T)

  /** The JAXB implementations docx4j tells apart (the enum JAXBImplementation). */
  datatype JaxbImplementation = EclipseLinkMoxy | OracleJre | Reference | IbmWebsphereXlxp

  /** One group of schema packages compiled into one JAXBContext. */
  datatype Group =
    | Primary             // WML, DML, VML, math, ... (jc, jcThemePart)
    | DocPropsCore
    | DocPropsCustom
    | DocPropsExtended
    | XmlPackage
    | Relationships
    | CustomXmlProperties
    | ContentTypes
    | SectionModel
    | Encryption
    | Mce
    | XslFo               // built lazily by getXslFoContext

  /** A constructed JAXBContext: the group it was built for and the name of
      its runtime class. */
  datatype Handle = Handle(group: Group, className: string)

  /** What a call into the binding engine may throw: a JAXBException, or any
      other Exception. */
  datatype Failure = JaxbError | OtherError

  /** The outcome of one JAXBContext.newInstance call: a context whose runtime
      class has the given name, or an exception. */
  datatype Attempt = Succeeded(className: string) | Failed(error: Failure)

  /** The outcome of looking up the MOXy configuration
      "org/docx4j/wml/jaxb.properties": a non-null stream, a null stream
      returned without an exception, or an exception. */
  datatype PropertiesLookup = Found | Missing | Thrown

  /** The outcome of NamespacePrefixMapperUtils.getPrefixMapper(): the
      mapper's runtime class name, or a JAXBException. */
  datatype MapperLookup = MapperFound(className: string) | MapperJaxbError

  /** Everything the static initializer learns from the outside world. */
  datatype Environment = Environment(
    moxyProperties: PropertiesLookup,
    prefixMapper: MapperLookup,
    construct: Group -> Attempt)

  /** JAXBContext.newInstance for the packages of group g, answered by the
      environment. */
  function NewInstance(construct: Group -> Attempt, g: Group): Attempt {
    construct(g)
  }

  const SunInternalMapperClass: string := "org.docx4j.jaxb.NamespacePrefixMapperSunInternal"
  const MoxyContextClass: string := "org.eclipse.persistence.jaxb.JAXBContext"
  const IbmContextPrefix: string := "com.ibm.xml.xlxp2.jaxb"

  /** Java's String.startsWith. */
  predicate StartsWith(s: string, prefix: string) {
    |prefix| <= |s| && s[..|prefix|] == prefix
  }

  function Lookup(m: map<Group, Handle>, g: Group): Option<Handle> {
    if g in m then Some(m[g]) else None
  }
}
