# docx4j JAXB context bootstrap

This project models `org.docx4j.jaxb.Context`, the class that builds docx4j's
process-wide JAXB contexts once, when the class is loaded, and proves what that
bootstrap leaves behind.

- The static initializer first classifies the JAXB implementation in use. It
  looks up the MOXy `jaxb.properties` resource and, when that gives no stream,
  probes the namespace-prefix mapper.
- It then builds the primary context `jc`. The runtime class of `jc` can
  reclassify the implementation as IBM WebSphere XLXP. `jcThemePart` shares
  `jc`.
- It then builds ten secondary contexts in a fixed order inside one outer
  `try`. The first failure ends the `try`, except that a `JAXBException` from
  the encryption context is absorbed by that context's own `catch`.
- `jc` is assigned after the `try`, so it keeps the primary context even when a
  secondary context fails.
- Two members are created lazily: the WML `ObjectFactory` and the XSL-FO
  context.

Everything the initializer learns from outside is an `Environment` value:

- the outcome of the MOXy resource lookup (a stream, a null stream or an
  exception);
- the prefix mapper's class name, or a `JAXBException`;
- for each group of packages, what `JAXBContext.newInstance` does: a context
  with a given runtime class name, a `JAXBException` or another exception.

The modules:

- `JaxbTypes` (`jaxb_types.dfy`): the values. These are the implementations,
  the context groups, context handles, attempts and the environment.
- `Bootstrap` (`bootstrap.dfy`): the initializer as pure definitions. `Classify`
  is the probes, `Refine` the reclassification from the primary context's class
  name, and `Run` the outer `try` over `SecondaryOrder`. `Boot` is the state the
  whole initializer leaves. The lemmas state what the source promises about
  that state.
- `LazyContext` (`lazy_context.dfy`): one call of `getXslFoContext`
  (`XslFoCall`), a sequence of calls (`Calls`), and what such sequences do.
- `Context` (`context.dfy`): the class itself.
  - The static fields are fields of `Context.Context`.
  - The static initializer is the constructor `StaticInit`. It runs the same
    steps on the fields as straight-line code and is proved to leave exactly
    `Boot(env)` (`Valid`).
  - The getters are methods whose contracts tie them to `XslFoCall` and to
    `Boot`.

Behaviour of the code worth noting, all of it modelled:

- **A failed group ends the outer try.** Every secondary context sits in one
  outer `try`, so the first failure leaves all later fields null. The one
  exception is a `JAXBException` from the encryption context, which that
  context's own `catch` absorbs. Any other exception from encryption ends the
  outer try and skips `jcMCE`.
- **A prefix-mapper failure is not fatal.** The code logs the
  `JAXBException`, keeps the earlier value (null, or MOXy after a null
  stream) and goes on building contexts.
- **A null MOXy stream does not end probing.** The code sets MOXy whenever
  the lookup does not throw, but gates the probe on the stream being null.
  After a null stream, the MOXy value set at :109 is overwritten when the
  probe finds a mapper. After a `JAXBException` from the probe, MOXy stays.
- **The MOXy context class only logs.** The runtime class name
  `org.eclipse.persistence.jaxb.JAXBContext` leaves the classification
  unchanged.
- **XSL-FO failures are not all raised.** After a `JAXBException`,
  `getXslFoContext` returns null and the exception is only logged. Only
  other exceptions escape to the caller.

## Model

| member | source | states |
|---|---|---|
| Bootstrap.Classify | src/main/java/org/docx4j/jaxb/Context.java:104-130 | A stream from the MOXy lookup gives ECLIPSELINK_MOXy whatever the mapper. Otherwise a mapper class name gives ORACLE_JRE exactly when it is NamespacePrefixMapperSunInternal and REFERENCE exactly when it is not. A mapper JAXBException keeps the earlier value: null after a throwing lookup, MOXy after a null stream. The probes never yield IBM_WEBSPHERE_XLXP. |
| Bootstrap.Refine | src/main/java/org/docx4j/jaxb/Context.java:161-196 | A primary context class starting with com.ibm.xml.xlxp2.jaxb forces IBM_WEBSPHERE_XLXP. Any other name, including the MOXy context class, leaves the classification as it was. |
| Bootstrap.FinalClassification | src/main/java/org/docx4j/jaxb/Context.java:104-196 | The classification the initializer leaves is IBM_WEBSPHERE_XLXP exactly when the primary context was built with a WebSphere class name. Otherwise it is the probes' verdict. |
| Bootstrap.Boot | src/main/java/org/docx4j/jaxb/Context.java:82-229 | jc is non-null exactly when the primary construction succeeded, and then holds that context. If the primary construction fails, no secondary context is set and the classification is the probes' verdict. |
| Bootstrap.BootFailed | src/main/java/org/docx4j/jaxb/Context.java:146-228 | A failed primary construction leaves jc and every secondary field null, and the probes' classification. |
| Bootstrap.BootSucceeded | src/main/java/org/docx4j/jaxb/Context.java:146-228 | A built primary context is kept in jc, refines the classification, and is followed by the secondary contexts of the outer try. |
| Bootstrap.RunEntries | src/main/java/org/docx4j/jaxb/Context.java:199-220 | The outer try sets only groups of the order, each to the context its own construction produced. |
| Bootstrap.BootEntries | src/main/java/org/docx4j/jaxb/Context.java:199-220 | Only secondary groups are ever set, each to the context its own construction produced. |
| Bootstrap.RunReaches | src/main/java/org/docx4j/jaxb/Context.java:199-225 | A group is set exactly when no earlier group ended the outer try and its own construction succeeded. Both directions are proved, for any duplicate-free order. |
| Bootstrap.SecondaryReaches | src/main/java/org/docx4j/jaxb/Context.java:199-225 | RunReaches for the initializer's order DocPropsCore, DocPropsCustom, DocPropsExtended, XmlPackage, Relationships, CustomXmlProperties, ContentTypes, SectionModel, Encryption, MCE. |
| Bootstrap.ReachedIsReaches | src/main/java/org/docx4j/jaxb/Context.java:199-225 | The step-by-step predicate "the try gets as far as group g" agrees with the positional one over the order. |
| Bootstrap.SecondaryRun | src/main/java/org/docx4j/jaxb/Context.java:199-225 | Every secondary field the outer try leaves is the context built for its group if the try got that far, and null otherwise. |
| Bootstrap.RunFields | src/main/java/org/docx4j/jaxb/Context.java:199-225 | SecondaryRun restated for the ten fields together. |
| Bootstrap.SkippedFrom | src/main/java/org/docx4j/jaxb/Context.java:199-225 | Once the try does not get as far as a group, that group and every later group stay null. |
| Bootstrap.StopAfterFirstPackages | src/main/java/org/docx4j/jaxb/Context.java:199-225 | A try that ends among the first four package contexts leaves the last six fields null. |
| Bootstrap.StopAfterSecondPackages | src/main/java/org/docx4j/jaxb/Context.java:199-225 | A try that ends among the second four package contexts leaves jcEncryption and jcMCE null. |
| Bootstrap.AbortSkipsLater | src/main/java/org/docx4j/jaxb/Context.java:199-225 | A failure that ends the outer try leaves its own field and every later secondary field null. |
| Bootstrap.RunAllSucceed | src/main/java/org/docx4j/jaxb/Context.java:199-220 | When every construction succeeds, the outer try sets every group of the order. |
| Bootstrap.AllSecondariesSet | src/main/java/org/docx4j/jaxb/Context.java:146-220 | With the primary and every secondary construction succeeding, all ten secondary fields are set. |
| Bootstrap.RunIgnoresAbsorbed | src/main/java/org/docx4j/jaxb/Context.java:209-220 | Two environments that differ only in one group, whose failure ends the try in neither, set every other group alike. |
| Bootstrap.EncryptionFailureIsolated | src/main/java/org/docx4j/jaxb/Context.java:209-220 | A JAXBException from the encryption context leaves jcEncryption null. Every other field, jc and the classification are what they would have been had encryption succeeded, so MCE is still attempted. |
| LazyContext.XslFoCall | src/main/java/org/docx4j/jaxb/Context.java:242-255 | One call of getXslFoContext asks the engine exactly when the cache is null. A non-null cache is returned unchanged. A success is cached and returned. A JAXBException returns null and leaves the cache null. Any other exception escapes with the cache null. |
| LazyContext.Calls | src/main/java/org/docx4j/jaxb/Context.java:242-255 | A sequence of calls gives one result per call, asks the engine at most once per call, and never asks it once the cache is filled. |
| LazyContext.BuiltOnce | src/main/java/org/docx4j/jaxb/Context.java:242-255 | From an empty cache the engine is asked once per call up to and including the first success, and never again. Every call from then on returns the context built then. |
| LazyContext.FailuresRetry | src/main/java/org/docx4j/jaxb/Context.java:242-255 | When every attempt fails, every call asks the engine again and the cache stays null. |
| Context.Context.StaticInit | src/main/java/org/docx4j/jaxb/Context.java:82-229 | The static initializer leaves the fields exactly as Boot says: jaxbImplementation, jc, jcThemePart equal to jc, and the ten secondary contexts. jcXslFo and the WML ObjectFactory stay null. |
| Context.Context.Probe | src/main/java/org/docx4j/jaxb/Context.java:104-130 | The MOXy lookup and the prefix-mapper probe, run on the field in order, leave the classification Classify gives. |
| Context.Context.OuterTry | src/main/java/org/docx4j/jaxb/Context.java:133-227 | The outer try returns Boot's primary context and leaves Boot's classification, jcThemePart and secondary fields. |
| Context.Context.BuildSecondaries | src/main/java/org/docx4j/jaxb/Context.java:198-225 | The secondary constructions, run on null fields, leave each field as the try's reach and the group's own construction decide. |
| Context.Context.BuildFirstPackageContexts | src/main/java/org/docx4j/jaxb/Context.java:199-202 | The first four package contexts, each set exactly when the try gets that far and it is built. The result tells whether the try goes on. |
| Context.Context.BuildSecondPackageContexts | src/main/java/org/docx4j/jaxb/Context.java:203-207 | The next four package contexts, the same way. |
| Context.Context.BuildTrailingContexts | src/main/java/org/docx4j/jaxb/Context.java:209-220 | The encryption context, whose JAXBException is absorbed, then the MCE context. |
| Context.Context.GetJaxbImplementation | src/main/java/org/docx4j/jaxb/Context.java:77-79 | Returns the classification the static initializer left. |
| Context.Context.GetWmlObjectFactory | src/main/java/org/docx4j/jaxb/Context.java:233-240 | The first call creates a fresh factory and stores it. Later calls return the stored one. |
| Context.Context.GetXslFoContext | src/main/java/org/docx4j/jaxb/Context.java:242-255 | The new cache and the result are what XslFoCall says. The eagerly built fields are untouched. |

## Left out

- `searchManifestsForJAXBImplementationInfo` (Context.java:257-310) and its
  calls at :90-101. They scan class-loader manifests, and on their normal path
  their only effect is log output.
- An unchecked exception escaping that scan. Such an exception can come from
  `loader.getResources` (:260) or `resEnum.hasMoreElements()` (:261), which
  sit outside the inner `try` of :263. The outer `catch` there takes only
  `IOException`, and the caller's `catch` at :98 only
  `AccessControlException`. The exception would therefore abort the static
  initializer. This path is not modelled.
- The package lists passed to `JAXBContext.newInstance`, and
  `ProviderProperties.getProviderProperties()`. Each construction is an
  outcome the environment supplies per group.
- `ResourceUtils.getResource`, `NamespacePrefixMapperUtils.getPrefixMapper` and
  reflection (`getClass().getName()`). Only their outcomes are modelled: a
  stream, a null stream or an exception; a class name or a `JAXBException`.
- Logging, the `System.getProperty` diagnostics and `printStackTrace`. They do
  not change state.
- An exception other than `JAXBException` escaping the prefix-mapper probe.
  Such an exception would abort class initialization itself.
- Errors (`java.lang.Error`) thrown by any construction. The outer `catch`
  only catches `Exception`.
- Thread safety of the class initialization and of the unsynchronized
  null-check caches of the two lazy getters.
- The public static fields other than the final `jc` (Context.java:41) can be
  reassigned by other classes: `jcThemePart`, the ten secondary contexts and
  `jaxbImplementation` (:49-71). The model assumes they are not, which is what
  `Valid` expresses between calls.
- Context objects are identified by group and runtime class name. Two
  constructions with equal outcomes are therefore not told apart.
- `GetXslFoContext` takes the construction's outcome as a parameter, because
  what JAXB does on a later call is not fixed by the initializer's
  environment.
- The `JAXBImplementation` enum file is not part of this model.
  `JaxbTypes.JaxbImplementation` holds the four values Context.java assigns
  (:109, :120, :122, :187).
