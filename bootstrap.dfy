/** The static initializer of org.docx4j.jaxb.Context as pure definitions:
    what it decides about the JAXB implementation, and which context fields it
    leaves set, as functions of the environment. The class in module Context
    runs the same steps on its fields and is proved to agree with Boot. */
module Bootstrap {
  import opened JaxbTypes

  /** Classification before any context is built: the MOXy properties lookup
      (a throw leaves the value null, otherwise MOXy is recorded), then, only
      when no stream was obtained, the prefix-mapper probe, whose
      JAXBException leaves the earlier value in place. */
  function Classify(props: PropertiesLookup, mapper: MapperLookup): (r: Option<JaxbImplementation>)
    ensures props == Found ==> r == Some(EclipseLinkMoxy)
    ensures props != Found && mapper.MapperFound? ==>
              (r == Some(OracleJre) <==> mapper.className == SunInternalMapperClass) &&
              (r == Some(Reference) <==> mapper.className != SunInternalMapperClass)
    ensures props == Thrown && mapper.MapperJaxbError? ==> r == None
    ensures props == Missing && mapper.MapperJaxbError? ==> r == Some(EclipseLinkMoxy)
    ensures r != Some(IbmWebsphereXlxp)
  {
    var afterLookup := if props == Thrown then None else Some(EclipseLinkMoxy);
    if props == Found then afterLookup
    else
      match mapper
      case MapperFound(name) => if name == SunInternalMapperClass then Some(OracleJre) else Some(Reference)
      case MapperJaxbError => afterLookup
  }

  /** Classification after the primary context is built, from the name of its
      runtime class: only the WebSphere prefix changes anything. */
  function Refine(prior: Option<JaxbImplementation>, contextClass: string): (r: Option<JaxbImplementation>)
    ensures StartsWith(contextClass, IbmContextPrefix) ==> r == Some(IbmWebsphereXlxp)
    ensures !StartsWith(contextClass, IbmContextPrefix) ==> r == prior
    ensures contextClass == MoxyContextClass ==> r == prior
  {
    if contextClass == MoxyContextClass then
      assert MoxyContextClass[0] != IbmContextPrefix[0];
      prior
    else if StartsWith(contextClass, IbmContextPrefix) then Some(IbmWebsphereXlxp)
    else prior
  }

  /** The secondary contexts, in the order the static initializer builds them. */
  const SecondaryOrder: seq<Group> :=
    [DocPropsCore, DocPropsCustom, DocPropsExtended, XmlPackage, Relationships,
     CustomXmlProperties, ContentTypes, SectionModel, Encryption, Mce]

  predicate Distinct(order: seq<Group>) {
    forall i, j :: 0 <= i < j < |order| ==> order[i] != order[j]
  }

  /** A failed construction of g ends the outer try, unless g is the
      encryption context and the failure is a JAXBException, which its own
      catch absorbs. */
  predicate Aborts(g: Group, a: Attempt) {
    a.Failed? && !(g == Encryption && a.error == JaxbError)
  }

  /** No construction at the positions from up to k (exclusive) of the order
      ended the outer try. */
  predicate Reached(order: seq<Group>, construct: Group -> Attempt, from: nat, k: nat)
    requires from <= k <= |order|
  {
    forall j :: from <= j < k ==> !Aborts(order[j], NewInstance(construct, order[j]))
  }

  /** The contexts the outer try sets when, from position from on, it builds
      the groups of order one after another: each success is kept, the first
      failure that ends the try skips the rest. */
  function Run(order: seq<Group>, from: nat, construct: Group -> Attempt): map<Group, Handle>
    requires from <= |order|
    decreases |order| - from
  {
    if from == |order| then map[]
    else
      var g := order[from];
      var rest := Run(order, from + 1, construct);
      match NewInstance(construct, g)
      case Succeeded(name) => rest[g := Handle(g, name)]
      case Failed(e) => if Aborts(g, Failed(e)) then map[] else rest
  }

  /** Run sets only groups of the order from position from on, each to the
      context its own construction produced. */
  lemma {:induction false} RunEntries(order: seq<Group>, from: nat, construct: Group -> Attempt)
    requires from <= |order|
    ensures forall g :: g in Run(order, from, construct) ==> g in order[from..]
    ensures forall g :: g in Run(order, from, construct) ==>
              NewInstance(construct, g).Succeeded? &&
              Run(order, from, construct)[g] == Handle(g, NewInstance(construct, g).className)
    decreases |order| - from
  {
    if from < |order| {
      RunEntries(order, from + 1, construct);
      assert order[from..] == [order[from]] + order[from + 1..];
    }
  }

  /** The state the static initializer leaves: the detected implementation,
      jc (which jcThemePart equals), and the secondary contexts set. */
  datatype Snapshot = Snapshot(
    implementation: Option<JaxbImplementation>,
    jc: Option<Handle>,
    secondary: map<Group, Handle>)

  function Boot(env: Environment): (s: Snapshot)
    ensures s.jc.Some? <==> NewInstance(env.construct, Primary).Succeeded?
    ensures s.jc.Some? ==> s.jc.value == Handle(Primary, NewInstance(env.construct, Primary).className)
    ensures s.jc.None? ==> s.secondary == map[]
    ensures s.jc.None? ==> s.implementation == Classify(env.moxyProperties, env.prefixMapper)
  {
    var probed := Classify(env.moxyProperties, env.prefixMapper);
    match NewInstance(env.construct, Primary)
    case Failed(_) => Snapshot(probed, None, map[])
    case Succeeded(name) =>
      Snapshot(Refine(probed, name), Some(Handle(Primary, name)), Run(SecondaryOrder, 0, env.construct))
  }

  /** Boot when the primary context cannot be built: nothing is set and the
      probes' verdict stands. */
  lemma BootFailed(env: Environment)
    requires NewInstance(env.construct, Primary).Failed?
    ensures Boot(env) == Snapshot(Classify(env.moxyProperties, env.prefixMapper), None, map[])
  {
  }

  /** Boot when the primary context is built with runtime class name. */
  lemma BootSucceeded(env: Environment, name: string)
    requires NewInstance(env.construct, Primary) == Succeeded(name)
    ensures Boot(env) == Snapshot(Refine(Classify(env.moxyProperties, env.prefixMapper), name),
                                  Some(Handle(Primary, name)), Run(SecondaryOrder, 0, env.construct))
  {
  }

  /** Only secondary groups are ever set, each to the context its own
      construction produced. */
  lemma BootEntries(env: Environment)
    ensures forall g :: g in Boot(env).secondary ==> g in SecondaryOrder
    ensures forall g :: g in Boot(env).secondary ==>
              NewInstance(env.construct, g).Succeeded? &&
              Boot(env).secondary[g] == Handle(g, NewInstance(env.construct, g).className)
  {
    RunEntries(SecondaryOrder, 0, env.construct);
    assert SecondaryOrder[0..] == SecondaryOrder;
  }

  /** A group of a duplicate-free order is set by Run exactly when no earlier
      group ended the outer try and its own construction succeeded. */
  lemma {:induction false} RunReaches(order: seq<Group>, construct: Group -> Attempt, from: nat, k: nat)
    requires Distinct(order)
    requires from <= k < |order|
    ensures order[k] in Run(order, from, construct) <==>
              Reached(order, construct, from, k) && NewInstance(construct, order[k]).Succeeded?
    decreases |order| - from
  {
    if k == from {
      RunEntries(order, from + 1, construct);
      var later := order[from + 1..];
      assert order[from] !in later by {
        forall i | 0 <= i < |later| ensures later[i] != order[from] {
          assert later[i] == order[from + 1 + i];
        }
      }
    } else {
      RunReaches(order, construct, from + 1, k);
    }
  }

  /** The position of each secondary group in SecondaryOrder; the others come
      after it. */
  function Position(g: Group): nat {
    match g
    case DocPropsCore => 0
    case DocPropsCustom => 1
    case DocPropsExtended => 2
    case XmlPackage => 3
    case Relationships => 4
    case CustomXmlProperties => 5
    case ContentTypes => 6
    case SectionModel => 7
    case Encryption => 8
    case Mce => 9
    case _ => 10
  }

  lemma OrderAtPosition(k: nat)
    requires k < |SecondaryOrder|
    ensures Position(SecondaryOrder[k]) == k
  {
  }

  lemma SecondaryOrderDistinct()
    ensures Distinct(SecondaryOrder)
  {
    forall i | 0 <= i < |SecondaryOrder| ensures Position(SecondaryOrder[i]) == i {
      OrderAtPosition(i);
    }
  }

  lemma PositionInOrder(g: Group)
    requires Position(g) < |SecondaryOrder|
    ensures SecondaryOrder[Position(g)] == g
  {
  }

  /** RunReaches for the order of the static initializer. */
  lemma SecondaryReaches(construct: Group -> Attempt, k: nat)
    requires k < |SecondaryOrder|
    ensures SecondaryOrder[k] in Run(SecondaryOrder, 0, construct) <==>
              Reached(SecondaryOrder, construct, 0, k) && NewInstance(construct, SecondaryOrder[k]).Succeeded?
  {
    SecondaryOrderDistinct();
    RunReaches(SecondaryOrder, construct, 0, k);
  }

  /** The field a construction of g sets: the context when it succeeded,
      null otherwise. */
  function Built(g: Group, a: Attempt): Option<Handle> {
    if a.Succeeded? then Some(Handle(g, a.className)) else None
  }

  /** The secondary group built just before g (DocPropsCore, which comes
      first, for the groups that have none). */
  function Previous(g: Group): Group {
    match g
    case DocPropsCustom => DocPropsCore
    case DocPropsExtended => DocPropsCustom
    case XmlPackage => DocPropsExtended
    case Relationships => XmlPackage
    case CustomXmlProperties => Relationships
    case ContentTypes => CustomXmlProperties
    case SectionModel => ContentTypes
    case Encryption => SectionModel
    case Mce => Encryption
    case _ => DocPropsCore
  }

  /** The outer try gets as far as constructing the secondary group g: no
      group before it in SecondaryOrder ended the try. */
  predicate Reaches(construct: Group -> Attempt, g: Group)
    decreases Position(g)
  {
    if g == DocPropsCore || Position(g) >= |SecondaryOrder| then true
    else
      var p := Previous(g);
      assert Position(p) < Position(g);
      Reaches(construct, p) && !Aborts(p, NewInstance(construct, p))
  }

  /** What the field of the secondary group g holds once the outer try is
      over: the context built for g if the try got that far, null
      otherwise. */
  function Settled(construct: Group -> Attempt, g: Group): Option<Handle> {
    if Reaches(construct, g) then Built(g, NewInstance(construct, g)) else None
  }

  /** Once the outer try does not get as far as g, it builds neither g nor
      any later secondary group. */
  lemma {:induction false} SkippedFrom(construct: Group -> Attempt, g: Group)
    requires !Reaches(construct, g)
    ensures forall h :: Position(g) <= Position(h) < |SecondaryOrder| ==> Settled(construct, h) == None
  {
    forall h | Position(g) <= Position(h) < |SecondaryOrder|
      ensures !Reaches(construct, h)
    {
      NotReachedLater(construct, g, h);
    }
  }

  lemma {:induction false} NotReachedLater(construct: Group -> Attempt, g: Group, h: Group)
    requires !Reaches(construct, g)
    requires Position(g) <= Position(h) < |SecondaryOrder|
    ensures !Reaches(construct, h)
    decreases Position(h)
  {
    if Position(g) < Position(h) {
      NotReachedLater(construct, g, Previous(h));
    } else {
      assert g == h;
    }
  }

  lemma PreviousInOrder(k: nat)
    requires 0 < k < |SecondaryOrder|
    ensures Previous(SecondaryOrder[k]) == SecondaryOrder[k - 1]
  {
  }

  /** Reaches is Reached for the order of the static initializer. */
  lemma {:induction false} ReachedIsReaches(construct: Group -> Attempt, k: nat)
    requires k < |SecondaryOrder|
    ensures Reached(SecondaryOrder, construct, 0, k) <==> Reaches(construct, SecondaryOrder[k])
  {
    OrderAtPosition(k);
    if k > 0 {
      ReachedIsReaches(construct, k - 1);
      PreviousInOrder(k);
      var p := SecondaryOrder[k - 1];
      assert Reached(SecondaryOrder, construct, 0, k) <==>
             Reached(SecondaryOrder, construct, 0, k - 1) && !Aborts(p, NewInstance(construct, p));
    }
  }

  /** The ten secondary context fields, in the order they are built. */
  datatype SecondaryFields = SecondaryFields(
    docPropsCore: Option<Handle>, docPropsCustom: Option<Handle>,
    docPropsExtended: Option<Handle>, xmlPackage: Option<Handle>,
    relationships: Option<Handle>, customXmlProperties: Option<Handle>,
    contentTypes: Option<Handle>, sectionModel: Option<Handle>,
    encryption: Option<Handle>, mce: Option<Handle>)

  /** Every secondary field null, as the static initializer starts. */
  const NoSecondaries: SecondaryFields :=
    SecondaryFields(None, None, None, None, None, None, None, None, None, None)

  /** The secondary fields that hold the entries of built. */
  function FieldsOf(built: map<Group, Handle>): SecondaryFields {
    SecondaryFields(
      Lookup(built, DocPropsCore), Lookup(built, DocPropsCustom),
      Lookup(built, DocPropsExtended), Lookup(built, XmlPackage),
      Lookup(built, Relationships), Lookup(built, CustomXmlProperties),
      Lookup(built, ContentTypes), Lookup(built, SectionModel),
      Lookup(built, Encryption), Lookup(built, Mce))
  }

  /** The secondary fields as Settled says the outer try leaves them. */
  function SettledFields(construct: Group -> Attempt): SecondaryFields {
    SecondaryFields(
      Settled(construct, DocPropsCore), Settled(construct, DocPropsCustom),
      Settled(construct, DocPropsExtended), Settled(construct, XmlPackage),
      Settled(construct, Relationships), Settled(construct, CustomXmlProperties),
      Settled(construct, ContentTypes), Settled(construct, SectionModel),
      Settled(construct, Encryption), Settled(construct, Mce))
  }

  /** Run and Settled agree: once the outer try is over, the field of every
      secondary group holds what Settled says. */
  lemma SecondaryRun(construct: Group -> Attempt)
    ensures forall g :: Position(g) < |SecondaryOrder| ==>
              Lookup(Run(SecondaryOrder, 0, construct), g) == Settled(construct, g)
  {
    var built := Run(SecondaryOrder, 0, construct);
    RunEntries(SecondaryOrder, 0, construct);
    forall g | Position(g) < |SecondaryOrder|
      ensures Lookup(built, g) == Settled(construct, g)
    {
      var k := Position(g);
      PositionInOrder(g);
      SecondaryReaches(construct, k);
      ReachedIsReaches(construct, k);
    }
  }

  /** The fields once the outer try ends at the first four package
      contexts. */
  lemma StopAfterFirstPackages(construct: Group -> Attempt)
    requires !Reaches(construct, Relationships)
    ensures SettledFields(construct) ==
              SecondaryFields(Settled(construct, DocPropsCore), Settled(construct, DocPropsCustom),
                              Settled(construct, DocPropsExtended), Settled(construct, XmlPackage),
                              None, None, None, None, None, None)
  {
    SkippedFrom(construct, Relationships);
  }

  /** The fields once the outer try ends at the last four package contexts. */
  lemma StopAfterSecondPackages(construct: Group -> Attempt)
    requires !Reaches(construct, Encryption)
    ensures SettledFields(construct) ==
              SecondaryFields(Settled(construct, DocPropsCore), Settled(construct, DocPropsCustom),
                              Settled(construct, DocPropsExtended), Settled(construct, XmlPackage),
                              Settled(construct, Relationships), Settled(construct, CustomXmlProperties),
                              Settled(construct, ContentTypes), Settled(construct, SectionModel),
                              None, None)
  {
    SkippedFrom(construct, Encryption);
  }

  /** The fields Run leaves are the fields Settled describes. */
  lemma RunFields(construct: Group -> Attempt)
    ensures FieldsOf(Run(SecondaryOrder, 0, construct)) == SettledFields(construct)
  {
    SecondaryRun(construct);
  }

  /** A failure that ends the outer try leaves its own field and every later
      secondary field null. */
  lemma AbortSkipsLater(env: Environment, k: nat, m: nat)
    requires k <= m < |SecondaryOrder|
    requires Aborts(SecondaryOrder[k], NewInstance(env.construct, SecondaryOrder[k]))
    ensures SecondaryOrder[m] !in Boot(env).secondary
  {
    if NewInstance(env.construct, Primary).Succeeded? {
      SecondaryReaches(env.construct, m);
    }
  }

  /** Run sets every group of the order when every construction succeeds. */
  lemma {:induction false} RunAllSucceed(order: seq<Group>, from: nat, construct: Group -> Attempt)
    requires from <= |order|
    requires forall j :: from <= j < |order| ==> NewInstance(construct, order[j]).Succeeded?
    ensures forall j :: from <= j < |order| ==> order[j] in Run(order, from, construct)
    decreases |order| - from
  {
    if from < |order| {
      RunAllSucceed(order, from + 1, construct);
    }
  }

  /** With the primary context built, every secondary field is set when every
      secondary construction succeeds. */
  lemma AllSecondariesSet(env: Environment)
    requires NewInstance(env.construct, Primary).Succeeded?
    requires forall k :: 0 <= k < |SecondaryOrder| ==> NewInstance(env.construct, SecondaryOrder[k]).Succeeded?
    ensures forall k :: 0 <= k < |SecondaryOrder| ==> SecondaryOrder[k] in Boot(env).secondary
  {
    RunAllSucceed(SecondaryOrder, 0, env.construct);
  }

  /** The environment in which the encryption context is built. */
  function WithEncryption(env: Environment, name: string): (e: Environment)
    ensures NewInstance(e.construct, Encryption) == Succeeded(name)
    ensures forall g :: g != Encryption ==> NewInstance(e.construct, g) == NewInstance(env.construct, g)
    ensures e.moxyProperties == env.moxyProperties && e.prefixMapper == env.prefixMapper
  {
    env.(construct := g => if g == Encryption then Succeeded(name) else env.construct(g))
  }

  /** Two environments that differ only in the construction of x, which ends
      the outer try in neither, set every other group of the order alike. */
  lemma {:induction false} RunIgnoresAbsorbed(order: seq<Group>, from: nat, c1: Group -> Attempt,
                                              c2: Group -> Attempt, x: Group)
    requires from <= |order|
    requires forall g :: g != x ==> NewInstance(c1, g) == NewInstance(c2, g)
    requires !Aborts(x, NewInstance(c1, x)) && !Aborts(x, NewInstance(c2, x))
    ensures forall g :: g != x ==> Lookup(Run(order, from, c1), g) == Lookup(Run(order, from, c2), g)
    decreases |order| - from
  {
    if from < |order| {
      RunIgnoresAbsorbed(order, from + 1, c1, c2, x);
      var first := order[from];
      if first != x {
        assert NewInstance(c1, first) == NewInstance(c2, first);
      }
      forall g | g != x
        ensures Lookup(Run(order, from, c1), g) == Lookup(Run(order, from, c2), g)
      {
        assert Lookup(Run(order, from + 1, c1), g) == Lookup(Run(order, from + 1, c2), g);
      }
    }
  }

  /** A JAXBException from the encryption context leaves only jcEncryption
      null: every other field is what it would have been had the encryption
      context been built, so jcMCE is still attempted. */
  lemma EncryptionFailureIsolated(env: Environment, name: string)
    requires NewInstance(env.construct, Encryption) == Failed(JaxbError)
    ensures Encryption !in Boot(env).secondary
    ensures Boot(env).jc == Boot(WithEncryption(env, name)).jc
    ensures Boot(env).implementation == Boot(WithEncryption(env, name)).implementation
    ensures forall g :: g != Encryption ==>
              Lookup(Boot(env).secondary, g) == Lookup(Boot(WithEncryption(env, name)).secondary, g)
  {
    var env' := WithEncryption(env, name);
    BootEntries(env);
    if NewInstance(env.construct, Primary).Succeeded? {
      RunIgnoresAbsorbed(SecondaryOrder, 0, env.construct, env'.construct, Encryption);
    }
  }

  /** A primary context whose runtime class starts with the WebSphere prefix
      makes the classification IBM_WEBSPHERE_XLXP whatever the earlier probes
      found; any other primary context leaves the earlier probes' verdict. */
  lemma FinalClassification(env: Environment)
    ensures Boot(env).implementation ==
              if NewInstance(env.construct, Primary).Succeeded? &&
                 StartsWith(NewInstance(env.construct, Primary).className, IbmContextPrefix)
              then Some(IbmWebsphereXlxp)
              else Classify(env.moxyProperties, env.prefixMapper)
  {
  }
}
