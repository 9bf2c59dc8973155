/** The lazily built XSL-FO context of org.docx4j.jaxb.Context
    (getXslFoContext): what one call does to the cache and returns, and what a
    sequence of calls amounts to. */
module LazyContext {
  import opened JaxbTypes

  /** What a call of getXslFoContext does for its caller: it returns the
      cached context (null after a JAXBException), or an exception other than
      JAXBException escapes it. */
  datatype CallResult = Returned(context: Option<Handle>) | Raised(error: Failure)

  /** The cache after one call, the call's result, and whether the call asked
      the binding engine for a context. */
  datatype CallStep = CallStep(cache: Option<Handle>, result: CallResult, constructed: bool)

  /** One call, given the cache before it and the outcome the binding engine
      gives if asked. */
  function XslFoCall(cache: Option<Handle>, attempt: Attempt): (s: CallStep)
    ensures s.constructed <==> cache.None?
    ensures cache.Some? ==> s.cache == cache && s.result == Returned(cache)
    ensures cache.None? ==> (s.cache.Some? <==> attempt.Succeeded?)
    ensures s.cache.Some? ==> s.result == Returned(s.cache)
    ensures cache.None? && attempt.Succeeded? ==> s.cache == Some(Handle(XslFo, attempt.className))
    ensures cache.None? && attempt == Failed(JaxbError) ==> s.result == Returned(None)
    ensures cache.None? && attempt == Failed(OtherError) ==> s.result == Raised(OtherError)
  {
    if cache.Some? then CallStep(cache, Returned(cache), false)
    else
      match attempt
      case Succeeded(name) =>
        var built := Some(Handle(XslFo, name));
        CallStep(built, Returned(built), true)
      case Failed(JaxbError) => CallStep(None, Returned(None), true)
      case Failed(OtherError) => CallStep(None, Raised(OtherError), true)
  }

  /** The cache after a sequence of calls, their results in order, and how
      many of them asked the binding engine for a context. */
  datatype Trace = Trace(cache: Option<Handle>, results: seq<CallResult>, constructions: nat)

  /** Calls made one after another, the i-th facing attempts[i]. */
  function Calls(cache: Option<Handle>, attempts: seq<Attempt>): (t: Trace)
    ensures |t.results| == |attempts|
    ensures t.constructions <= |attempts|
    ensures cache.Some? ==> t.cache == cache && t.constructions == 0
    ensures cache.Some? ==> forall i :: 0 <= i < |t.results| ==> t.results[i] == Returned(cache)
    decreases |attempts|
  {
    if attempts == [] then Trace(cache, [], 0)
    else
      var step := XslFoCall(cache, attempts[0]);
      var rest := Calls(step.cache, attempts[1..]);
      Trace(rest.cache, [step.result] + rest.results, rest.constructions + if step.constructed then 1 else 0)
  }

  /** Starting from an empty cache, the engine is asked once per call up to and
      including the first success and never again; from that call on every
      call returns the context built then. */
  lemma {:induction false} BuiltOnce(attempts: seq<Attempt>, i: nat)
    requires i < |attempts| && attempts[i].Succeeded?
    requires forall j :: 0 <= j < i ==> attempts[j].Failed?
    ensures Calls(None, attempts).constructions == i + 1
    ensures Calls(None, attempts).cache == Some(Handle(XslFo, attempts[i].className))
    ensures forall j :: i <= j < |attempts| ==>
              Calls(None, attempts).results[j] == Returned(Some(Handle(XslFo, attempts[i].className)))
  {
    var t := Calls(None, attempts);
    var step := XslFoCall(None, attempts[0]);
    var tail := attempts[1..];
    var rest := Calls(step.cache, tail);
    assert t.results == [step.result] + rest.results;
    if i == 0 {
      assert step.cache == Some(Handle(XslFo, attempts[0].className));
    } else {
      assert step.cache == None;
      forall j | 0 <= j < i - 1 ensures tail[j].Failed? {
        assert tail[j] == attempts[j + 1];
      }
      assert tail[i - 1] == attempts[i];
      BuiltOnce(tail, i - 1);
      forall j | i <= j < |attempts|
        ensures t.results[j] == Returned(Some(Handle(XslFo, attempts[i].className)))
      {
        assert t.results[j] == rest.results[j - 1];
      }
    }
  }

  /** A failed construction does not poison the cache: when every call
      fails, every call asks the engine again and the cache stays empty. */
  lemma {:induction false} FailuresRetry(attempts: seq<Attempt>)
    requires forall j :: 0 <= j < |attempts| ==> attempts[j].Failed?
    ensures Calls(None, attempts).cache == None
    ensures Calls(None, attempts).constructions == |attempts|
  {
    if attempts != [] {
      var tail := attempts[1..];
      forall j | 0 <= j < |tail| ensures tail[j].Failed? {
        assert tail[j] == attempts[j + 1];
      }
      FailuresRetry(tail);
    }
  }
}
