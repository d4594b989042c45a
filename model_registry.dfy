/**
 * The model registry manager of model_registry.py: registering a training
 * run's model as a new version of one named model, moving a version to a
 * stage, and fetching the model of the first listed version at a stage.
 *
 * The tracking store is an input: each of its calls is a function that
 * returns a value or raises. Only `MlflowException` is caught; any other
 * exception propagates to the caller.
 */
module ModelRegistry {
  import opened Wrappers
  import Text

  /** The exceptions a store call can raise, split by whether the manager catches them. */
  datatype PyException = MlflowException(message: string) | OtherException(message: string)

  /** A Python call: it returns a value or raises an exception. */
  datatype Outcome<+T> = Returns(value: T) | Raises(exc: PyException)

  /** One entry of the store's version listing. */
  datatype ModelVersion = ModelVersion(version: int, currentStage: string)

  /** The stage `fetch_latest_model` asks for when none is given: the literal string "None". */
  const DEFAULT_STAGE: string := "None"

  /**
   * `try: result = call() except MlflowException: result = None`: an
   * `MlflowException` becomes a `None` result, every other exception
   * propagates unchanged, and a returned value is passed on.
   */
  function CatchMlflow<T>(o: Outcome<T>): (r: Outcome<Option<T>>)
    ensures r == Returns(None) <==> o.Raises? && o.exc.MlflowException?
    ensures r.Raises? <==> o.Raises? && o.exc.OtherException?
    ensures r.Raises? ==> r.exc == o.exc
    ensures o.Returns? ==> r == Returns(Some(o.value))
  {
    match o
    case Returns(v) => Returns(Some(v))
    case Raises(MlflowException(_)) => Returns(None)
    case Raises(e) => Raises(e)
  }

  // ---------------------------------------------------------------------
  // Decimal formatting of version numbers, as Python's str(int)
  // ---------------------------------------------------------------------

  predicate IsDigit(c: char) {
    '0' <= c <= '9'
  }

  function DigitChar(d: nat): (c: char)
    requires d < 10
    ensures IsDigit(c) && DigitValue(c) == d
  {
    ('0' as int + d) as char
  }

  function DigitValue(c: char): (d: nat)
    requires IsDigit(c)
    ensures d < 10
  {
    c as int - '0' as int
  }

  /** The decimal digits of `n`, without leading zeros. */
  function NatToString(n: nat): (s: string)
    ensures |s| >= 1
    ensures forall i :: 0 <= i < |s| ==> IsDigit(s[i])
  {
    if n < 10 then [DigitChar(n)] else NatToString(n / 10) + [DigitChar(n % 10)]
  }

  /** `str(n)` for a Python int. */
  function IntToString(n: int): string
  {
    if n < 0 then "-" + NatToString(-n) else NatToString(n)
  }

  /** The number a string of decimal digits denotes. */
  function ParseNat(s: string): nat
    requires forall i :: 0 <= i < |s| ==> IsDigit(s[i])
  {
    if s == [] then 0 else ParseNat(s[..|s| - 1]) * 10 + DigitValue(s[|s| - 1])
  }

  /** Reading back the digits of `n` gives `n`. */
  lemma {:induction false} ParseNatToString(n: nat)
    ensures ParseNat(NatToString(n)) == n
  {
    if n >= 10 {
      var s := NatToString(n);
      assert s[..|s| - 1] == NatToString(n / 10);
      ParseNatToString(n / 10);
    }
  }

  /** Different version numbers are formatted differently. */
  lemma IntToStringInjective(a: int, b: int)
    requires IntToString(a) == IntToString(b)
    ensures a == b
  {
    var s := IntToString(a);
    // A sign is never a digit, so both numbers have the same sign.
    assert (s[0] == '-') == (a < 0);
    assert (s[0] == '-') == (b < 0);
    if a < 0 {
      assert NatToString(-a) == s[1..] == NatToString(-b);
      ParseNatToString(-a);
      ParseNatToString(-b);
    } else {
      ParseNatToString(a);
      ParseNatToString(b);
    }
  }

  // ---------------------------------------------------------------------
  // URIs and filters
  // ---------------------------------------------------------------------

  /** `f"runs:/{run_id}/model"`: the artifact a run logged under "model". */
  function RunModelUri(runId: string): string
  {
    "runs:/" + runId + "/model"
  }

  /** Different runs are registered from different URIs. */
  lemma RunModelUriInjective(r1: string, r2: string)
    requires RunModelUri(r1) == RunModelUri(r2)
    ensures r1 == r2
  {
    Text.ConcatCancel("runs:/", r1, r2, "/model");
  }

  /** `f"models:/{name}/{version}"`: one registered version of a named model. */
  function VersionUri(name: string, version: int): string
  {
    "models:/" + name + "/" + IntToString(version)
  }

  /** Different versions of one model are loaded from different URIs. */
  lemma VersionUriInjective(name: string, v1: int, v2: int)
    requires VersionUri(name, v1) == VersionUri(name, v2)
    ensures v1 == v2
  {
    var prefix := "models:/" + name + "/";
    assert prefix + IntToString(v1) + "" == VersionUri(name, v1);
    assert prefix + IntToString(v2) + "" == VersionUri(name, v2);
    Text.ConcatCancel(prefix, IntToString(v1), IntToString(v2), "");
    IntToStringInjective(v1, v2);
  }

  /** `f"name='{model_name}'"`: the search filter for one model's versions. */
  function NameFilter(name: string): string
  {
    "name='" + name + "'"
  }

  // ---------------------------------------------------------------------
  // Selection by stage
  // ---------------------------------------------------------------------

  /** The position of the first listed version whose current stage is `stage`, if any. */
  function FirstAtStage(versions: seq<ModelVersion>, stage: string): (k: Option<nat>)
    ensures k.None? <==> forall i :: 0 <= i < |versions| ==> versions[i].currentStage != stage
    ensures k.Some? ==> k.value < |versions| && versions[k.value].currentStage == stage
    ensures k.Some? ==> forall j :: 0 <= j < k.value ==> versions[j].currentStage != stage
  {
    if versions == [] then None
    else if versions[0].currentStage == stage then Some(0)
    else
      match FirstAtStage(versions[1..], stage)
      case None => None
      case Some(k) => Some(k + 1)
  }

  /** A version at the stage preceded only by versions at other stages is the one selected. */
  lemma FirstAtStageIs(versions: seq<ModelVersion>, stage: string, i: nat)
    requires i < |versions| && versions[i].currentStage == stage
    requires forall j :: 0 <= j < i ==> versions[j].currentStage != stage
    ensures FirstAtStage(versions, stage) == Some(i)
  {
    var k := FirstAtStage(versions, stage);
    assert k.Some?;
    assert !(k.value < i) && !(i < k.value);
  }

  /**
   * What `fetch_latest_model` answers, given the outcome of listing the
   * model's versions and the loader of a version's artifact.
   */
  function Fetch<A>(modelName: string, listing: Outcome<seq<ModelVersion>>, loadModel: string -> Outcome<A>, stage: string): Outcome<Option<A>>
  {
    match listing
    case Raises(e) => if e.MlflowException? then Returns(None) else Raises(e)
    case Returns(versions) =>
      match FirstAtStage(versions, stage)
      case None => Returns(None)
      case Some(k) => CatchMlflow(loadModel(VersionUri(modelName, versions[k].version)))
  }

  /** A failed listing gives `None` for an MLflow error and propagates any other error. */
  lemma FetchListingFails<A>(modelName: string, listing: Outcome<seq<ModelVersion>>, loadModel: string -> Outcome<A>, stage: string)
    requires listing.Raises?
    ensures Fetch(modelName, listing, loadModel, stage) == Returns(None) <==> listing.exc.MlflowException?
    ensures listing.exc.OtherException? ==> Fetch(modelName, listing, loadModel, stage) == Raises(listing.exc)
  {
  }

  /** With no listed version at the stage, the answer is `None` and nothing is loaded. */
  lemma FetchNothingAtStage<A>(modelName: string, versions: seq<ModelVersion>, loadModel: string -> Outcome<A>, stage: string)
    requires forall i :: 0 <= i < |versions| ==> versions[i].currentStage != stage
    ensures Fetch(modelName, Returns(versions), loadModel, stage) == Returns(None)
  {
  }

  /**
   * The first listed version at the stage is the one loaded, by its
   * `models:/<name>/<version>` URI; the answer is `None` exactly when that
   * load raises an MLflow error.
   */
  lemma FetchLoadsFirstAtStage<A>(modelName: string, versions: seq<ModelVersion>, loadModel: string -> Outcome<A>, stage: string, i: nat)
    requires i < |versions| && versions[i].currentStage == stage
    requires forall j :: 0 <= j < i ==> versions[j].currentStage != stage
    ensures Fetch(modelName, Returns(versions), loadModel, stage) == CatchMlflow(loadModel(VersionUri(modelName, versions[i].version)))
    ensures Fetch(modelName, Returns(versions), loadModel, stage) == Returns(None) <==>
      loadModel(VersionUri(modelName, versions[i].version)).Raises? &&
      loadModel(VersionUri(modelName, versions[i].version)).exc.MlflowException?
  {
    FirstAtStageIs(versions, stage, i);
  }

  // ---------------------------------------------------------------------
  // The manager
  // ---------------------------------------------------------------------

  /** Manages the versions of one named model in the tracking store. */
  class ModelRegistryManager {
    /** Fixed at construction and used by every operation. */
    const modelName: string

    constructor (modelName: string)
      ensures this.modelName == modelName
    {
      this.modelName := modelName;
    }

    /**
     * `register_model`: asks the store to register the run's "model"
     * artifact under this manager's name. Returns the store's result,
     * `None` if the store raises `MlflowException`, and propagates any
     * other exception.
     */
    method RegisterModel<V>(runId: string, registerInStore: (string, string) -> Outcome<V>)
      returns (result: Outcome<Option<V>>)
      ensures result == CatchMlflow(registerInStore(RunModelUri(runId), modelName))
    {
      result := CatchMlflow(registerInStore(RunModelUri(runId), modelName));
    }

    /**
     * `transition_model_stage`: forwards the version and the stage as given,
     * with no check of the stage, to the store under this manager's name.
     * Returns nothing whether the store succeeds or raises
     * `MlflowException`; any other exception propagates.
     */
    method TransitionModelStage(version: int, stage: string, setStageInStore: (string, int, string) -> Outcome<()>)
      returns (r: Outcome<()>)
      ensures r.Returns? <==>
        setStageInStore(modelName, version, stage).Returns? ||
        setStageInStore(modelName, version, stage).exc.MlflowException?
      ensures r.Raises? ==> r == setStageInStore(modelName, version, stage)
    {
      var call := setStageInStore(modelName, version, stage);
      if call.Raises? && call.exc.OtherException? {
        return Raises(call.exc);
      }
      return Returns(());
    }

    /**
     * `fetch_latest_model`: lists this model's versions and loads the model
     * of the first one, in listing order, whose current stage is `stage`.
     * No match gives `None`, and so does an `MlflowException` from the
     * listing or the load: the caller cannot tell them apart.
     */
    method FetchLatestModel<A>(searchInStore: string -> Outcome<seq<ModelVersion>>,
                               loadModel: string -> Outcome<A>,
                               stage: string := DEFAULT_STAGE)
      returns (r: Outcome<Option<A>>)
      ensures r == Fetch(modelName, searchInStore(NameFilter(modelName)), loadModel, stage)
    {
      var listing := searchInStore(NameFilter(modelName));
      if listing.Raises? {
        if listing.exc.MlflowException? {
          return Returns(None);
        }
        return Raises(listing.exc);
      }
      var versions := listing.value;
      for i := 0 to |versions|
        invariant forall j :: 0 <= j < i ==> versions[j].currentStage != stage
      {
        if versions[i].currentStage == stage {
          FirstAtStageIs(versions, stage, i);
          return CatchMlflow(loadModel(VersionUri(modelName, versions[i].version)));
        }
      }
      return Returns(None);
    }
  }
}
