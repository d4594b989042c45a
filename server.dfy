/**
 * The prediction service of server.py: the fixed target and feature schemas,
 * the request record, the `neg_to_nan` preprocessing helper, the lazily
 * loaded per-target pipeline cache, and the `health` and `predict` endpoints.
 *
 * Every foreign call is an input: the file system is the set of paths that
 * exist, `joblib.load` is a `Loader`, and `pipe.predict` followed by `float`
 * is a `Runner`. Either may fail with an error message.
 */
module Server {
  import opened Wrappers
  import Text

  // ---------------------------------------------------------------------
  // Schema
  // ---------------------------------------------------------------------

  /** The prediction targets, one pipeline each, in load order. */
  const COUNT_TARGETS: seq<string> := [
    "pcp_visits",
    "outpatient_visits",
    "er_visits",
    "inpatient_admits",
    "home_health_visits",
    "rx_fills",
    "dental_visits",
    "equipment_purchases"
  ]

  /** The feature columns in the order the pipelines were trained on. */
  const FEATURE_COLS: seq<string> := [
    "age_years_2022",
    "gender",
    "race_ethnicity",
    "hispanic_origin_category",
    "census_region",
    "education_years",
    "highest_degree_achieved",
    "family_income_2022",
    "poverty_level_pct",
    "poverty_category",
    "employment_status",
    "hours_worked_per_week",
    "occupation_industry_category",
    "family_size",
    "marital_status",
    "spouse_in_household",
    "insurance_coverage_type",
    "has_usual_source_of_care",
    "usual_care_location_type",
    "delayed_care_due_to_cost",
    "delayed_prescription_due_to_cost",
    "received_snap",
    "snap_benefit_value_2022",
    "bmi",
    "smoking_frequency",
    "alcohol_consumption_frequency",
    "exercise_days_per_week",
    "english_proficiency",
    "us_born_flag",
    "years_in_us",
    "difficulty_lifting_carrying",
    "difficulty_walking_stairs",
    "any_activity_limitation",
    "cognitive_limitation",
    "k6_distress_score",
    "hopelessness_frequency_30d",
    "sadness_frequency_30d"
  ]
  predicate Distinct(s: seq<string>) {
    forall i, j :: 0 <= i < j < |s| ==> s[i] != s[j]
  }

  /** The names of an ordered sequence of (name, value) pairs, in order. */
  function Keys<V>(pairs: seq<(string, V)>): (names: seq<string>)
    ensures |names| == |pairs|
    ensures forall i :: 0 <= i < |pairs| ==> names[i] == pairs[i].0
  {
    seq(|pairs|, i requires 0 <= i < |pairs| => pairs[i].0)
  }

  /** The values of an ordered sequence of (name, value) pairs, in order. */
  function Values<K, V>(pairs: seq<(K, V)>): (vals: seq<V>)
    ensures |vals| == |pairs|
    ensures forall i :: 0 <= i < |pairs| ==> vals[i] == pairs[i].1
  {
    seq(|pairs|, i requires 0 <= i < |pairs| => pairs[i].1)
  }

  /** There are eight targets and no target is listed twice. */
  lemma TargetsDistinct()
    ensures |COUNT_TARGETS| == 8 && Distinct(COUNT_TARGETS)
  {
  }

  /** There are thirty-seven feature columns and no column is listed twice. */
  lemma ColumnsDistinct()
    ensures |FEATURE_COLS| == 37 && Distinct(FEATURE_COLS)
  {
    ColumnsDistinctFrom0();
    ColumnsDistinctFrom3();
    ColumnsDistinctFrom6();
    ColumnsDistinctFrom13();
  }

  // The pairwise comparisons, split by the position of the earlier column
  // so that each proof stays small.

  lemma ColumnsDistinctFrom0()
    ensures forall i, j :: 0 <= i < 3 && i < j < |FEATURE_COLS| ==> FEATURE_COLS[i] != FEATURE_COLS[j]
  {
  }

  lemma ColumnsDistinctFrom3()
    ensures forall i, j :: 3 <= i < 6 && i < j < |FEATURE_COLS| ==> FEATURE_COLS[i] != FEATURE_COLS[j]
  {
  }

  lemma ColumnsDistinctFrom6()
    ensures forall i, j :: 6 <= i < 13 && i < j < |FEATURE_COLS| ==> FEATURE_COLS[i] != FEATURE_COLS[j]
  {
  }

  lemma ColumnsDistinctFrom13()
    ensures forall i, j :: 13 <= i < j < |FEATURE_COLS| ==> FEATURE_COLS[i] != FEATURE_COLS[j]
  {
  }

  // ---------------------------------------------------------------------
  // The request record
  // ---------------------------------------------------------------------

  /**
   * The request body: thirty-seven optional numbers, each defaulting to
   * `None` when the request does not supply it.
   */
  datatype Features = Features(
    age_years_2022: Option<real>,
    gender: Option<real>,
    race_ethnicity: Option<real>,
    hispanic_origin_category: Option<real>,
    census_region: Option<real>,
    education_years: Option<real>,
    highest_degree_achieved: Option<real>,
    family_income_2022: Option<real>,
    poverty_level_pct: Option<real>,
    poverty_category: Option<real>,
    employment_status: Option<real>,
    hours_worked_per_week: Option<real>,
    occupation_industry_category: Option<real>,
    family_size: Option<real>,
    marital_status: Option<real>,
    spouse_in_household: Option<real>,
    insurance_coverage_type: Option<real>,
    has_usual_source_of_care: Option<real>,
    usual_care_location_type: Option<real>,
    delayed_care_due_to_cost: Option<real>,
    delayed_prescription_due_to_cost: Option<real>,
    received_snap: Option<real>,
    snap_benefit_value_2022: Option<real>,
    bmi: Option<real>,
    smoking_frequency: Option<real>,
    alcohol_consumption_frequency: Option<real>,
    exercise_days_per_week: Option<real>,
    english_proficiency: Option<real>,
    us_born_flag: Option<real>,
    years_in_us: Option<real>,
    difficulty_lifting_carrying: Option<real>,
    difficulty_walking_stairs: Option<real>,
    any_activity_limitation: Option<real>,
    cognitive_limitation: Option<real>,
    k6_distress_score: Option<real>,
    hopelessness_frequency_30d: Option<real>,
    sadness_frequency_30d: Option<real>
  )
  /** The record's declared attributes as (name, value) pairs, in declaration order. */
  function Attributes(f: Features): seq<(string, Option<real>)>
  {
    [
      ("age_years_2022", f.age_years_2022),
      ("gender", f.gender),
      ("race_ethnicity", f.race_ethnicity),
      ("hispanic_origin_category", f.hispanic_origin_category),
      ("census_region", f.census_region),
      ("education_years", f.education_years),
      ("highest_degree_achieved", f.highest_degree_achieved),
      ("family_income_2022", f.family_income_2022),
      ("poverty_level_pct", f.poverty_level_pct),
      ("poverty_category", f.poverty_category),
      ("employment_status", f.employment_status),
      ("hours_worked_per_week", f.hours_worked_per_week),
      ("occupation_industry_category", f.occupation_industry_category),
      ("family_size", f.family_size),
      ("marital_status", f.marital_status),
      ("spouse_in_household", f.spouse_in_household),
      ("insurance_coverage_type", f.insurance_coverage_type),
      ("has_usual_source_of_care", f.has_usual_source_of_care),
      ("usual_care_location_type", f.usual_care_location_type),
      ("delayed_care_due_to_cost", f.delayed_care_due_to_cost),
      ("delayed_prescription_due_to_cost", f.delayed_prescription_due_to_cost),
      ("received_snap", f.received_snap),
      ("snap_benefit_value_2022", f.snap_benefit_value_2022),
      ("bmi", f.bmi),
      ("smoking_frequency", f.smoking_frequency),
      ("alcohol_consumption_frequency", f.alcohol_consumption_frequency),
      ("exercise_days_per_week", f.exercise_days_per_week),
      ("english_proficiency", f.english_proficiency),
      ("us_born_flag", f.us_born_flag),
      ("years_in_us", f.years_in_us),
      ("difficulty_lifting_carrying", f.difficulty_lifting_carrying),
      ("difficulty_walking_stairs", f.difficulty_walking_stairs),
      ("any_activity_limitation", f.any_activity_limitation),
      ("cognitive_limitation", f.cognitive_limitation),
      ("k6_distress_score", f.k6_distress_score),
      ("hopelessness_frequency_30d", f.hopelessness_frequency_30d),
      ("sadness_frequency_30d", f.sadness_frequency_30d)
    ]
  }

  /** The record declares exactly the feature columns, in the same order. */
  lemma FeaturesMatchColumns(f: Features)
    ensures Keys(Attributes(f)) == FEATURE_COLS
  {
  }

  /**
   * `getattr` on the record: first-match lookup of a name among its
   * declared attributes; `None` means there is no such attribute and
   * `getattr` raises `AttributeError`.
   */
  function Lookup<V>(pairs: seq<(string, V)>, name: string): Option<V>
  {
    if pairs == [] then None
    else if pairs[0].0 == name then Some(pairs[0].1)
    else Lookup(pairs[1..], name)
  }

  /** When names are distinct, looking up the i-th name yields the i-th value. */
  lemma {:induction false} LookupDistinct<V>(pairs: seq<(string, V)>, i: nat)
    requires Distinct(Keys(pairs))
    requires i < |pairs|
    ensures Lookup(pairs, pairs[i].0) == Some(pairs[i].1)
  {
    if i > 0 {
      assert Keys(pairs)[0] != Keys(pairs)[i];
      assert Keys(pairs[1..]) == Keys(pairs)[1..];
      LookupDistinct(pairs[1..], i - 1);
    }
  }

  /** The message of the `AttributeError` raised by `getattr` on an undeclared name. */
  function NoAttribute(name: string): string
  {
    "'Features' object has no attribute '" + name + "'"
  }

  /** `[getattr(features, col) for col in cols]`: the first undeclared column raises. */
  function ReadColumns(attrs: seq<(string, Option<real>)>, cols: seq<string>): Result<seq<Option<real>>, string>
  {
    if cols == [] then Success([])
    else match Lookup(attrs, cols[0])
      case None => Failure(NoAttribute(cols[0]))
      case Some(v) =>
        match ReadColumns(attrs, cols[1..])
        case Failure(e) => Failure(e)
        case Success(rest) => Success([v] + rest)
  }

  /** The single feature row handed to every pipeline: one entry per `FEATURE_COLS` column. */
  function AssembleRow(f: Features): Result<seq<Option<real>>, string>
  {
    ReadColumns(Attributes(f), FEATURE_COLS)
  }

  lemma {:induction false} ReadDeclaredColumns(attrs: seq<(string, Option<real>)>, cols: seq<string>)
    requires forall c :: c in cols ==> Lookup(attrs, c).Some?
    ensures ReadColumns(attrs, cols).Success?
    ensures |ReadColumns(attrs, cols).value| == |cols|
    ensures forall i :: 0 <= i < |cols| ==> ReadColumns(attrs, cols).value[i] == Lookup(attrs, cols[i]).value
  {
    if cols != [] {
      ReadDeclaredColumns(attrs, cols[1..]);
    }
  }

  /**
   * Row assembly never fails, yields exactly one entry per feature column,
   * and entry i is the record's value for column i: a supplied number or `None`.
   */
  lemma RowAssembly(f: Features)
    ensures AssembleRow(f).Success?
    ensures AssembleRow(f).value == Values(Attributes(f))
  {
    var attrs := Attributes(f);
    FeaturesMatchColumns(f);
    ColumnsDistinct();
    forall i | 0 <= i < |FEATURE_COLS|
      ensures Lookup(attrs, FEATURE_COLS[i]) == Some(attrs[i].1)
    {
      LookupDistinct(attrs, i);
    }
    ReadDeclaredColumns(attrs, FEATURE_COLS);
  }

  /** The value a request gives for a field, or the declared default `None`. */
  function Field(m: map<string, Option<real>>, name: string): Option<real>
  {
    if name in m then m[name] else None
  }

  /**
   * The record built from an already-parsed request body: each declared
   * field takes the supplied value, absent fields default to `None`, and
   * keys that are not fields are ignored.
   */
  function FromRequest(m: map<string, Option<real>>): Features
  {
    Features(
      Field(m, "age_years_2022"),
      Field(m, "gender"),
      Field(m, "race_ethnicity"),
      Field(m, "hispanic_origin_category"),
      Field(m, "census_region"),
      Field(m, "education_years"),
      Field(m, "highest_degree_achieved"),
      Field(m, "family_income_2022"),
      Field(m, "poverty_level_pct"),
      Field(m, "poverty_category"),
      Field(m, "employment_status"),
      Field(m, "hours_worked_per_week"),
      Field(m, "occupation_industry_category"),
      Field(m, "family_size"),
      Field(m, "marital_status"),
      Field(m, "spouse_in_household"),
      Field(m, "insurance_coverage_type"),
      Field(m, "has_usual_source_of_care"),
      Field(m, "usual_care_location_type"),
      Field(m, "delayed_care_due_to_cost"),
      Field(m, "delayed_prescription_due_to_cost"),
      Field(m, "received_snap"),
      Field(m, "snap_benefit_value_2022"),
      Field(m, "bmi"),
      Field(m, "smoking_frequency"),
      Field(m, "alcohol_consumption_frequency"),
      Field(m, "exercise_days_per_week"),
      Field(m, "english_proficiency"),
      Field(m, "us_born_flag"),
      Field(m, "years_in_us"),
      Field(m, "difficulty_lifting_carrying"),
      Field(m, "difficulty_walking_stairs"),
      Field(m, "any_activity_limitation"),
      Field(m, "cognitive_limitation"),
      Field(m, "k6_distress_score"),
      Field(m, "hopelessness_frequency_30d"),
      Field(m, "sadness_frequency_30d")
    )
  }

  /** Each attribute of the record built from a request holds that request's value for its name. */
  lemma RequestAttributes(m: map<string, Option<real>>)
    ensures forall i :: 0 <= i < |Attributes(FromRequest(m))| ==>
      Attributes(FromRequest(m))[i].1 == Field(m, Attributes(FromRequest(m))[i].0)
  {
    var a := Attributes(FromRequest(m));
    // Three slices keep each case split small.
    forall i | 0 <= i < 12 ensures a[i].1 == Field(m, a[i].0) {}
    forall i | 12 <= i < 24 ensures a[i].1 == Field(m, a[i].0) {}
    forall i | 24 <= i < |a| ensures a[i].1 == Field(m, a[i].0) {}
  }

  /**
   * For any sparse request, the row has one entry per feature column in
   * column order: the supplied value where the request has the column,
   * and `None` (never 0) where it does not.
   */
  lemma RowFromRequest(m: map<string, Option<real>>)
    ensures AssembleRow(FromRequest(m)).Success?
    ensures |AssembleRow(FromRequest(m)).value| == |FEATURE_COLS|
    ensures forall i :: 0 <= i < |FEATURE_COLS| && FEATURE_COLS[i] in m ==>
      AssembleRow(FromRequest(m)).value[i] == m[FEATURE_COLS[i]]
    ensures forall i :: 0 <= i < |FEATURE_COLS| && FEATURE_COLS[i] !in m ==>
      AssembleRow(FromRequest(m)).value[i] == None
  {
    var f := FromRequest(m);
    RowAssembly(f);
    FeaturesMatchColumns(f);
    RequestAttributes(m);
  }

  /** Keys that are not feature columns do not change the row. */
  lemma ExtraKeysIgnored(m: map<string, Option<real>>, key: string, v: Option<real>)
    requires key !in FEATURE_COLS
    ensures AssembleRow(FromRequest(m[key := v])) == AssembleRow(FromRequest(m))
  {
    RowFromRequest(m);
    RowFromRequest(m[key := v]);
    assert AssembleRow(FromRequest(m[key := v])).value == AssembleRow(FromRequest(m)).value;
  }

  /** The two columns `SparseRequestExample` fills; kept apart so its proof stays small. */
  lemma LeadingColumns()
    ensures FEATURE_COLS[0] == "age_years_2022" && FEATURE_COLS[1] == "gender"
  {
  }

  /**
   * A request that supplies only `age_years_2022` and `gender` still yields
   * a full row: those two values first, then thirty-five missing values.
   */
  lemma SparseRequestExample(age: real, gender: real)
    ensures AssembleRow(FromRequest(map["age_years_2022" := Some(age), "gender" := Some(gender)]))
         == Success([Some(age), Some(gender)] + seq(35, _ => None))
  {
    var m := map["age_years_2022" := Some(age), "gender" := Some(gender)];
    RowFromRequest(m);
    ColumnsDistinctFrom0();
    var row := AssembleRow(FromRequest(m)).value;
    var expected: seq<Option<real>> := [Some(age), Some(gender)] + seq(35, _ => None);
    LeadingColumns();
    assert row[0] == expected[0] && row[1] == expected[1];
    forall i | 2 <= i < |FEATURE_COLS| ensures row[i] == expected[i] {
      assert FEATURE_COLS[i] != FEATURE_COLS[0] && FEATURE_COLS[i] != FEATURE_COLS[1];
    }
    assert row == expected;
  }

  // ---------------------------------------------------------------------
  // neg_to_nan
  // ---------------------------------------------------------------------

  /**
   * `neg_to_nan` on array input: copies the array and marks every negative
   * entry as missing. `None` stands for NaN; an entry that is already NaN
   * stays NaN. The method has no modifies clause, so the input is unchanged.
   */
  method NegToNan(x: array<Option<real>>) returns (r: seq<Option<real>>)
    ensures |r| == x.Length
    ensures forall i :: 0 <= i < x.Length ==> (r[i] == None <==> x[i] == None || x[i].value < 0.0)
    ensures forall i :: 0 <= i < x.Length && r[i] != None ==> r[i] == x[i]
  {
    var arr := new Option<real>[x.Length];
    for i := 0 to x.Length
      invariant forall j :: 0 <= j < i ==> arr[j] == x[j]
    {
      arr[i] := x[i];
    }
    for i := 0 to arr.Length
      invariant forall j :: 0 <= j < i ==> arr[j] == (if x[j] != None && x[j].value < 0.0 then None else x[j])
      invariant forall j :: i <= j < arr.Length ==> arr[j] == x[j]
    {
      if arr[i] != None && arr[i].value < 0.0 {
        arr[i] := None;
      }
    }
    r := arr[..];
  }

  // ---------------------------------------------------------------------
  // Output coercion
  // ---------------------------------------------------------------------

  /**
   * Python's built-in `round` on a number: the nearest integer, and the
   * even one of the two when the number lies exactly halfway between.
   */
  function RoundHalfEven(x: real): (n: int)
    ensures -0.5 <= x - n as real <= 0.5
    ensures (x - n as real == 0.5 || n as real - x == 0.5) ==> n % 2 == 0
  {
    var f := x.Floor;
    var d := x - f as real;
    if d < 0.5 then f
    else if d > 0.5 then f + 1
    else if f % 2 == 0 then f
    else f + 1
  }

  /** The two properties above determine the rounded value uniquely. */
  lemma RoundUnique(x: real, m: int)
    requires -0.5 <= x - m as real <= 0.5
    requires (x - m as real == 0.5 || m as real - x == 0.5) ==> m % 2 == 0
    ensures m == RoundHalfEven(x)
  {
  }

  /** Rounding never decreases as its argument grows. */
  lemma RoundMonotone(x: real, y: real)
    requires x <= y
    ensures RoundHalfEven(x) <= RoundHalfEven(y)
  {
  }

  /** `max(0, int(round(x)))`: the served count for a raw pipeline output `x`. */
  function Coerce(x: real): (n: nat)
    ensures n == 0 <==> x <= 0.5
    ensures x > 0.5 ==> n == RoundHalfEven(x)
    ensures x >= -0.5 ==> -0.5 <= x - n as real <= 0.5
  {
    var r := RoundHalfEven(x);
    if r < 0 then 0 else r
  }

  /** Larger raw outputs never yield smaller counts. */
  lemma CoerceMonotone(x: real, y: real)
    requires x <= y
    ensures Coerce(x) <= Coerce(y)
  {
    RoundMonotone(x, y);
  }

  /** A raw output that is already a whole count is served unchanged. */
  lemma CoerceWholeCount(k: nat)
    ensures Coerce(k as real) == k
  {
    RoundUnique(k as real, k);
  }

  // ---------------------------------------------------------------------
  // Model files
  // ---------------------------------------------------------------------

  /** `repo_root / "python-models" / "models" / "v2-pkl"`. */
  function ModelsDir(repoRoot: string): string
  {
    repoRoot + "/python-models/models/v2-pkl"
  }

  /** `models_dir / f"model_{target}.pkl"`. */
  function ModelPath(dir: string, target: string): string
  {
    dir + "/model_" + target + ".pkl"
  }

  /** Different targets are read from different files. */
  lemma ModelPathInjective(dir: string, t1: string, t2: string)
    requires ModelPath(dir, t1) == ModelPath(dir, t2)
    ensures t1 == t2
  {
    Text.ConcatCancel(dir + "/model_", t1, t2, ".pkl");
  }

  // ---------------------------------------------------------------------
  // Loading the pipelines
  // ---------------------------------------------------------------------

  /** The exceptions `_load_models` raises; the first two are its own `RuntimeError`s. */
  datatype LoadError =
    | DirectoryNotFound(dir: string)
    | MissingModelFile(path: string)
    | LoadFailed(path: string, cause: string)

  /** `str(e)` of a load error: the detail the endpoints report. */
  function Message(e: LoadError): string
  {
    match e
    case DirectoryNotFound(dir) => "Models directory not found: " + dir
    case MissingModelFile(path) => "Missing model file: " + path
    case LoadFailed(_, cause) => cause
  }

  /** The loaded dictionary from target to pipeline, in insertion order. */
  type Registry<P> = seq<(string, P)>

  /** `joblib.load`: deserializes the file at a path, or fails with a message. */
  type Loader<P> = string -> Result<P, string>

  /** The model file of `target` exists and deserializes. */
  predicate Loadable<P>(fs: set<string>, dir: string, load: Loader<P>, target: string)
  {
    ModelPath(dir, target) in fs && load(ModelPath(dir, target)).Success?
  }

  /** The exception raised for a target that is not `Loadable`. */
  function TargetError<P>(fs: set<string>, dir: string, load: Loader<P>, target: string): LoadError
    requires !Loadable(fs, dir, load, target)
  {
    var path := ModelPath(dir, target);
    if path !in fs then MissingModelFile(path) else LoadFailed(path, load(path).error)
  }

  /** Loads `targets` in order; the first one that is not loadable is the one reported. */
  function LoadTargets<P>(fs: set<string>, dir: string, load: Loader<P>, targets: seq<string>): Result<Registry<P>, LoadError>
  {
    if targets == [] then Success([])
    else if !Loadable(fs, dir, load, targets[0]) then Failure(TargetError(fs, dir, load, targets[0]))
    else
      match LoadTargets(fs, dir, load, targets[1..])
      case Failure(e) => Failure(e)
      case Success(rest) => Success([(targets[0], load(ModelPath(dir, targets[0])).value)] + rest)
  }

  /** What one cold `_load_models` call yields: the directory check first, then every target. */
  function LoadAll<P>(fs: set<string>, dir: string, load: Loader<P>): Result<Registry<P>, LoadError>
  {
    if dir !in fs then Failure(DirectoryNotFound(dir))
    else LoadTargets(fs, dir, load, COUNT_TARGETS)
  }

  lemma {:induction false} LoadTargetsSuccess<P>(fs: set<string>, dir: string, load: Loader<P>, targets: seq<string>)
    ensures LoadTargets(fs, dir, load, targets).Success? <==>
      forall i :: 0 <= i < |targets| ==> Loadable(fs, dir, load, targets[i])
    ensures LoadTargets(fs, dir, load, targets).Success? ==>
      var reg := LoadTargets(fs, dir, load, targets).value;
      Keys(reg) == targets &&
      forall i :: 0 <= i < |targets| ==> load(ModelPath(dir, targets[i])) == Success(reg[i].1)
  {
    if targets != [] {
      LoadTargetsSuccess(fs, dir, load, targets[1..]);
      if LoadTargets(fs, dir, load, targets).Success? {
        var reg := LoadTargets(fs, dir, load, targets).value;
        assert reg[1..] == LoadTargets(fs, dir, load, targets[1..]).value;
        forall i | 1 <= i < |targets| ensures load(ModelPath(dir, targets[i])) == Success(reg[i].1) {
          assert reg[i] == reg[1..][i - 1];
        }
      } else if Loadable(fs, dir, load, targets[0]) {
        var j :| 0 <= j < |targets| - 1 && !Loadable(fs, dir, load, targets[1..][j]);
        assert !Loadable(fs, dir, load, targets[j + 1]);
      }
    }
  }

  lemma {:induction false} LoadTargetsFirstFailure<P>(fs: set<string>, dir: string, load: Loader<P>, targets: seq<string>, k: nat)
    requires k < |targets|
    requires forall j :: 0 <= j < k ==> Loadable(fs, dir, load, targets[j])
    requires !Loadable(fs, dir, load, targets[k])
    ensures LoadTargets(fs, dir, load, targets) == Failure(TargetError(fs, dir, load, targets[k]))
  {
    if k > 0 {
      LoadTargetsFirstFailure(fs, dir, load, targets[1..], k - 1);
    }
  }

  /**
   * A cold load succeeds exactly when the directory exists and every
   * target's file exists and deserializes; the dictionary it publishes has
   * exactly the targets as keys, in `COUNT_TARGETS` order, each bound to
   * what was loaded from that target's own model file.
   */
  lemma LoadAllSuccess<P>(fs: set<string>, dir: string, load: Loader<P>)
    ensures LoadAll(fs, dir, load).Success? <==>
      dir in fs && forall t :: t in COUNT_TARGETS ==> Loadable(fs, dir, load, t)
    ensures LoadAll(fs, dir, load).Success? ==>
      var reg := LoadAll(fs, dir, load).value;
      Keys(reg) == COUNT_TARGETS &&
      forall i :: 0 <= i < |reg| ==> load(ModelPath(dir, COUNT_TARGETS[i])) == Success(reg[i].1)
  {
    LoadTargetsSuccess(fs, dir, load, COUNT_TARGETS);
  }

  /**
   * A cold load fails with the directory error when the directory is
   * missing (before any file is consulted); otherwise a failure names the
   * first target, in `COUNT_TARGETS` order, whose file is missing or does
   * not deserialize.
   */
  lemma LoadAllFailure<P>(fs: set<string>, dir: string, load: Loader<P>)
    ensures dir !in fs ==> LoadAll(fs, dir, load) == Failure(DirectoryNotFound(dir))
    ensures dir in fs && LoadAll(fs, dir, load).Failure? ==>
      exists k :: 0 <= k < |COUNT_TARGETS| &&
        (forall j :: 0 <= j < k ==> Loadable(fs, dir, load, COUNT_TARGETS[j])) &&
        !Loadable(fs, dir, load, COUNT_TARGETS[k]) &&
        LoadAll(fs, dir, load).error == TargetError(fs, dir, load, COUNT_TARGETS[k])
  {
    if dir in fs && LoadAll(fs, dir, load).Failure? {
      LoadTargetsSuccess(fs, dir, load, COUNT_TARGETS);
      var k := FirstUnloadable(fs, dir, load, COUNT_TARGETS);
      LoadTargetsFirstFailure(fs, dir, load, COUNT_TARGETS, k);
    }
  }

  /** The index of the first target that is not loadable. */
  function FirstUnloadable<P>(fs: set<string>, dir: string, load: Loader<P>, targets: seq<string>): (k: nat)
    requires exists i :: 0 <= i < |targets| && !Loadable(fs, dir, load, targets[i])
    ensures k < |targets| && !Loadable(fs, dir, load, targets[k])
    ensures forall j :: 0 <= j < k ==> Loadable(fs, dir, load, targets[j])
  {
    if !Loadable(fs, dir, load, targets[0]) then 0
    else
      var i :| 0 <= i < |targets| && !Loadable(fs, dir, load, targets[i]);
      assert !Loadable(fs, dir, load, targets[1..][i - 1]);
      1 + FirstUnloadable(fs, dir, load, targets[1..])
  }

  /**
   * The body of `_load_models` after the cache test: check the directory, then walk the
   * targets in order filling a local dictionary, raising at the first
   * missing or unloadable file. Nothing outside the local is written.
   */
  method ReadRegistry<P>(fs: set<string>, dir: string, load: Loader<P>) returns (r: Result<Registry<P>, LoadError>)
    ensures r == LoadAll(fs, dir, load)
  {
    if dir !in fs {
      return Failure(DirectoryNotFound(dir));
    }
    var registry: Registry<P> := [];
    for i := 0 to |COUNT_TARGETS|
      invariant |registry| == i
      invariant forall j :: 0 <= j < i ==> Loadable(fs, dir, load, COUNT_TARGETS[j])
      invariant forall j :: 0 <= j < i ==>
        registry[j] == (COUNT_TARGETS[j], load(ModelPath(dir, COUNT_TARGETS[j])).value)
    {
      var target := COUNT_TARGETS[i];
      var path := ModelPath(dir, target);
      if path !in fs {
        LoadTargetsFirstFailure(fs, dir, load, COUNT_TARGETS, i);
        return Failure(MissingModelFile(path));
      }
      var loaded := load(path);
      if loaded.Failure? {
        LoadTargetsFirstFailure(fs, dir, load, COUNT_TARGETS, i);
        return Failure(LoadFailed(path, loaded.error));
      }
      registry := registry + [(target, loaded.value)];
    }
    LoadTargetsSuccess(fs, dir, load, COUNT_TARGETS);
    r := Success(registry);
    assert registry == LoadAll(fs, dir, load).value;
  }

  // ---------------------------------------------------------------------
  // Running the pipelines
  // ---------------------------------------------------------------------

  /** `float(pipe.predict(X)[0])` for a one-row frame `X`: a raw number, or a failure message. */
  type Runner<!P> = (P, seq<Option<real>>) -> Result<real, string>

  /** The served counts, from target to count, in insertion order. */
  type Outputs = seq<(string, nat)>

  /** Runs every pipeline on the row in dictionary order; the first failure aborts the whole run. */
  function RunAll<P>(models: Registry<P>, row: seq<Option<real>>, run: Runner<P>): Result<Outputs, string>
  {
    if models == [] then Success([])
    else
      match run(models[0].1, row)
      case Failure(e) => Failure(e)
      case Success(raw) =>
        match RunAll(models[1..], row, run)
        case Failure(e) => Failure(e)
        case Success(rest) => Success([(models[0].0, Coerce(raw))] + rest)
  }

  /**
   * All or nothing: the run succeeds exactly when every pipeline does, and
   * then holds one count per loaded target, in the same order, each the
   * coerced output of that target's pipeline.
   */
  lemma {:induction false} RunAllSuccess<P>(models: Registry<P>, row: seq<Option<real>>, run: Runner<P>)
    ensures RunAll(models, row, run).Success? <==>
      forall i :: 0 <= i < |models| ==> run(models[i].1, row).Success?
    ensures RunAll(models, row, run).Success? ==>
      var out := RunAll(models, row, run).value;
      Keys(out) == Keys(models) &&
      forall i :: 0 <= i < |out| ==> out[i].1 == Coerce(run(models[i].1, row).value)
  {
    if models != [] {
      RunAllSuccess(models[1..], row, run);
      if RunAll(models, row, run).Success? {
        var out := RunAll(models, row, run).value;
        assert out[1..] == RunAll(models[1..], row, run).value;
        forall i | 1 <= i < |out| ensures out[i] == (models[i].0, Coerce(run(models[i].1, row).value)) {
          assert out[i] == out[1..][i - 1];
          assert models[i] == models[1..][i - 1];
        }
      } else if run(models[0].1, row).Success? {
        var j :| 0 <= j < |models| - 1 && !run(models[1..][j].1, row).Success?;
        assert !run(models[j + 1].1, row).Success?;
      }
    }
  }

  /** A failed run reports the failure of the first pipeline, in dictionary order, that fails. */
  lemma {:induction false} RunAllFirstFailure<P>(models: Registry<P>, row: seq<Option<real>>, run: Runner<P>, k: nat)
    requires k < |models|
    requires forall j :: 0 <= j < k ==> run(models[j].1, row).Success?
    requires run(models[k].1, row).Failure?
    ensures RunAll(models, row, run) == Failure(run(models[k].1, row).error)
  {
    if k > 0 {
      RunAllFirstFailure(models[1..], row, run, k - 1);
    }
  }

  /**
   * The outputs loop of `predict`: fills the outputs dictionary one
   * target at a time and raises at the first pipeline failure.
   */
  method RunPipelines<P>(models: Registry<P>, row: seq<Option<real>>, run: Runner<P>) returns (r: Result<Outputs, string>)
    ensures r == RunAll(models, row, run)
  {
    var outputs: Outputs := [];
    for i := 0 to |models|
      invariant |outputs| == i
      invariant forall j :: 0 <= j < i ==> run(models[j].1, row).Success?
      invariant forall j :: 0 <= j < i ==>
        outputs[j] == (models[j].0, Coerce(run(models[j].1, row).value))
    {
      var (target, pipe) := models[i];
      var predValue := run(pipe, row);
      if predValue.Failure? {
        RunAllFirstFailure(models, row, run, i);
        return Failure(predValue.error);
      }
      outputs := outputs + [(target, Coerce(predValue.value))];
    }
    RunAllSuccess(models, row, run);
    r := Success(outputs);
    assert outputs == RunAll(models, row, run).value;
  }

  // ---------------------------------------------------------------------
  // Endpoints
  // ---------------------------------------------------------------------

  /** A response body, or the `HTTPException` raised instead of one. */
  datatype Response<T> = Ok(body: T) | HttpError(status: int, detail: string)

  /** The status code both endpoints raise on any error. */
  const INTERNAL_SERVER_ERROR: int := 500

  /** `health` given what `_load_models` yields. */
  function HealthResponse<P>(loaded: Result<Registry<P>, LoadError>): Response<map<string, string>>
  {
    match loaded
    case Success(_) => Ok(map["status" := "ok"])
    case Failure(e) => HttpError(INTERNAL_SERVER_ERROR, Message(e))
  }

  /** `predict` given what `_load_models` yields: load, assemble the row, run every pipeline. */
  function PredictResponse<P>(loaded: Result<Registry<P>, LoadError>, features: Features, run: Runner<P>): Response<Outputs>
  {
    match loaded
    case Failure(e) => HttpError(INTERNAL_SERVER_ERROR, Message(e))
    case Success(models) =>
      match AssembleRow(features)
      case Failure(e) => HttpError(INTERNAL_SERVER_ERROR, e)
      case Success(row) =>
        match RunAll(models, row, run)
        case Failure(e) => HttpError(INTERNAL_SERVER_ERROR, e)
        case Success(outputs) => Ok(outputs)
  }

  /** `health` answers "ok" exactly when a cold load succeeds, and 500 with the load error otherwise. */
  lemma HealthOkIffLoadable<P>(fs: set<string>, dir: string, load: Loader<P>)
    ensures HealthResponse(LoadAll(fs, dir, load)).Ok? <==>
      dir in fs && forall t :: t in COUNT_TARGETS ==> Loadable(fs, dir, load, t)
    ensures HealthResponse(LoadAll(fs, dir, load)).Ok? ==>
      HealthResponse(LoadAll(fs, dir, load)).body == map["status" := "ok"]
    ensures HealthResponse(LoadAll(fs, dir, load)).HttpError? ==>
      HealthResponse(LoadAll(fs, dir, load)) == HttpError(500, Message(LoadAll(fs, dir, load).error))
  {
    LoadAllSuccess(fs, dir, load);
  }

  /**
   * `predict` is all or nothing: it answers with a body exactly when the
   * pipelines are loaded and every one of them runs on the assembled row;
   * the body then has one count per loaded target, in dictionary order,
   * each `max(0, round(raw))` of that target's output. Any failure is a
   * single 500.
   */
  lemma PredictAllOrNothing<P>(loaded: Result<Registry<P>, LoadError>, features: Features, run: Runner<P>)
    ensures PredictResponse(loaded, features, run).Ok? <==>
      loaded.Success? &&
      forall i :: 0 <= i < |loaded.value| ==> run(loaded.value[i].1, Values(Attributes(features))).Success?
    ensures PredictResponse(loaded, features, run).Ok? ==>
      var out := PredictResponse(loaded, features, run).body;
      Keys(out) == Keys(loaded.value) &&
      forall i :: 0 <= i < |out| ==>
        out[i].1 == Coerce(run(loaded.value[i].1, Values(Attributes(features))).value)
    ensures PredictResponse(loaded, features, run).HttpError? ==>
      PredictResponse(loaded, features, run).status == 500
    ensures loaded.Failure? ==>
      PredictResponse(loaded, features, run) == HttpError(500, Message(loaded.error)) &&
      HealthResponse(loaded) == HttpError(500, Message(loaded.error))
  {
    RowAssembly(features);
    if loaded.Success? {
      RunAllSuccess(loaded.value, Values(Attributes(features)), run);
    }
  }

  /**
   * After a cold load, `predict` succeeds exactly when the models
   * directory is there and every target's model file loads and runs on the
   * row; it then serves every target of `COUNT_TARGETS`, in that order,
   * each from the pipeline in that target's own model file.
   */
  lemma PredictServesEveryTarget<P>(fs: set<string>, dir: string, load: Loader<P>, features: Features, run: Runner<P>)
    ensures PredictResponse(LoadAll(fs, dir, load), features, run).Ok? ==>
      var out := PredictResponse(LoadAll(fs, dir, load), features, run).body;
      dir in fs &&
      Keys(out) == COUNT_TARGETS &&
      forall i :: 0 <= i < |out| ==>
        var path := ModelPath(dir, COUNT_TARGETS[i]);
        path in fs && load(path).Success? &&
        run(load(path).value, Values(Attributes(features))).Success? &&
        out[i].1 == Coerce(run(load(path).value, Values(Attributes(features))).value)
    ensures (dir in fs &&
      forall i :: 0 <= i < |COUNT_TARGETS| ==>
        var path := ModelPath(dir, COUNT_TARGETS[i]);
        path in fs && load(path).Success? &&
        run(load(path).value, Values(Attributes(features))).Success?) ==>
      PredictResponse(LoadAll(fs, dir, load), features, run).Ok?
  {
    LoadAllSuccess(fs, dir, load);
    PredictAllOrNothing(LoadAll(fs, dir, load), features, run);
    if PredictResponse(LoadAll(fs, dir, load), features, run).Ok? {
      forall i | 0 <= i < |COUNT_TARGETS| ensures ModelPath(dir, COUNT_TARGETS[i]) in fs {
        assert COUNT_TARGETS[i] in COUNT_TARGETS;
      }
    }
  }

  /**
   * If any one target's model file is missing, `health` fails and `predict`
   * serves nothing, even for the targets whose files exist.
   */
  lemma MissingFileFailsBoth<P>(fs: set<string>, dir: string, load: Loader<P>, target: string, features: Features, run: Runner<P>)
    requires target in COUNT_TARGETS && ModelPath(dir, target) !in fs
    ensures HealthResponse(LoadAll(fs, dir, load)).HttpError?
    ensures PredictResponse(LoadAll(fs, dir, load), features, run).HttpError?
  {
    LoadAllSuccess(fs, dir, load);
  }

  /**
   * With the directory present but the first target's file missing, both
   * endpoints answer 500 naming that file, before any model is loaded.
   */
  lemma FirstFileMissing<P>(fs: set<string>, dir: string, load: Loader<P>, features: Features, run: Runner<P>)
    requires dir in fs && ModelPath(dir, COUNT_TARGETS[0]) !in fs
    ensures HealthResponse(LoadAll(fs, dir, load)) ==
      HttpError(500, "Missing model file: " + ModelPath(dir, COUNT_TARGETS[0]))
    ensures PredictResponse(LoadAll(fs, dir, load), features, run) ==
      HttpError(500, "Missing model file: " + ModelPath(dir, COUNT_TARGETS[0]))
  {
  }

  // ---------------------------------------------------------------------
  // The process-wide cache
  // ---------------------------------------------------------------------

  /** Published form of a load outcome: the dictionary on success, `None` on failure. */
  function Published<P>(r: Result<Registry<P>, LoadError>): Option<Registry<P>>
  {
    if r.Success? then Some(r.value) else None
  }

  /**
   * The server's global state: `_MODELS`, `None` until a load succeeds and
   * the loaded dictionary from then on. The endpoints are its methods.
   */
  class Service<P> {
    var models: Option<Registry<P>>

    /** A published dictionary holds exactly the targets of `COUNT_TARGETS`, in order. */
    ghost predicate Valid()
      reads this
    {
      models.Some? ==> Keys(models.value) == COUNT_TARGETS
    }

    constructor ()
      ensures Valid()
      ensures models == None
    {
      models := None;
    }

    /** What `_load_models` yields in the current state: the cached dictionary, or a cold load. */
    ghost function Resolve(fs: set<string>, repoRoot: string, load: Loader<P>): Result<Registry<P>, LoadError>
      reads this
    {
      match models
      case Some(reg) => Success(reg)
      case None => LoadAll(fs, ModelsDir(repoRoot), load)
    }

    /**
     * `_load_models`. A warm cache is returned as it is, without consulting
     * the file system or the loader. A cold cache is loaded in full and
     * published only on success; a failed load leaves it `None`, so the
     * next call retries. A published dictionary is never replaced.
     */
    method LoadModels(fs: set<string>, repoRoot: string, load: Loader<P>) returns (r: Result<Registry<P>, LoadError>)
      requires Valid()
      modifies this
      ensures Valid()
      ensures r == old(Resolve(fs, repoRoot, load))
      ensures r.Success? ==> Keys(r.value) == COUNT_TARGETS
      ensures models == Published(r)
      ensures old(models).Some? ==> models == old(models)
    {
      if models.Some? {
        return Success(models.value);
      }
      var dir := ModelsDir(repoRoot);
      r := ReadRegistry(fs, dir, load);
      LoadAllSuccess(fs, dir, load);
      if r.Success? {
        models := Some(r.value);
      }
    }

    /** `health`: "ok" when the models load (or are loaded), 500 with the error otherwise. */
    method Health(fs: set<string>, repoRoot: string, load: Loader<P>) returns (r: Response<map<string, string>>)
      requires Valid()
      modifies this
      ensures Valid()
      ensures r == HealthResponse(old(Resolve(fs, repoRoot, load)))
      ensures models == Published(old(Resolve(fs, repoRoot, load)))
    {
      var loaded := LoadModels(fs, repoRoot, load);
      if loaded.Failure? {
        return HttpError(INTERNAL_SERVER_ERROR, Message(loaded.error));
      }
      return Ok(map["status" := "ok"]);
    }

    /** `predict`: load, assemble the row, run every pipeline; any error is one 500. */
    method Predict(features: Features, fs: set<string>, repoRoot: string, load: Loader<P>, run: Runner<P>)
      returns (r: Response<Outputs>)
      requires Valid()
      modifies this
      ensures Valid()
      ensures r == PredictResponse(old(Resolve(fs, repoRoot, load)), features, run)
      ensures r.Ok? ==> Keys(r.body) == COUNT_TARGETS
      ensures models == Published(old(Resolve(fs, repoRoot, load)))
    {
      var loaded := LoadModels(fs, repoRoot, load);
      PredictAllOrNothing(loaded, features, run);
      if loaded.Failure? {
        return HttpError(INTERNAL_SERVER_ERROR, Message(loaded.error));
      }
      var row := AssembleRow(features);
      if row.Failure? {
        return HttpError(INTERNAL_SERVER_ERROR, row.error);
      }
      var outputs := RunPipelines(loaded.value, row.value, run);
      if outputs.Failure? {
        return HttpError(INTERNAL_SERVER_ERROR, outputs.error);
      }
      return Ok(outputs.value);
    }
  }
}
