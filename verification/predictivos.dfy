/** The dropout-risk page (src/pages/PredictivosPage.jsx): the client-side
    factor filter over the predictions, the risk-score colour, the city
    fallback, and the page state, whose fetch depends on the debounced
    inactivity threshold only. */
module Predictivos {
  import opened Common

  /** The filter value that keeps every prediction. */
  const AllFactors := "Todos"
  /** The initial inactivity threshold, as the text the request carries. */
  const InitialInactivityDays := "30"
  const MissingCity := "N/D"
  const HighRiskThreshold: real := 0.75

  datatype Prediction = Prediction(
    studentId: int,
    studentName: string,
    courseName: string,
    city: Option<string>,
    riskScore: real,
    mainFactor: string)

  /** The `/predictivos/` response body; the chart series are not modelled. */
  datatype PredictivosData = PredictivosData(kpis: seq<Kpi>, predictions: seq<Prediction>)

  /** `GET /predictivos/?inactivity_days=...`: the only parameter sent. */
  datatype Request = Request(inactivityDays: string)

  // ---------------------------------------------------------------- filter

  /** The predicate `filteredStudents` passes to `Array.filter`. */
  function Keeps(filter: string, p: Prediction): (kept: bool)
    ensures filter == AllFactors ==> kept
    ensures filter != AllFactors ==> (kept <==> p.mainFactor == filter)
  {
    filter == AllFactors || p.mainFactor == filter
  }

  /** `predicciones.filter(...)`: the kept predictions, in their order. */
  function FilterStudents(predictions: seq<Prediction>, filter: string): (r: seq<Prediction>)
    ensures |r| <= |predictions|
    ensures forall p :: p in r ==> p in predictions && Keeps(filter, p)
    decreases |predictions|
  {
    if predictions == [] then []
    else (if Keeps(filter, predictions[0]) then [predictions[0]] else [])
         + FilterStudents(predictions[1..], filter)
  }

  /** `sub` is `s` with some elements deleted, the rest kept in order. */
  predicate IsSubsequence<T(==)>(sub: seq<T>, s: seq<T>)
    decreases |s|
  {
    if sub == [] then true
    else if s == [] then false
    else IsSubsequence(sub, s[1..]) || (sub[0] == s[0] && IsSubsequence(sub[1..], s[1..]))
  }

  /** "Todos" keeps every prediction. */
  lemma {:induction false} FilterAllKeepsEverything(predictions: seq<Prediction>)
    ensures FilterStudents(predictions, AllFactors) == predictions
    decreases |predictions|
  {
    if predictions != [] {
      FilterAllKeepsEverything(predictions[1..]);
      assert predictions == [predictions[0]] + predictions[1..];
    }
  }

  /** Any other filter keeps exactly the predictions whose main factor is the
      filter: each one as often as it occurs, the others never. */
  lemma {:induction false} FilterCountsOccurrences(predictions: seq<Prediction>, filter: string, p: Prediction)
    ensures multiset(FilterStudents(predictions, filter))[p] ==
            if Keeps(filter, p) then multiset(predictions)[p] else 0
    decreases |predictions|
  {
    if predictions != [] {
      FilterCountsOccurrences(predictions[1..], filter, p);
      assert predictions == [predictions[0]] + predictions[1..];
    }
  }

  /** The filtered list is the original with some rows deleted, order kept. */
  lemma {:induction false} FilterIsSubsequence(predictions: seq<Prediction>, filter: string)
    ensures IsSubsequence(FilterStudents(predictions, filter), predictions)
    decreases |predictions|
  {
    if predictions != [] {
      var tail := FilterStudents(predictions[1..], filter);
      FilterIsSubsequence(predictions[1..], filter);
      var r := FilterStudents(predictions, filter);
      if Keeps(filter, predictions[0]) {
        assert r == [predictions[0]] + tail;
        assert r[0] == predictions[0] && r[1..] == tail;
      } else {
        assert r == tail;
      }
    }
  }

  /** Filtering twice by the same factor changes nothing more. */
  lemma {:induction false} FilterIdempotent(predictions: seq<Prediction>, filter: string)
    ensures FilterStudents(FilterStudents(predictions, filter), filter) == FilterStudents(predictions, filter)
    decreases |predictions|
  {
    if predictions != [] {
      var tail := FilterStudents(predictions[1..], filter);
      FilterIdempotent(predictions[1..], filter);
      if Keeps(filter, predictions[0]) {
        var r := [predictions[0]] + tail;
        assert r[0] == predictions[0] && r[1..] == tail;
        assert FilterStudents(predictions, filter) == r;
        assert FilterStudents(r, filter) == [r[0]] + FilterStudents(r[1..], filter);
      } else {
        assert FilterStudents(predictions, filter) == tail;
      }
    }
  }

  // ---------------------------------------------------------------- cells

  datatype ScoreColour = Red | Yellow

  /** The colour of a risk score: red strictly above the threshold. */
  function RiskColour(riskScore: real): (c: ScoreColour)
    ensures c == Red <==> riskScore > HighRiskThreshold
  {
    if riskScore > HighRiskThreshold then Red else Yellow
  }

  /** A higher score is never shown in a milder colour. */
  lemma RiskColourMonotone(a: real, b: real)
    requires a <= b && RiskColour(a) == Red
    ensures RiskColour(b) == Red
  {
  }

  /** `student.city || 'N/D'`: a missing or empty city reads "N/D". */
  function CityLabel(city: Option<string>): (shown: string)
    ensures shown != ""
    ensures Truthy(city) ==> shown == city.value
    ensures !Truthy(city) ==> shown == MissingCity
  {
    if Truthy(city) then city.value else MissingCity
  }

  // ---------------------------------------------------------------- state

  datatype Screen = LoadingScreen | NoDataScreen | RiskTable(rows: seq<Prediction>)

  /** What the page renders: loading text during any fetch, a no-data text
      before the first success, otherwise the filtered table. */
  function ScreenFor(loading: bool, data: Option<PredictivosData>, filter: string): (s: Screen)
    ensures s == LoadingScreen <==> loading
    ensures s == NoDataScreen <==> !loading && data.None?
    ensures s.RiskTable? ==> data.Some? && s.rows == FilterStudents(data.value.predictions, filter)
  {
    if loading then LoadingScreen
    else if data.None? then NoDataScreen
    else RiskTable(FilterStudents(data.value.predictions, filter))
  }

  /** The state of one mounted `PredictivosPage`. */
  class PredictivosController {
    var pageData: Option<PredictivosData>
    var loading: bool
    var filter: string
    var inactivityDays: string
    var debouncedInactivityDays: string

    /** The dependency list of `fetchData`. */
    function FetchKey(): string
      reads this
    {
      debouncedInactivityDays
    }

    function CurrentScreen(): Screen
      reads this
    {
      ScreenFor(loading, pageData, filter)
    }

    constructor ()
      ensures pageData.None? && loading
      ensures filter == AllFactors && inactivityDays == InitialInactivityDays
      ensures FetchKey() == InitialInactivityDays
    {
      pageData := None;
      loading := true;
      filter := AllFactors;
      inactivityDays := InitialInactivityDays;
      debouncedInactivityDays := InitialInactivityDays;
    }

    /** The factor select's `onChange`: rows are refiltered, nothing is fetched. */
    method SetFilter(value: string)
      modifies this`filter
      ensures filter == value
      ensures FetchKey() == old(FetchKey()) && pageData == old(pageData)
    {
      filter := value;
    }

    /** The threshold input's `onChange`. */
    method SetInactivityDays(value: string)
      modifies this`inactivityDays
      ensures inactivityDays == value
      ensures FetchKey() == old(FetchKey())
    {
      inactivityDays := value;
    }

    /** The debounce timer fires with the threshold typed last. */
    method SettleInactivityDays()
      modifies this`debouncedInactivityDays
      ensures FetchKey() == inactivityDays
    {
      debouncedInactivityDays := inactivityDays;
    }

    /** The start of `fetchData`. */
    method StartFetch() returns (req: Request)
      modifies this`loading
      ensures loading
      ensures req == Request(FetchKey())
    {
      loading := true;
      req := Request(FetchKey());
    }

    /** The end of `fetchData`: a success replaces the data, a failure keeps it;
        loading ends either way. */
    method FinishFetch(response: Response<PredictivosData>)
      modifies this`pageData, this`loading
      ensures !loading
      ensures response.Ok? ==> pageData == Some(response.data)
      ensures response.Failed? ==> pageData == old(pageData)
    {
      if response.Ok? {
        pageData := Some(response.data);
      }
      loading := false;
    }
  }
}
