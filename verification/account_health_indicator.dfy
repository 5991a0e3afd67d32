/**
 The account health badge: a wire callback that stores the whole record
 result, and the getters that turn it into a loading flag, an error flag,
 the rating, the evaluated-date text and the badge's CSS class.
 */
module AccountHealthIndicator {
  import opened JsValues
  import opened Wire

  /**
   The two field values `getFieldValue` extracts from the fetched record
   (Health_Rating__c and Health_Evaluated_Date__c); either may be null.
   */
  datatype HealthFields = HealthFields(rating: Value, evaluatedDate: Value)

  type RecordResult = WireResult<HealthFields>

  /** `_wireResult`: `None` until the first delivery. */
  type State = Option<RecordResult>

  const Initial: State := None

  const NotEvaluated := "Not yet evaluated"
  const BadgeBase := "slds-badge"
  const BadgeGood := "slds-badge slds-theme_success"
  const BadgeAverage := "slds-badge slds-theme_warning"
  const BadgeAtRisk := "slds-badge slds-theme_error"
  const BadgeClasses: set<string> := {BadgeGood, BadgeAverage, BadgeAtRisk, BadgeBase}

  /** Each delivery replaces the stored result wholesale. */
  function WiredAccount(s: State, r: RecordResult): (s': State) {
    Some(r)
  }

  /** The state after the deliveries `rs`, in order. */
  function Run(s: State, rs: seq<RecordResult>): (s': State)
    decreases |rs|
  {
    if rs == [] then s else Run(WiredAccount(s, rs[0]), rs[1..])
  }

  // Getters

  /** `!_wireResult || (!_wireResult.data && !_wireResult.error)` */
  predicate IsLoading(s: State) {
    s.None? || (!s.value.HasData() && !s.value.HasError())
  }

  /** `_wireResult && _wireResult.error`: a JavaScript value the template tests for truthiness. */
  function HasError(s: State): (e: Value) {
    if s.None? then Undefined else s.value.error
  }

  /** The rating field, or null while there is no data. */
  function HealthRating(s: State): (rating: Value)
    ensures s.None? || !s.value.HasData() ==> rating == Null
    ensures s.Some? && s.value.HasData() ==> rating == s.value.data.value.rating
  {
    if s.None? || !s.value.HasData() then Null else s.value.data.value.rating
  }

  /** The evaluated-date text; `formatDate` is the locale's `Intl.DateTimeFormat`, left uninterpreted. */
  function FormattedEvaluatedDate(s: State, formatDate: Value -> string): (text: string) {
    if s.None? || !s.value.HasData() then ""
    else
      var raw := s.value.data.value.evaluatedDate;
      if !Truthy(raw) then NotEvaluated else formatDate(raw)
  }

  /** The `switch` on the rating, compared with `===`. */
  function BadgeClass(s: State): (c: string)
    ensures c in BadgeClasses
    ensures |c| >= |BadgeBase| && c[..|BadgeBase|] == BadgeBase
  {
    var rating := HealthRating(s);
    if rating == Str("Good") then BadgeGood
    else if rating == Str("Average") then BadgeAverage
    else if rating == Str("At Risk") then BadgeAtRisk
    else BadgeBase
  }

  // Properties

  /** The badge table, in both directions: each themed class stands for exactly one rating. */
  lemma BadgeClassTable(s: State)
    ensures BadgeClass(s) == BadgeGood <==> HealthRating(s) == Str("Good")
    ensures BadgeClass(s) == BadgeAverage <==> HealthRating(s) == Str("Average")
    ensures BadgeClass(s) == BadgeAtRisk <==> HealthRating(s) == Str("At Risk")
    ensures BadgeClass(s) == BadgeBase <==>
              HealthRating(s) !in {Str("Good"), Str("Average"), Str("At Risk")}
  {
  }

  /** An error that has arrived means the badge is not loading. */
  lemma ErrorExcludesLoading(s: State)
    ensures Truthy(HasError(s)) ==> !IsLoading(s)
    ensures !IsLoading(s) ==> s.Some? && (Truthy(HasError(s)) || s.value.HasData())
  {
  }

  /** While loading, or with an error and no data, every data-derived getter shows its empty form. */
  lemma NoDataViews(s: State, formatDate: Value -> string)
    requires s.None? || !s.value.HasData()
    ensures HealthRating(s) == Null
    ensures BadgeClass(s) == BadgeBase
    ensures FormattedEvaluatedDate(s, formatDate) == ""
  {
  }

  /** Loading is exactly "no data yet and no error yet", seen through the other getters. */
  lemma LoadingIff(s: State)
    ensures IsLoading(s) <==> !Truthy(HasError(s)) && (s.None? || !s.value.HasData())
  {
  }

  /**
   With a locale formatter that never yields the empty text or the placeholder, the
   date text tells the three cases apart: "" for no data, the placeholder for a falsy date.
   */
  lemma EvaluatedDateCases(s: State, formatDate: Value -> string)
    requires forall v :: formatDate(v) != "" && formatDate(v) != NotEvaluated
    ensures FormattedEvaluatedDate(s, formatDate) == "" <==> s.None? || !s.value.HasData()
    ensures FormattedEvaluatedDate(s, formatDate) == NotEvaluated <==>
              s.Some? && s.value.HasData() && !Truthy(s.value.data.value.evaluatedDate)
  {
  }

  /** Only the latest delivery matters: earlier results leave no trace. */
  lemma {:induction false} RunKeepsLast(s: State, rs: seq<RecordResult>)
    requires |rs| > 0
    ensures Run(s, rs) == Some(rs[|rs| - 1])
    decreases |rs|
  {
    if |rs| > 1 {
      RunKeepsLast(WiredAccount(s, rs[0]), rs[1..]);
    }
  }

  /** Unlike the other two components, a delivery with neither data nor error puts the badge back into loading. */
  lemma EmptyDeliveryReloads(s: State, rs: seq<RecordResult>)
    requires |rs| > 0
    requires !rs[|rs| - 1].HasData() && !rs[|rs| - 1].HasError()
    ensures IsLoading(Run(s, rs))
    ensures BadgeClass(Run(s, rs)) == BadgeBase
  {
    RunKeepsLast(s, rs);
  }
}
