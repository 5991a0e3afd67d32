/**
 The overdue-leads table: a wire callback that stores the leads (each given a
 record-page URL) or an error message, and the three getters that pick which
 of the table, the error and the empty-state message is shown.
 */
module OverdueLeads {
  import opened JsValues
  import opened Wire

  const RecordUrlPrefix := "/lightning/r/Lead/"
  const RecordUrlSuffix := "/view"
  const DefaultErrorMessage := "An unexpected error occurred while loading overdue leads."

  type LeadsResult = WireResult<seq<Record>>

  datatype State = State(leads: seq<Record>, errorMessage: Value, isLoading: bool)

  const Initial: State := State([], Undefined, true)

  /** `/lightning/r/Lead/${id}/view` */
  function RecordUrl(id: Value): (url: string)
    ensures |url| >= |RecordUrlPrefix| + |RecordUrlSuffix|
    ensures url[..|RecordUrlPrefix|] == RecordUrlPrefix
    ensures url[|url| - |RecordUrlSuffix|..] == RecordUrlSuffix
    ensures url[|RecordUrlPrefix|..|url| - |RecordUrlSuffix|] == TemplateString(id)
  {
    RecordUrlPrefix + TemplateString(id) + RecordUrlSuffix
  }

  /** Reads the record id back out of a lead record URL. */
  function ParseRecordUrl(url: string): (id: Option<string>) {
    if |url| < |RecordUrlPrefix| + |RecordUrlSuffix| then None
    else if url[..|RecordUrlPrefix|] != RecordUrlPrefix then None
    else if url[|url| - |RecordUrlSuffix|..] != RecordUrlSuffix then None
    else Some(url[|RecordUrlPrefix|..|url| - |RecordUrlSuffix|])
  }

  /** `{ ...lead, recordUrl: … }` */
  function WithRecordUrl(lead: Record): (r: Record)
    ensures r.Keys == lead.Keys + {"recordUrl"}
    ensures forall k :: k in lead && k != "recordUrl" ==> r[k] == lead[k]
    ensures r["recordUrl"].Str? && ParseRecordUrl(r["recordUrl"].s) == Some(TemplateString(Field(lead, "Id")))
  {
    var url := RecordUrl(Field(lead, "Id"));
    RecordUrlRoundTrip(Field(lead, "Id"));
    lead["recordUrl" := Str(url)]
  }

  /** The message an error callback stores: `error?.body?.message || <default>`. */
  function ErrorText(error: Value): (m: Value)
    ensures Truthy(m)
    ensures Truthy(BodyMessage(error)) ==> m == BodyMessage(error)
    ensures !Truthy(BodyMessage(error)) ==> m == Str(DefaultErrorMessage)
  {
    Or(BodyMessage(error), Str(DefaultErrorMessage))
  }

  function WiredLeads(s: State, r: LeadsResult): (s': State)
    ensures !s'.isLoading
    ensures r.data.Some? ==>
      && |s'.leads| == |r.data.value|
      && (forall i :: 0 <= i < |s'.leads| ==>
            && s'.leads[i].Keys == r.data.value[i].Keys + {"recordUrl"}
            && (forall k :: k in r.data.value[i] && k != "recordUrl" ==> s'.leads[i][k] == r.data.value[i][k])
            && s'.leads[i]["recordUrl"] == Str(RecordUrlPrefix + TemplateString(Field(r.data.value[i], "Id")) + RecordUrlSuffix))
      && s'.errorMessage == Undefined
    ensures r.data.None? && Truthy(r.error) ==>
      && s'.leads == []
      && Truthy(s'.errorMessage)
      && (Truthy(BodyMessage(r.error)) ==> s'.errorMessage == BodyMessage(r.error))
      && (!Truthy(BodyMessage(r.error)) ==> s'.errorMessage == Str(DefaultErrorMessage))
    ensures r.data.None? && !Truthy(r.error) ==> s' == s.(isLoading := false)
  {
    var s1 := s.(isLoading := false);
    match r.data
    case Some(leads) =>
      s1.(leads := seq(|leads|, i requires 0 <= i < |leads| => WithRecordUrl(leads[i])), errorMessage := Undefined)
    case None =>
      if Truthy(r.error) then s1.(leads := [], errorMessage := ErrorText(r.error)) else s1
  }

  /** The state after the callbacks `rs`, delivered in order. */
  function Run(s: State, rs: seq<LeadsResult>): (s': State)
    decreases |rs|
  {
    if rs == [] then s else Run(WiredLeads(s, rs[0]), rs[1..])
  }

  // Getters

  predicate HasLeads(s: State) {
    |s.leads| > 0
  }

  predicate HasNoLeads(s: State) {
    !s.isLoading && !Truthy(s.errorMessage) && |s.leads| == 0
  }

  /** `!!this.errorMessage` */
  predicate HasError(s: State) {
    Truthy(s.errorMessage)
  }

  /** Exactly one of the table, the error and the empty-state message is shown. */
  predicate ExactlyOneView(s: State) {
    && (HasLeads(s) ==> !HasError(s) && !HasNoLeads(s))
    && (HasError(s) ==> !HasLeads(s) && !HasNoLeads(s))
    && (HasNoLeads(s) ==> !HasLeads(s) && !HasError(s))
    && (HasLeads(s) || HasError(s) || HasNoLeads(s))
  }

  /** What every callback leaves behind: loading is over, and an error message never sits beside leads. */
  predicate Settled(s: State) {
    !s.isLoading && (Truthy(s.errorMessage) ==> s.leads == [])
  }

  // Properties

  lemma RecordUrlRoundTrip(id: Value)
    ensures ParseRecordUrl(RecordUrl(id)) == Some(TemplateString(id))
    ensures id.Str? ==> ParseRecordUrl(RecordUrl(id)) == Some(id.s)
  {
  }

  /** Distinct record ids (as strings) give distinct links. */
  lemma RecordUrlInjective(a: Value, b: Value)
    requires RecordUrl(a) == RecordUrl(b)
    ensures TemplateString(a) == TemplateString(b)
  {
    RecordUrlRoundTrip(a);
    RecordUrlRoundTrip(b);
  }

  lemma NoLeadsExcludesOthers(s: State)
    ensures HasNoLeads(s) ==> !HasLeads(s) && !HasError(s) && !s.isLoading
  {
  }

  /** A data callback, even an empty one, clears any earlier error. */
  lemma DataClearsError(s: State, leads: seq<Record>, error: Value)
    ensures !HasError(WiredLeads(s, WireResult(Some(leads), error)))
    ensures HasNoLeads(WiredLeads(s, WireResult(Some(leads), error))) <==> leads == []
  {
  }

  /** An error callback always shows an error, whatever the payload's message. */
  lemma ErrorCallbackShowsError(s: State, error: Value)
    requires Truthy(error)
    ensures HasError(WiredLeads(s, WireResult(None, error)))
    ensures !HasLeads(WiredLeads(s, WireResult(None, error)))
  {
  }

  lemma CallbackSettles(s: State, r: LeadsResult)
    requires Truthy(s.errorMessage) ==> s.leads == []
    ensures Settled(WiredLeads(s, r))
  {
  }

  lemma SettledHasOneView(s: State)
    requires Settled(s)
    ensures ExactlyOneView(s)
  {
  }

  lemma {:induction false} RunSettles(s: State, rs: seq<LeadsResult>)
    requires Truthy(s.errorMessage) ==> s.leads == []
    requires |rs| > 0
    ensures Settled(Run(s, rs))
    decreases |rs|
  {
    CallbackSettles(s, rs[0]);
    if |rs| > 1 {
      RunSettles(WiredLeads(s, rs[0]), rs[1..]);
    }
  }

  /** Before the first callback nothing but the spinner shows; after any callbacks exactly one view does. */
  lemma ExactlyOneViewAfterCallbacks(rs: seq<LeadsResult>)
    ensures rs == [] ==> !HasLeads(Run(Initial, rs)) && !HasError(Run(Initial, rs)) && !HasNoLeads(Run(Initial, rs))
    ensures rs != [] ==> ExactlyOneView(Run(Initial, rs))
  {
    if rs != [] {
      RunSettles(Initial, rs);
      SettledHasOneView(Run(Initial, rs));
    }
  }
}
