/**
 The account list picks its error text with `??` and the leads table with `||`.
 The two agree on a truthy message and both fall back to their own default on a
 missing one; they part ways on a present but falsy message (`""`, `0`, `false`),
 which the account list stores and then does not show.
 */
module ErrorMessages {
  import opened JsValues
  import opened Wire
  import MyAccounts
  import OverdueLeads

  /** An error payload whose body carries an empty message. */
  const EmptyMessageError: Value := Obj(map["body" := Obj(map["message" := Str("")])])

  /** The account list keeps the payload's own message exactly when it is not nullish. */
  lemma AccountsKeepMessageIff(error: Value)
    ensures MyAccounts.ErrorText(error) == BodyMessage(error) <==> !IsNullish(BodyMessage(error))
  {
  }

  /** The leads table keeps the payload's own message exactly when it is truthy. */
  lemma LeadsKeepMessageIff(error: Value)
    ensures OverdueLeads.ErrorText(error) == BodyMessage(error) <==> Truthy(BodyMessage(error))
  {
  }

  /** On an empty message the account list ends up showing no error, while the leads table shows its default. */
  lemma EmptyMessageContrast(a: MyAccounts.State, l: OverdueLeads.State, locale: MyAccounts.Locale)
    ensures var a' := MyAccounts.WiredAccounts(a, WireResult(None, EmptyMessageError), locale);
            a'.errorMessage == Str("") && !MyAccounts.HasError(a')
    ensures var l' := OverdueLeads.WiredLeads(l, WireResult(None, EmptyMessageError));
            l'.errorMessage == Str(OverdueLeads.DefaultErrorMessage) && OverdueLeads.HasError(l')
  {
  }
}
