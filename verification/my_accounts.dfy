/**
 The account-list card: a wire callback that stores a page of accounts (each
 enriched with avatar, revenue and rating display fields), the getters the
 template reads, and the footer line "Showing n of total Accounts".
 */
module MyAccounts {
  import opened JsValues
  import opened Wire
  import Decimal

  /** Deterministic avatar palette, indexed by the letter's char code modulo its length. */
  const AvatarColors: seq<string> :=
    ["#1589ee", "#9c27b0", "#e91e63", "#ff5722", "#4caf50", "#00bcd4", "#ff9800", "#795548"]

  /** Rating picklist value to CSS class. */
  const RatingClassMap: map<string, string> :=
    map["Hot" := "rating-hot", "Warm" := "rating-warm", "Cold" := "rating-cold"]

  const DefaultRatingClass := "rating-default"
  const RatingClasses: set<string> := {"rating-hot", "rating-warm", "rating-cold", DefaultRatingClass}
  const MissingNameLetter := '?'
  const AvatarStylePrefix := "background-color: "
  const NoRevenue := "--"
  const DefaultErrorMessage := "An error occurred while loading accounts."

  /** The display fields enrichment adds to (or overwrites in) every account record. */
  const AddedKeys: set<string> := {"avatarLetter", "avatarStyle", "formattedRevenue", "ratingClass", "isHot"}

  /**
   Locale-dependent library calls the component makes, left uninterpreted:
   `String.prototype.toUpperCase` on one character, and the en-US USD
   `Intl.NumberFormat` applied to a non-nullish revenue.
   */
  datatype Locale = Locale(toUpperCase: char -> char, formatUsd: Value -> string)

  /** The `data` of a successful fetch: one page of accounts and the org-wide count. */
  datatype AccountsPage = AccountsPage(totalCount: Value, accounts: seq<Record>)

  type AccountsResult = WireResult<AccountsPage>

  /** The component's reactive fields (`displayCount` is only a fetch parameter and `title` only header text; neither plays a part). */
  datatype State = State(accounts: seq<Record>, totalCount: Value, isLoading: bool, errorMessage: Value)

  const Initial: State := State([], Num(0), true, Str(""))

  /**
   The source reads `Name.charAt(0)` whenever `Name` is truthy and uses `Rating`
   as a property key, so a truthy `Name` must be a string and `Rating` a primitive.
   */
  predicate WellTypedAccount(acc: Record) {
    && (Truthy(Field(acc, "Name")) ==> Field(acc, "Name").Str?)
    && IsPrimitive(Field(acc, "Rating"))
  }

  predicate WellTypedPage(p: AccountsPage) {
    forall i :: 0 <= i < |p.accounts| ==> WellTypedAccount(p.accounts[i])
  }

  predicate WellTypedResult(r: AccountsResult) {
    r.data.Some? ==> WellTypedPage(r.data.value)
  }

  // Enrichment

  function AvatarLetter(name: Value, locale: Locale): (c: char)
    requires Truthy(name) ==> name.Str?
  {
    if Truthy(name) then locale.toUpperCase(name.s[0]) else MissingNameLetter
  }

  function ColorIndex(letter: char): (i: nat)
    ensures i < |AvatarColors|
  {
    letter as int % |AvatarColors|
  }

  function AvatarStyle(letter: char): (style: string) {
    AvatarStylePrefix + AvatarColors[ColorIndex(letter)]
  }

  /** The `value == null` branch of the currency formatter; other values go to the locale formatter. */
  function FormatCurrency(value: Value, locale: Locale): (text: string) {
    if IsNullish(value) then NoRevenue else locale.formatUsd(value)
  }

  /** `RATING_CLASS_MAP[rating] ?? 'rating-default'`; a non-string primitive never coerces to a map key. */
  function RatingClass(rating: Value): (c: string)
    requires IsPrimitive(rating)
    ensures c in RatingClasses
  {
    if rating.Str? && rating.s in RatingClassMap then RatingClassMap[rating.s] else DefaultRatingClass
  }

  /** The shape every account has once it has been through enrichment. */
  predicate IsEnriched(r: Record) {
    && "avatarLetter" in r && r["avatarLetter"].Str? && |r["avatarLetter"].s| == 1
    && "avatarStyle" in r && r["avatarStyle"] == Str(AvatarStyle(r["avatarLetter"].s[0]))
    && "formattedRevenue" in r && r["formattedRevenue"].Str?
    && "ratingClass" in r && r["ratingClass"].Str? && r["ratingClass"].s in RatingClasses
    && "isHot" in r && r["isHot"].Bool?
    && (r["isHot"].b <==> r["ratingClass"].s == "rating-hot")
  }

  /** `{ ...orig, <added keys> }`: every original field outside the added keys survives unchanged. */
  predicate KeepsFields(orig: Record, r: Record) {
    && r.Keys == orig.Keys + AddedKeys
    && forall k :: k in orig && k !in AddedKeys ==> r[k] == orig[k]
  }

  function EnrichAccount(acc: Record, locale: Locale): (r: Record)
    requires WellTypedAccount(acc)
    ensures KeepsFields(acc, r)
    ensures IsEnriched(r)
    ensures !Truthy(Field(acc, "Name")) ==> r["avatarLetter"] == Str([MissingNameLetter])
    ensures Truthy(Field(acc, "Name")) ==> r["avatarLetter"] == Str([locale.toUpperCase(Field(acc, "Name").s[0])])
    ensures IsNullish(Field(acc, "AnnualRevenue")) ==> r["formattedRevenue"] == Str(NoRevenue)
    ensures !IsNullish(Field(acc, "AnnualRevenue")) ==>
              r["formattedRevenue"] == Str(locale.formatUsd(Field(acc, "AnnualRevenue")))
    ensures r["ratingClass"] == Str(RatingClass(Field(acc, "Rating")))
    ensures r["isHot"] == Bool(Field(acc, "Rating") == Str("Hot"))
  {
    var letter := AvatarLetter(Field(acc, "Name"), locale);
    var rating := Field(acc, "Rating");
    acc + map[
      "avatarLetter" := Str([letter]),
      "avatarStyle" := Str(AvatarStyle(letter)),
      "formattedRevenue" := Str(FormatCurrency(Field(acc, "AnnualRevenue"), locale)),
      "ratingClass" := Str(RatingClass(rating)),
      "isHot" := Bool(rating == Str("Hot"))
    ]
  }

  /** `accounts.map(acc => this._enrichAccount(acc))` */
  function EnrichAll(accs: seq<Record>, locale: Locale): (r: seq<Record>)
    requires forall i :: 0 <= i < |accs| ==> WellTypedAccount(accs[i])
    ensures |r| == |accs|
    ensures forall i :: 0 <= i < |r| ==> r[i] == EnrichAccount(accs[i], locale)
  {
    seq(|accs|, i requires 0 <= i < |accs| => EnrichAccount(accs[i], locale))
  }

  // Wire callback

  /** The message an error callback stores: `error.body?.message ?? <default>`. */
  function ErrorText(error: Value): (m: Value)
    ensures !IsNullish(m)
    ensures !IsNullish(BodyMessage(error)) ==> m == BodyMessage(error)
    ensures IsNullish(BodyMessage(error)) ==> m == Str(DefaultErrorMessage)
  {
    Coalesce(BodyMessage(error), Str(DefaultErrorMessage))
  }

  function WiredAccounts(s: State, r: AccountsResult, locale: Locale): (s': State)
    requires WellTypedResult(r)
    ensures !s'.isLoading
    ensures r.data.Some? ==>
      && |s'.accounts| == |r.data.value.accounts|
      && s'.totalCount == r.data.value.totalCount
      && s'.errorMessage == s.errorMessage
      && s'.accounts == EnrichAll(r.data.value.accounts, locale)
      && forall i :: 0 <= i < |s'.accounts| ==>
           IsEnriched(s'.accounts[i]) && KeepsFields(r.data.value.accounts[i], s'.accounts[i])
    ensures r.data.None? && Truthy(r.error) ==>
      && s'.accounts == s.accounts
      && s'.totalCount == s.totalCount
      && (IsNullish(BodyMessage(r.error)) ==> s'.errorMessage == Str(DefaultErrorMessage))
      && (!IsNullish(BodyMessage(r.error)) ==> s'.errorMessage == BodyMessage(r.error))
    ensures r.data.None? && !Truthy(r.error) ==> s' == s.(isLoading := false)
  {
    var s1 := s.(isLoading := false);
    match r.data
    case Some(page) => s1.(totalCount := page.totalCount, accounts := EnrichAll(page.accounts, locale))
    case None => if Truthy(r.error) then s1.(errorMessage := ErrorText(r.error)) else s1
  }

  // Getters

  predicate HasAccounts(s: State) {
    |s.accounts| > 0
  }

  /** `!!this.errorMessage` */
  predicate HasError(s: State) {
    Truthy(s.errorMessage)
  }

  const ShowingPrefix := "Showing "
  const OfSeparator := " of "
  const AccountsSuffix := " Accounts"

  function FooterText(s: State): (t: string)
    ensures |t| > |ShowingPrefix| + |AccountsSuffix|
    ensures t[..|ShowingPrefix|] == ShowingPrefix
    ensures t[|t| - |AccountsSuffix|..] == AccountsSuffix
  {
    ShowingPrefix + TemplateString(Num(|s.accounts|)) + OfSeparator + TemplateString(s.totalCount) + AccountsSuffix
  }

  /** Reads back the shown count and the printed total from a footer line. */
  function ParseFooter(t: string): (parsed: Option<(nat, string)>) {
    if |t| < |ShowingPrefix| || t[..|ShowingPrefix|] != ShowingPrefix then None
    else
      var rest := t[|ShowingPrefix|..];
      var k := Decimal.DigitRun(rest);
      var after := rest[k..];
      if k == 0 || |after| < |OfSeparator| + |AccountsSuffix| then None
      else if k > 1 && rest[0] == '0' then None
      else if after[..|OfSeparator|] != OfSeparator then None
      else if after[|after| - |AccountsSuffix|..] != AccountsSuffix then None
      else Some((Decimal.ParseDigits(rest[..k]), after[|OfSeparator|..|after| - |AccountsSuffix|]))
  }

  // Sequences of callbacks

  predicate AllWellTyped(rs: seq<AccountsResult>) {
    forall i :: 0 <= i < |rs| ==> WellTypedResult(rs[i])
  }

  /** The state after the callbacks `rs`, delivered in order. */
  function Run(s: State, rs: seq<AccountsResult>, locale: Locale): (s': State)
    requires AllWellTyped(rs)
    decreases |rs|
  {
    if rs == [] then s else Run(WiredAccounts(s, rs[0], locale), rs[1..], locale)
  }

  /** The page of the last callback that carried data, if any. */
  function LastPage(rs: seq<AccountsResult>): (p: Option<AccountsPage>)
    ensures p.Some? ==> exists i :: 0 <= i < |rs| && rs[i].data == p && forall j :: i < j < |rs| ==> rs[j].data.None?
    ensures p.Some? && AllWellTyped(rs) ==> WellTypedPage(p.value)
    ensures rs != [] && rs[|rs| - 1].data.Some? ==> p == rs[|rs| - 1].data
    ensures p.None? ==> forall i :: 0 <= i < |rs| ==> rs[i].data.None?
    decreases |rs|
  {
    if rs == [] then None
    else match rs[|rs| - 1].data
      case Some(p) => Some(p)
      case None => LastPage(rs[..|rs| - 1])
  }

  predicate ClearsNoError(r: AccountsResult) {
    r.data.Some? || !Truthy(r.error)
  }

  predicate AllEnriched(s: State) {
    forall i :: 0 <= i < |s.accounts| ==> IsEnriched(s.accounts[i])
  }

  // Properties

  /** The rating table of the card, with `isHot` true exactly for "Hot". */
  lemma RatingClassTable(rating: Value)
    requires IsPrimitive(rating)
    ensures RatingClass(Str("Hot")) == "rating-hot"
    ensures RatingClass(Str("Warm")) == "rating-warm"
    ensures RatingClass(Str("Cold")) == "rating-cold"
    ensures rating != Str("Hot") && rating != Str("Warm") && rating != Str("Cold") ==>
              RatingClass(rating) == DefaultRatingClass
    ensures RatingClass(rating) == "rating-hot" <==> rating == Str("Hot")
  {
  }

  /** For an enriched record, `isHot` and the "rating-hot" class always agree with the raw rating. */
  lemma IsHotIffHotRating(acc: Record, locale: Locale)
    requires WellTypedAccount(acc)
    ensures EnrichAccount(acc, locale)["isHot"] == Bool(true) <==> Field(acc, "Rating") == Str("Hot")
    ensures EnrichAccount(acc, locale)["ratingClass"] == Str("rating-hot") <==> Field(acc, "Rating") == Str("Hot")
  {
  }

  /** The avatar colour is always a palette entry, chosen by char code modulo 8. */
  lemma AvatarStyleFromPalette(acc: Record, locale: Locale)
    requires WellTypedAccount(acc)
    ensures var r := EnrichAccount(acc, locale);
      var letter := r["avatarLetter"].s[0];
      && ColorIndex(letter) == letter as int % 8
      && r["avatarStyle"] == Str("background-color: " + AvatarColors[letter as int % 8])
      && r["avatarStyle"].s[..|AvatarStylePrefix|] == AvatarStylePrefix
  {
  }

  /** With a formatter that never itself prints "--", "--" marks exactly a missing revenue. */
  lemma FormattedRevenueDashesIff(acc: Record, locale: Locale)
    requires WellTypedAccount(acc)
    requires forall v :: locale.formatUsd(v) != NoRevenue
    ensures EnrichAccount(acc, locale)["formattedRevenue"] == Str("--") <==> IsNullish(Field(acc, "AnnualRevenue"))
  {
  }

  lemma {:induction false} FooterRoundTrip(s: State)
    ensures ParseFooter(FooterText(s)) == Some((|s.accounts|, TemplateString(s.totalCount)))
  {
    var count := Decimal.NatToString(|s.accounts|);
    var total := TemplateString(s.totalCount);
    var t := FooterText(s);
    assert t == ShowingPrefix + (count + (OfSeparator + total + AccountsSuffix));
    var rest := t[|ShowingPrefix|..];
    assert rest == count + (OfSeparator + total + AccountsSuffix);
    Decimal.DigitRunOfDigitsThen(count, OfSeparator + total + AccountsSuffix);
    assert rest[..|count|] == count;
    var after := rest[|count|..];
    assert after == OfSeparator + total + AccountsSuffix;
    assert after[..|OfSeparator|] == OfSeparator;
    assert after[|after| - |AccountsSuffix|..] == AccountsSuffix;
    assert after[|OfSeparator|..|after| - |AccountsSuffix|] == total;
    Decimal.ParseNatToString(|s.accounts|);
  }

  /** A line cut into prefix, digits, separator, total and suffix is their concatenation. */
  lemma {:induction false} FooterPieces(t: string, k: nat)
    requires |t| >= |ShowingPrefix| && t[..|ShowingPrefix|] == ShowingPrefix
    requires k <= |t[|ShowingPrefix|..]|
    requires var after := t[|ShowingPrefix|..][k..];
             |after| >= |OfSeparator| + |AccountsSuffix|
             && after[..|OfSeparator|] == OfSeparator
             && after[|after| - |AccountsSuffix|..] == AccountsSuffix
    ensures var rest := t[|ShowingPrefix|..];
            var after := rest[k..];
            t == ShowingPrefix + rest[..k] + OfSeparator + after[|OfSeparator|..|after| - |AccountsSuffix|] + AccountsSuffix
  {
    var rest := t[|ShowingPrefix|..];
    var after := rest[k..];
    var total := after[|OfSeparator|..|after| - |AccountsSuffix|];
    assert after == OfSeparator + total + AccountsSuffix;
    assert rest == rest[..k] + after;
    assert t == ShowingPrefix + rest;
  }

  /** The parser accepts only the footer's own spelling: a parsed line is rebuilt exactly from its parts. */
  lemma ParseFooterCanonical(t: string)
    requires ParseFooter(t).Some?
    ensures t == ShowingPrefix + Decimal.NatToString(ParseFooter(t).value.0) + OfSeparator
                 + ParseFooter(t).value.1 + AccountsSuffix
  {
    var rest := t[|ShowingPrefix|..];
    var k := Decimal.DigitRun(rest);
    var after := rest[k..];
    assert ParseFooter(t) == Some((Decimal.ParseDigits(rest[..k]), after[|OfSeparator|..|after| - |AccountsSuffix|]));
    Decimal.NatToStringParseDigits(rest[..k]);
    FooterPieces(t, k);
  }

  /** Together with the round trip: any line the parser reads as this state's parts is the footer itself. */
  lemma FooterUnique(s: State, t: string)
    requires ParseFooter(t) == Some((|s.accounts|, TemplateString(s.totalCount)))
    ensures t == FooterText(s)
  {
    ParseFooterCanonical(t);
  }

  /** The footer determines how many accounts are shown and how the total prints. */
  lemma FooterInjective(s: State, u: State)
    requires FooterText(s) == FooterText(u)
    ensures |s.accounts| == |u.accounts|
    ensures TemplateString(s.totalCount) == TemplateString(u.totalCount)
    ensures s.totalCount.Num? && u.totalCount.Num? ==> s.totalCount == u.totalCount
  {
    FooterRoundTrip(s);
    FooterRoundTrip(u);
    if s.totalCount.Num? && u.totalCount.Num? {
      TemplateStringOfNum(s.totalCount.n);
      TemplateStringOfNum(u.totalCount.n);
    }
  }

  /** `hasError` is `!!errorMessage`; for a string message that is non-emptiness. */
  lemma HasErrorIffNonEmpty(s: State)
    requires s.errorMessage.Str?
    ensures HasError(s) <==> s.errorMessage.s != ""
  {
  }

  lemma {:induction false} RunKeepsEnriched(s: State, rs: seq<AccountsResult>, locale: Locale)
    requires AllWellTyped(rs)
    requires AllEnriched(s)
    ensures AllEnriched(Run(s, rs, locale))
    decreases |rs|
  {
    if rs != [] {
      RunKeepsEnriched(WiredAccounts(s, rs[0], locale), rs[1..], locale);
    }
  }

  /** Every account the card can ever display carries the enrichment fields. */
  lemma ReachableAccountsEnriched(rs: seq<AccountsResult>, locale: Locale)
    requires AllWellTyped(rs)
    ensures AllEnriched(Run(Initial, rs, locale))
  {
    RunKeepsEnriched(Initial, rs, locale);
  }

  /** Once any callback has arrived, the card is no longer loading. */
  lemma {:induction false} RunStopsLoading(s: State, rs: seq<AccountsResult>, locale: Locale)
    requires AllWellTyped(rs)
    requires |rs| > 0
    ensures !Run(s, rs, locale).isLoading
    decreases |rs|
  {
    if |rs| > 1 {
      RunStopsLoading(WiredAccounts(s, rs[0], locale), rs[1..], locale);
    }
  }

  /** Data callbacks (and empty ones) never clear a stored error message. */
  lemma {:induction false} ErrorSurvivesData(s: State, rs: seq<AccountsResult>, locale: Locale)
    requires AllWellTyped(rs)
    requires forall i :: 0 <= i < |rs| ==> ClearsNoError(rs[i])
    ensures Run(s, rs, locale).errorMessage == s.errorMessage
    ensures HasError(s) ==> HasError(Run(s, rs, locale))
    decreases |rs|
  {
    if rs != [] {
      ErrorSurvivesData(WiredAccounts(s, rs[0], locale), rs[1..], locale);
    }
  }

  lemma {:induction false} RunSplitLast(s: State, rs: seq<AccountsResult>, locale: Locale)
    requires AllWellTyped(rs)
    requires |rs| > 0
    ensures Run(s, rs, locale) == WiredAccounts(Run(s, rs[..|rs| - 1], locale), rs[|rs| - 1], locale)
    decreases |rs|
  {
    if |rs| > 1 {
      assert rs[1..][..|rs[1..]| - 1] == rs[..|rs| - 1][1..];
      RunSplitLast(WiredAccounts(s, rs[0], locale), rs[1..], locale);
    }
  }

  /** The displayed accounts and total come from the last callback that carried data; other callbacks leave them alone. */
  lemma {:induction false} AccountsFromLastPage(s: State, rs: seq<AccountsResult>, locale: Locale)
    requires AllWellTyped(rs)
    ensures var s' := Run(s, rs, locale);
      match LastPage(rs)
      case None => s'.accounts == s.accounts && s'.totalCount == s.totalCount
      case Some(p) =>
        && s'.totalCount == p.totalCount
        && |s'.accounts| == |p.accounts|
        && s'.accounts == EnrichAll(p.accounts, locale)
        && forall i :: 0 <= i < |p.accounts| ==> KeepsFields(p.accounts[i], s'.accounts[i])
    decreases |rs|
  {
    if rs != [] {
      var init := rs[..|rs| - 1];
      assert AllWellTyped(init) by {
        forall i | 0 <= i < |init| ensures WellTypedResult(init[i]) {
          assert init[i] == rs[i];
        }
      }
      RunSplitLast(s, rs, locale);
      AccountsFromLastPage(s, init, locale);
    }
  }

  /** The Jest test's footer: any page of two accounts with a total of 247 reads "Showing 2 of 247 Accounts". */
  lemma FooterForTwoOf247(s: State, page: AccountsPage, locale: Locale)
    requires WellTypedResult(WireResult(Some(page), Undefined))
    requires |page.accounts| == 2 && page.totalCount == Num(247)
    ensures FooterText(WiredAccounts(s, WireResult(Some(page), Undefined), locale)) == "Showing 2 of 247 Accounts"
  {
  }

  /** Palette entries for the Jest test's initials 'A' and 'G' and for the missing-name '?'. */
  lemma AvatarStyleSamples()
    ensures AvatarStyle('A') == "background-color: #9c27b0"
    ensures AvatarStyle('G') == "background-color: #795548"
    ensures AvatarStyle(MissingNameLetter) == "background-color: #795548"
  {
  }

  /**
   The Jest test's error delivery. The test hands `{ body: { message: "Test error" } }`
   to the Apex test adapter's `error(body, status, statusText)`, which delivers
   `{ body: <that object>, ok: false, status: 400, statusText: "Bad Request" }`.
   So `error.body.message` is undefined and the card stores its default text;
   the test only checks that an error element renders.
   */
  lemma MockErrorRendering(locale: Locale)
    ensures var payload := Obj(map["body" := Obj(map["message" := Str("Test error")])]);
            var err := Obj(map["body" := payload, "ok" := Bool(false), "status" := Num(400), "statusText" := Str("Bad Request")]);
            var s := WiredAccounts(Initial, WireResult(None, err), locale);
            && s.errorMessage == Str(DefaultErrorMessage) && HasError(s) && !s.isLoading && !HasAccounts(s)
  {
  }
}
